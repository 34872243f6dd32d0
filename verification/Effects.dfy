/** What every handler of the engine does to the waiting clients, the chain, the
    COMMIT tally and what has been signed: no request is lost or answered twice,
    the chain gains only blocks that its own re-execution accepted, no sender is
    counted twice, and a PREPARE is for an own proposal or a re-executed block. */
module Effects {
  import opened Blocks
  import opened Protocol
  import opened Locks

  /** b is a, and then only blocks that were valid where they stand. */
  predicate Extends(ops: ChainOps, a: seq<Block>, b: seq<Block>) {
    a <= b && forall i :: |a| <= i < |b| ==> Number(b[i]) == i && ops.valid(b[..i], b[i])
  }

  ghost predicate Kept(cfg: Config, n: Node, r: Node) {
    Steady(cfg, n, r) && SpeaksOn(n.sent, r.sent)
  }

  ghost predicate Steady(cfg: Config, n: Node, r: Node) {
    && Accounted(r) == Accounted(n) && Extends(cfg.ops, n.chain, r.chain) && FiledKept(n.rs, r.rs)
    && n.replies <= r.replies && VouchedKept(cfg, n, r) && r.now == n.now
  }

  /** Messages are only added, and none of them asks for a round. */
  predicate SpeaksOn(a: seq<Message>, b: seq<Message>) {
    a <= b && forall i :: |a| <= i < |b| ==> b[i].typ != RoundChange
  }

  // --- what a PREPARE stands for ---

  /** The validator proposed the block itself, in the round of the vote. */
  predicate Proposed(sent: seq<Message>, m: Message) {
    exists p :: p in sent && p.typ == Proposal && p.height == m.height && p.round == m.round
                && p.blockHash == m.blockHash
  }

  /** The vote names a block of its height that is valid on the validator's own chain. */
  ghost predicate Reexecuted(ops: ChainOps, chain: seq<Block>, m: Message) {
    m.height <= |chain| && exists b :: ReexecutedAs(ops, chain[..m.height], m, b)
  }

  predicate ReexecutedAs(ops: ChainOps, chain: seq<Block>, m: Message, b: Block) {
    BlockHash(b) == m.blockHash && Number(b) == m.height && ops.valid(chain, b)
  }

  /** Every PREPARE signed is for an own proposal or for a re-executed block. */
  ghost predicate Vouched(cfg: Config, n: Node) {
    forall m :: m in n.sent && m.typ == Prepare ==> Proposed(n.sent, m) || Reexecuted(cfg.ops, n.chain, m)
  }

  ghost predicate VouchedKept(cfg: Config, n: Node, r: Node) {
    Vouched(cfg, n) ==> Vouched(cfg, r)
  }

  /** With more signed and a longer chain, what was vouched for still is. */
  lemma VouchingStays(cfg: Config, n: Node, r: Node)
    requires n.sent <= r.sent && n.chain <= r.chain
    requires forall m :: m in r.sent && m !in n.sent && m.typ == Prepare ==>
               Proposed(r.sent, m) || Reexecuted(cfg.ops, r.chain, m)
    ensures VouchedKept(cfg, n, r)
  {
    hide ReexecutedAs;
    assert forall m :: m in n.sent ==> m in r.sent;
    if Vouched(cfg, n) {
      forall m | m in r.sent && m.typ == Prepare ensures Proposed(r.sent, m) || Reexecuted(cfg.ops, r.chain, m) {
        if m in n.sent && Reexecuted(cfg.ops, n.chain, m) {
          assert n.chain[..m.height] == r.chain[..m.height];
        }
      }
    }
  }

  lemma OneMoreSaid(cfg: Config, n: Node, r: Node, sm: Message)
    requires r.sent == n.sent + [sm] && n.chain <= r.chain && sm.typ != RoundChange
    requires sm.typ == Prepare ==> Proposed(n.sent, sm) || Reexecuted(cfg.ops, n.chain, sm)
    ensures SpeaksOn(n.sent, r.sent) && VouchedKept(cfg, n, r)
  {
    hide ReexecutedAs;
    assert forall m :: m in r.sent ==> m in n.sent || m == sm;
    assert forall m :: m in n.sent ==> m in r.sent;
    if Reexecuted(cfg.ops, n.chain, sm) {
      assert n.chain[..sm.height] == r.chain[..sm.height];
    }
    VouchingStays(cfg, n, r);
  }

  predicate FiledKept(a: Round, b: Round) {
    CommitsFiled(a) ==> CommitsFiled(b)
  }

  lemma SameFiled(a: Round, b: Round)
    requires a.commits == b.commits && a.seen == b.seen
    ensures FiledKept(a, b)
  {
  }

  lemma RecordFiled(a: Round, b: Round, sm: Message)
    requires a.commits == b.commits && a.seen == b.seen
    ensures FiledKept(a, Record(b, sm).rs)
  {
    hide Record;
    if CommitsFiled(a) {
      SameFiled(a, b);
      RecordingFiles(b, sm);
    }
  }

  lemma NewRoundFiled(cfg: Config, height: nat, a: Round)
    requires ValidConfig(cfg)
    ensures FiledKept(a, NewRound(cfg, height)) && CommitsFiled(NewRound(cfg, height))
  {
  }

  lemma ExtendsTrans(ops: ChainOps, a: seq<Block>, b: seq<Block>, c: seq<Block>)
    requires Extends(ops, a, b) && Extends(ops, b, c)
    ensures Extends(ops, a, c)
  {
    forall i | |a| <= i < |c| ensures Number(c[i]) == i && ops.valid(c[..i], c[i]) {
      if i < |b| {
        assert c[..i] == b[..i] && c[i] == b[i];
      }
    }
  }

  lemma KeptTrans(cfg: Config, a: Node, b: Node, c: Node)
    requires Kept(cfg, a, b) && Kept(cfg, b, c)
    ensures Kept(cfg, a, c)
  {
    hide Steady;
    SteadyTrans(cfg, a, b, c);
  }

  lemma SteadyTrans(cfg: Config, a: Node, b: Node, c: Node)
    requires Steady(cfg, a, b) && Steady(cfg, b, c)
    ensures Steady(cfg, a, c)
  {
    hide Extends, Accounted, CommitsFiled, Vouched;
    ExtendsTrans(cfg.ops, a.chain, b.chain, c.chain);
  }

  /** `Accounted` sees only the queue and the replies. */
  lemma SameWaiters(cfg: Config, n: Node, r: Node)
    requires r.queue == n.queue && r.replies == n.replies && r.chain == n.chain && FiledKept(n.rs, r.rs)
    requires r.sent == n.sent && r.now == n.now
    ensures Kept(cfg, n, r) && Accounted(r) == Accounted(n)
  {
    hide CommitsFiled;
    VouchingStays(cfg, n, r);
  }

  /** The same, with one more message signed. */
  lemma SaidOne(cfg: Config, n: Node, r: Node, sm: Message)
    requires r.queue == n.queue && r.replies == n.replies && r.chain == n.chain && FiledKept(n.rs, r.rs)
    requires r.sent == n.sent + [sm] && sm.typ != RoundChange && r.now == n.now
    requires sm.typ == Prepare ==> Proposed(n.sent, sm) || Reexecuted(cfg.ops, n.chain, sm)
    ensures Kept(cfg, n, r)
  {
    hide CommitsFiled, Proposed, Reexecuted;
    OneMoreSaid(cfg, n, r, sm);
  }

  // --- the handlers ---

  lemma {:induction false} MaybeProposeKeeps(cfg: Config, n: Node)
    requires ValidConfig(cfg) && WellFormed(n)
    ensures Kept(cfg, n, MaybePropose(cfg, n))
    decreases n.future.Keys, ForeignRank(cfg, n), 7, 0
  {
    hide BroadcastProposal, ProposeFromQueue, Kept, GoodBucket;
    SameWaiters(cfg, n, n);
    if n.rs.isSelf && n.rs.ph == Idle {
      var n1 := if n.synced then n else CheckSynced(n);
      SameWaiters(cfg, n, n1);
      if n1.synced {
        if n1.rs.lock.Some? {
          BroadcastProposalKeeps(cfg, n1, n1.rs.lock.value.block);
        } else {
          ProposeFromQueueKeeps(cfg, n1);
        }
        KeptTrans(cfg, n, n1, MaybePropose(cfg, n));
      }
    }
  }

  lemma {:induction false} ProposeFromQueueKeeps(cfg: Config, n: Node)
    requires ValidConfig(cfg) && WellFormed(n)
    ensures Kept(cfg, n, ProposeFromQueue(cfg, n))
    decreases n.future.Keys, ForeignRank(cfg, n), 6, |n.queue|
  {
    hide BroadcastProposal, Kept, GoodBucket;
    SameWaiters(cfg, n, n);
    if n.queue != [] {
      match cfg.ops.build(n.chain, n.queue[0].payload, n.now)
      case None =>
        var n1 := Answered(n, n.queue[0].id, Rejected).(queue := n.queue[1..]);
        RejectingKeeps(cfg, n);
        ProposeFromQueueKeeps(cfg, n1);
        KeptTrans(cfg, n, n1, ProposeFromQueue(cfg, n1));
      case Some(block) =>
        var n1 := n.(queue := [n.queue[0].(candidate := Some(block))] + n.queue[1..]);
        ChoosingKeeps(cfg, n, block);
        BroadcastProposalKeeps(cfg, n1, block);
        KeptTrans(cfg, n, n1, BroadcastProposal(cfg, n1, block));
    }
  }

  lemma RejectingKeeps(cfg: Config, n: Node)
    requires n.queue != []
    ensures Kept(cfg, n, Answered(n, n.queue[0].id, Rejected).(queue := n.queue[1..]))
  {
    hide RequestIds, ReplyIds, CommitsFiled, Vouched;
    QueueHeadRejected(n);
    var r := Answered(n, n.queue[0].id, Rejected).(queue := n.queue[1..]);
    SameFiled(n.rs, r.rs);
    VouchingStays(cfg, n, r);
  }

  lemma ChoosingKeeps(cfg: Config, n: Node, block: Block)
    requires n.queue != []
    ensures Kept(cfg, n, n.(queue := [n.queue[0].(candidate := Some(block))] + n.queue[1..]))
  {
    hide RequestIds, ReplyIds, CommitsFiled, Vouched;
    QueueHeadProposed(n, block);
    VouchingStays(cfg, n, n.(queue := [n.queue[0].(candidate := Some(block))] + n.queue[1..]));
  }

  lemma {:induction false} BroadcastProposalKeeps(cfg: Config, n: Node, block: Block)
    requires ValidConfig(cfg) && WellFormed(n)
    ensures Kept(cfg, n, BroadcastProposal(cfg, n, block))
    decreases n.future.Keys, ForeignRank(cfg, n), 5, 0
  {
    hide CastPrepare, Kept, GoodBucket, RoundTimeout;
    var sm := Vote(cfg, n, Proposal, BlockHash(block)).(body := Some(block));
    var n1 := Broadcast(n.(rs := n.rs.(proposal := Some(block))), sm);
    SameFiled(n.rs, n1.rs);
    SaidOne(cfg, n, n1, sm);
    assert sm in n1.sent;
    CastPrepareKeeps(cfg, n1, BlockHash(block));
    ArmedKeeps(cfg, n, n1, CastPrepare(cfg, n1, BlockHash(block)));
  }

  lemma ArmedKeeps(cfg: Config, a: Node, b: Node, c: Node)
    requires Kept(cfg, a, b) && Kept(cfg, b, c)
    ensures Kept(cfg, a, ArmTimer(cfg, c))
  {
    hide Kept, CommitsFiled, RoundTimeout;
    SameFiled(c.rs, ArmTimer(cfg, c).rs);
    SameWaiters(cfg, c, ArmTimer(cfg, c));
    KeptTrans(cfg, a, b, c);
    KeptTrans(cfg, a, c, ArmTimer(cfg, c));
  }

  lemma {:induction false} CastPrepareKeeps(cfg: Config, n: Node, hash: Hash)
    requires ValidConfig(cfg) && WellFormed(n)
    requires Proposed(n.sent, Vote(cfg, n, Prepare, hash)) ||
             Reexecuted(cfg.ops, n.chain, Vote(cfg, n, Prepare, hash))
    ensures Kept(cfg, n, CastPrepare(cfg, n, hash))
    decreases n.future.Keys, ForeignRank(cfg, n), 4, 0
  {
    hide CheckPrepareQuorum, Kept, GoodBucket, Record, CommitsFiled, Proposed, Reexecuted, ForeignIn;
    var sm := Vote(cfg, n, Prepare, hash);
    OwnVoteNotForeign(n.rs.(ph := PrePrepared), sm);
    var n1 := Broadcast(n.(rs := Record(n.rs.(ph := PrePrepared), sm).rs), sm);
    RecordFiled(n.rs, n.rs.(ph := PrePrepared), sm);
    SaidOne(cfg, n, n1, sm);
    CheckPrepareQuorumKeeps(cfg, n1, hash);
    KeptTrans(cfg, n, n1, CheckPrepareQuorum(cfg, n1, hash));
  }

  lemma {:induction false} CheckPrepareQuorumKeeps(cfg: Config, n: Node, hash: Hash)
    requires ValidConfig(cfg) && WellFormed(n)
    ensures Kept(cfg, n, CheckPrepareQuorum(cfg, n, hash))
    decreases n.future.Keys, ForeignRank(cfg, n), 3, 0
  {
    hide CheckCommitQuorum, LockAndCommit, Kept;
    SameWaiters(cfg, n, n);
    if PrepareQuorum(cfg, n.rs, hash) {
      TwoVotersOneForeign(n.rs.prepares[hash], cfg.self);
      var n1 := LockAndCommit(cfg, n);
      LockingKeeps(cfg, n);
      CheckCommitQuorumKeeps(cfg, n1, hash);
      KeptTrans(cfg, n, n1, CheckCommitQuorum(cfg, n1, hash));
    }
  }

  lemma LockingKeeps(cfg: Config, n: Node)
    requires WellFormed(n) && n.rs.proposal.Some?
    ensures WellFormed(LockAndCommit(cfg, n)) && Kept(cfg, n, LockAndCommit(cfg, n))
  {
    hide Record, GoodBucket, CommitsFiled, Kept;
    var block := n.rs.proposal.value;
    RecordFiled(n.rs, n.rs.(lock := Some(Lock(block, n.rs.round)), ph := Prepared),
                Vote(cfg, n, Commit, BlockHash(block)));
    SaidOne(cfg, n, LockAndCommit(cfg, n), Vote(cfg, n, Commit, BlockHash(block)));
  }

  lemma {:induction false} CheckCommitQuorumKeeps(cfg: Config, n: Node, hash: Hash)
    requires ValidConfig(cfg) && WellFormed(n)
    ensures Kept(cfg, n, CheckCommitQuorum(cfg, n, hash))
    decreases n.future.Keys, ForeignRank(cfg, n), 2, 0
  {
    hide Finalize, Kept, GoodBucket;
    SameWaiters(cfg, n, n);
    if Count(n.rs.commits, hash) >= cfg.q {
      TwoVotersOneForeign(n.rs.commits[hash], cfg.self);
      match HeldBlock(n.rs, hash)
      case None => SameWaiters(cfg, n, n.(catchUps := n.catchUps + 1));
      case Some(block) => FinalizeKeeps(cfg, n, block, n.rs.commits[hash].Keys);
    }
  }

  lemma LandedKeeps(cfg: Config, n: Node, block: Block)
    ensures Kept(cfg, n, Landed(cfg, n, block))
  {
    hide StillWaiting, LandedReplies, Accounted, Extends, Vouched, CommitsFiled;
    WaitersAccounted(n, Number(block));
    AppliedExtends(cfg.ops, n.chain, block);
    var r := Landed(cfg, n, block);
    LandedChain(cfg, n, block);
    VouchingStays(cfg, n, r);
    if Lands(cfg, n, block) {
      SameAccount(r, ResolveWaiters(n, Number(block)));
    }
  }

  lemma LandedChain(cfg: Config, n: Node, block: Block)
    ensures n.chain <= Landed(cfg, n, block).chain
  {
  }

  lemma SameAccount(a: Node, b: Node)
    requires a.queue == b.queue && a.replies == b.replies
    ensures Accounted(a) == Accounted(b)
  {
  }

  /** What `ApplyExternal` appends is valid where it stands. */
  lemma AppliedExtends(ops: ChainOps, chain: seq<Block>, block: Block)
    ensures var a := ApplyExternal(ops, chain, block);
            Extends(ops, chain, if a.Appended? then a.chain else chain)
  {
    var longer := chain + [block];
    assert longer[..|chain|] == chain;
  }

  lemma {:induction false} FinalizeKeeps(cfg: Config, n: Node, block: Block, signers: set<Address>)
    requires ValidConfig(cfg) && WellFormed(n)
    ensures Kept(cfg, n, Finalize(cfg, n, block, signers))
    decreases n.future.Keys, 1, 1, 0
  {
    hide StartHeight, Landed, Kept, CommitsFiled, Lands, GoodBucket;
    var n1 := Sealed(n, block, signers);
    SameWaiters(cfg, n, n1);
    if Lands(cfg, n1, block) {
      var n2, n3 := Landed(cfg, n1, block), Nested(Landed(cfg, n1, block));
      LandedKeeps(cfg, n1, block);
      SameWaiters(cfg, n2, n3);
      StartHeightKeeps(cfg, n3, Number(block) + 1);
      var n4 := StartHeight(cfg, n3, Number(block) + 1);
      SameWaiters(cfg, n4, n4.(depth := n.depth));
      KeptTrans(cfg, n, n1, n2);
      KeptTrans(cfg, n, n2, n3);
      KeptTrans(cfg, n, n3, n4);
      KeptTrans(cfg, n, n4, n4.(depth := n.depth));
    }
  }

  lemma {:induction false} StartHeightKeeps(cfg: Config, n: Node, height: nat)
    requires ValidConfig(cfg) && GoodBuffer(n)
    ensures Kept(cfg, n, StartHeight(cfg, n, height))
    decreases n.future.Keys, 0, 8, 0
  {
    hide MaybePropose, ProcessBuffered, Foreign, Kept, CommitsFiled, NewRound;
    var n1 := OpenHeight(cfg, n, height);
    NewRoundFiled(cfg, height, n.rs);
    SameWaiters(cfg, n, n1);
    var n2 := n1;
    if height in n.future {
      assert GoodBucket(n.future[height], height);
      n2 := ProcessBuffered(cfg, n1, n.future[height], height);
      ProcessBufferedKeeps(cfg, n1, n.future[height], height);
    }
    var n3 := SettleHeight(cfg, n2, height);
    SameFiled(n2.rs, n3.rs);
    SameWaiters(cfg, n2, n3);
    MaybeProposeKeeps(cfg, n3);
    if n1 != n2 {
      KeptTrans(cfg, n, n1, n2);
    }
    KeptTrans(cfg, n, n2, n3);
    KeptTrans(cfg, n, n3, MaybePropose(cfg, n3));
  }

  lemma {:induction false} ProcessBufferedKeeps(cfg: Config, n: Node, msgs: seq<Message>, height: nat)
    requires ValidConfig(cfg) && WellFormed(n)
    requires forall i :: 0 <= i < |msgs| ==> msgs[i].height == height
    ensures Kept(cfg, n, ProcessBuffered(cfg, n, msgs, height))
    decreases n.future.Keys - {height}, 2, 0, |msgs|
  {
    hide OnMessage, Kept;
    if msgs == [] {
      SameWaiters(cfg, n, n);
    } else {
      var n1 := OnMessage(cfg, n, msgs[0]);
      OnMessageKeeps(cfg, n, msgs[0]);
      ProcessBufferedKeeps(cfg, n1, msgs[1..], height);
      KeptTrans(cfg, n, n1, ProcessBuffered(cfg, n1, msgs[1..], height));
    }
  }

  lemma BufferKeeps(cfg: Config, n: Node, sm: Message)
    requires WellFormed(n) && sm.height > n.rs.height
    ensures Kept(cfg, n, BufferFuture(n, sm))
  {
    SameWaiters(cfg, n, BufferFuture(n, sm));
  }

  lemma ReceiveKeeps(cfg: Config, n: Node, sm: Message)
    requires WellFormed(n)
    ensures WellFormed(Receive(cfg, n, sm)) && Kept(cfg, n, Receive(cfg, n, sm))
  {
    hide Record, GoodBucket, RoundTimeout, Kept, CommitsFiled;
    RecordFiled(n.rs, n.rs, sm);
    SameFiled(Record(n.rs, sm).rs, Receive(cfg, n, sm).rs);
    SameWaiters(cfg, n, Receive(cfg, n, sm));
  }

  lemma {:induction false} OnMessageKeeps(cfg: Config, n: Node, sm: Message)
    requires ValidConfig(cfg) && WellFormed(n)
    ensures Kept(cfg, n, OnMessage(cfg, n, sm))
    decreases n.future.Keys - {sm.height}, 1, 10, 0
  {
    assert n.rs.height !in n.future;
    hide Dispatch, Record, WellFormed, Kept, Receive, BufferFuture;
    if sm.height > n.rs.height {
      BufferKeeps(cfg, n, sm);
    } else if sm.height == n.rs.height && Verified(cfg, sm) {
      assert n.future.Keys - {sm.height} == n.future.Keys;
      ReceiveKeeps(cfg, n, sm);
      if Record(n.rs, sm).accepted {
        DispatchKeeps(cfg, Receive(cfg, n, sm), sm);
        KeptTrans(cfg, n, Receive(cfg, n, sm), Dispatch(cfg, Receive(cfg, n, sm), sm));
      }
    } else {
      SameWaiters(cfg, n, n);
    }
  }

  lemma {:induction false} DispatchKeeps(cfg: Config, n: Node, sm: Message)
    requires ValidConfig(cfg) && WellFormed(n) && sm.height == n.rs.height
    ensures Kept(cfg, n, Dispatch(cfg, n, sm))
    decreases n.future.Keys, 1, 9, 0
  {
    hide OnProposal, CheckPrepareQuorum, CheckCommitQuorum, CheckRoundChangeQuorum, Kept;
    SameWaiters(cfg, n, n);
    match sm.typ
    case Proposal => OnProposalKeeps(cfg, n, sm);
    case Prepare => CheckPrepareQuorumKeeps(cfg, n, sm.blockHash);
    case Commit => CheckCommitQuorumKeeps(cfg, n, sm.blockHash);
    case RoundChange => CheckRoundChangeQuorumKeeps(cfg, n, sm.round);
    case Unknown(_) =>
  }

  lemma {:induction false} OnProposalKeeps(cfg: Config, n: Node, sm: Message)
    requires ValidConfig(cfg) && WellFormed(n) && sm.height == n.rs.height
    ensures Kept(cfg, n, OnProposal(cfg, n, sm))
    decreases n.future.Keys, 1, 8, 0
  {
    hide CastPrepare, Kept, Reexecuted, GoodBucket, ProposerAt, ArmTimer;
    SameWaiters(cfg, n, n);
    if CarriedBlock(sm).Some? {
      var block := CarriedBlock(sm).value;
      if VerifyCandidate(cfg.ops, n.chain, block, n.now) {
        var n1 := n.(rs := n.rs.(proposal := Some(block)));
        SameFiled(n.rs, n1.rs);
        SameWaiters(cfg, n, n1);
        VerifiedIsReexecuted(cfg, n, block, Vote(cfg, n1, Prepare, BlockHash(block)));
        CastPrepareKeeps(cfg, n1, BlockHash(block));
        ArmedKeeps(cfg, n, n1, CastPrepare(cfg, n1, BlockHash(block)));
      }
    }
  }

  lemma VerifiedIsReexecuted(cfg: Config, n: Node, block: Block, m: Message)
    requires VerifyCandidate(cfg.ops, n.chain, block, n.now) && Number(block) == m.height
    requires BlockHash(block) == m.blockHash
    ensures Reexecuted(cfg.ops, n.chain, m)
  {
    assert n.chain[..m.height] == n.chain;
    assert ReexecutedAs(cfg.ops, n.chain[..m.height], m, block);
  }

  lemma {:induction false} CheckRoundChangeQuorumKeeps(cfg: Config, n: Node, round: nat)
    requires ValidConfig(cfg) && WellFormed(n)
    ensures Kept(cfg, n, CheckRoundChangeQuorum(cfg, n, round))
    decreases n.future.Keys, 1, 8, 0
  {
    hide MaybePropose, NextRound, Kept, WellFormed;
    if round > n.rs.round && ChangeCount(n.rs, round) >= cfg.q {
      var n1 := NextRound(cfg, n, round);
      NextRoundKeeps(cfg, n, round);
      MaybeProposeKeeps(cfg, n1);
      KeptTrans(cfg, n, n1, MaybePropose(cfg, n1));
    } else {
      SameWaiters(cfg, n, n);
    }
  }

  lemma NextRoundKeeps(cfg: Config, n: Node, round: nat)
    requires ValidConfig(cfg) && WellFormed(n) && round in n.rs.changes
    ensures WellFormed(NextRound(cfg, n, round)) && Kept(cfg, n, NextRound(cfg, n, round))
  {
    hide HighestLock, Kept, CommitsFiled, GoodBucket, ProposerAt, RoundTimeout;
    SameFiled(n.rs, NextRound(cfg, n, round).rs);
    SameWaiters(cfg, n, NextRound(cfg, n, round));
  }

  // --- events and runs ---

  function Arrived(ev: Event): multiset<nat> {
    if ev.Submit? then multiset{ev.req.id} else multiset{}
  }

  /** A request that arrives is queued, or answered at once. */
  lemma ArrivingKeeps(cfg: Config, n: Node, r: Node)
    requires r.chain == n.chain && r.sent == n.sent && n.replies <= r.replies && FiledKept(n.rs, r.rs)
    ensures Extends(cfg.ops, n.chain, r.chain) && VouchedKept(cfg, n, r) && SpeaksOn(n.sent, r.sent)
  {
    hide CommitsFiled, Vouched;
    VouchingStays(cfg, n, r);
  }

  lemma SubmitCounts(cfg: Config, n: Node, req: Request)
    requires ValidConfig(cfg) && WellFormed(n)
    ensures var r := OnSubmit(cfg, n, req);
            && Accounted(r) == Accounted(n) + multiset{req.id} && Extends(cfg.ops, n.chain, r.chain)
            && FiledKept(n.rs, r.rs) && n.replies <= r.replies && VouchedKept(cfg, n, r) && SpeaksOn(n.sent, r.sent)
            && r.now == n.now
  {
    hide MaybePropose, RequestIds, ReplyIds, CommitsFiled, Vouched, Extends, RoundTimeout, GoodBucket;
    SubmitAccounted(n, req);
    if |n.queue| < MAX_QUEUE {
      var n1 := ArmTimerIfWorkPending(cfg, n.(queue := n.queue + [req]));
      SameFiled(n.rs, n1.rs);
      ArrivingKeeps(cfg, n, n1);
      MaybeProposeKeeps(cfg, n1);
      ExtendsTrans(cfg.ops, n.chain, n1.chain, MaybePropose(cfg, n1).chain);
    } else {
      ArrivingKeeps(cfg, n, Answered(n, req.id, Busy));
    }
  }

  lemma AskingKeeps(cfg: Config, n: Node, next: nat)
    requires WellFormed(n)
    ensures WellFormed(AskForRound(cfg, n, next)) && Steady(cfg, n, AskForRound(cfg, n, next))
    ensures AskForRound(cfg, n, next).sent == n.sent + [RoundChangeVote(cfg, n, next)]
  {
    hide Record, RoundChangeVote, RoundTimeout, GoodBucket, CommitsFiled, Vouched;
    var sm := RoundChangeVote(cfg, n, next);
    var r := AskForRound(cfg, n, next);
    RecordFiled(n.rs, n.rs, sm);
    SameFiled(Record(n.rs, sm).rs, r.rs);
    assert forall m :: m in r.sent ==> m in n.sent || m == sm;
    VouchingStays(cfg, n, r);
  }

  /** A timeout signs one ROUND-CHANGE; whatever it sets off signs no other. */
  lemma TimeoutKeeps(cfg: Config, n: Node)
    requires ValidConfig(cfg) && WellFormed(n)
    ensures Steady(cfg, n, OnRoundTimeout(cfg, n))
    ensures SpeaksOn(n.sent + [RoundChangeVote(cfg, n, (n.rs.round + 1) % ROUND_LIMIT)], OnRoundTimeout(cfg, n).sent)
  {
    hide CheckRoundChangeQuorum, AskForRound, Steady, WellFormed, RoundChangeVote;
    var next := (n.rs.round + 1) % ROUND_LIMIT;
    AskingKeeps(cfg, n, next);
    CheckRoundChangeQuorumKeeps(cfg, AskForRound(cfg, n, next), next);
    SteadyTrans(cfg, n, AskForRound(cfg, n, next), OnRoundTimeout(cfg, n));
  }

  lemma HeadMovedKeeps(cfg: Config, n: Node, height: nat)
    requires ValidConfig(cfg) && WellFormed(n)
    ensures Kept(cfg, n, OnHeadMoved(cfg, n, height))
  {
    hide StartHeight, Kept, ResolveWaiters, GoodBucket;
    SameWaiters(cfg, n, n);
    if height >= n.rs.height {
      ResolvingKeeps(cfg, n, height);
      StartHeightKeeps(cfg, ResolveWaiters(n, height), height + 1);
      KeptTrans(cfg, n, ResolveWaiters(n, height), OnHeadMoved(cfg, n, height));
    }
  }

  lemma ResolvingKeeps(cfg: Config, n: Node, height: nat)
    ensures Kept(cfg, n, ResolveWaiters(n, height))
  {
    hide StillWaiting, LandedReplies, Accounted, Vouched, CommitsFiled;
    WaitersAccounted(n, height);
    VouchingStays(cfg, n, ResolveWaiters(n, height));
  }

  lemma HandleCounts(cfg: Config, n: Node, ev: Event)
    requires ValidConfig(cfg) && WellFormed(n)
    ensures var r := Handle(cfg, n, ev);
            && Accounted(r) == Accounted(n) + Arrived(ev) && Extends(cfg.ops, n.chain, r.chain)
            && FiledKept(n.rs, r.rs) && n.replies <= r.replies && VouchedKept(cfg, n, r) && n.sent <= r.sent
            && r.now == n.now
  {
    hide OnMessage, OnRoundTimeout, OnSubmit, OnHeadMoved, Accounted, Extends, CommitsFiled, Vouched, RoundChangeVote;
    match ev
    case Deliver(sm) => OnMessageKeeps(cfg, n, sm);
    case Timeout => TimeoutKeeps(cfg, n);
    case Submit(req) => SubmitCounts(cfg, n, req);
    case HeadMoved(height) => HeadMovedKeeps(cfg, n, height);
  }

  /** One turn of the loop: the requests waiting or answered afterwards are those
      before, and the one that arrived; the chain gained only valid blocks; counted
      COMMITs stay filed, and signed PREPAREs vouched for. */
  lemma ReactCounts(cfg: Config, n: Node, ev: Event, now: nat)
    requires ValidConfig(cfg) && WellFormed(n)
    ensures Accounted(React(cfg, n, ev, now)) == Accounted(n) + Arrived(ev)
    ensures Extends(cfg.ops, n.chain, React(cfg, n, ev, now).chain)
    ensures CommitsFiled(n.rs) ==> CommitsFiled(React(cfg, n, ev, now).rs)
    ensures VouchedKept(cfg, n, React(cfg, n, ev, now))
  {
    hide Handle, RequestIds, ReplyIds, ExpireWaiters, Extends, CommitsFiled, Vouched;
    var w := Woken(n, now);
    HandleCounts(cfg, w, ev);
    WaitersAccounted(Handle(cfg, w, ev), 0);
    VouchingStays(cfg, n, w);
    VouchingStays(cfg, Handle(cfg, w, ev), React(cfg, n, ev, now));
  }

  /** One turn: an event handled at some time, or a block the follower pulled. */
  datatype Turn = Turn(ev: Event, now: nat) | Pulled(block: Block)

  function AllArrived(turns: seq<Turn>): multiset<nat> {
    if turns == [] then multiset{}
    else
      var last := turns[|turns| - 1];
      AllArrived(turns[..|turns| - 1]) + if last.Turn? then Arrived(last.ev) else multiset{}
  }

  function AfterTurns(cfg: Config, chain: seq<Block>, turns: seq<Turn>): (n: Node)
    requires ValidConfig(cfg) && |chain| > 0
    ensures WellFormed(n) && Ahead(n)
  {
    if turns == [] then Boot(cfg, chain)
    else
      var before := AfterTurns(cfg, chain, turns[..|turns| - 1]);
      match turns[|turns| - 1]
      case Turn(ev, now) => React(cfg, before, ev, now)
      case Pulled(block) => Protocol.Pull(cfg, before, block)
  }

  lemma BootKeeps(cfg: Config, chain: seq<Block>)
    requires ValidConfig(cfg) && |chain| > 0
    ensures Accounted(Boot(cfg, chain)) == multiset{} && Extends(cfg.ops, chain, Boot(cfg, chain).chain)
    ensures CommitsFiled(Boot(cfg, chain).rs) && Vouched(cfg, Boot(cfg, chain))
  {
    hide StartHeight, WellFormed, Reexecuted;
    StartHeightKeeps(cfg, Blank(cfg, chain), |chain|);
    VouchingStays(cfg, StartHeight(cfg, Blank(cfg, chain), |chain|), Boot(cfg, chain));
  }

  /** Over any run of one validator every request that arrived is waiting or has
      been answered, exactly as often as it arrived; its chain is the one it started
      from, extended only by blocks its own re-execution accepted; and every PREPARE
      it signed is for an own proposal or a block valid where it would stand. */
  lemma {:induction false} EveryRequestOnce(cfg: Config, chain: seq<Block>, turns: seq<Turn>)
    requires ValidConfig(cfg) && |chain| > 0
    ensures Accounted(AfterTurns(cfg, chain, turns)) == AllArrived(turns)
    ensures Extends(cfg.ops, chain, AfterTurns(cfg, chain, turns).chain)
    ensures Vouched(cfg, AfterTurns(cfg, chain, turns))
  {
    hide React, Boot, WellFormed, Ahead, Kept, Vouched;
    if turns == [] {
      BootKeeps(cfg, chain);
    } else {
      EveryRequestOnce(cfg, chain, turns[..|turns| - 1]);
      var before := AfterTurns(cfg, chain, turns[..|turns| - 1]);
      match turns[|turns| - 1]
      case Turn(ev, now) =>
        ReactCounts(cfg, before, ev, now);
        ExtendsTrans(cfg.ops, chain, before.chain, React(cfg, before, ev, now).chain);
      case Pulled(block) =>
        AppliedExtends(cfg.ops, before.chain, block);
        ExtendsTrans(cfg.ops, chain, before.chain, Protocol.Pull(cfg, before, block).chain);
        VouchingStays(cfg, before, Protocol.Pull(cfg, before, block));
    }
  }
}
