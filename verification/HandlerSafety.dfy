/** Every handler of the engine keeps what VoteSafety states, and a validator's
    position (height, round) never moves back, as long as it has not gone astray. */
module HandlerSafety {
  import opened Blocks
  import opened Protocol
  import opened VoteSafety

  lemma ProgressTrans(a: Node, b: Node, c: Node)
    requires Progress(a, b) && Progress(b, c)
    ensures Progress(a, c)
  {
  }

  // --- single steps ---

  lemma PrepareSigned(cfg: Config, n: Node, k: Genuine)
    requires ValidConfig(cfg) && Disciplined(cfg, n, k)
    requires n.rs.ph == Idle && n.rs.proposal.Some?
    ensures var sm := Vote(cfg, n, Prepare, BlockHash(n.rs.proposal.value));
            Disciplined(cfg, Broadcast(n.(rs := Record(n.rs.(ph := PrePrepared), sm).rs), sm), k)
  {
    hide Known, Certified;
    var sm := Vote(cfg, n, Prepare, BlockHash(n.rs.proposal.value));
    var n0 := n.(rs := n.rs.(ph := PrePrepared));
    assert Disciplined(cfg, n0, k);
    forall m | m in n.sent ensures Consistent(m, sm) && Consistent(sm, m) {
      assert Placed(n.rs, m);
    }
    SignAndRecord(cfg, n0, sm, k);
  }

  lemma CommitSigned(cfg: Config, n: Node, k: Genuine)
    requires ValidConfig(cfg) && Disciplined(cfg, n, k)
    requires n.rs.ph == PrePrepared && n.rs.proposal.Some? && Number(n.rs.proposal.value) == n.rs.height
    ensures Disciplined(cfg, LockAndCommit(cfg, n), k)
  {
    hide Known, Certified;
    var block := n.rs.proposal.value;
    var sm := Vote(cfg, n, Commit, BlockHash(block));
    var n0 := n.(rs := n.rs.(lock := Some(Lock(block, n.rs.round)), ph := Prepared));
    assert Disciplined(cfg, n0, k);
    forall m | m in n.sent ensures Consistent(m, sm) && Consistent(sm, m) {
      assert Placed(n.rs, m);
    }
    SignAndRecord(cfg, n0, sm, k);
  }

  lemma RoundLeft(cfg: Config, n: Node, round: nat, k: Genuine)
    requires ValidConfig(cfg) && Disciplined(cfg, n, k) && round > n.rs.round
    ensures Disciplined(cfg, n.(rs := EnterRound(cfg, n.rs, round)), k)
  {
    hide Known, Certified, Consistent;
    var n1 := n.(rs := EnterRound(cfg, n.rs, round));
    SameTallyBacked(cfg, n, n1, k);
    forall m | m in n.sent ensures Placed(n1.rs, m) {
      assert Placed(n.rs, m);
    }
  }

  lemma LockAdopted(cfg: Config, n: Node, report: Option<Message>, round: nat, k: Genuine)
    requires Sound(cfg, n, k) && n.rs.proposal.None?
    ensures Sound(cfg, AdoptLock(n, report, round), k)
  {
    hide Known, Certified, Consistent;
    var n1 := AdoptLock(n, report, round);
    if !n1.astray {
      SameTallyBacked(cfg, n, n1, k);
      forall m | m in n.sent ensures Placed(n1.rs, m) {
        assert Placed(n.rs, m);
      }
    }
  }

  lemma RoundEntered(cfg: Config, n: Node, round: nat, k: Genuine)
    requires ValidConfig(cfg) && Sound(cfg, n, k)
    requires round > n.rs.round && round in n.rs.changes
    ensures Progress(n, NextRound(cfg, n, round)) && Sound(cfg, NextRound(cfg, n, round), k)
    ensures NextRound(cfg, n, round).rs.ph == Idle
  {
    hide Disciplined, AdoptLock, HighestLock, RoundTimeout;
    var n1 := n.(rs := EnterRound(cfg, n.rs, round));
    if !n.astray {
      RoundLeft(cfg, n, round, k);
    }
    var report := HighestLock(n.rs.changes[round], cfg.scan(n.rs.height, round));
    LockAdopted(cfg, n1, report, round, k);
    SameVotesSound(cfg, AdoptLock(n1, report, round), NextRound(cfg, n, round), k);
  }

  lemma HeightOpened(cfg: Config, n: Node, height: nat, k: Genuine)
    requires ValidConfig(cfg) && GoodBuffer(n) && Sound(cfg, n, k)
    requires !n.astray ==> n.rs.height < height <= |n.chain|
    ensures Progress(n, OpenHeight(cfg, n, height)) && Sound(cfg, OpenHeight(cfg, n, height), k)
  {
    hide Known, Certified, Consistent;
  }

  lemma BlockAppended(cfg: Config, n: Node, block: Block, who: set<Address>, k: Genuine)
    requires ChainCertified(cfg, n, k)
    requires Number(block) == |n.chain| && Quorum(cfg, n.sent, k, who, Number(block), BlockHash(block))
    ensures ChainCertified(cfg, n.(chain := n.chain + [block]), k)
  {
    hide Known;
    var chain := n.chain + [block];
    forall i | cfg.base <= i < |chain| ensures Certified(cfg, n.sent, k, i, BlockHash(chain[i])) {
      if i < |n.chain| {
        assert chain[i] == n.chain[i];
      }
    }
  }

  // --- the handlers ---

  lemma {:induction false} MaybeProposeSafe(cfg: Config, n: Node, k: Genuine)
    requires ValidConfig(cfg) && WellFormed(n) && Sound(cfg, n, k)
    ensures Progress(n, MaybePropose(cfg, n)) && Sound(cfg, MaybePropose(cfg, n), k)
    decreases n.future.Keys, ForeignRank(cfg, n), 7, 0
  {
    hide BroadcastProposal, ProposeFromQueue, Known, Certified, Consistent;
    if n.rs.isSelf && n.rs.ph == Idle {
      var n1 := if n.synced then n else CheckSynced(n);
      SameVotesSound(cfg, n, n1, k);
      if n1.synced {
        if n1.rs.lock.Some? {
          BroadcastProposalSafe(cfg, n1, n1.rs.lock.value.block, k);
        } else {
          ProposeFromQueueSafe(cfg, n1, k);
        }
      }
    }
  }

  lemma {:induction false} ProposeFromQueueSafe(cfg: Config, n: Node, k: Genuine)
    requires ValidConfig(cfg) && WellFormed(n) && Sound(cfg, n, k)
    requires n.rs.ph == Idle && n.rs.lock.None?
    ensures Progress(n, ProposeFromQueue(cfg, n)) && Sound(cfg, ProposeFromQueue(cfg, n), k)
    decreases n.future.Keys, ForeignRank(cfg, n), 6, |n.queue|
  {
    hide BroadcastProposal, Known, Certified, Consistent;
    if n.queue != [] {
      match cfg.ops.build(n.chain, n.queue[0].payload, n.now)
      case None =>
        var n1 := Answered(n, n.queue[0].id, Rejected).(queue := n.queue[1..]);
        SameVotesSound(cfg, n, n1, k);
        ProposeFromQueueSafe(cfg, n1, k);
      case Some(block) =>
        var n1 := n.(queue := [n.queue[0].(candidate := Some(block))] + n.queue[1..]);
        SameVotesSound(cfg, n, n1, k);
        BroadcastProposalSafe(cfg, n1, block, k);
    }
  }

  lemma {:induction false} BroadcastProposalSafe(cfg: Config, n: Node, block: Block, k: Genuine)
    requires ValidConfig(cfg) && WellFormed(n) && Sound(cfg, n, k)
    requires n.rs.ph == Idle
    requires n.rs.lock.Some? ==> n.rs.lock.value.block == block
    ensures Progress(n, BroadcastProposal(cfg, n, block)) && Sound(cfg, BroadcastProposal(cfg, n, block), k)
    decreases n.future.Keys, ForeignRank(cfg, n), 5, 0
  {
    hide CastPrepare, Known, Certified;
    var sm := Vote(cfg, n, Proposal, BlockHash(block)).(body := Some(block));
    var n0 := n.(rs := n.rs.(proposal := Some(block)));
    var n1 := Broadcast(n0, sm);
    if !n.astray {
      assert Disciplined(cfg, n0, k);
      SignSound(cfg, n0, sm, k);
    }
    CastPrepareSafe(cfg, n1, BlockHash(block), k);
    var n2 := CastPrepare(cfg, n1, BlockHash(block));
    SameVotesSound(cfg, n2, ArmTimer(cfg, n2), k);
  }

  lemma {:induction false} CastPrepareSafe(cfg: Config, n: Node, hash: Hash, k: Genuine)
    requires ValidConfig(cfg) && WellFormed(n) && Sound(cfg, n, k)
    requires n.rs.ph == Idle && n.rs.proposal.Some? && BlockHash(n.rs.proposal.value) == hash
    ensures Progress(n, CastPrepare(cfg, n, hash)) && Sound(cfg, CastPrepare(cfg, n, hash), k)
    decreases n.future.Keys, ForeignRank(cfg, n), 4, 0
  {
    hide CheckPrepareQuorum, Disciplined;
    var sm := Vote(cfg, n, Prepare, hash);
    var n1 := Broadcast(n.(rs := Record(n.rs.(ph := PrePrepared), sm).rs), sm);
    OwnVoteNotForeign(n.rs.(ph := PrePrepared), sm);
    if !n.astray {
      PrepareSigned(cfg, n, k);
    }
    CheckPrepareQuorumSafe(cfg, n1, hash, k);
  }

  lemma {:induction false} CheckPrepareQuorumSafe(cfg: Config, n: Node, hash: Hash, k: Genuine)
    requires ValidConfig(cfg) && WellFormed(n) && Sound(cfg, n, k)
    ensures Progress(n, CheckPrepareQuorum(cfg, n, hash)) && Sound(cfg, CheckPrepareQuorum(cfg, n, hash), k)
    decreases n.future.Keys, ForeignRank(cfg, n), 3, 0
  {
    hide CheckCommitQuorum, Disciplined;
    if PrepareQuorum(cfg, n.rs, hash) {
      TwoVotersOneForeign(n.rs.prepares[hash], cfg.self);
      if !LockAndCommit(cfg, n).astray {
        CommitSigned(cfg, n, k);
      }
      CheckCommitQuorumSafe(cfg, LockAndCommit(cfg, n), hash, k);
    }
  }

  lemma {:induction false} CheckCommitQuorumSafe(cfg: Config, n: Node, hash: Hash, k: Genuine)
    requires ValidConfig(cfg) && WellFormed(n) && Sound(cfg, n, k)
    ensures Progress(n, CheckCommitQuorum(cfg, n, hash)) && Sound(cfg, CheckCommitQuorum(cfg, n, hash), k)
    decreases n.future.Keys, ForeignRank(cfg, n), 2, 0
  {
    hide Finalize, Known, Certified, Consistent;
    if Count(n.rs.commits, hash) >= cfg.q {
      TwoVotersOneForeign(n.rs.commits[hash], cfg.self);
      match HeldBlock(n.rs, hash)
      case None =>
      case Some(block) => FinalizeSafe(cfg, n, block, n.rs.commits[hash].Keys, k);
    }
  }

  lemma AppendSafe(cfg: Config, n: Node, block: Block, signers: set<Address>, k: Genuine)
    requires Sound(cfg, n, k) && Number(block) == |n.chain|
    requires !n.astray ==> Quorum(cfg, n.sent, k, signers, Number(block), BlockHash(block))
    ensures Progress(n, n.(chain := n.chain + [block])) && Sound(cfg, n.(chain := n.chain + [block]), k)
  {
    hide Known, Certified, Consistent;
    if !n.astray {
      BlockAppended(cfg, n, block, signers, k);
    }
  }

  lemma ResolveSafe(cfg: Config, n: Node, height: nat, k: Genuine)
    requires Sound(cfg, n, k)
    ensures Progress(n, ResolveWaiters(n, height)) && Sound(cfg, ResolveWaiters(n, height), k)
  {
    hide Disciplined;
    SameVotesSound(cfg, n, ResolveWaiters(n, height), k);
  }

  lemma SealSafe(cfg: Config, n: Node, block: Block, signers: set<Address>, k: Genuine)
    requires Sound(cfg, n, k)
    requires !n.astray ==> Quorum(cfg, n.sent, k, signers, n.rs.height, BlockHash(block))
    ensures Progress(n, Sealed(n, block, signers)) && Sound(cfg, Sealed(n, block, signers), k)
  {
    hide Quorum, Known, Consistent;
  }

  lemma {:induction false} FinalizeSafe(cfg: Config, n: Node, block: Block, signers: set<Address>, k: Genuine)
    requires ValidConfig(cfg) && WellFormed(n) && Sound(cfg, n, k)
    requires !n.astray ==> Quorum(cfg, n.sent, k, signers, n.rs.height, BlockHash(block))
    ensures Progress(n, Finalize(cfg, n, block, signers)) && Sound(cfg, Finalize(cfg, n, block, signers), k)
    decreases n.future.Keys, 1, 1, 0
  {
    hide StartHeight, Disciplined, Quorum;
    var n1 := Sealed(n, block, signers);
    SealSafe(cfg, n, block, signers, k);
    var n2 := Landed(cfg, n1, block);
    LandedSafe(cfg, n1, block, signers, k);
    if Lands(cfg, n1, block) {
      var n3 := Nested(n2);
      SameVotesSound(cfg, n2, n3, k);
      StartHeightSafe(cfg, n3, Number(block) + 1, k);
      ProgressTrans(n1, n2, StartHeight(cfg, n3, Number(block) + 1));
      SameVotesSound(cfg, StartHeight(cfg, n3, Number(block) + 1), Finalize(cfg, n, block, signers), k);
    }
  }

  lemma LandedSafe(cfg: Config, n: Node, block: Block, signers: set<Address>, k: Genuine)
    requires Sound(cfg, n, k)
    requires !n.astray ==> Quorum(cfg, n.sent, k, signers, Number(block), BlockHash(block))
    ensures Progress(n, Landed(cfg, n, block)) && Sound(cfg, Landed(cfg, n, block), k)
    ensures Lands(cfg, n, block) ==> Number(block) < |Landed(cfg, n, block).chain|
  {
    hide Disciplined, Quorum;
    ResolveSafe(cfg, n, Number(block), k);
    var n1 := ResolveWaiters(n, Number(block));
    if ApplyExternal(cfg.ops, n.chain, block).Appended? {
      AppendSafe(cfg, n1, block, signers, k);
    }
  }

  lemma BucketAuthentic(cfg: Config, n: Node, height: nat, k: Genuine)
    requires Sound(cfg, n, k) && height in n.future
    ensures !n.astray ==> forall i :: 0 <= i < |n.future[height]| ==> Authentic(k, n.future[height][i])
  {
    hide Known, Certified, Consistent;
  }

  lemma {:induction false} StartHeightSafe(cfg: Config, n: Node, height: nat, k: Genuine)
    requires ValidConfig(cfg) && GoodBuffer(n) && Sound(cfg, n, k)
    requires !n.astray ==> n.rs.height < height <= |n.chain|
    ensures Progress(n, StartHeight(cfg, n, height)) && Sound(cfg, StartHeight(cfg, n, height), k)
    decreases n.future.Keys, 0, 8, 0
  {
    hide MaybePropose, ProcessBuffered, OpenHeight, SettleHeight, Sound, Foreign;
    var n1 := OpenHeight(cfg, n, height);
    HeightOpened(cfg, n, height, k);
    var n2 := n1;
    if height in n.future {
      assert GoodBucket(n.future[height], height);
      BucketAuthentic(cfg, n, height, k);
      n2 := ProcessBuffered(cfg, n1, n.future[height], height);
      ProcessBufferedSafe(cfg, n1, n.future[height], height, k);
    }
    var n3 := SettleHeight(cfg, n2, height);
    SettleSafe(cfg, n2, height, k);
    MaybeProposeSafe(cfg, n3, k);
    StepsProgress(n, n1, n2, n3, MaybePropose(cfg, n3));
  }

  lemma StepsProgress(a: Node, b: Node, c: Node, d: Node, e: Node)
    requires Progress(a, b) && (b == c || Progress(b, c)) && Progress(c, d) && Progress(d, e)
    ensures Progress(a, e)
  {
    if b != c {
      ProgressTrans(a, b, c);
    }
    ProgressTrans(a, c, d);
    ProgressTrans(a, d, e);
  }

  lemma SettleSafe(cfg: Config, n: Node, height: nat, k: Genuine)
    requires WellFormed(n) && Sound(cfg, n, k)
    ensures Progress(n, SettleHeight(cfg, n, height)) && Sound(cfg, SettleHeight(cfg, n, height), k)
  {
    hide Known, Certified, Consistent;
    var n1 := DropPast(n, height);
    if !n.astray {
      SameTallyBacked(cfg, n, n1, k);
      assert VotesConsistent(n1);
    }
    SameVotesSound(cfg, n1, ArmTimerIfWorkPending(cfg, n1), k);
  }

  lemma {:induction false} ProcessBufferedSafe(cfg: Config, n: Node, msgs: seq<Message>, height: nat, k: Genuine)
    requires ValidConfig(cfg) && WellFormed(n) && Sound(cfg, n, k)
    requires forall i :: 0 <= i < |msgs| ==> msgs[i].height == height
    requires !n.astray ==> forall i :: 0 <= i < |msgs| ==> Authentic(k, msgs[i])
    ensures Progress(n, ProcessBuffered(cfg, n, msgs, height)) && Sound(cfg, ProcessBuffered(cfg, n, msgs, height), k)
    decreases n.future.Keys - {height}, 2, 0, |msgs|
  {
    hide OnMessage, Disciplined;
    if msgs != [] {
      OnMessageSafe(cfg, n, msgs[0], k);
      var n1 := OnMessage(cfg, n, msgs[0]);
      ProcessBufferedSafe(cfg, n1, msgs[1..], height, k);
      ProgressTrans(n, n1, ProcessBuffered(cfg, n1, msgs[1..], height));
    }
  }

  lemma {:induction false} OnMessageSafe(cfg: Config, n: Node, sm: Message, k: Genuine)
    requires ValidConfig(cfg) && WellFormed(n) && Sound(cfg, n, k)
    requires !n.astray ==> Authentic(k, sm)
    ensures Progress(n, OnMessage(cfg, n, sm)) && Sound(cfg, OnMessage(cfg, n, sm), k)
    decreases n.future.Keys - {sm.height}, 1, 10, 0
  {
    hide Dispatch, Disciplined, Record, Receive, BufferFuture, WellFormed, Verified, Authentic;
    if sm.height > n.rs.height {
      BufferSafe(cfg, n, sm, k);
    } else if sm.height == n.rs.height && Verified(cfg, sm) {
      CurrentKeys(n);
      var n1 := Receive(cfg, n, sm);
      ReceiveSafe(cfg, n, sm, k);
      ReceiveForms(cfg, n, sm);
      if Record(n.rs, sm).accepted {
        DispatchSafe(cfg, n1, sm, k);
      }
    }
  }

  lemma ReceiveForms(cfg: Config, n: Node, sm: Message)
    requires WellFormed(n)
    ensures WellFormed(Receive(cfg, n, sm))
  {
    hide Record, GoodBucket, RoundTimeout;
  }

  lemma BufferSafe(cfg: Config, n: Node, sm: Message, k: Genuine)
    requires WellFormed(n) && Sound(cfg, n, k) && sm.height > n.rs.height
    requires !n.astray ==> Authentic(k, sm)
    ensures Progress(n, BufferFuture(n, sm)) && Sound(cfg, BufferFuture(n, sm), k)
  {
    hide Known, Certified, Consistent;
  }

  lemma ReceiveSafe(cfg: Config, n: Node, sm: Message, k: Genuine)
    requires Sound(cfg, n, k) && Verified(cfg, sm) && sm.height == n.rs.height
    requires !n.astray ==> Authentic(k, sm)
    ensures Progress(n, Receive(cfg, n, sm)) && Sound(cfg, Receive(cfg, n, sm), k)
  {
    hide Certified, Consistent;
    if !n.astray {
      RecordBacked(cfg, n, sm, k);
      var n1 := n.(rs := Record(n.rs, sm).rs);
      SameVotesSound(cfg, n1, Receive(cfg, n, sm), k);
    }
  }

  lemma {:induction false} DispatchSafe(cfg: Config, n: Node, sm: Message, k: Genuine)
    requires ValidConfig(cfg) && WellFormed(n) && Sound(cfg, n, k) && sm.height == n.rs.height
    ensures Progress(n, Dispatch(cfg, n, sm)) && Sound(cfg, Dispatch(cfg, n, sm), k)
    decreases n.future.Keys, 1, 9, 0
  {
    hide OnProposal, CheckPrepareQuorum, CheckCommitQuorum, CheckRoundChangeQuorum, Disciplined;
    match sm.typ
    case Proposal => OnProposalSafe(cfg, n, sm, k);
    case Prepare => CheckPrepareQuorumSafe(cfg, n, sm.blockHash, k);
    case Commit => CheckCommitQuorumSafe(cfg, n, sm.blockHash, k);
    case RoundChange => CheckRoundChangeQuorumSafe(cfg, n, sm.round, k);
    case Unknown(_) =>
  }

  lemma {:induction false} OnProposalSafe(cfg: Config, n: Node, sm: Message, k: Genuine)
    requires ValidConfig(cfg) && WellFormed(n) && Sound(cfg, n, k) && sm.height == n.rs.height
    ensures Progress(n, OnProposal(cfg, n, sm)) && Sound(cfg, OnProposal(cfg, n, sm), k)
    decreases n.future.Keys, 1, 8, 0
  {
    hide CastPrepare, Known, Certified, Consistent;
    if sm.round == n.rs.round && n.rs.ph == Idle && AcceptableProposal(n.rs, sm.blockHash) && CarriedBlock(sm).Some? {
      var block := CarriedBlock(sm).value;
      var n0 := n.(rs := n.rs.(proposal := Some(block)));
      assert Sound(cfg, n0, k);
      CastPrepareSafe(cfg, n0, BlockHash(block), k);
      var n1 := CastPrepare(cfg, n0, BlockHash(block));
      SameVotesSound(cfg, n1, ArmTimer(cfg, n1), k);
    }
  }

  lemma {:induction false} CheckRoundChangeQuorumSafe(cfg: Config, n: Node, round: nat, k: Genuine)
    requires ValidConfig(cfg) && WellFormed(n) && Sound(cfg, n, k)
    ensures Progress(n, CheckRoundChangeQuorum(cfg, n, round)) && Sound(cfg, CheckRoundChangeQuorum(cfg, n, round), k)
    decreases n.future.Keys, 1, 8, 0
  {
    hide MaybePropose, Disciplined;
    if round > n.rs.round && ChangeCount(n.rs, round) >= cfg.q {
      RoundEntered(cfg, n, round, k);
      MaybeProposeSafe(cfg, NextRound(cfg, n, round), k);
    }
  }

  lemma RoundAsked(cfg: Config, n: Node, next: nat, k: Genuine)
    requires Sound(cfg, n, k)
    ensures Progress(n, AskForRound(cfg, n, next)) && Sound(cfg, AskForRound(cfg, n, next), k)
  {
    hide Known, Certified, RoundChangeVote, Record;
    var sm := RoundChangeVote(cfg, n, next);
    if !n.astray {
      SignSound(cfg, n, sm, k);
      SameVotesSound(cfg, Broadcast(n, sm), AskForRound(cfg, n, next), k);
    }
  }

  lemma OnRoundTimeoutSafe(cfg: Config, n: Node, k: Genuine)
    requires ValidConfig(cfg) && WellFormed(n) && Sound(cfg, n, k)
    ensures Progress(n, OnRoundTimeout(cfg, n)) && Sound(cfg, OnRoundTimeout(cfg, n), k)
  {
    hide CheckRoundChangeQuorum, AskForRound, Sound, Ahead, GoodBucket;
    var next := (n.rs.round + 1) % ROUND_LIMIT;
    var n1 := AskForRound(cfg, n, next);
    RoundAsked(cfg, n, next, k);
    CheckRoundChangeQuorumSafe(cfg, n1, next, k);
    ProgressTrans(n, n1, CheckRoundChangeQuorum(cfg, n1, next));
  }

  lemma OnSubmitSafe(cfg: Config, n: Node, req: Request, k: Genuine)
    requires ValidConfig(cfg) && WellFormed(n) && Sound(cfg, n, k)
    ensures Progress(n, OnSubmit(cfg, n, req)) && Sound(cfg, OnSubmit(cfg, n, req), k)
  {
    hide MaybePropose, Disciplined;
    if |n.queue| >= MAX_QUEUE {
      SameVotesSound(cfg, n, OnSubmit(cfg, n, req), k);
    } else {
      var n1 := ArmTimerIfWorkPending(cfg, n.(queue := n.queue + [req]));
      SameVotesSound(cfg, n, n1, k);
      MaybeProposeSafe(cfg, n1, k);
    }
  }

  lemma OnHeadMovedSafe(cfg: Config, n: Node, height: nat, k: Genuine)
    requires ValidConfig(cfg) && WellFormed(n) && Sound(cfg, n, k)
    requires height < |n.chain|
    ensures Progress(n, OnHeadMoved(cfg, n, height)) && Sound(cfg, OnHeadMoved(cfg, n, height), k)
  {
    hide StartHeight, Known, Certified, Consistent;
    if height >= n.rs.height {
      ResolveSafe(cfg, n, height, k);
      StartHeightSafe(cfg, ResolveWaiters(n, height), height + 1, k);
    }
  }

  /** What the environment may hand a validator: an authentic message, or news
      of a block its chain already holds. */
  ghost predicate Possible(n: Node, ev: Event, k: Genuine) {
    && (ev.Deliver? ==> Authentic(k, ev.sm))
    && (ev.HeadMoved? ==> ev.height < |n.chain|)
  }

  lemma ReactSafe(cfg: Config, n: Node, ev: Event, now: nat, k: Genuine)
    requires ValidConfig(cfg) && WellFormed(n) && Sound(cfg, n, k) && Possible(n, ev, k)
    ensures Progress(n, React(cfg, n, ev, now)) && Sound(cfg, React(cfg, n, ev, now), k)
  {
    hide OnMessage, OnRoundTimeout, OnSubmit, OnHeadMoved, Disciplined;
    var n0 := Woken(n, now);
    SameVotesSound(cfg, n, n0, k);
    match ev {
      case Deliver(sm) => OnMessageSafe(cfg, n0, sm, k);
      case Timeout => OnRoundTimeoutSafe(cfg, n0, k);
      case Submit(req) => OnSubmitSafe(cfg, n0, req, k);
      case HeadMoved(height) => OnHeadMovedSafe(cfg, n0, height, k);
    }
    var n1 := Handle(cfg, n0, ev);
    SameVotesSound(cfg, n1, CheckSynced(ExpireWaiters(n1)), k);
  }
}
