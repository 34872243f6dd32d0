/** Whose turn it is, in which round and on what timer: along every run of a
    validator a round is entered only because a quorum asked for it, and the timer
    that gets the height out of trouble runs whenever there is something to lose. */
module Pacing {
  import opened Blocks
  import opened Protocol
  import opened Effects

  /** ROUND-CHANGEs that were signed: by whom, at which height, for which round. */
  type Calls = iset<(Address, nat, nat)>

  ghost predicate Called(g: Calls, m: Message) {
    m.typ == RoundChange ==> (m.signer, m.height, m.round) in g
  }

  /** The filed ROUND-CHANGEs were signed for this height, each for the round and by
      the member it is filed under. */
  ghost predicate AskedFor(g: Calls, cfg: Config, rs: Round) {
    forall r, a :: r in rs.changes && a in rs.changes[r] ==> a in cfg.members && (a, rs.height, r) in g
  }

  /** So were the buffered ones. */
  ghost predicate CallsBuffered(g: Calls, future: map<nat, seq<Message>>) {
    forall h :: h in future ==> AllCalled(g, future[h])
  }

  ghost predicate AllCalled(g: Calls, msgs: seq<Message>) {
    forall i :: 0 <= i < |msgs| ==> Called(g, msgs[i])
  }

  /** Another validator's vote has been recorded at this height. */
  predicate HeardFrom(cfg: Config, rs: Round) {
    exists k :: k in rs.seen && k.signer != cfg.self
  }

  /** The proposer is the one whose turn the round is, a round after the first has
      been asked for by a quorum, and hearing from anyone is activity. */
  ghost predicate Placed(g: Calls, cfg: Config, rs: Round)
    requires |cfg.members| > 0
  {
    && rs.proposer == ProposerAt(cfg.members, rs.height, rs.round) && (rs.isSelf <==> rs.proposer == cfg.self)
    && (rs.ph != Idle ==> rs.proposal.Some?)
    && AskedFor(g, cfg, rs) && (rs.round == 0 || ChangeCount(rs, rs.round) >= cfg.q)
    && (HeardFrom(cfg, rs) ==> rs.peerActivity)
  }

  /** Something here would be lost if nobody ever timed out. */
  predicate Underway(rs: Round) {
    rs.ph != Idle || rs.lock.Some? || rs.peerActivity
  }

  /** The timer runs, for as long as this round deserves. */
  predicate Ticking(cfg: Config, n: Node) {
    n.rs.timerArmed && n.timer == Some(RoundTimeout(cfg, n.rs.round))
  }

  ghost predicate Running(g: Calls, cfg: Config, n: Node)
    requires |cfg.members| > 0
  {
    Placed(g, cfg, n.rs) && Ticking(cfg, n) && CallsBuffered(g, n.future)
  }

  ghost predicate Paced(g: Calls, cfg: Config, n: Node)
    requires |cfg.members| > 0
  {
    && Placed(g, cfg, n.rs) && CallsBuffered(g, n.future)
    && (n.rs.timerArmed ==> Ticking(cfg, n)) && (Underway(n.rs) ==> n.rs.timerArmed)
  }

  /** Between turns: what is queued keeps the timer running too. */
  ghost predicate Watched(g: Calls, cfg: Config, n: Node)
    requires |cfg.members| > 0
  {
    && Paced(g, cfg, n) && (n.timer.Some? <==> n.rs.timerArmed) && (n.queue != [] ==> n.rs.timerArmed)
  }

  lemma RunningIsWatched(g: Calls, cfg: Config, n: Node)
    requires |cfg.members| > 0 && Running(g, cfg, n)
    ensures Watched(g, cfg, n)
  {
    hide Placed, RoundTimeout;
  }

  /** Only this much of a round state matters here. */
  lemma SamePlace(g: Calls, cfg: Config, a: Round, b: Round)
    requires |cfg.members| > 0 && Placed(g, cfg, a)
    requires b == a.(ph := b.ph, proposal := b.proposal, lock := b.lock, prepares := b.prepares, commits := b.commits,
                     timerArmed := b.timerArmed, faulty := b.faulty)
    requires b.ph != Idle ==> b.proposal.Some?
    ensures Placed(g, cfg, b)
  {
    hide ProposerAt;
  }

  lemma ArmedRuns(g: Calls, cfg: Config, n: Node)
    requires |cfg.members| > 0 && Placed(g, cfg, n.rs) && CallsBuffered(g, n.future)
    ensures Running(g, cfg, ArmTimer(cfg, n))
  {
    hide ProposerAt, RoundTimeout, AskedFor, HeardFrom;
    SamePlace(g, cfg, n.rs, ArmTimer(cfg, n).rs);
  }

  // --- recording ---

  lemma AskedMore(g: Calls, cfg: Config, rs: Round, sm: Message)
    requires AskedFor(g, cfg, rs) && sm.signer in cfg.members && sm.height == rs.height && Called(g, sm)
    ensures AskedFor(g, cfg, Record(rs, sm).rs)
    ensures forall r :: ChangeCount(Record(rs, sm).rs, r) >= ChangeCount(rs, r)
  {
    var b := Record(rs, sm).rs;
    forall r, a | r in b.changes && a in b.changes[r] ensures a in cfg.members && (a, rs.height, r) in g {
      assert (r in rs.changes && a in rs.changes[r]) || (sm.typ == RoundChange && r == sm.round && a == sm.signer);
    }
    forall r ensures ChangeCount(b, r) >= ChangeCount(rs, r) {
      if r in rs.changes {
        assert rs.changes[r].Keys <= b.changes[r].Keys;
        SubsetCount(rs.changes[r].Keys, b.changes[r].Keys);
      }
    }
  }

  /** Recording keeps the place; what an accepted vote of another validator makes
      of it is activity. */
  lemma RecordPlaced(g: Calls, cfg: Config, rs: Round, sm: Message)
    requires |cfg.members| > 0 && Placed(g, cfg, rs) && sm.signer in cfg.members && sm.height == rs.height
    requires Called(g, sm)
    ensures var b := Record(rs, sm).rs;
            && Placed(g, cfg, b.(peerActivity := true))
            && (sm.signer == cfg.self || !Record(rs, sm).accepted ==> Placed(g, cfg, b))
  {
    hide ProposerAt, AskedFor, ChangeCount;
    AskedMore(g, cfg, rs, sm);
    var b := Record(rs, sm).rs;
    SameAsked(g, cfg, b, b.(peerActivity := true));
    if sm.signer == cfg.self || !Record(rs, sm).accepted {
      HeardMore(cfg, rs, sm);
    }
  }

  lemma SameAsked(g: Calls, cfg: Config, a: Round, b: Round)
    requires b.changes == a.changes && b.height == a.height
    ensures AskedFor(g, cfg, a) == AskedFor(g, cfg, b) && forall r :: ChangeCount(a, r) == ChangeCount(b, r)
    ensures b.seen == a.seen ==> HeardFrom(cfg, a) == HeardFrom(cfg, b)
  {
  }

  lemma HeardMore(cfg: Config, rs: Round, sm: Message)
    requires sm.signer == cfg.self || !Record(rs, sm).accepted
    ensures HeardFrom(cfg, Record(rs, sm).rs) ==> HeardFrom(cfg, rs)
  {
  }

  // --- the handlers ---

  lemma {:induction false} MaybeProposeWatched(g: Calls, cfg: Config, n: Node)
    requires ValidConfig(cfg) && WellFormed(n) && Watched(g, cfg, n)
    ensures Watched(g, cfg, MaybePropose(cfg, n))
    decreases n.future.Keys, ForeignRank(cfg, n), 7, 0
  {
    hide BroadcastProposal, Placed, GoodBucket, RoundTimeout;
    if n.rs.isSelf && n.rs.ph == Idle {
      var n1 := if n.synced then n else CheckSynced(n);
      if n1.synced {
        if n1.rs.lock.Some? {
          BroadcastProposalWatched(g, cfg, n1, n1.rs.lock.value.block);
        } else if n1.queue != [] {
          ProposeFromQueueWatched(g, cfg, n1);
        }
      }
    }
  }

  lemma {:induction false} ProposeFromQueueWatched(g: Calls, cfg: Config, n: Node)
    requires ValidConfig(cfg) && WellFormed(n) && Running(g, cfg, n)
    ensures Watched(g, cfg, ProposeFromQueue(cfg, n))
    decreases n.future.Keys, ForeignRank(cfg, n), 6, |n.queue|
  {
    hide BroadcastProposal, Placed, GoodBucket, RoundTimeout, Watched;
    if n.queue == [] {
      RunningIsWatched(g, cfg, n);
    } else {
      match cfg.ops.build(n.chain, n.queue[0].payload, n.now)
      case None => ProposeFromQueueWatched(g, cfg, Answered(n, n.queue[0].id, Rejected).(queue := n.queue[1..]));
      case Some(block) =>
        BroadcastProposalWatched(g, cfg, n.(queue := [n.queue[0].(candidate := Some(block))] + n.queue[1..]), block);
    }
  }

  lemma {:induction false} BroadcastProposalWatched(g: Calls, cfg: Config, n: Node, block: Block)
    requires ValidConfig(cfg) && WellFormed(n) && Running(g, cfg, n)
    ensures Watched(g, cfg, BroadcastProposal(cfg, n, block))
    decreases n.future.Keys, ForeignRank(cfg, n), 5, 0
  {
    hide CastPrepare, Placed, GoodBucket, RoundTimeout;
    var sm := Vote(cfg, n, Proposal, BlockHash(block)).(body := Some(block));
    var n1 := Broadcast(n.(rs := n.rs.(proposal := Some(block))), sm);
    SamePlace(g, cfg, n.rs, n1.rs);
    CastPrepareWatched(g, cfg, n1, BlockHash(block));
    ArmedRuns(g, cfg, CastPrepare(cfg, n1, BlockHash(block)));
    RunningIsWatched(g, cfg, BroadcastProposal(cfg, n, block));
  }

  lemma {:induction false} CastPrepareWatched(g: Calls, cfg: Config, n: Node, hash: Hash)
    requires ValidConfig(cfg) && WellFormed(n) && Running(g, cfg, n) && n.rs.proposal.Some?
    ensures Watched(g, cfg, CastPrepare(cfg, n, hash))
    decreases n.future.Keys, ForeignRank(cfg, n), 4, 0
  {
    hide CheckPrepareQuorum, Placed, GoodBucket, RoundTimeout, Watched, ForeignIn, Record;
    var sm := Vote(cfg, n, Prepare, hash);
    OwnVoteNotForeign(n.rs.(ph := PrePrepared), sm);
    SamePlace(g, cfg, n.rs, n.rs.(ph := PrePrepared));
    RecordPlaced(g, cfg, n.rs.(ph := PrePrepared), sm);
    CheckPrepareQuorumWatched(g, cfg, Broadcast(n.(rs := Record(n.rs.(ph := PrePrepared), sm).rs), sm), hash);
  }

  lemma {:induction false} CheckPrepareQuorumWatched(g: Calls, cfg: Config, n: Node, hash: Hash)
    requires ValidConfig(cfg) && WellFormed(n) && Running(g, cfg, n)
    ensures Watched(g, cfg, CheckPrepareQuorum(cfg, n, hash))
    decreases n.future.Keys, ForeignRank(cfg, n), 3, 0
  {
    hide CheckCommitQuorum, LockAndCommit, Running, Watched;
    RunningIsWatched(g, cfg, n);
    if PrepareQuorum(cfg, n.rs, hash) {
      TwoVotersOneForeign(n.rs.prepares[hash], cfg.self);
      LockingRuns(g, cfg, n);
      CheckCommitQuorumWatched(g, cfg, LockAndCommit(cfg, n), hash);
    }
  }

  lemma LockingRuns(g: Calls, cfg: Config, n: Node)
    requires ValidConfig(cfg) && WellFormed(n) && Running(g, cfg, n) && n.rs.proposal.Some?
    ensures WellFormed(LockAndCommit(cfg, n)) && Running(g, cfg, LockAndCommit(cfg, n))
  {
    hide Record, GoodBucket, Placed, RoundTimeout;
    var block := n.rs.proposal.value;
    var rs := n.rs.(lock := Some(Lock(block, n.rs.round)), ph := Prepared);
    SamePlace(g, cfg, n.rs, rs);
    RecordPlaced(g, cfg, rs, Vote(cfg, n, Commit, BlockHash(block)));
  }

  lemma {:induction false} CheckCommitQuorumWatched(g: Calls, cfg: Config, n: Node, hash: Hash)
    requires ValidConfig(cfg) && WellFormed(n) && Running(g, cfg, n)
    ensures Watched(g, cfg, CheckCommitQuorum(cfg, n, hash))
    decreases n.future.Keys, ForeignRank(cfg, n), 2, 0
  {
    hide Finalize, Placed, GoodBucket, RoundTimeout;
    RunningIsWatched(g, cfg, n);
    if Count(n.rs.commits, hash) >= cfg.q {
      TwoVotersOneForeign(n.rs.commits[hash], cfg.self);
      match HeldBlock(n.rs, hash)
      case None =>
      case Some(block) => FinalizeWatched(g, cfg, n, block, n.rs.commits[hash].Keys);
    }
  }

  lemma {:induction false} FinalizeWatched(g: Calls, cfg: Config, n: Node, block: Block, signers: set<Address>)
    requires ValidConfig(cfg) && WellFormed(n) && Running(g, cfg, n)
    ensures Watched(g, cfg, Finalize(cfg, n, block, signers))
    decreases n.future.Keys, 1, 1, 0
  {
    hide StartHeight, Landed, Lands, GoodBucket, Placed, RoundTimeout;
    var n1 := Sealed(n, block, signers);
    RunningIsWatched(g, cfg, n1);
    if Lands(cfg, n1, block) {
      StartHeightWatched(g, cfg, Nested(Landed(cfg, n1, block)), Number(block) + 1);
    }
  }

  lemma NewRoundPlaced(g: Calls, cfg: Config, height: nat)
    requires ValidConfig(cfg)
    ensures Placed(g, cfg, NewRound(cfg, height))
  {
  }

  lemma SettlingWatches(g: Calls, cfg: Config, n: Node, height: nat)
    requires ValidConfig(cfg) && WellFormed(n) && Paced(g, cfg, n)
    ensures Watched(g, cfg, SettleHeight(cfg, n, height))
  {
    hide ProposerAt, AskedFor, HeardFrom, GoodBucket, RoundTimeout;
    SamePlace(g, cfg, n.rs, SettleHeight(cfg, n, height).rs);
  }

  lemma {:induction false} StartHeightWatched(g: Calls, cfg: Config, n: Node, height: nat)
    requires ValidConfig(cfg) && GoodBuffer(n) && CallsBuffered(g, n.future)
    ensures Watched(g, cfg, StartHeight(cfg, n, height))
    decreases n.future.Keys, 0, 8, 0
  {
    hide MaybePropose, ProcessBuffered, Foreign, SettleHeight, Placed, RoundTimeout, Watched;
    var n1 := OpenHeight(cfg, n, height);
    NewRoundPlaced(g, cfg, height);
    var n2 := n1;
    if height in n.future {
      assert GoodBucket(n.future[height], height);
      n2 := ProcessBuffered(cfg, n1, n.future[height], height);
      ProcessBufferedPaced(g, cfg, n1, n.future[height], height);
    }
    SettlingWatches(g, cfg, n2, height);
    MaybeProposeWatched(g, cfg, SettleHeight(cfg, n2, height));
  }

  lemma {:induction false} ProcessBufferedPaced(g: Calls, cfg: Config, n: Node, msgs: seq<Message>, height: nat)
    requires ValidConfig(cfg) && WellFormed(n) && Paced(g, cfg, n) && AllCalled(g, msgs)
    requires forall i :: 0 <= i < |msgs| ==> msgs[i].height == height
    ensures Paced(g, cfg, ProcessBuffered(cfg, n, msgs, height))
    decreases n.future.Keys - {height}, 2, 0, |msgs|
  {
    hide OnMessage, Paced;
    if msgs != [] {
      OnMessagePaced(g, cfg, n, msgs[0]);
      ProcessBufferedPaced(g, cfg, OnMessage(cfg, n, msgs[0]), msgs[1..], height);
    }
  }

  /** Whoever accepts a message is waiting for this height from then on. */
  lemma ReceivingRuns(g: Calls, cfg: Config, n: Node, sm: Message)
    requires ValidConfig(cfg) && WellFormed(n) && Paced(g, cfg, n) && Called(g, sm)
    requires Verified(cfg, sm) && sm.height == n.rs.height
    ensures var r := Receive(cfg, n, sm);
            && WellFormed(r) && (Record(n.rs, sm).accepted ==> Running(g, cfg, r) && r.rs.peerActivity)
            && (!Record(n.rs, sm).accepted ==> Paced(g, cfg, r) && (Watched(g, cfg, n) ==> Watched(g, cfg, r)))
  {
    hide Record, GoodBucket, Placed, RoundTimeout;
    RecordPlaced(g, cfg, n.rs, sm);
    var b := Record(n.rs, sm).rs.(peerActivity := true);
    ArmedRuns(g, cfg, n.(rs := b));
  }

  lemma BufferingPaced(g: Calls, cfg: Config, n: Node, sm: Message)
    requires ValidConfig(cfg) && WellFormed(n) && Paced(g, cfg, n) && Called(g, sm)
    requires sm.height > n.rs.height
    ensures var r := BufferFuture(n, sm); Paced(g, cfg, r) && (Watched(g, cfg, n) ==> Watched(g, cfg, r))
  {
    hide Placed, GoodBucket, RoundTimeout;
  }

  lemma {:induction false} OnMessagePaced(g: Calls, cfg: Config, n: Node, sm: Message)
    requires ValidConfig(cfg) && WellFormed(n) && Paced(g, cfg, n) && Called(g, sm)
    ensures Paced(g, cfg, OnMessage(cfg, n, sm)) && (Watched(g, cfg, n) ==> Watched(g, cfg, OnMessage(cfg, n, sm)))
    decreases n.future.Keys - {sm.height}, 1, 10, 0
  {
    assert n.rs.height !in n.future;
    hide Dispatch, Record, WellFormed, Receive, Placed, RoundTimeout, BufferFuture;
    if sm.height > n.rs.height {
      BufferingPaced(g, cfg, n, sm);
    } else if sm.height == n.rs.height && Verified(cfg, sm) {
      assert n.future.Keys - {sm.height} == n.future.Keys;
      ReceivingRuns(g, cfg, n, sm);
      if Record(n.rs, sm).accepted {
        DispatchWatched(g, cfg, Receive(cfg, n, sm), sm);
      }
    }
  }

  lemma {:induction false} DispatchWatched(g: Calls, cfg: Config, n: Node, sm: Message)
    requires ValidConfig(cfg) && WellFormed(n) && Running(g, cfg, n)
    ensures Watched(g, cfg, Dispatch(cfg, n, sm))
    decreases n.future.Keys, 1, 9, 0
  {
    hide OnProposal, CheckPrepareQuorum, CheckCommitQuorum, CheckRoundChangeQuorum, Watched, Running;
    RunningIsWatched(g, cfg, n);
    match sm.typ
    case Proposal => OnProposalWatched(g, cfg, n, sm);
    case Prepare => CheckPrepareQuorumWatched(g, cfg, n, sm.blockHash);
    case Commit => CheckCommitQuorumWatched(g, cfg, n, sm.blockHash);
    case RoundChange => CheckRoundChangeQuorumWatched(g, cfg, n, sm.round);
    case Unknown(_) =>
  }

  lemma {:induction false} OnProposalWatched(g: Calls, cfg: Config, n: Node, sm: Message)
    requires ValidConfig(cfg) && WellFormed(n) && Running(g, cfg, n)
    ensures Watched(g, cfg, OnProposal(cfg, n, sm))
    decreases n.future.Keys, 1, 8, 0
  {
    hide CastPrepare, GoodBucket, Placed, RoundTimeout, ProposerAt, CarriedBlock, VerifyCandidate;
    RunningIsWatched(g, cfg, n);
    if CarriedBlock(sm).Some? {
      var block := CarriedBlock(sm).value;
      var n1 := n.(rs := n.rs.(proposal := Some(block)));
      SamePlace(g, cfg, n.rs, n1.rs);
      CastPrepareWatched(g, cfg, n1, BlockHash(block));
      var n2 := CastPrepare(cfg, n1, BlockHash(block));
      ArmedRuns(g, cfg, n2);
      RunningIsWatched(g, cfg, ArmTimer(cfg, n2));
    }
  }

  lemma {:induction false} CheckRoundChangeQuorumWatched(g: Calls, cfg: Config, n: Node, round: nat)
    requires ValidConfig(cfg) && WellFormed(n) && Running(g, cfg, n)
    ensures Watched(g, cfg, CheckRoundChangeQuorum(cfg, n, round))
    decreases n.future.Keys, 1, 8, 0
  {
    hide MaybePropose, NextRound, Running, WellFormed, Watched;
    RunningIsWatched(g, cfg, n);
    if round > n.rs.round && ChangeCount(n.rs, round) >= cfg.q {
      NextRoundRuns(g, cfg, n, round);
      RunningIsWatched(g, cfg, NextRound(cfg, n, round));
      MaybeProposeWatched(g, cfg, NextRound(cfg, n, round));
    }
  }

  lemma NextRoundRuns(g: Calls, cfg: Config, n: Node, round: nat)
    requires ValidConfig(cfg) && WellFormed(n) && Running(g, cfg, n) && ChangeCount(n.rs, round) >= cfg.q
    ensures WellFormed(NextRound(cfg, n, round)) && Running(g, cfg, NextRound(cfg, n, round))
  {
    hide HighestLock, GoodBucket, ProposerAt, RoundTimeout, AskedFor, HeardFrom;
    var rs := NextRound(cfg, n, round).rs;
    SameAsked(g, cfg, n.rs, rs);
  }

  // --- events and runs ---

  lemma AskingRuns(g: Calls, cfg: Config, n: Node, next: nat)
    requires ValidConfig(cfg) && WellFormed(n) && Placed(g, cfg, n.rs) && CallsBuffered(g, n.future)
    requires (cfg.self, n.rs.height, next) in g
    ensures WellFormed(AskForRound(cfg, n, next)) && Running(g, cfg, AskForRound(cfg, n, next))
  {
    hide Record, Placed, GoodBucket, RoundTimeout, CallsBuffered;
    var sm := RoundChangeVote(cfg, n, next);
    RecordPlaced(g, cfg, n.rs, sm);
    ArmedRuns(g, cfg, Broadcast(n.(rs := Record(n.rs, sm).rs), sm));
  }

  /** A validator whose timer has run out sets it again, whatever became of the
      old one. */
  lemma TimeoutWatches(g: Calls, cfg: Config, n: Node)
    requires ValidConfig(cfg) && WellFormed(n) && Placed(g, cfg, n.rs) && CallsBuffered(g, n.future)
    requires (cfg.self, n.rs.height, (n.rs.round + 1) % ROUND_LIMIT) in g
    ensures Watched(g, cfg, OnRoundTimeout(cfg, n))
  {
    hide CheckRoundChangeQuorum, AskForRound, Watched, Running, Placed, WellFormed, CallsBuffered;
    var next := (n.rs.round + 1) % ROUND_LIMIT;
    AskingRuns(g, cfg, n, next);
    CheckRoundChangeQuorumWatched(g, cfg, AskForRound(cfg, n, next), next);
  }

  lemma SubmitWatches(g: Calls, cfg: Config, n: Node, req: Request)
    requires ValidConfig(cfg) && WellFormed(n) && Watched(g, cfg, n)
    ensures Watched(g, cfg, OnSubmit(cfg, n, req))
  {
    hide MaybePropose, ProposerAt, AskedFor, HeardFrom, CallsBuffered, GoodBucket, RoundTimeout;
    if |n.queue| < MAX_QUEUE {
      var n1 := ArmTimerIfWorkPending(cfg, n.(queue := n.queue + [req]));
      SamePlace(g, cfg, n.rs, n1.rs);
      MaybeProposeWatched(g, cfg, n1);
    }
  }

  lemma HandleWatches(g: Calls, cfg: Config, n: Node, ev: Event)
    requires ValidConfig(cfg) && WellFormed(n) && Watched(g, cfg, n)
    requires ev.Deliver? ==> Called(g, ev.sm)
    requires ev.Timeout? ==> (cfg.self, n.rs.height, (n.rs.round + 1) % ROUND_LIMIT) in g
    ensures Watched(g, cfg, Handle(cfg, n, ev))
  {
    hide OnMessage, OnRoundTimeout, OnSubmit, StartHeight, Placed, GoodBucket, RoundTimeout, ResolveWaiters;
    match ev
    case Deliver(sm) => OnMessagePaced(g, cfg, n, sm);
    case Timeout => TimeoutWatches(g, cfg, n);
    case Submit(req) => SubmitWatches(g, cfg, n, req);
    case HeadMoved(height) =>
      if height >= n.rs.height {
        StartHeightWatched(g, cfg, ResolveWaiters(n, height), height + 1);
      }
  }

  lemma ExpiringWatches(g: Calls, cfg: Config, n: Node)
    requires |cfg.members| > 0 && Watched(g, cfg, n)
    ensures Watched(g, cfg, CheckSynced(ExpireWaiters(n)))
  {
    hide Placed, RoundTimeout, CallsBuffered;
    if n.queue == [] {
      assert Unexpired(n.queue, n.now) == [];
    }
  }

  /** What each turn keeps. */
  lemma ReactWatches(g: Calls, cfg: Config, n: Node, ev: Event, now: nat)
    requires ValidConfig(cfg) && WellFormed(n) && Watched(g, cfg, n)
    requires ev.Deliver? ==> Called(g, ev.sm)
    requires ev.Timeout? ==> (cfg.self, n.rs.height, (n.rs.round + 1) % ROUND_LIMIT) in g
    ensures Watched(g, cfg, React(cfg, n, ev, now))
  {
    hide Handle, Placed, RoundTimeout, GoodBucket, CallsBuffered, ExpireWaiters;
    HandleWatches(g, cfg, Woken(n, now), ev);
    ExpiringWatches(g, cfg, Handle(cfg, Woken(n, now), ev));
  }

  lemma BootWatches(g: Calls, cfg: Config, chain: seq<Block>)
    requires ValidConfig(cfg) && |chain| > 0
    ensures Watched(g, cfg, Boot(cfg, chain))
  {
    hide StartHeight, Placed, RoundTimeout;
    StartHeightWatched(g, cfg, Blank(cfg, chain), |chain|);
  }

  lemma {:induction false} RunWatches(g: Calls, cfg: Config, chain: seq<Block>, turns: seq<Turn>)
    requires ValidConfig(cfg) && |chain| > 0 && forall c: (Address, nat, nat) :: c in g
    ensures Watched(g, cfg, AfterTurns(cfg, chain, turns))
  {
    hide React, Boot, WellFormed, Ahead, Placed, RoundTimeout, CallsBuffered;
    if turns == [] {
      BootWatches(g, cfg, chain);
    } else {
      RunWatches(g, cfg, chain, turns[..|turns| - 1]);
      var before := AfterTurns(cfg, chain, turns[..|turns| - 1]);
      match turns[|turns| - 1]
      case Turn(ev, now) => ReactWatches(g, cfg, before, ev, now);
      case Pulled(block) =>
    }
  }

  /** A validator with a request waiting, a vote cast, a lock held or another's vote
      heard always has its round timer running, for as long as its round deserves;
      it knows whose turn it is; and it has left round 0 only because a quorum of
      distinct members asked for the round it is in. */
  lemma NeverStranded(cfg: Config, chain: seq<Block>, turns: seq<Turn>)
    requires ValidConfig(cfg) && |chain| > 0
    ensures var n := AfterTurns(cfg, chain, turns);
            && (n.queue != [] || n.rs.ph != Idle || n.rs.lock.Some? || HeardFrom(cfg, n.rs) ==>
                  n.timer == Some(RoundTimeout(cfg, n.rs.round)))
            && (n.rs.isSelf <==> ProposerAt(cfg.members, n.rs.height, n.rs.round) == cfg.self)
            && (n.rs.round > 0 ==>
                  && n.rs.round in n.rs.changes && |n.rs.changes[n.rs.round]| >= cfg.q
                  && forall a :: a in n.rs.changes[n.rs.round] ==> a in cfg.members)
  {
    hide AfterTurns, ProposerAt, RoundTimeout, HeardFrom, WellFormed;
    var g: Calls := iset c: (Address, nat, nat) | c.1 >= 0;
    RunWatches(g, cfg, chain, turns);
  }
}
