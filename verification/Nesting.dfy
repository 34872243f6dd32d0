/** How deep finalizations nest: finalizing opens the next height, which replays
    what was buffered for it, which may finalize again. */
module Nesting {
  import opened Blocks
  import opened Protocol

  /** From n on, and until control returns to its caller, finalizations nest at
      most `load` deep. */
  predicate Within(n: Node, r: Node, load: nat) {
    && r.depth == n.depth
    && r.deepest <= if n.deepest > n.depth + load then n.deepest else n.depth + load
  }

  /** The buffered heights, and one more if another validator's vote is counted. */
  ghost function Load(cfg: Config, n: Node): nat {
    |n.future.Keys| + ForeignRank(cfg, n)
  }

  lemma Deeper(a: Node, b: Node, c: Node, x: nat, y: nat, load: nat)
    requires (a == b || Within(a, b, x)) && (b == c || Within(b, c, y)) && x <= load && y <= load
    ensures Within(a, c, load)
  {
  }

  // --- the handlers ---

  lemma {:induction false} MaybeProposeNests(cfg: Config, n: Node)
    requires ValidConfig(cfg) && WellFormed(n)
    ensures Within(n, MaybePropose(cfg, n), Load(cfg, n))
    decreases n.future.Keys, ForeignRank(cfg, n), 7, 0
  {
    hide BroadcastProposal, ProposeFromQueue, ForeignIn;
    if n.rs.isSelf && n.rs.ph == Idle {
      var n1 := if n.synced then n else CheckSynced(n);
      if n1.synced {
        if n1.rs.lock.Some? {
          BroadcastProposalNests(cfg, n1, n1.rs.lock.value.block);
        } else {
          ProposeFromQueueNests(cfg, n1);
        }
      }
    }
  }

  lemma {:induction false} ProposeFromQueueNests(cfg: Config, n: Node)
    requires ValidConfig(cfg) && WellFormed(n)
    ensures Within(n, ProposeFromQueue(cfg, n), Load(cfg, n))
    decreases n.future.Keys, ForeignRank(cfg, n), 6, |n.queue|
  {
    hide BroadcastProposal, ForeignIn;
    if n.queue != [] {
      match cfg.ops.build(n.chain, n.queue[0].payload, n.now)
      case None =>
        ProposeFromQueueNests(cfg, Answered(n, n.queue[0].id, Rejected).(queue := n.queue[1..]));
      case Some(block) =>
        var n1 := n.(queue := [n.queue[0].(candidate := Some(block))] + n.queue[1..]);
        BroadcastProposalNests(cfg, n1, block);
    }
  }

  lemma {:induction false} BroadcastProposalNests(cfg: Config, n: Node, block: Block)
    requires ValidConfig(cfg) && WellFormed(n)
    ensures Within(n, BroadcastProposal(cfg, n, block), Load(cfg, n))
    decreases n.future.Keys, ForeignRank(cfg, n), 5, 0
  {
    hide CastPrepare, ForeignIn;
    var sm := Vote(cfg, n, Proposal, BlockHash(block)).(body := Some(block));
    CastPrepareNests(cfg, Broadcast(n.(rs := n.rs.(proposal := Some(block))), sm), BlockHash(block));
  }

  lemma {:induction false} CastPrepareNests(cfg: Config, n: Node, hash: Hash)
    requires ValidConfig(cfg) && WellFormed(n)
    ensures Within(n, CastPrepare(cfg, n, hash), Load(cfg, n))
    decreases n.future.Keys, ForeignRank(cfg, n), 4, 0
  {
    hide CheckPrepareQuorum, ForeignIn, Record;
    var sm := Vote(cfg, n, Prepare, hash);
    var n1 := Broadcast(n.(rs := Record(n.rs.(ph := PrePrepared), sm).rs), sm);
    OwnVoteNotForeign(n.rs.(ph := PrePrepared), sm);
    assert Load(cfg, n1) <= Load(cfg, n);
    CheckPrepareQuorumNests(cfg, n1, hash);
  }

  lemma {:induction false} CheckPrepareQuorumNests(cfg: Config, n: Node, hash: Hash)
    requires ValidConfig(cfg) && WellFormed(n)
    ensures Within(n, CheckPrepareQuorum(cfg, n, hash), Load(cfg, n))
    decreases n.future.Keys, ForeignRank(cfg, n), 3, 0
  {
    hide CheckCommitQuorum, Record;
    if PrepareQuorum(cfg, n.rs, hash) {
      TwoVotersOneForeign(n.rs.prepares[hash], cfg.self);
      CheckCommitQuorumNests(cfg, LockAndCommit(cfg, n), hash);
    }
  }

  lemma {:induction false} CheckCommitQuorumNests(cfg: Config, n: Node, hash: Hash)
    requires ValidConfig(cfg) && WellFormed(n)
    ensures Within(n, CheckCommitQuorum(cfg, n, hash), Load(cfg, n))
    decreases n.future.Keys, ForeignRank(cfg, n), 2, 0
  {
    hide Finalize;
    if Count(n.rs.commits, hash) >= cfg.q {
      TwoVotersOneForeign(n.rs.commits[hash], cfg.self);
      match HeldBlock(n.rs, hash)
      case None =>
      case Some(block) => FinalizeNests(cfg, n, block, n.rs.commits[hash].Keys);
    }
  }

  lemma {:induction false} FinalizeNests(cfg: Config, n: Node, block: Block, signers: set<Address>)
    requires ValidConfig(cfg) && WellFormed(n)
    ensures Within(n, Finalize(cfg, n, block, signers), |n.future.Keys| + 1)
    decreases n.future.Keys, 1, 1, 0
  {
    hide StartHeight, Landed, GoodBucket, Lands;
    var n1 := Sealed(n, block, signers);
    if Lands(cfg, n1, block) {
      StartHeightNests(cfg, Nested(Landed(cfg, n1, block)), Number(block) + 1);
    }
  }

  lemma {:induction false} StartHeightNests(cfg: Config, n: Node, height: nat)
    requires ValidConfig(cfg) && GoodBuffer(n)
    ensures Within(n, StartHeight(cfg, n, height), |n.future.Keys|)
    decreases n.future.Keys, 0, 8, 0
  {
    hide StartHeight, MaybePropose, ForeignRank, Within, Load, GoodBuffer, WellFormed;
    var n3 := SettledNests(cfg, n, height);
    LoadAfter(cfg, n, n3, height);
    MaybeProposeNests(cfg, n3);
    Deeper(n, n3, MaybePropose(cfg, n3), |n.future.Keys|, Load(cfg, n3), |n.future.Keys|);
  }

  /** The part of opening a height ahead of proposing. */
  lemma {:induction false} SettledNests(cfg: Config, n: Node, height: nat) returns (n3: Node)
    requires ValidConfig(cfg) && GoodBuffer(n)
    ensures WellFormed(n3) && StartHeight(cfg, n, height) == MaybePropose(cfg, n3) && Within(n, n3, |n.future.Keys|)
    ensures n3.future.Keys <= n.future.Keys && height !in n3.future
    ensures height in n.future || ForeignRank(cfg, n3) == 0
    decreases n.future.Keys, 0, 7, 0
  {
    hide MaybePropose, ProcessBuffered, ForeignRank, OpenHeight, SettleHeight, Within, GoodBucket, Ahead;
    var n1, load := OpenHeight(cfg, n, height), |n.future.Keys|;
    QuietHeight(cfg, n, height);
    var n2 := n1;
    if height in n.future {
      BucketKeys(n, height);
      n2 := ProcessBuffered(cfg, n1, n.future[height], height);
      ProcessBufferedNests(cfg, n1, n.future[height], height);
      assert n1.future.Keys - {height} == n.future.Keys - {height};
      Deeper(n, n1, n2, 0, load, load);
    } else {
      Deeper(n, n1, n2, 0, 0, load);
    }
    n3 := SettleHeight(cfg, n2, height);
    QuietSettling(cfg, n2, height);
    Deeper(n, n2, n3, load, 0, load);
  }

  lemma BucketKeys(n: Node, height: nat)
    requires GoodBuffer(n) && height in n.future
    ensures |n.future.Keys - {height}| + 1 == |n.future.Keys| && n.future.Keys - {height} < n.future.Keys
    ensures forall i :: 0 <= i < |n.future[height]| ==> n.future[height][i].height == height
  {
    assert GoodBucket(n.future[height], height);
  }

  /** Once a height is open and settled, what is left cannot nest any deeper. */
  lemma LoadAfter(cfg: Config, n: Node, r: Node, height: nat)
    requires r.future.Keys <= n.future.Keys && height !in r.future
    requires height in n.future || ForeignRank(cfg, r) == 0
    ensures Load(cfg, r) <= |n.future.Keys|
  {
    SubsetCount(r.future.Keys, n.future.Keys - {height});
  }

  /** Opening a height finalizes nothing by itself; nor does settling it. */
  lemma QuietHeight(cfg: Config, n: Node, height: nat)
    requires ValidConfig(cfg) && GoodBuffer(n)
    ensures Within(n, OpenHeight(cfg, n, height), 0)
  {
    hide GoodBucket, NewRound;
  }

  lemma QuietSettling(cfg: Config, n: Node, height: nat)
    requires ValidConfig(cfg) && WellFormed(n)
    ensures Within(n, SettleHeight(cfg, n, height), 0)
  {
    hide GoodBucket, RoundTimeout;
  }

  lemma {:induction false} ProcessBufferedNests(cfg: Config, n: Node, msgs: seq<Message>, height: nat)
    requires ValidConfig(cfg) && WellFormed(n)
    requires forall i :: 0 <= i < |msgs| ==> msgs[i].height == height
    ensures Within(n, ProcessBuffered(cfg, n, msgs, height), |n.future.Keys - {height}| + 1)
    decreases n.future.Keys - {height}, 2, 0, |msgs|
  {
    hide OnMessage, GoodBucket;
    if msgs != [] {
      var n1 := OnMessage(cfg, n, msgs[0]);
      OnMessageNests(cfg, n, msgs[0]);
      ProcessBufferedNests(cfg, n1, msgs[1..], height);
      SubsetCount(n1.future.Keys - {height}, n.future.Keys - {height});
    }
  }

  lemma {:induction false} OnMessageNests(cfg: Config, n: Node, sm: Message)
    requires ValidConfig(cfg) && WellFormed(n)
    ensures Within(n, OnMessage(cfg, n, sm), |n.future.Keys - {sm.height}| + 1)
    decreases n.future.Keys - {sm.height}, 1, 10, 0
  {
    if sm.height > n.rs.height {
      hide OnMessage, BufferFuture, WellFormed, Within;
      BufferingNests(cfg, n, sm);
    } else if sm.height == n.rs.height && Verified(cfg, sm) {
      hide Dispatch, Record, Receive, Verified, Within, GoodBucket, Ahead;
      CurrentKeys(n);
      if Record(n.rs, sm).accepted {
        AcceptedNests(cfg, n, sm);
      } else {
        ReceivingNests(cfg, n, sm, |n.future.Keys| + 1);
      }
    }
  }

  lemma {:induction false} AcceptedNests(cfg: Config, n: Node, sm: Message)
    requires ValidConfig(cfg) && WellFormed(n)
    ensures WellFormed(Receive(cfg, n, sm))
    ensures Within(n, Dispatch(cfg, Receive(cfg, n, sm), sm), |n.future.Keys| + 1)
    decreases n.future.Keys, 1, 9, 1
  {
    hide Dispatch, Receive, WellFormed;
    ReceivingNests(cfg, n, sm, 0);
    DispatchNests(cfg, Receive(cfg, n, sm), sm);
  }

  /** Filing a message finalizes nothing; nor does buffering one. */
  lemma ReceivingNests(cfg: Config, n: Node, sm: Message, load: nat)
    requires WellFormed(n)
    ensures WellFormed(Receive(cfg, n, sm)) && Within(n, Receive(cfg, n, sm), load)
    ensures Receive(cfg, n, sm).deepest == n.deepest
  {
    hide Record, GoodBucket, RoundTimeout;
  }

  lemma BufferingNests(cfg: Config, n: Node, sm: Message)
    requires ValidConfig(cfg) && WellFormed(n) && sm.height > n.rs.height
    ensures Within(n, OnMessage(cfg, n, sm), |n.future.Keys - {sm.height}| + 1)
  {
    hide GoodBucket;
  }

  lemma {:induction false} DispatchNests(cfg: Config, n: Node, sm: Message)
    requires ValidConfig(cfg) && WellFormed(n)
    ensures Within(n, Dispatch(cfg, n, sm), |n.future.Keys| + 1)
    decreases n.future.Keys, 1, 9, 0
  {
    hide OnProposal, CheckPrepareQuorum, CheckCommitQuorum, CheckRoundChangeQuorum, ForeignIn;
    match sm.typ
    case Proposal => OnProposalNests(cfg, n, sm);
    case Prepare => CheckPrepareQuorumNests(cfg, n, sm.blockHash);
    case Commit => CheckCommitQuorumNests(cfg, n, sm.blockHash);
    case RoundChange => CheckRoundChangeQuorumNests(cfg, n, sm.round);
    case Unknown(_) =>
  }

  lemma {:induction false} OnProposalNests(cfg: Config, n: Node, sm: Message)
    requires ValidConfig(cfg) && WellFormed(n)
    ensures Within(n, OnProposal(cfg, n, sm), |n.future.Keys| + 1)
    decreases n.future.Keys, 1, 8, 0
  {
    hide CastPrepare, ForeignIn, GoodBucket;
    if CarriedBlock(sm).Some? {
      var block := CarriedBlock(sm).value;
      CastPrepareNests(cfg, n.(rs := n.rs.(proposal := Some(block))), BlockHash(block));
    }
  }

  lemma {:induction false} CheckRoundChangeQuorumNests(cfg: Config, n: Node, round: nat)
    requires ValidConfig(cfg) && WellFormed(n)
    ensures Within(n, CheckRoundChangeQuorum(cfg, n, round), |n.future.Keys| + 1)
    decreases n.future.Keys, 1, 8, 0
  {
    hide MaybePropose, HighestLock, ForeignIn, GoodBucket;
    if round > n.rs.round && ChangeCount(n.rs, round) >= cfg.q {
      MaybeProposeNests(cfg, NextRound(cfg, n, round));
    }
  }

  // --- one turn ---

  lemma TimeoutNests(cfg: Config, n: Node)
    requires ValidConfig(cfg) && WellFormed(n)
    ensures Within(n, OnRoundTimeout(cfg, n), |n.future.Keys| + 1)
  {
    hide CheckRoundChangeQuorum, AskForRound, Ahead, GoodBucket;
    var next := (n.rs.round + 1) % ROUND_LIMIT;
    AskNests(cfg, n, next);
    CheckRoundChangeQuorumNests(cfg, AskForRound(cfg, n, next), next);
  }

  lemma AskNests(cfg: Config, n: Node, next: nat)
    ensures AskForRound(cfg, n, next).depth == n.depth && AskForRound(cfg, n, next).deepest == n.deepest
  {
    hide Record, RoundChangeVote, RoundTimeout;
  }

  lemma SubmitNests(cfg: Config, n: Node, req: Request)
    requires ValidConfig(cfg) && WellFormed(n)
    ensures Within(n, OnSubmit(cfg, n, req), |n.future.Keys| + 1)
  {
    hide MaybePropose, GoodBucket, Ahead, ForeignIn;
    if |n.queue| < MAX_QUEUE {
      MaybeProposeNests(cfg, ArmTimerIfWorkPending(cfg, n.(queue := n.queue + [req])));
    }
  }

  lemma HeadMovedNests(cfg: Config, n: Node, height: nat)
    requires ValidConfig(cfg) && WellFormed(n)
    ensures Within(n, OnHeadMoved(cfg, n, height), |n.future.Keys| + 1)
  {
    hide StartHeight, StillWaiting, LandedReplies, GoodBucket, Ahead;
    if height >= n.rs.height {
      StartHeightNests(cfg, ResolveWaiters(n, height), height + 1);
    }
  }

  lemma HandleNests(cfg: Config, n: Node, ev: Event)
    requires ValidConfig(cfg) && WellFormed(n)
    ensures Within(n, Handle(cfg, n, ev), |n.future.Keys| + 1)
  {
    hide OnMessage, OnRoundTimeout, OnSubmit, OnHeadMoved, WellFormed;
    match ev
    case Deliver(sm) =>
      OnMessageNests(cfg, n, sm);
      SubsetCount(n.future.Keys - {sm.height}, n.future.Keys);
    case Timeout => TimeoutNests(cfg, n);
    case Submit(req) => SubmitNests(cfg, n, req);
    case HeadMoved(height) => HeadMovedNests(cfg, n, height);
  }

  /** In one turn of the loop, whatever the event, finalizations nest at most one
      deeper than the number of buffered heights, so at most 65 deep; and the
      buffer stays within 64 heights of 32 messages, all above the current one. */
  lemma TurnNests(cfg: Config, n: Node, ev: Event, now: nat)
    requires ValidConfig(cfg) && WellFormed(n) && Ahead(n) && n.depth == 0
    ensures var r := React(cfg, n, ev, now);
            && r.depth == 0 && r.deepest <= |n.future.Keys| + 1 <= MAX_FUTURE_HEIGHTS + 1
            && |r.future.Keys| <= MAX_FUTURE_HEIGHTS
            && forall h :: h in r.future ==> h > r.rs.height && 0 < |r.future[h]| <= MAX_FUTURE_PER_HEIGHT
  {
    hide Handle, ExpireWaiters;
    HandleNests(cfg, Woken(n, now), ev);
    var r := React(cfg, n, ev, now);
    forall h | h in r.future ensures h > r.rs.height && 0 < |r.future[h]| <= MAX_FUTURE_PER_HEIGHT {
      assert GoodBucket(r.future[h], h);
    }
  }

  /** A bucket that is full loses its oldest message, never the new one; other
      heights are untouched, and a full buffer turns away only new heights. */
  lemma BufferKeepsNewest(n: Node, sm: Message)
    requires WellFormed(n) && sm.height > n.rs.height
    ensures var r, was := BufferFuture(n, sm), if sm.height in n.future then n.future[sm.height] else [];
            && r.catchUps == n.catchUps + 1
            && (forall h :: h != sm.height ==> (h in r.future <==> h in n.future))
            && (forall h :: h != sm.height && h in n.future ==> r.future[h] == n.future[h])
            && (sm.height !in r.future <==> sm.height !in n.future && |n.future.Keys| == MAX_FUTURE_HEIGHTS)
            && (sm.height in r.future ==>
                  && |r.future[sm.height]| ==
                     (if |was| < MAX_FUTURE_PER_HEIGHT then |was| + 1 else MAX_FUTURE_PER_HEIGHT)
                  && r.future[sm.height] == (was + [sm])[|was| + 1 - |r.future[sm.height]|..])
  {
    hide Ahead;
    var bucket := if sm.height in n.future then n.future[sm.height] else [];
    assert bucket == [] || GoodBucket(bucket, sm.height);
    hide WellFormed, GoodBucket;
  }
}
