/** The engine as the running node has it: one object whose handlers update its
    fields step by step and call each other.  Each handler is proved to reach
    exactly the state its function in Protocol computes, so everything proved
    of those functions holds of this object, and the recursion ends. */
module Engines {
  import opened Blocks
  import opened Protocol
  import opened RoundStates

  /** One step of compacting `queue` in place: slot i is read, slot `kept` is
      overwritten with x, and the slots after i still hold what they held. */
  lemma CompactionStep(queue: seq<Request>, was: seq<Request>, kept: nat, i: nat, x: Request)
    requires kept <= i < |queue| == |was| && queue[i..] == was[i..]
    ensures queue[i] == was[i] && was[..i + 1] == was[..i] + [was[i]]
    ensures queue[i + 1..] == was[i + 1..] && queue[kept := x][i + 1..] == was[i + 1..]
    ensures queue[kept := x][..kept + 1] == queue[..kept] + [x]
  {
    assert queue[i] == queue[i..][0] == was[i..][0];
    assert queue[i + 1..] == queue[i..][1..] && was[i + 1..] == was[i..][1..];
  }

  /** An empty queue stays empty and answers nobody. */
  lemma NobodyWaits(height: nat, now: nat)
    ensures StillWaiting([], height) == [] && LandedReplies([], height) == []
    ensures Unexpired([], now) == [] && ExpiredReplies([], now) == []
  {
  }

  lemma BucketHeights(n: Node, height: nat)
    requires GoodBuffer(n) && height in n.future
    ensures n.future.Keys - {height} < n.future.Keys
    ensures forall i :: 0 <= i < |n.future[height]| ==> n.future[height][i].height == height
  {
    assert GoodBucket(n.future[height], height);
  }

  /** Which of its branches a message takes. */
  lemma MessageBranches(cfg: Config, n: Node, sm: Message)
    requires ValidConfig(cfg) && WellFormed(n)
    ensures sm.height < n.rs.height ==> OnMessage(cfg, n, sm) == n
    ensures sm.height > n.rs.height ==> OnMessage(cfg, n, sm) == BufferFuture(n, sm)
    ensures sm.height == n.rs.height ==>
              && n.future.Keys - {sm.height} == n.future.Keys && WellFormed(Receive(cfg, n, sm))
              && OnMessage(cfg, n, sm) == if !Verified(cfg, sm) then n
                                          else if Record(n.rs, sm).accepted then Dispatch(cfg, Receive(cfg, n, sm), sm)
                                          else Receive(cfg, n, sm)
  {
    hide Dispatch, BufferFuture, Record, GoodBucket, RoundTimeout;
    assert sm.height == n.rs.height ==> n.future.Keys - {sm.height} == n.future.Keys;
  }

  lemma ReplayNone(cfg: Config, n: Node, height: nat)
    requires ValidConfig(cfg) && WellFormed(n)
    ensures ProcessBuffered(cfg, n, [], height) == n
  {
  }

  lemma ReplayFirst(cfg: Config, n: Node, msgs: seq<Message>, i: nat, height: nat)
    requires ValidConfig(cfg) && WellFormed(n) && i < |msgs|
    requires forall k :: 0 <= k < |msgs| ==> msgs[k].height == height
    ensures ProcessBuffered(cfg, n, msgs[i..], height) ==
            ProcessBuffered(cfg, OnMessage(cfg, n, msgs[i]), msgs[i + 1..], height)
  {
    hide OnMessage, GoodBucket, Ahead;
    assert msgs[i..][1..] == msgs[i + 1..];
  }

  /** The buffer while it is being cleared: `keys` have not been looked at yet. */
  function Remaining(was: map<nat, seq<Message>>, keys: set<nat>, height: nat): map<nat, seq<Message>> {
    map h | h in was && (h in keys || h > height) :: was[h]
  }

  lemma DropOne(was: map<nat, seq<Message>>, keys: set<nat>, height: nat, h: nat)
    requires keys <= was.Keys && h in keys
    ensures Remaining(was, keys - {h}, height) ==
            if h <= height then Remaining(was, keys, height) - {h} else Remaining(was, keys, height)
  {
  }

  class Engine {
    const cfg: Config
    var rs: RoundState
    var future: map<nat, seq<Message>>
    var queue: seq<Request>
    var timer: Option<nat>
    var synced: bool
    var now: nat
    // What the engine reaches through its interfaces: the local chain, the
    // certificate store, the transport, the waiting clients, the follower.
    var chain: seq<Block>
    var seals: map<(nat, Hash), Certificate>
    var sent: seq<Message>
    var replies: seq<Reply>
    var catchUps: nat
    ghost var astray: bool
    ghost var depth: nat
    ghost var deepest: nat

    ghost function View(): Node
      reads this, rs
    {
      Node(chain, rs.View(), future, queue, timer, synced, now, seals, sent, replies, catchUps, astray, depth,
           deepest)
    }

    ghost predicate Valid()
      reads this, rs
    {
      ValidConfig(cfg) && WellFormed(View())
    }

    constructor (cfg: Config, chain: seq<Block>)
      requires ValidConfig(cfg) && |chain| > 0
      ensures this.cfg == cfg && fresh(rs) && this.chain == chain && Valid()
      ensures View() == Blank(cfg, chain)
    {
      this.cfg := cfg;
      this.chain := chain;
      rs := new RoundState(cfg, |chain| - 1);
      future, queue, timer, synced, now := map[], [], None, false, 0;
      seals, sent, replies, catchUps, astray, depth, deepest := map[], [], [], 0, false, 0, 0;
    }

    // --- the loop ---

    /** What `Run` does before its first event. */
    method Start()
      requires ValidConfig(cfg) && |chain| > 0
      requires View() == Blank(cfg, chain)
      modifies this, rs
      ensures fresh({rs} - {old(rs)}) && Valid()
      ensures View() == Boot(cfg, old(chain))
    {
      hide Protocol.StartHeight;
      StartHeight(|chain|);
      var _ := CheckSynced();
    }

    method React(ev: Event, now: nat)
      requires Valid()
      modifies this, rs
      ensures fresh({rs} - {old(rs)}) && Valid()
      ensures View() == Protocol.React(cfg, old(View()), ev, now)
    {
      hide Protocol.OnMessage, Protocol.OnRoundTimeout, Protocol.OnSubmit, Protocol.OnHeadMoved, Protocol.ExpireWaiters;
      this.now := now;
      deepest := 0;
      ghost var n0 := View();
      match ev {
        case Deliver(sm) => OnMessage(sm);
        case Timeout => OnRoundTimeout();
        case Submit(req) => OnSubmit(req);
        case HeadMoved(height) => OnHeadMoved(height);
      }
      assert View() == Handle(cfg, n0, ev);
      ExpireWaiters();
      var _ := CheckSynced();
    }

    // --- timers, clients, status ---

    method ArmTimer()
      modifies this, rs
      ensures rs == old(rs) && View() == Protocol.ArmTimer(cfg, old(View()))
    {
      hide Times;
      timer := None;
      var d := cfg.roundTimeout;
      if rs.round >= |cfg.members| {
        d := Times(cfg.roundTimeout, 1 + rs.round - |cfg.members| + 1);
      }
      if d > MAX_ROUND_BACKOFF {
        d := MAX_ROUND_BACKOFF;
      }
      timer := Some(d);
      rs.timerArmed := true;
    }

    method ArmTimerIfWorkPending()
      modifies this, rs
      ensures rs == old(rs) && View() == Protocol.ArmTimerIfWorkPending(cfg, old(View()))
    {
      if queue == [] && rs.ph == Idle && rs.lock.None? && !rs.peerActivity {
        timer := None;
        rs.timerArmed := false;
        return;
      }
      ArmTimer();
    }

    method CheckSynced() returns (ok: bool)
      modifies this
      ensures rs == old(rs) && View() == Protocol.CheckSynced(old(View())) && ok == synced
    {
      synced := rs.height == |chain|;
      return synced;
    }

    method Broadcast(sm: Message)
      modifies this
      ensures rs == old(rs) && View() == Protocol.Broadcast(old(View()), sm)
    {
      sent := sent + [sm];
    }

    /** Compact the queue in place, answering whoever's block stands at this height. */
    method ResolveWaiters(height: nat)
      modifies this
      ensures rs == old(rs) && View() == Protocol.ResolveWaiters(old(View()), height)
    {
      hide StillWaiting, LandedReplies;
      ghost var was, said, n0 := queue, replies, View();
      NobodyWaits(height, 0);
      var kept, i := 0, 0;
      while i < |queue|
        invariant 0 <= kept <= i <= |queue| == |was|
        invariant queue[i..] == was[i..]
        invariant queue[..kept] == StillWaiting(was[..i], height)
        invariant replies == said + LandedReplies(was[..i], height)
        invariant rs == old(rs) && View() == n0.(queue := queue, replies := replies)
      {
        var req := queue[i];
        CompactionStep(queue, was, kept, i, req.(candidate := None));
        LandedStep(was[..i], req, height);
        if LandedAt(req, height) {
          replies := replies + [Reply(req.id, Mined(req.candidate.value))];
        } else {
          queue := queue[kept := req.(candidate := None)];
          kept := kept + 1;
        }
        i := i + 1;
      }
      assert was[..i] == was;
      queue := queue[..kept];
    }

    /** The same compaction for requests whose deadline has passed. */
    method ExpireWaiters()
      modifies this
      ensures rs == old(rs) && View() == Protocol.ExpireWaiters(old(View()))
    {
      hide Unexpired, ExpiredReplies;
      ghost var was, said, n0 := queue, replies, View();
      NobodyWaits(0, now);
      var kept, i := 0, 0;
      while i < |queue|
        invariant 0 <= kept <= i <= |queue| == |was|
        invariant queue[i..] == was[i..]
        invariant queue[..kept] == Unexpired(was[..i], now)
        invariant replies == said + ExpiredReplies(was[..i], now)
        invariant rs == old(rs) && View() == n0.(queue := queue, replies := replies)
      {
        var req := queue[i];
        CompactionStep(queue, was, kept, i, req);
        ExpiryStep(was[..i], req, now);
        if now > req.deadline {
          replies := replies + [Reply(req.id, TimedOut)];
        } else {
          queue := queue[kept := req];
          kept := kept + 1;
        }
        i := i + 1;
      }
      assert was[..i] == was;
      queue := queue[..kept];
    }

    method BufferFuture(sm: Message)
      requires Valid() && sm.height > rs.height
      modifies this
      ensures rs == old(rs) && Valid()
      ensures View() == Protocol.BufferFuture(old(View()), sm)
    {
      catchUps := catchUps + 1;
      if |future.Keys| >= MAX_FUTURE_HEIGHTS {
        if sm.height !in future {
          return;
        }
      }
      var bucket := if sm.height in future then future[sm.height] else [];
      if |bucket| >= MAX_FUTURE_PER_HEIGHT {
        bucket := bucket[1..];
      }
      future := future[sm.height := bucket + [sm]];
    }

    // --- proposing ---

    method MaybePropose()
      requires Valid()
      modifies this, rs
      ensures fresh({rs} - {old(rs)}) && Valid()
      ensures View() == Protocol.MaybePropose(cfg, old(View()))
      decreases View().future.Keys, ForeignRank(cfg, View()), 7, 0
    {
      hide Protocol.BroadcastProposal, Protocol.ProposeFromQueue, ForeignIn, ProposerAt, GoodBucket, Ahead;
      if !rs.isSelf || rs.ph != Idle {
        return;
      }
      if !synced {
        var ok := CheckSynced();
        if !ok {
          return;
        }
      }
      if rs.lock.Some? {
        BroadcastProposal(rs.lock.value.block);
        return;
      }
      ProposeFromQueue();
    }

    /** Offer the oldest request whose block can be built; answer the ones before it. */
    method ProposeFromQueue()
      requires Valid()
      modifies this, rs
      ensures fresh({rs} - {old(rs)}) && Valid()
      ensures View() == Protocol.ProposeFromQueue(cfg, old(View()))
      decreases View().future.Keys, ForeignRank(cfg, View()), 6, |queue|
    {
      hide Protocol.BroadcastProposal, ForeignIn, ProposerAt, GoodBucket, Ahead, BufferKept, Shrinks;
      ghost var n1 := View();
      while queue != []
        invariant rs == old(rs) && rs.View() == old(rs.View()) && future == old(future) && Valid()
        invariant Protocol.ProposeFromQueue(cfg, View()) == Protocol.ProposeFromQueue(cfg, n1)
        decreases |queue|
      {
        var built := cfg.ops.build(chain, queue[0].payload, now);
        if built.None? {
          RejectHead();
        } else {
          OfferHead(built.value);
          BroadcastProposal(built.value);
          return;
        }
      }
    }

    method RejectHead()
      requires queue != []
      modifies this`queue, this`replies
      ensures View() == Answered(old(View()), old(queue)[0].id, Rejected).(queue := old(queue)[1..])
    {
      replies := replies + [Reply(queue[0].id, Rejected)];
      queue := queue[1..];
    }

    /** Remember what is being proposed for the oldest request. */
    method OfferHead(block: Block)
      requires queue != []
      modifies this`queue
      ensures var n := old(View());
              View() == n.(queue := [n.queue[0].(candidate := Some(block))] + n.queue[1..])
    {
      var head := queue[0].(candidate := Some(block));
      assert queue[0 := head] == [head] + queue[1..];
      queue := queue[0 := head];
    }

    method BroadcastProposal(block: Block)
      requires Valid()
      modifies this, rs
      ensures fresh({rs} - {old(rs)}) && Valid()
      ensures View() == Protocol.BroadcastProposal(cfg, old(View()), block)
      decreases View().future.Keys, ForeignRank(cfg, View()), 5, 0
    {
      hide Protocol.CastPrepare;
      var sm := Message(Proposal, rs.height, rs.round, BlockHash(block), Some(block), 0, ZeroHash, cfg.self);
      rs.proposal := Some(block);
      Broadcast(sm);
      CastPrepare(BlockHash(block));
      ArmTimer();
    }

    method CastPrepare(hash: Hash)
      requires Valid()
      modifies this, rs
      ensures fresh({rs} - {old(rs)}) && Valid()
      ensures View() == Protocol.CastPrepare(cfg, old(View()), hash)
      decreases View().future.Keys, ForeignRank(cfg, View()), 4, 0
    {
      hide Protocol.CheckPrepareQuorum;
      var sm := Message(Prepare, rs.height, rs.round, hash, None, 0, ZeroHash, cfg.self);
      rs.ph := PrePrepared;
      OwnVoteNotForeign(rs.View(), sm);
      var _, _ := rs.Record(sm);
      Broadcast(sm);
      CheckPrepareQuorum(hash);
    }

    // --- quorums ---

    method CheckPrepareQuorum(hash: Hash)
      requires Valid()
      modifies this, rs
      ensures fresh({rs} - {old(rs)}) && Valid()
      ensures View() == Protocol.CheckPrepareQuorum(cfg, old(View()), hash)
      decreases View().future.Keys, ForeignRank(cfg, View()), 3, 0
    {
      hide Protocol.CheckCommitQuorum, Protocol.LockAndCommit, BufferKept, Shrinks, GoodBucket, Ahead;
      if rs.ph != PrePrepared || rs.proposal.None? || BlockHash(rs.proposal.value) != hash {
        return;
      }
      if Count(rs.prepares, hash) < cfg.q {
        return;
      }
      TwoVotersOneForeign(rs.prepares[hash], cfg.self);
      LockAndCommit();
      CheckCommitQuorum(hash);
    }

    /** The lock is in place when the COMMIT leaves. */
    method LockAndCommit()
      requires rs.proposal.Some?
      modifies this, rs
      ensures rs == old(rs) && View() == Protocol.LockAndCommit(cfg, old(View()))
    {
      hide Record;
      var block := rs.proposal.value;
      astray := astray || Number(block) != rs.height;
      rs.LockOn(block, rs.round);
      rs.ph := Prepared;
      var sm := Message(Commit, rs.height, rs.round, BlockHash(block), None, 0, ZeroHash, cfg.self);
      var _, _ := rs.Record(sm);
      Broadcast(sm);
    }

    method CheckCommitQuorum(hash: Hash)
      requires Valid()
      modifies this, rs
      ensures fresh({rs} - {old(rs)}) && Valid()
      ensures View() == Protocol.CheckCommitQuorum(cfg, old(View()), hash)
      decreases View().future.Keys, ForeignRank(cfg, View()), 2, 0
    {
      hide Protocol.Finalize;
      if Count(rs.commits, hash) < cfg.q {
        return;
      }
      TwoVotersOneForeign(rs.commits[hash], cfg.self);
      var block := rs.proposal;
      if block.None? || BlockHash(block.value) != hash {
        if rs.lock.Some? && BlockHash(rs.lock.value.block) == hash {
          block := Some(rs.lock.value.block);
        }
      }
      if block.None? || BlockHash(block.value) != hash {
        catchUps := catchUps + 1;
        return;
      }
      Finalize(block.value, rs.commits[hash].Keys);
    }

    method Finalize(block: Block, signers: set<Address>)
      requires Valid()
      modifies this, rs
      ensures fresh({rs} - {old(rs)}) && Valid()
      ensures View() == Protocol.Finalize(cfg, old(View()), block, signers)
      decreases View().future.Keys, 1, 1, 0
    {
      hide Protocol.StartHeight, Protocol.Landed, Lands, GoodBucket, Ahead, Sealed, Nested, BufferKept, Shrinks;
      PutSeals(block, signers);
      var ours := ApplyToChain(block);
      if !ours {
        return;
      }
      ghost var entered := depth;
      Nest();
      StartHeight(Number(block) + 1);
      depth := entered;
    }

    /** The certificate goes to disk before the block does. */
    method PutSeals(block: Block, signers: set<Address>)
      modifies this`seals, this`astray
      ensures View() == Sealed(old(View()), block, signers)
    {
      seals := seals[(Number(block), BlockHash(block)) := Certificate(rs.round, signers)];
      astray := astray || Number(block) != rs.height;
    }

    ghost method Nest()
      modifies this`depth, this`deepest
      ensures View() == Nested(old(View()))
    {
      depth := depth + 1;
      deepest := if deepest > depth then deepest else depth;
    }

    /** Offer the block to the local chain; if it is now, or already was, the
        chain's own, answer the clients waiting for that height. */
    method ApplyToChain(block: Block) returns (ours: bool)
      modifies this
      ensures rs == old(rs) && ours == Lands(cfg, old(View()), block)
      ensures View() == if ours then Landed(cfg, old(View()), block) else old(View())
    {
      hide StillWaiting, LandedReplies;
      var applied := ApplyExternal(cfg.ops, chain, block);
      match applied {
        case Appended(longer) => chain := longer;
        case AlreadyApplied =>
        case _ => return false;
      }
      ResolveWaiters(Number(block));
      return true;
    }

    // --- heights ---

    method StartHeight(height: nat)
      requires ValidConfig(cfg) && GoodBuffer(View())
      modifies this, rs
      ensures fresh({rs} - {old(rs)}) && Valid()
      ensures View() == Protocol.StartHeight(cfg, old(View()), height)
      decreases View().future.Keys, 0, 8, 0
    {
      hide ProcessBuffered, Protocol.MaybePropose, OpenHeight, Protocol.SettleHeight, ForeignIn, GoodBucket, Ahead;
      CatchUpTo(height);
      MaybePropose();
    }

    /** Open the height, replay what was buffered for it, forget the rest of the past. */
    method CatchUpTo(height: nat)
      requires ValidConfig(cfg) && GoodBuffer(View())
      modifies this, rs
      ensures fresh({rs} - {old(rs)}) && Valid()
      ensures var n := old(View());
              var begun := OpenHeight(cfg, n, height);
              View() == Protocol.SettleHeight(cfg, if height in n.future
                                                   then ProcessBuffered(cfg, begun, n.future[height], height)
                                                   else begun, height)
      ensures View().future.Keys <= old(View()).future.Keys
      ensures height in old(View()).future || ForeignRank(cfg, View()) == 0
      ensures height !in View().future
      decreases View().future.Keys, 0, 7, 0
    {
      hide ProcessBuffered, OpenHeight, Protocol.SettleHeight, ForeignIn, Ahead, GoodBucket, ForeignRank, BufferKept;
      var tracked := height in future;
      var buffered := if tracked then future[height] else [];
      if tracked {
        BucketHeights(View(), height);
      }
      OpenRound(height);
      if tracked {
        Replay(buffered, height);
      }
      SettleHeight(height);
    }

    /** A fresh round state; whatever was buffered for the height is taken out. */
    method OpenRound(height: nat)
      requires ValidConfig(cfg) && GoodBuffer(View())
      modifies this
      ensures fresh(rs) && View() == OpenHeight(cfg, old(View()), height)
    {
      hide NewRound;
      rs := new RoundState(cfg, height);
      future := future - {height};
    }

    method Replay(buffered: seq<Message>, height: nat)
      requires Valid() && forall i :: 0 <= i < |buffered| ==> buffered[i].height == height
      modifies this, rs
      ensures fresh({rs} - {old(rs)}) && Valid()
      ensures View() == ProcessBuffered(cfg, old(View()), buffered, height)
      decreases View().future.Keys - {height}, 2, 0, 0
    {
      hide Protocol.OnMessage, ProcessBuffered, GoodBucket, Ahead;
      ghost var n1 := View();
      var i := 0;
      while i < |buffered|
        invariant i <= |buffered| && fresh({rs} - {old(rs)}) && Valid()
        invariant View().future.Keys - {height} <= n1.future.Keys - {height}
        invariant ProcessBuffered(cfg, View(), buffered[i..], height) == ProcessBuffered(cfg, n1, buffered, height)
      {
        ReplayFirst(cfg, View(), buffered, i, height);
        OnMessage(buffered[i]);
        i := i + 1;
      }
      assert buffered[i..] == [];
      ReplayNone(cfg, View(), height);
    }

    /** Forget what is buffered for settled heights, and set the timer. */
    method SettleHeight(height: nat)
      requires Valid()
      modifies this, rs
      ensures rs == old(rs) && Valid()
      ensures View() == Protocol.SettleHeight(cfg, old(View()), height)
    {
      hide Protocol.DropPast, Protocol.ArmTimerIfWorkPending;
      DropPast(height);
      ArmTimerIfWorkPending();
    }

    method DropPast(height: nat)
      requires Valid()
      modifies this
      ensures rs == old(rs) && Valid()
      ensures View() == Protocol.DropPast(old(View()), height)
    {
      hide GoodBucket;
      ghost var n0 := View();
      var keys := future.Keys;
      while keys != {}
        invariant keys <= n0.future.Keys && rs == old(rs) && View() == n0.(future := future)
        invariant future == Remaining(n0.future, keys, height)
        decreases |keys|
      {
        var h :| h in keys;
        DropOne(n0.future, keys, height, h);
        keys := keys - {h};
        if h <= height {
          future := future - {h};
        }
      }
      assert future == Protocol.DropPast(n0, height).future;
    }

    // --- messages ---

    method OnMessage(sm: Message)
      requires Valid()
      modifies this, rs
      ensures fresh({rs} - {old(rs)}) && Valid()
      ensures View() == Protocol.OnMessage(cfg, old(View()), sm)
      decreases View().future.Keys - {sm.height}, 1, 10, 0
    {
      hide Protocol.OnMessage, Protocol.Dispatch, Protocol.BufferFuture, Record, GoodBucket, Receive;
      MessageBranches(cfg, View(), sm);
      if sm.height < rs.height {
        return;
      } else if sm.height > rs.height {
        BufferFuture(sm);
        return;
      }
      if sm.typ.Unknown? || sm.signer !in cfg.members {
        return;
      }
      var accepted := FileMessage(sm);
      if accepted {
        Dispatch(sm);
      }
    }

    /** File a verified message; a new one makes the height live. */
    method FileMessage(sm: Message) returns (accepted: bool)
      requires Valid()
      modifies this, rs
      ensures rs == old(rs) && View() == Receive(cfg, old(View()), sm)
      ensures accepted == Protocol.Record(old(rs.View()), sm).accepted
    {
      hide Record, GoodBucket, Protocol.ArmTimer;
      var equivocated;
      accepted, equivocated := rs.Record(sm);
      if equivocated || !accepted {
        return;
      }
      rs.peerActivity := true;
      if !rs.timerArmed {
        ArmTimer();
      }
    }

    /** What a newly filed message sets off. */
    method Dispatch(sm: Message)
      requires Valid()
      modifies this, rs
      ensures fresh({rs} - {old(rs)}) && Valid()
      ensures View() == Protocol.Dispatch(cfg, old(View()), sm)
      decreases View().future.Keys, 1, 9, 0
    {
      hide Protocol.OnProposal, Protocol.CheckPrepareQuorum, Protocol.CheckCommitQuorum, GoodBucket,
           Protocol.CheckRoundChangeQuorum;
      match sm.typ {
        case Proposal => OnProposal(sm);
        case Prepare => CheckPrepareQuorum(sm.blockHash);
        case Commit => CheckCommitQuorum(sm.blockHash);
        case RoundChange => CheckRoundChangeQuorum(sm.round);
        case Unknown(_) =>
      }
    }

    method OnProposal(sm: Message)
      requires Valid()
      modifies this, rs
      ensures fresh({rs} - {old(rs)}) && Valid()
      ensures View() == Protocol.OnProposal(cfg, old(View()), sm)
      decreases View().future.Keys, 1, 8, 0
    {
      hide Protocol.CastPrepare;
      if ProposerAt(cfg.members, rs.height, sm.round) != sm.signer {
        return;
      }
      if sm.round != rs.round || rs.ph != Idle {
        return;
      }
      if rs.lock.Some? && BlockHash(rs.lock.value.block) != sm.blockHash {
        return;
      }
      var block := CarriedBlock(sm);
      if block.None? {
        return;
      }
      if !VerifyCandidate(cfg.ops, chain, block.value, now) {
        return;
      }
      rs.proposal := block;
      CastPrepare(BlockHash(block.value));
      ArmTimer();
    }

    // --- round changes ---

    method CheckRoundChangeQuorum(round: nat)
      requires Valid()
      modifies this, rs
      ensures fresh({rs} - {old(rs)}) && Valid()
      ensures View() == Protocol.CheckRoundChangeQuorum(cfg, old(View()), round)
      decreases View().future.Keys, 1, 8, 0
    {
      hide Protocol.MaybePropose, Protocol.NextRound, ForeignIn, GoodBucket, Ahead;
      if round <= rs.round || round !in rs.changes || |rs.changes[round]| < cfg.q {
        return;
      }
      NextRound(round);
      MaybePropose();
    }

    /** Enter the round, take over the lock its votes report, and start its timer. */
    method NextRound(round: nat)
      requires ValidConfig(cfg) && round in rs.changes
      modifies this, rs
      ensures rs == old(rs) && View() == Protocol.NextRound(cfg, old(View()), round)
    {
      hide Protocol.HighestLock, RoundTimeout, ProposerAt, Protocol.AdoptLock;
      rs.EnterRound(cfg, round);
      var report := rs.HighestLock(round, cfg.scan(rs.height, round));
      AdoptLock(report, round);
      ArmTimer();
    }

    /** Take over the lock the scan found, unless this validator has one. */
    method AdoptLock(report: Option<Message>, round: nat)
      modifies this, rs
      ensures rs == old(rs) && View() == Protocol.AdoptLock(old(View()), report, round)
    {
      if report.Some? && rs.lock.None? {
        var body := report.value.body;
        if body.Some? && BlockHash(body.value) == report.value.lockedHash {
          rs.LockOn(body.value, round);
          astray := astray || Number(body.value) != rs.height;
        }
      }
    }

    method OnRoundTimeout()
      requires Valid()
      modifies this, rs
      ensures fresh({rs} - {old(rs)}) && Valid()
      ensures View() == Protocol.OnRoundTimeout(cfg, old(View()))
    {
      hide Protocol.CheckRoundChangeQuorum, Protocol.AskForRound, GoodBucket, Ahead;
      var next := (rs.round + 1) % ROUND_LIMIT;
      AskForRound(next);
      CheckRoundChangeQuorum(next);
    }

    /** Call for a round, reporting the lock if there is one, and keep asking. */
    method AskForRound(next: nat)
      modifies this, rs
      ensures rs == old(rs) && View() == Protocol.AskForRound(cfg, old(View()), next)
    {
      hide Record, RoundTimeout;
      var sm := Message(RoundChange, rs.height, next, ZeroHash, None, 0, ZeroHash, cfg.self);
      if rs.lock.Some? {
        var lock := rs.lock.value;
        sm := sm.(lockedRound := lock.round, lockedHash := BlockHash(lock.block), body := Some(lock.block));
      }
      var _, _ := rs.Record(sm);
      Broadcast(sm);
      ArmTimer();
    }

    // --- clients and the follower ---

    method OnSubmit(req: Request)
      requires Valid()
      modifies this, rs
      ensures fresh({rs} - {old(rs)}) && Valid()
      ensures View() == Protocol.OnSubmit(cfg, old(View()), req)
    {
      hide Protocol.MaybePropose;
      if |queue| >= MAX_QUEUE {
        replies := replies + [Reply(req.id, Busy)];
        return;
      }
      queue := queue + [req];
      ArmTimerIfWorkPending();
      MaybePropose();
    }

    method OnHeadMoved(height: nat)
      requires Valid()
      modifies this, rs
      ensures fresh({rs} - {old(rs)}) && Valid()
      ensures View() == Protocol.OnHeadMoved(cfg, old(View()), height)
    {
      hide Protocol.StartHeight, Protocol.ResolveWaiters;
      if height < rs.height {
        return;
      }
      ResolveWaiters(height);
      StartHeight(height + 1);
    }
  }
}
