/** What each handler owes its callers and the other validators, in terms of the
    local chain, the lock and the queue: when a proposal is voted for, what a
    timed-out validator reports and what becomes of it, and who is answered. */
module Duties {
  import opened Blocks
  import opened Protocol
  import opened Locks
  import opened Effects
  import Following
  import Storage
  import Ledger

  // --- voting for a proposal ---

  /** The proposer's block for this round, of the height after the head, timely and
      valid on the local chain, and none that the lock forbids. */
  predicate Acceptable(cfg: Config, n: Node, sm: Message)
    requires |cfg.members| > 0
  {
    && n.rs.ph == Idle && sm.round == n.rs.round && sm.signer == ProposerAt(cfg.members, n.rs.height, n.rs.round)
    && (n.rs.lock.Some? ==> BlockHash(n.rs.lock.value.block) == sm.blockHash)
    && sm.body.Some?
    && var b := sm.body.value;
       && BlockHash(b) == sm.blockHash && 0 < Number(b) == |n.chain| == n.rs.height
       && cfg.ops.inTime(b, n.now) && cfg.ops.valid(n.chain, b)
  }

  /** A proposal makes the validator sign anything or hold a block exactly when it
      is acceptable; then it signs a PREPARE for it first, and unless a quorum has
      already prepared it that is all and the block is held. */
  lemma PreparesExactly(cfg: Config, n: Node, sm: Message)
    requires ValidConfig(cfg) && WellFormed(n) && sm.typ == Proposal && sm.height == n.rs.height
    ensures var r := OnProposal(cfg, n, sm);
            var vote := Message(Prepare, n.rs.height, n.rs.round, sm.blockHash, None, 0, ZeroHash, cfg.self);
            && (!Acceptable(cfg, n, sm) ==> r == n)
            && (Acceptable(cfg, n, sm) ==> n.sent + [vote] <= r.sent)
            && (Acceptable(cfg, n, sm) && !ForeignIn(cfg.self, n.rs.prepares) ==>
                  r.sent == n.sent + [vote] && r.rs.proposal == sm.body && r.rs.ph == PrePrepared)
  {
    hide CastPrepare, ForeignIn, RoundTimeout, ProposerAt, GoodBucket;
    if Acceptable(cfg, n, sm) {
      var n1 := n.(rs := n.rs.(proposal := sm.body));
      PrepareSaid(cfg, n1, sm.blockHash, sm.body.value);
      if !ForeignIn(cfg.self, n1.rs.prepares) {
        CastPrepareAlone(cfg, n1, sm.blockHash);
      }
    }
  }

  lemma PrepareSaid(cfg: Config, n: Node, hash: Hash, block: Block)
    requires ValidConfig(cfg) && WellFormed(n)
    ensures n.sent + [Vote(cfg, n, Prepare, hash)] <= CastPrepare(cfg, n, hash).sent
  {
    hide CheckPrepareQuorum, GoodBucket, Record, ForeignIn, Steady;
    var sm := Vote(cfg, n, Prepare, hash);
    OwnVoteNotForeign(n.rs.(ph := PrePrepared), sm);
    CheckPrepareQuorumKeeps(cfg, Broadcast(n.(rs := Record(n.rs.(ph := PrePrepared), sm).rs), sm), hash);
  }

  /** With the ledger behind the engine: no signature answers a proposal whose block
      does not re-execute on the head. */
  lemma AnswersReexecuted(cfg: Config, n: Node, sm: Message, evm: Ledger.Evm)
    requires ValidConfig(cfg) && WellFormed(n) && sm.typ == Proposal && sm.height == n.rs.height
    requires Following.BackedBy(cfg.ops, evm)
    ensures OnProposal(cfg, n, sm).sent != n.sent ==>
              sm.body.Some? && BlockHash(sm.body.value) == sm.blockHash
              && Storage.ValidNext(evm, n.chain, sm.body.value)
  {
    hide OnProposal, Storage.ValidNext, ProposerAt;
    PreparesExactly(cfg, n, sm);
  }

  // --- reporting the lock, and handing it on ---

  /** m reports exactly this lock. */
  predicate Reports(m: Message, lock: Option<Lock>) {
    match lock
    case None => m.lockedHash == ZeroHash && m.lockedRound == 0 && m.body == None
    case Some(l) => m.lockedHash == BlockHash(l.block) && m.lockedRound == l.round && m.body == Some(l.block)
  }

  /** m is a ROUND-CHANGE that s signs when its timer runs out. */
  predicate AskedOnTimeout(cfg: Config, s: Node, m: Message)
    requires ValidConfig(cfg) && WellFormed(s)
  {
    var sent := OnRoundTimeout(cfg, s).sent;
    m.typ == RoundChange && exists i :: |s.sent| <= i < |sent| && sent[i] == m
  }

  /** A timed-out validator asks for the next round once, and what it asks with
      reports exactly its own lock. */
  lemma TimeoutReports(cfg: Config, s: Node)
    requires ValidConfig(cfg) && WellFormed(s)
    ensures var sent := OnRoundTimeout(cfg, s).sent;
            && |s.sent| < |sent| && s.sent == sent[..|s.sent|] && AskedOnTimeout(cfg, s, sent[|s.sent|])
    ensures forall m :: AskedOnTimeout(cfg, s, m) ==>
              && m == OnRoundTimeout(cfg, s).sent[|s.sent|] && Reports(m, s.rs.lock) && m.signer == cfg.self
              && m.height == s.rs.height && m.round == (s.rs.round + 1) % ROUND_LIMIT
  {
    hide OnRoundTimeout, Steady, GoodBucket;
    TimeoutKeeps(cfg, s);
    var sent, vote := OnRoundTimeout(cfg, s).sent, RoundChangeVote(cfg, s, (s.rs.round + 1) % ROUND_LIMIT);
    assert (s.sent + [vote])[|s.sent|] == vote == sent[|s.sent|];
  }

  /** The lock a COMMIT leaves behind is of the block and the round of that COMMIT. */
  lemma LockIsOfCommit(cfg: Config, n: Node)
    requires ValidConfig(cfg) && WellFormed(n) && n.rs.proposal.Some?
    ensures var r := LockAndCommit(cfg, n);
            && |r.sent| == |n.sent| + 1 && r.rs.lock.Some?
            && var m := r.sent[|n.sent|];
               && m.typ == Commit && m.height == n.rs.height && m.round == n.rs.round == r.rs.lock.value.round
               && m.blockHash == BlockHash(r.rs.lock.value.block) && Some(r.rs.lock.value.block) == n.rs.proposal
  {
    hide Record;
  }

  /** Validator `a` of the votes is locked, and none of the others in a later round. */
  predicate LockedLatest(votes: map<Address, Message>, senders: map<Address, Node>, a: Address)
    requires forall b :: b in votes ==> b in senders
  {
    && a in votes && senders[a].rs.lock.Some?
    && forall b :: b in votes && senders[b].rs.lock.Some? ==>
         senders[b].rs.lock.value.round <= senders[a].rs.lock.value.round
  }

  /** The votes are what their senders sign when their timers run out. */
  ghost predicate AllTimedOut(votes: map<Address, Message>, cfgs: map<Address, Config>, senders: map<Address, Node>) {
    forall a :: a in votes ==>
      a in cfgs && a in senders && ValidConfig(cfgs[a]) && WellFormed(senders[a])
      && AskedOnTimeout(cfgs[a], senders[a], votes[a])
  }

  lemma VotesReport(votes: map<Address, Message>, cfgs: map<Address, Config>, senders: map<Address, Node>)
    requires AllTimedOut(votes, cfgs, senders)
    ensures forall a :: a in votes ==> Reports(votes[a], senders[a].rs.lock)
  {
    hide AskedOnTimeout, Reports, WellFormed, ValidConfig;
    forall a | a in votes ensures Reports(votes[a], senders[a].rs.lock) {
      TimeoutReports(cfgs[a], senders[a]);
    }
  }

  /** The scan finds a latest lock among the senders', if there is any. */
  lemma ReportedLatest(votes: map<Address, Message>, order: seq<Address>, senders: map<Address, Node>)
    requires (forall a :: a in votes ==> a in order) && forall a :: a in votes ==> a in senders
    requires forall a :: a in votes ==> Reports(votes[a], senders[a].rs.lock)
    ensures var best := HighestLock(votes, order);
            && (best.Some? <==> exists a :: a in votes && senders[a].rs.lock.Some?)
            && (best.Some? ==> exists a :: LockedLatest(votes, senders, a) && best == Some(votes[a]))
  {
    HighestLockIsHighest(votes, order);
    hide HighestLock;
    var best := HighestLock(votes, order);
    if best.Some? {
      var a :| a in votes && votes[a] == best.value;
      assert CarriesLock(votes[a]);
      assert LockedLatest(votes, senders, a);
    }
  }

  /** Proposing with no other PREPARE counted leaves lock and position alone. */
  lemma ProposingKeepsLock(cfg: Config, n: Node)
    requires ValidConfig(cfg) && WellFormed(n) && !ForeignIn(cfg.self, n.rs.prepares)
    ensures var r := MaybePropose(cfg, n);
            r.rs.lock == n.rs.lock && r.rs.round == n.rs.round && r.rs.height == n.rs.height
  {
    hide BroadcastProposal, ProposeFromQueue, GoodBucket, ForeignIn;
    var n1 := if n.synced then n else CheckSynced(n);
    if n1.rs.lock.Some? {
      BroadcastProposalAlone(cfg, n1, n1.rs.lock.value.block);
    } else {
      ProposeFromQueueAlone(cfg, n1);
    }
  }

  /** The lock is handed on.  If a quorum of validators timed out and asked for a
      round, an unlocked validator that enters the round takes over the block of
      one whose own lock is the latest among them, as locked in the round entered;
      and stays unlocked exactly if none of them is locked. */
  lemma LockHandedOn(cfg: Config, n: Node, round: nat, cfgs: map<Address, Config>, senders: map<Address, Node>)
    requires ValidConfig(cfg) && WellFormed(n) && n.rs.lock.None?
    requires round > n.rs.round && ChangeCount(n.rs, round) >= cfg.q
    requires AllTimedOut(n.rs.changes[round], cfgs, senders)
    requires forall a :: a in n.rs.changes[round] ==> a in cfg.scan(n.rs.height, round)
    ensures var r, votes := CheckRoundChangeQuorum(cfg, n, round), n.rs.changes[round];
            && r.rs.round == round
            && (r.rs.lock.Some? <==> exists a :: a in votes && senders[a].rs.lock.Some?)
            && (r.rs.lock.Some? ==> exists a :: LockedLatest(votes, senders, a) &&
                                                r.rs.lock == Some(Lock(senders[a].rs.lock.value.block, round)))
  {
    hide MaybePropose, AllTimedOut, HighestLock, ProposerAt, GoodBucket, RoundTimeout;
    var votes := n.rs.changes[round];
    VotesReport(votes, cfgs, senders);
    VotersKnown(votes, cfgs, senders);
    ReportedLatest(votes, cfg.scan(n.rs.height, round), senders);
    ProposingKeepsLock(cfg, NextRound(cfg, n, round));
  }

  lemma VotersKnown(votes: map<Address, Message>, cfgs: map<Address, Config>, senders: map<Address, Node>)
    requires AllTimedOut(votes, cfgs, senders)
    ensures forall a :: a in votes ==> a in senders
  {
    hide AskedOnTimeout, WellFormed;
  }

  // --- acting on a PREPARE quorum ---

  /** A validator signs COMMIT for the block it prepares as soon as a quorum has
      prepared it, that block and no other; short of that nothing happens. */
  lemma PrepareQuorumCommits(cfg: Config, n: Node, hash: Hash)
    requires ValidConfig(cfg) && WellFormed(n)
    ensures var r := CheckPrepareQuorum(cfg, n, hash);
            if n.rs.ph == PrePrepared && n.rs.proposal.Some? && BlockHash(n.rs.proposal.value) == hash
               && hash in n.rs.prepares && |n.rs.prepares[hash]| >= cfg.q
            then n.sent + [Message(Commit, n.rs.height, n.rs.round, hash, None, 0, ZeroHash, cfg.self)] <= r.sent
            else r == n
  {
    hide CheckCommitQuorum, Steady, GoodBucket, Record;
    if PrepareQuorum(cfg, n.rs, hash) {
      TwoVotersOneForeign(n.rs.prepares[hash], cfg.self);
      CheckCommitQuorumKeeps(cfg, LockAndCommit(cfg, n), hash);
    }
  }

  // --- acting on a COMMIT quorum ---

  /** The validator has the body of the block: proposed in this round, or locked. */
  predicate Holding(rs: Round, hash: Hash, b: Block) {
    BlockHash(b) == hash && (rs.proposal == Some(b) || (rs.lock.Some? && rs.lock.value.block == b))
  }

  /** b has been sealed with the votes counted for it, and stands at its height if
      it could. */
  predicate Decided(cfg: Config, n: Node, r: Node, hash: Hash, b: Block)
    requires hash in n.rs.commits
  {
    && (Number(b) + 1 !in n.future ==>
          r.seals == n.seals[(Number(b), hash) := Certificate(n.rs.round, n.rs.commits[hash].Keys)])
    && (Lands(cfg, n, b) ==> Number(b) < |r.chain| && BlockHash(r.chain[Number(b)]) == hash)
  }

  /** A quorum of COMMITs is never wasted on a validator that has the block, whether
      it was proposed in this round or is held from an earlier one; and one that
      lacks it asks to be caught up.  Short of a quorum nothing happens. */
  lemma CommitQuorumDecides(cfg: Config, n: Node, hash: Hash)
    requires ValidConfig(cfg) && WellFormed(n)
    ensures var r := CheckCommitQuorum(cfg, n, hash);
            if hash !in n.rs.commits || |n.rs.commits[hash]| < cfg.q then r == n
            else if forall b :: !Holding(n.rs, hash, b) then r == n.(catchUps := n.catchUps + 1)
            else exists b :: Holding(n.rs, hash, b) && Decided(cfg, n, r, hash, b)
  {
    hide Finalize, Lands, GoodBucket;
    if Count(n.rs.commits, hash) >= cfg.q && HeldBlock(n.rs, hash).Some? {
      var b := HeldBlock(n.rs, hash).value;
      assert Holding(n.rs, hash, b);
      FinalizeDecides(cfg, n, hash, b);
    } else if Count(n.rs.commits, hash) >= cfg.q {
      assert forall b :: !Holding(n.rs, hash, b);
    }
  }

  lemma FinalizeDecides(cfg: Config, n: Node, hash: Hash, b: Block)
    requires ValidConfig(cfg) && WellFormed(n) && hash in n.rs.commits && BlockHash(b) == hash
    ensures Decided(cfg, n, Finalize(cfg, n, b, n.rs.commits[hash].Keys), hash, b)
  {
    hide Finalize, Lands, GoodBucket;
    var signers := n.rs.commits[hash].Keys;
    if Number(b) + 1 !in n.future {
      FinalizingMovesTo(cfg, n, b, signers);
    }
    if Lands(cfg, n, b) {
      LandedStands(cfg, n, b, signers);
    }
  }

  lemma LandedStands(cfg: Config, n: Node, b: Block, signers: set<Address>)
    requires ValidConfig(cfg) && WellFormed(n) && Lands(cfg, n, b)
    ensures var r := Finalize(cfg, n, b, signers);
            Number(b) < |r.chain| && BlockHash(r.chain[Number(b)]) == BlockHash(b)
  {
    hide StartHeight, GoodBucket, Landed, Lands, Kept;
    var sealed := Sealed(n, b, signers);
    assert Lands(cfg, sealed, b) by {
      SealedLands(cfg, n, b, signers);
    }
    var n1 := Nested(Landed(cfg, sealed, b));
    LandsThere(cfg, sealed, b);
    StartHeightKeeps(cfg, n1, Number(b) + 1);
    KeptChain(cfg, n1, StartHeight(cfg, n1, Number(b) + 1));
  }

  lemma SealedLands(cfg: Config, n: Node, b: Block, signers: set<Address>)
    ensures Lands(cfg, Sealed(n, b, signers), b) == Lands(cfg, n, b)
  {
  }

  lemma LandsThere(cfg: Config, n: Node, b: Block)
    requires Lands(cfg, n, b)
    ensures var chain := Landed(cfg, n, b).chain; Number(b) < |chain| && BlockHash(chain[Number(b)]) == BlockHash(b)
  {
    hide StillWaiting, LandedReplies;
  }

  lemma KeptChain(cfg: Config, n: Node, r: Node)
    requires Kept(cfg, n, r)
    ensures n.chain <= r.chain && n.replies <= r.replies
  {
    hide Accounted, VouchedKept, FiledKept;
  }

  // --- the waiting clients ---

  predicate WaitsFor(req: Request, height: nat) {
    req.candidate.Some? && req.candidate.value.header.number == height
  }

  /** Who is answered when a block lands at a height: exactly the requests whose own
      block that is, each with that block; the others wait on without one. */
  lemma {:induction false} AnsweredExactly(queue: seq<Request>, height: nat)
    ensures forall rep :: rep in LandedReplies(queue, height) <==>
              exists req :: req in queue && WaitsFor(req, height) && rep == Reply(req.id, Mined(req.candidate.value))
    ensures forall x :: x in StillWaiting(queue, height) <==>
              exists req :: req in queue && !WaitsFor(req, height) && x == req.(candidate := None)
  {
    if queue != [] {
      var before, last := queue[..|queue| - 1], queue[|queue| - 1];
      AnsweredExactly(before, height);
      LandedStep(before, last, height);
      assert queue == before + [last];
      hide StillWaiting, LandedReplies;
      assert forall req :: req in queue <==> req in before || req == last;
    }
  }

  /** A validator that hears of a new head answers every request whose block stands
      at that height. */
  lemma HeadMovedAnswers(cfg: Config, n: Node, height: nat, req: Request)
    requires ValidConfig(cfg) && WellFormed(n) && n.rs.height <= height
    requires req in n.queue && WaitsFor(req, height)
    ensures Reply(req.id, Mined(req.candidate.value)) in OnHeadMoved(cfg, n, height).replies
  {
    hide StartHeight, StillWaiting, LandedReplies, Accounted, GoodBucket, Ahead;
    AnsweredExactly(n.queue, height);
    var n1 := ResolveWaiters(n, height);
    var reply := Reply(req.id, Mined(req.candidate.value));
    assert reply in n1.replies;
    StartHeightKeeps(cfg, n1, height + 1);
    RepliesStay(n1.replies, StartHeight(cfg, n1, height + 1).replies, reply);
  }

  lemma RepliesStay(a: seq<Reply>, b: seq<Reply>, x: Reply)
    requires a <= b && x in a
    ensures x in b
  {
  }

  /** So does one that finalizes a block that is, or becomes, its own. */
  lemma FinalizeAnswers(cfg: Config, n: Node, block: Block, signers: set<Address>, req: Request)
    requires ValidConfig(cfg) && WellFormed(n) && Lands(cfg, n, block)
    requires req in n.queue && WaitsFor(req, Number(block))
    ensures Reply(req.id, Mined(req.candidate.value)) in Finalize(cfg, n, block, signers).replies
  {
    hide StartHeight, GoodBucket, Landed, Lands, Kept;
    SealedLands(cfg, n, block, signers);
    var n1 := Nested(Landed(cfg, Sealed(n, block, signers), block));
    LandedAnswers(cfg, Sealed(n, block, signers), block, req);
    StartHeightKeeps(cfg, n1, Number(block) + 1);
    KeptChain(cfg, n1, StartHeight(cfg, n1, Number(block) + 1));
    RepliesStay(n1.replies, StartHeight(cfg, n1, Number(block) + 1).replies, Reply(req.id, Mined(req.candidate.value)));
  }

  lemma LandedAnswers(cfg: Config, n: Node, block: Block, req: Request)
    requires Lands(cfg, n, block) && req in n.queue && WaitsFor(req, Number(block))
    ensures Reply(req.id, Mined(req.candidate.value)) in Landed(cfg, n, block).replies
  {
    hide StillWaiting, LandedReplies;
    AnsweredExactly(n.queue, Number(block));
  }

  lemma {:induction false} ExpiredExactly(queue: seq<Request>, now: nat)
    ensures forall req :: req in Unexpired(queue, now) <==> req in queue && now <= req.deadline
    ensures forall rep :: rep in ExpiredReplies(queue, now) <==>
              exists req :: req in queue && req.deadline < now && rep == Reply(req.id, TimedOut)
  {
    if queue != [] {
      var before, last := queue[..|queue| - 1], queue[|queue| - 1];
      ExpiredExactly(before, now);
      ExpiryStep(before, last, now);
      assert queue == before + [last];
      hide Unexpired, ExpiredReplies;
      assert forall req :: req in queue <==> req in before || req == last;
    }
  }

  /** No turn of the loop leaves a request past its deadline waiting: it has been
      told so. */
  lemma TurnExpires(cfg: Config, n: Node, ev: Event, now: nat)
    requires ValidConfig(cfg) && WellFormed(n)
    ensures var handled, r := Handle(cfg, Woken(n, now), ev), React(cfg, n, ev, now);
            && (forall req :: req in r.queue <==> req in handled.queue && now <= req.deadline)
            && (forall req :: req in handled.queue && req.deadline < now ==> Reply(req.id, TimedOut) in r.replies)
  {
    hide Handle, Unexpired, ExpiredReplies, Accounted, Extends, VouchedKept, FiledKept;
    HandleCounts(cfg, Woken(n, now), ev);
    ExpiredExactly(Handle(cfg, Woken(n, now), ev).queue, now);
  }

  /** A submission is refused exactly at a full queue of 64. */
  lemma SubmitAnswers(cfg: Config, n: Node, req: Request)
    requires ValidConfig(cfg) && WellFormed(n)
    ensures |n.queue| >= 64 ==> OnSubmit(cfg, n, req) == n.(replies := n.replies + [Reply(req.id, Busy)])
    ensures |n.queue| < 64 && (!n.rs.isSelf || n.rs.ph != Idle) ==>
              OnSubmit(cfg, n, req).queue == n.queue + [req] && OnSubmit(cfg, n, req).replies == n.replies
  {
    hide RoundTimeout, GoodBucket;
  }

  /** The round timer is left running exactly when there is something to wait for:
      a queued request, a vote of this round, a lock or another validator's message. */
  lemma TimerRuns(cfg: Config, n: Node)
    ensures var r := ArmTimerIfWorkPending(cfg, n);
            && (r.timer.Some? <==> n.queue != [] || n.rs.ph != Idle || n.rs.lock.Some? || n.rs.peerActivity)
            && r.rs.timerArmed == r.timer.Some?
            && (r.timer.Some? ==> r.timer == Some(RoundTimeout(cfg, n.rs.round)))
  {
    hide RoundTimeout;
  }

  // --- choosing what to propose ---

  /** The requests before k cannot be built on the head, and request k can. */
  predicate FirstBuildable(cfg: Config, n: Node, k: nat) {
    && k < |n.queue| && cfg.ops.build(n.chain, n.queue[k].payload, n.now).Some?
    && forall i :: 0 <= i < k ==> cfg.ops.build(n.chain, n.queue[i].payload, n.now).None?
  }

  /** An idle, synced, unlocked proposer turns away the requests it cannot build, in
      order, and proposes and prepares the block of the first it can. */
  lemma {:induction false} ProposesFirstBuildable(cfg: Config, n: Node, k: nat)
    requires ValidConfig(cfg) && WellFormed(n) && n.rs.prepares == map[] && FirstBuildable(cfg, n, k)
    requires n.rs.isSelf && n.rs.ph == Idle && n.rs.lock.None? && n.rs.height == |n.chain|
    ensures var r, block := MaybePropose(cfg, n), cfg.ops.build(n.chain, n.queue[k].payload, n.now).value;
            && r.queue == [n.queue[k].(candidate := Some(block))] + n.queue[k + 1..]
            && r.replies == n.replies + seq(k, i requires 0 <= i < k => Reply(n.queue[i].id, Rejected))
            && r.sent == n.sent + [Vote(cfg, n, Proposal, BlockHash(block)).(body := Some(block)),
                                   Vote(cfg, n, Prepare, BlockHash(block))]
            && r.rs.proposal == Some(block) && r.rs.ph == PrePrepared
  {
    hide ProposeFromQueue, GoodBucket;
    var n1 := if n.synced then n else CheckSynced(n);
    QueueFirstBuildable(cfg, n1, k);
  }

  lemma {:induction false} QueueFirstBuildable(cfg: Config, n: Node, k: nat)
    requires ValidConfig(cfg) && WellFormed(n) && n.rs.prepares == map[] && FirstBuildable(cfg, n, k)
    ensures var r, block := ProposeFromQueue(cfg, n), cfg.ops.build(n.chain, n.queue[k].payload, n.now).value;
            && r.queue == [n.queue[k].(candidate := Some(block))] + n.queue[k + 1..]
            && r.replies == n.replies + seq(k, i requires 0 <= i < k => Reply(n.queue[i].id, Rejected))
            && r.sent == n.sent + [Vote(cfg, n, Proposal, BlockHash(block)).(body := Some(block)),
                                   Vote(cfg, n, Prepare, BlockHash(block))]
            && r.rs.proposal == Some(block) && r.rs.ph == PrePrepared
    decreases k
  {
    hide BroadcastProposal, GoodBucket;
    if k == 0 {
      var block := cfg.ops.build(n.chain, n.queue[0].payload, n.now).value;
      BroadcastProposalAlone(cfg, n.(queue := [n.queue[0].(candidate := Some(block))] + n.queue[1..]), block);
    } else {
      var n1 := Answered(n, n.queue[0].id, Rejected).(queue := n.queue[1..]);
      assert forall i :: 0 <= i < |n1.queue| ==> n1.queue[i] == n.queue[i + 1];
      QueueFirstBuildable(cfg, n1, k - 1);
      assert n1.queue[k..] == n.queue[k + 1..];
      assert [Reply(n.queue[0].id, Rejected)] + seq(k - 1, i requires 0 <= i < k - 1 => Reply(n1.queue[i].id, Rejected))
          == seq(k, i requires 0 <= i < k => Reply(n.queue[i].id, Rejected));
    }
  }
}
