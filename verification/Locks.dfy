/** The rules of one height: which lock a round change hands on, when a handed-on
    lock belongs to another height and what that does, which votes a tally can
    hold, what a proposer with a lock proposes and how long it waits. */
module Locks {
  import opened Blocks
  import opened Protocol
  import opened VoteSafety

  // --- the lock a round change hands on ---

  predicate CarriesLock(m: Message) {
    m.lockedHash != ZeroHash
  }

  lemma {:induction false} HighestOfListed(votes: map<Address, Message>, order: seq<Address>)
    ensures var r := HighestLock(votes, order);
            && (r.None? <==> forall a :: a in order && a in votes ==> !CarriesLock(votes[a]))
            && (r.Some? ==>
                  && CarriesLock(r.value)
                  && (exists a :: a in order && a in votes && votes[a] == r.value)
                  && forall a :: a in order && a in votes && CarriesLock(votes[a]) ==>
                       votes[a].lockedRound <= r.value.lockedRound)
  {
    if order != [] {
      var shorter, last := order[..|order| - 1], order[|order| - 1];
      HighestOfListed(votes, shorter);
      assert forall a :: a in order <==> a in shorter || a == last;
      assert last in order;
    }
  }

  /** Whatever order the votes are walked in, as long as all are walked, the
      result is a lock-carrying vote of the highest locked round, and there is
      none only if nobody is locked. */
  lemma HighestLockIsHighest(votes: map<Address, Message>, order: seq<Address>)
    requires forall a :: a in votes ==> a in order
    ensures var r := HighestLock(votes, order);
            && (r.None? <==> forall a :: a in votes ==> !CarriesLock(votes[a]))
            && (r.Some? ==>
                  && CarriesLock(r.value) && (exists a :: a in votes && votes[a] == r.value)
                  && forall a :: a in votes && CarriesLock(votes[a]) ==> votes[a].lockedRound <= r.value.lockedRound)
  {
    HighestOfListed(votes, order);
  }

  // --- locks of another height ---

  predicate Adopts(n: Node, report: Option<Message>) {
    && report.Some? && n.rs.lock.None? && report.value.body.Some?
    && BlockHash(report.value.body.value) == report.value.lockedHash
  }

  /** A validator that holds only blocks of its own height still does after
      adopting a reported lock exactly when the reported block is of that height;
      the engine compares hashes there, not numbers. */
  lemma AdoptionStaysInHeight(n: Node, report: Option<Message>, round: nat)
    requires InHeight(n.rs) && n.rs.proposal.None?
    ensures InHeight(AdoptLock(n, report, round).rs) <==>
            !Adopts(n, report) || Number(report.value.body.value) == n.rs.height
    ensures AdoptLock(n, report, round).astray <==>
            n.astray || (Adopts(n, report) && Number(report.value.body.value) != n.rs.height)
  {
  }

  /** A validator with only its own votes counted cannot reach a quorum. */
  lemma AloneCannotDecide(cfg: Config, t: Tally, hash: Hash)
    requires ValidConfig(cfg) && !ForeignIn(cfg.self, t)
    ensures Count(t, hash) < cfg.q
  {
    if Count(t, hash) >= cfg.q {
      TwoVotersOneForeign(t[hash], cfg.self);
    }
  }

  /** With no other PREPARE counted, preparing only signs and files the vote. */
  lemma CastPrepareAlone(cfg: Config, n: Node, hash: Hash)
    requires ValidConfig(cfg) && WellFormed(n) && !ForeignIn(cfg.self, n.rs.prepares)
    ensures var sm := Vote(cfg, n, Prepare, hash);
            CastPrepare(cfg, n, hash) == Broadcast(n.(rs := Record(n.rs.(ph := PrePrepared), sm).rs), sm)
  {
    hide CheckCommitQuorum, ForeignIn, Record;
    var sm := Vote(cfg, n, Prepare, hash);
    var rs := Record(n.rs.(ph := PrePrepared), sm).rs;
    OwnVoteNotForeign(n.rs.(ph := PrePrepared), sm);
    AloneCannotDecide(cfg, rs.prepares, hash);
  }

  lemma BroadcastProposalAlone(cfg: Config, n: Node, block: Block)
    requires ValidConfig(cfg) && WellFormed(n) && !ForeignIn(cfg.self, n.rs.prepares)
    ensures var r := BroadcastProposal(cfg, n, block);
            && r.rs.height == n.rs.height && r.rs.round == n.rs.round && r.rs.lock == n.rs.lock
            && r.rs.proposal == Some(block) && r.rs.ph == PrePrepared
            && r.queue == n.queue && r.replies == n.replies && r.seals == n.seals && r.chain == n.chain
            && r.sent == n.sent + [Vote(cfg, n, Proposal, BlockHash(block)).(body := Some(block)),
                                   Vote(cfg, n, Prepare, BlockHash(block))]
  {
    hide CastPrepare, ForeignIn, Record, GoodBucket, RoundTimeout;
    var sm := Vote(cfg, n, Proposal, BlockHash(block)).(body := Some(block));
    CastPrepareAlone(cfg, Broadcast(n.(rs := n.rs.(proposal := Some(block))), sm), BlockHash(block));
  }

  lemma {:induction false} ProposeFromQueueAlone(cfg: Config, n: Node)
    requires ValidConfig(cfg) && WellFormed(n) && !ForeignIn(cfg.self, n.rs.prepares)
    ensures var r := ProposeFromQueue(cfg, n);
            && r.rs.height == n.rs.height && r.rs.round == n.rs.round && r.rs.lock == n.rs.lock && r.seals == n.seals
    decreases |n.queue|
  {
    hide BroadcastProposal, ForeignIn;
    if n.queue != [] {
      match cfg.ops.build(n.chain, n.queue[0].payload, n.now)
      case None => ProposeFromQueueAlone(cfg, Answered(n, n.queue[0].id, Rejected).(queue := n.queue[1..]));
      case Some(block) =>
        var n1 := n.(queue := [n.queue[0].(candidate := Some(block))] + n.queue[1..]);
        BroadcastProposalAlone(cfg, n1, block);
    }
  }

  /** Opening a height nothing is buffered for leaves the validator at it. */
  lemma StartHeightAlone(cfg: Config, n: Node, height: nat)
    requires ValidConfig(cfg) && GoodBuffer(n) && height !in n.future
    ensures StartHeight(cfg, n, height).rs.height == height && StartHeight(cfg, n, height).seals == n.seals
  {
    hide BroadcastProposal, ProposeFromQueue, GoodBucket, Ahead, ForeignIn;
    var n1 := SettleHeight(cfg, OpenHeight(cfg, n, height), height);
    assert !Foreign(cfg, n1);
    var n2 := if n1.synced then n1 else CheckSynced(n1);
    assert !Foreign(cfg, n2);
    ProposeFromQueueAlone(cfg, n2);
  }

  /** Where finalizing leaves the validator when nothing is buffered for the next
      height: past the block's own number, whatever height it was deciding.  So
      its position goes forward exactly when the block is not of a lower height.
      The certificate that stays says in which round the block was decided. */
  lemma FinalizingMovesTo(cfg: Config, n: Node, block: Block, signers: set<Address>)
    requires ValidConfig(cfg) && WellFormed(n) && Number(block) + 1 !in n.future
    ensures Finalize(cfg, n, block, signers).rs.height ==
            if Lands(cfg, n, block) then Number(block) + 1 else n.rs.height
    ensures Finalize(cfg, n, block, signers).rs.height > n.rs.height <==>
            Lands(cfg, n, block) && Number(block) >= n.rs.height
    ensures Finalize(cfg, n, block, signers).seals ==
            n.seals[(Number(block), BlockHash(block)) := Certificate(n.rs.round, signers)]
  {
    hide StartHeight, GoodBucket, Ahead, Landed;
    var n1 := Sealed(n, block, signers);
    assert Lands(cfg, n1, block) == Lands(cfg, n, block);
    if Lands(cfg, n, block) {
      StartHeightAlone(cfg, Nested(Landed(cfg, n1, block)), Number(block) + 1);
    }
  }

  // --- what a tally can hold ---

  /** Every counted vote is its sender's recorded one for that phase. */
  predicate CommitsFiled(rs: Round) {
    forall x, a :: x in rs.commits && a in rs.commits[x] ==>
      VoteKey(0, Commit, a) in rs.seen && rs.seen[VoteKey(0, Commit, a)] == x
  }

  /** The vote stands in the tally of its kind, under its sender. */
  predicate Counted(rs: Round, sm: Message) {
    match sm.typ
    case Prepare =>
      sm.blockHash in rs.prepares && sm.signer in rs.prepares[sm.blockHash]
      && rs.prepares[sm.blockHash][sm.signer] == sm
    case Commit =>
      sm.blockHash in rs.commits && sm.signer in rs.commits[sm.blockHash] && rs.commits[sm.blockHash][sm.signer] == sm
    case RoundChange =>
      sm.round in rs.changes && sm.signer in rs.changes[sm.round] && rs.changes[sm.round][sm.signer] == sm
    case _ => true
  }

  /** Recording, in any order, keeps each sender on at most one block: a repeat
      changes nothing, and a second block takes the first one away too. */
  lemma RecordingFiles(rs: Round, sm: Message)
    requires CommitsFiled(rs)
    ensures CommitsFiled(Record(rs, sm).rs)
    ensures var r := Record(rs, sm);
            && (r.equivocated <==> KeyOf(sm) in rs.seen && rs.seen[KeyOf(sm)] != sm.blockHash)
            && (r.equivocated && sm.typ == Commit ==>
                  forall x :: x in r.rs.commits ==> sm.signer !in r.rs.commits[x])
            && (r.equivocated && sm.typ == Prepare ==>
                  rs.seen[KeyOf(sm)] in r.rs.prepares ==> sm.signer !in r.rs.prepares[rs.seen[KeyOf(sm)]])
            && (r.equivocated ==> r.rs.faulty == rs.faulty + {sm.signer})
            && (r.accepted ==> r.rs.faulty == rs.faulty && Counted(r.rs, sm))
            && (!r.accepted && !r.equivocated ==> r.rs == rs)
  {
    var r := Record(rs, sm);
    forall x, a | x in r.rs.commits && a in r.rs.commits[x]
      ensures VoteKey(0, Commit, a) in r.rs.seen && r.rs.seen[VoteKey(0, Commit, a)] == x
    {
      if x in rs.commits && a in rs.commits[x] {
        assert rs.seen[VoteKey(0, Commit, a)] == x;
      }
    }
  }

  /** No sender is counted for two blocks. */
  lemma OneBlockPerSender(rs: Round, x: Hash, y: Hash, a: Address)
    requires CommitsFiled(rs) && x in rs.commits && y in rs.commits && a in rs.commits[x] && a in rs.commits[y]
    ensures x == y
  {
    assert rs.seen[VoteKey(0, Commit, a)] == x;
  }

  /** Every counted PREPARE was cast in the round being decided. */
  predicate OneRound(rs: Round) {
    forall x, a :: x in rs.prepares && a in rs.prepares[x] ==> rs.prepares[x][a].round == rs.round
  }

  /** The PREPARE tally stays within one round exactly when no PREPARE of another
      round is filed: a vote is filed by block, whatever round it names. */
  lemma PreparesOfOneRound(rs: Round, sm: Message)
    requires OneRound(rs)
    ensures OneRound(Record(rs, sm).rs) <==>
            !(Record(rs, sm).accepted && sm.typ == Prepare && sm.round != rs.round)
  {
    var r := Record(rs, sm);
    if r.accepted && sm.typ == Prepare {
      assert sm.blockHash in r.rs.prepares && sm.signer in r.rs.prepares[sm.blockHash];
      assert r.rs.prepares[sm.blockHash][sm.signer] == sm;
    }
    forall x, a | x in r.rs.prepares && a in r.rs.prepares[x]
                  && !(r.accepted && sm.typ == Prepare && a == sm.signer && x == sm.blockHash)
      ensures r.rs.prepares[x][a].round == r.rs.round
    {
      assert x in rs.prepares && a in rs.prepares[x];
    }
  }

  /** A PREPARE signed for round 1 and received in round 0 is counted there. */
  lemma PrepareOfAnotherRound(cfg: Config) returns (n: Node, sm: Message)
    requires ValidConfig(cfg)
    ensures WellFormed(n) && OneRound(n.rs) && sm.typ == Prepare && sm.round != n.rs.round
    ensures var r := Receive(cfg, n, sm);
            Count(r.rs.prepares, sm.blockHash) == Count(n.rs.prepares, sm.blockHash) + 1 && !OneRound(r.rs)
  {
    n := Blank(cfg, [Block(Header(ZeroHash, 0, 0, 0, "", 0, World(map[], map[], 0), 0, EmptyRoot, EmptyRoot, {}), [])]);
    sm := Message(Prepare, n.rs.height, 1, ZeroHash, None, 0, ZeroHash, cfg.self);
    hide RoundTimeout, ProposerAt;
    var r := Receive(cfg, n, sm);
    assert r.rs.prepares == map[ZeroHash := map[cfg.self := sm]];
    assert ZeroHash in r.rs.prepares && cfg.self in r.rs.prepares[ZeroHash];
  }

  // --- proposing and waiting ---

  /** A proposer that enters a round holding a lock proposes exactly the locked
      block, whatever is queued, and prepares it. */
  lemma LockOutranksQueue(cfg: Config, n: Node)
    requires ValidConfig(cfg) && WellFormed(n) && n.rs.isSelf && n.rs.ph == Idle && n.rs.prepares == map[]
    requires n.rs.lock.Some? && n.rs.height == |n.chain|
    ensures var r, block := MaybePropose(cfg, n), n.rs.lock.value.block;
            && r.sent == n.sent + [Vote(cfg, n, Proposal, BlockHash(block)).(body := Some(block)),
                                   Vote(cfg, n, Prepare, BlockHash(block))]
            && r.queue == n.queue && r.rs.proposal == Some(block) && r.rs.ph == PrePrepared
  {
    hide BroadcastProposal, ProposeFromQueue, GoodBucket, Ahead;
    BroadcastProposalAlone(cfg, if n.synced then n else CheckSynced(n), n.rs.lock.value.block);
  }

  lemma TimesGrow(d: nat, k: nat)
    ensures Times(d, k + 1) == Times(d, k) + d && Times(d, 1) == d
  {
    assert d * (k + 1) == d * k + d;
  }

  function Capped(d: nat): nat {
    if d > 30000 then 30000 else d
  }

  /** The round timer is flat for one full rotation and from then on each round
      waits one base timeout longer, up to the cap. */
  lemma BackoffShape(cfg: Config, round: nat)
    requires |cfg.members| > 0
    ensures round < |cfg.members| ==> RoundTimeout(cfg, round) == Capped(cfg.roundTimeout)
    ensures round + 1 >= |cfg.members| ==>
              RoundTimeout(cfg, round + 1) == Capped(RoundTimeout(cfg, round) + cfg.roundTimeout)
    ensures RoundTimeout(cfg, round) <= RoundTimeout(cfg, round + 1) <= MAX_ROUND_BACKOFF
  {
    hide Times;
    TimesGrow(cfg.roundTimeout, if round >= |cfg.members| then round - |cfg.members| + 2 else 1);
  }
}
