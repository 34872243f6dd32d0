/** Why a validator stays at the heights it is deciding.  If every lock that a
    ROUND-CHANGE reports is on a block of that ROUND-CHANGE's height, and blocks
    are built on the head, then no handler locks or finalizes a block of another
    height, even when a stale `synced` makes the validator propose one. */
module Course {
  import opened Blocks
  import opened Protocol
  import opened VoteSafety
  import opened HandlerSafety

  /** The condition on a delivered message: a reported lock whose body is the one
      it names is of the height it is reported for. */
  predicate ProperLock(m: Message) {
    m.typ == RoundChange && m.body.Some? && BlockHash(m.body.value) == m.lockedHash ==> Number(m.body.value) == m.height
  }

  /** Candidates are built on the head. */
  ghost predicate BuildsNext(ops: ChainOps) {
    forall chain, payload, now ::
      ops.build(chain, payload, now).Some? ==> Number(ops.build(chain, payload, now).value) == |chain|
  }

  /** The block with this hash is not of this height. */
  predicate Misplaced(hash: Hash, height: nat) {
    !(hash.HashOf? && hash.header.number == height)
  }

  predicate Committed(sent: seq<Message>, height: nat) {
    exists m :: m in sent && m.typ == Commit && m.height == height
  }

  predicate MisplacedPrepare(m: Message) {
    m.typ == Prepare && Misplaced(m.blockHash, m.height)
  }

  // --- what the validator may rely on about the others ---

  /** q other validators have committed some block at the height. */
  ghost predicate Excused(cfg: Config, k: Genuine, height: nat) {
    exists who: set<Address>, x :: ExcusedBy(cfg, k, height, who, x)
  }

  ghost predicate ExcusedBy(cfg: Config, k: Genuine, height: nat, who: set<Address>, x: Hash) {
    |who| >= cfg.q && forall a :: a in who ==> a in cfg.members && a != cfg.self && (a, height, x) in k
  }

  /** q members, this one possibly among them, have prepared the block at the height. */
  ghost predicate PreparedBy(cfg: Config, p: Genuine, height: nat, who: set<Address>, x: Hash) {
    |who| >= cfg.q && forall a :: a in who ==> a in cfg.members && (a != cfg.self ==> (a, height, x) in p)
  }

  ghost predicate CommittedBy(cfg: Config, k: Genuine, height: nat, who: set<Address>, x: Hash) {
    |who| >= cfg.q && forall a :: a in who ==> a in cfg.members && (a != cfg.self ==> (a, height, x) in k)
  }

  /** k and p are the COMMITs and PREPAREs that exist; `sent0` is what the
      validator had signed when the turn began. */
  ghost predicate Guarded(cfg: Config, k: Genuine, p: Genuine, sent0: seq<Message>) {
    && cfg.base >= 1
    && (forall h: nat, x :: (cfg.self, h, x) in k ==> SentCommit(sent0, h, x))
    && (forall h: nat, who, x :: Excused(cfg, k, h) && !Committed(sent0, h) && PreparedBy(cfg, p, h, who, x)
          ==> !Misplaced(x, h))
    && (forall h: nat, who, x :: CommittedBy(cfg, k, h, who, x) && Misplaced(x, h) ==> cfg.self in who)
  }

  // --- the validator's own part ---

  ghost predicate PreparesCounted(cfg: Config, n: Node, p: Genuine) {
    forall x, a :: x in n.rs.prepares && a in n.rs.prepares[x] ==>
      a in cfg.members && (a != cfg.self ==> (a, n.rs.height, x) in p)
  }

  predicate Welcome(p: Genuine, m: Message) {
    ProperLock(m) && (m.typ == Prepare ==> (m.signer, m.height, m.blockHash) in p)
  }

  ghost predicate FutureWelcome(n: Node, p: Genuine) {
    forall h, i :: h in n.future && 0 <= i < |n.future[h]| ==> Welcome(p, n.future[h][i])
  }

  predicate ProperVote(rs: Round, m: Message) {
    m.body.Some? && BlockHash(m.body.value) == m.lockedHash ==> Number(m.body.value) == rs.height
  }

  predicate ChangesProper(rs: Round) {
    forall r, a :: r in rs.changes && a in rs.changes[r] ==> ProperVote(rs, rs.changes[r][a])
  }

  /** A proposal of another height is the validator's own, made when a quorum of
      others had already decided this height. */
  ghost predicate ProposalExcused(cfg: Config, n: Node, k: Genuine) {
    n.rs.proposal.Some? && Number(n.rs.proposal.value) != n.rs.height ==>
      Excused(cfg, k, n.rs.height) && !Committed(n.sent, n.rs.height)
  }

  predicate CommitsPlaced(sent: seq<Message>) {
    forall m :: m in sent && m.typ == Commit ==> !Misplaced(m.blockHash, m.height)
  }

  ghost predicate NewMisplacedExcused(cfg: Config, n: Node, k: Genuine, sent0: seq<Message>) {
    forall m :: m in n.sent && m !in sent0 && MisplacedPrepare(m) ==>
      Excused(cfg, k, m.height) && !Committed(sent0, m.height)
  }

  /** The part that lasts from height to height. */
  ghost predicate Lasting(cfg: Config, n: Node, k: Genuine, p: Genuine, sent0: seq<Message>) {
    && !n.astray && sent0 <= n.sent
    && FutureWelcome(n, p) && CommitsPlaced(n.sent) && NewMisplacedExcused(cfg, n, k, sent0)
  }

  /** The part about the height being decided. */
  ghost predicate Current(cfg: Config, n: Node, k: Genuine, p: Genuine) {
    n.rs.height >= cfg.base && PreparesCounted(cfg, n, p) && ChangesProper(n.rs) && ProposalExcused(cfg, n, k)
  }

  ghost predicate OnTrack(cfg: Config, n: Node, k: Genuine, p: Genuine, sent0: seq<Message>) {
    Lasting(cfg, n, k, p, sent0) && Current(cfg, n, k, p)
  }

  predicate SameTrack(n: Node, r: Node) {
    && r.sent == n.sent && r.future == n.future && r.astray == n.astray && r.seals == n.seals
    && r.rs.height == n.rs.height && r.rs.prepares == n.rs.prepares && r.rs.changes == n.rs.changes
    && r.rs.proposal == n.rs.proposal
  }

  lemma SameTrackKeeps(cfg: Config, n: Node, r: Node, k: Genuine, p: Genuine, sent0: seq<Message>)
    requires SameTrack(n, r) && OnTrack(cfg, n, k, p, sent0)
    ensures OnTrack(cfg, r, k, p, sent0)
  {
    hide Excused, Welcome, Committed, Misplaced;
  }

  lemma CommittedGrows(a: seq<Message>, b: seq<Message>, height: nat)
    requires a <= b
    ensures Committed(a, height) ==> Committed(b, height)
  {
    assert forall m :: m in a ==> m in b;
  }

  lemma SentCommitGrows(a: seq<Message>, b: seq<Message>, height: nat, hash: Hash)
    requires a <= b
    ensures SentCommit(a, height, hash) ==> SentCommit(b, height, hash)
  {
    assert forall m :: m in a ==> m in b;
  }

  // --- single steps ---

  /** A stale proposal: the head is past this height, so others have decided it. */
  lemma StaleIsExcused(cfg: Config, n: Node, k: Genuine, p: Genuine, sent0: seq<Message>)
    requires Guarded(cfg, k, p, sent0) && Disciplined(cfg, n, k) && OnTrack(cfg, n, k, p, sent0)
    requires n.rs.lock.None? && n.rs.height != |n.chain|
    ensures Excused(cfg, k, n.rs.height) && !Committed(n.sent, n.rs.height)
  {
    hide Welcome, Misplaced, Consistent, Authentic;
    var h := n.rs.height;
    assert forall m :: m in n.sent ==> Placed(n.rs, m);
    assert Certified(cfg, n.sent, k, h, BlockHash(n.chain[h]));
    var who :| Quorum(cfg, n.sent, k, who, h, BlockHash(n.chain[h]));
    SentCommitGrows(sent0, n.sent, h, BlockHash(n.chain[h]));
    assert !SentCommit(n.sent, h, BlockHash(n.chain[h]));
    forall a | a in who ensures a in cfg.members && a != cfg.self && (a, h, BlockHash(n.chain[h])) in k {
      assert Known(cfg, n.sent, k, a, h, BlockHash(n.chain[h]));
    }
    assert ExcusedBy(cfg, k, h, who, BlockHash(n.chain[h]));
  }

  /** Filing a vote keeps the tallies what they should be. */
  lemma RecordCounts(cfg: Config, n: Node, sm: Message, p: Genuine)
    requires PreparesCounted(cfg, n, p) && sm.signer in cfg.members
    requires sm.typ == Prepare && sm.signer != cfg.self ==> (sm.signer, n.rs.height, sm.blockHash) in p
    ensures PreparesCounted(cfg, n.(rs := Record(n.rs, sm).rs), p)
  {
    var before, after := n.rs.prepares, Record(n.rs, sm).rs.prepares;
    forall x, a | x in after && a in after[x] ensures a in cfg.members && (a != cfg.self ==> (a, n.rs.height, x) in p) {
      assert (x in before && a in before[x]) || (sm.typ == Prepare && x == sm.blockHash && a == sm.signer);
    }
  }

  lemma RecordChanges(rs: Round, sm: Message)
    requires ChangesProper(rs) && (sm.typ == RoundChange ==> ProperVote(rs, sm))
    ensures ChangesProper(Record(rs, sm).rs)
  {
    var after := Record(rs, sm).rs;
    forall r, a | r in after.changes && a in after.changes[r] ensures ProperVote(after, after.changes[r][a]) {
      if !(sm.typ == RoundChange && r == sm.round && a == sm.signer) {
        assert r in rs.changes && a in rs.changes[r] && after.changes[r][a] == rs.changes[r][a];
      } else if r in rs.changes && a in rs.changes[r] {
        assert ProperVote(rs, rs.changes[r][a]);
      }
    }
  }

  lemma RecordKeeps(cfg: Config, n: Node, sm: Message, k: Genuine, p: Genuine, sent0: seq<Message>)
    requires OnTrack(cfg, n, k, p, sent0) && sm.signer in cfg.members
    requires sm.typ == Prepare && sm.signer != cfg.self ==> (sm.signer, n.rs.height, sm.blockHash) in p
    requires sm.typ == RoundChange ==> ProperVote(n.rs, sm)
    ensures OnTrack(cfg, n.(rs := Record(n.rs, sm).rs), k, p, sent0)
  {
    hide Record, Excused, Welcome, Committed, MisplacedPrepare, PreparesCounted, ChangesProper;
    RecordCounts(cfg, n, sm, p);
    RecordChanges(n.rs, sm);
  }

  /** Signing a message that is neither a misplaced COMMIT nor, unless excused, a
      misplaced PREPARE. */
  lemma SignKeeps(cfg: Config, n: Node, sm: Message, k: Genuine, p: Genuine, sent0: seq<Message>)
    requires OnTrack(cfg, n, k, p, sent0)
    requires sm.typ == Commit ==>
               !Misplaced(sm.blockHash, sm.height)
               && (n.rs.proposal.Some? ==> Number(n.rs.proposal.value) == n.rs.height)
    requires MisplacedPrepare(sm) ==>
               Excused(cfg, k, sm.height) && !Committed(sent0, sm.height)
    ensures OnTrack(cfg, Broadcast(n, sm), k, p, sent0)
  {
    hide Excused, Welcome, Misplaced, MisplacedPrepare;
    var r := Broadcast(n, sm);
    if Committed(r.sent, n.rs.height) && sm.typ != Commit {
      var m :| m in r.sent && m.typ == Commit && m.height == n.rs.height;
      assert m in n.sent;
    }
    forall m | m in r.sent && m.typ == Commit ensures !Misplaced(m.blockHash, m.height) {
      assert m in n.sent || m == sm;
    }
    forall m | m in r.sent && m !in sent0 && MisplacedPrepare(m)
      ensures Excused(cfg, k, m.height) && !Committed(sent0, m.height)
    {
      assert m in n.sent || m == sm;
    }
  }

  lemma PrepareKeeps(cfg: Config, n: Node, k: Genuine, p: Genuine, sent0: seq<Message>)
    requires ValidConfig(cfg) && OnTrack(cfg, n, k, p, sent0) && n.rs.proposal.Some?
    ensures var sm := Vote(cfg, n, Prepare, BlockHash(n.rs.proposal.value));
            OnTrack(cfg, Broadcast(n.(rs := Record(n.rs.(ph := PrePrepared), sm).rs), sm), k, p, sent0)
  {
    hide Excused, Welcome, Record;
    var sm := Vote(cfg, n, Prepare, BlockHash(n.rs.proposal.value));
    var n0 := n.(rs := n.rs.(ph := PrePrepared));
    SameTrackKeeps(cfg, n, n0, k, p, sent0);
    RecordKeeps(cfg, n0, sm, k, p, sent0);
    CommittedGrows(sent0, n.sent, n.rs.height);
    SignKeeps(cfg, n0.(rs := Record(n0.rs, sm).rs), sm, k, p, sent0);
  }

  /** A PREPARE quorum is never for a block of another height. */
  lemma QuorumIsPlaced(cfg: Config, n: Node, hash: Hash, k: Genuine, p: Genuine, sent0: seq<Message>)
    requires Guarded(cfg, k, p, sent0) && OnTrack(cfg, n, k, p, sent0) && PrepareQuorum(cfg, n.rs, hash)
    requires ValidConfig(cfg)
    ensures Number(n.rs.proposal.value) == n.rs.height
  {
    hide Excused, Welcome;
    assert PreparedBy(cfg, p, n.rs.height, n.rs.prepares[hash].Keys, hash);
    CommittedGrows(sent0, n.sent, n.rs.height);
  }

  lemma CommitKeeps(cfg: Config, n: Node, hash: Hash, k: Genuine, p: Genuine, sent0: seq<Message>)
    requires Guarded(cfg, k, p, sent0) && OnTrack(cfg, n, k, p, sent0) && PrepareQuorum(cfg, n.rs, hash)
    requires ValidConfig(cfg)
    ensures OnTrack(cfg, LockAndCommit(cfg, n), k, p, sent0)
  {
    QuorumIsPlaced(cfg, n, hash, k, p, sent0);
    hide Excused, Welcome, Record, Guarded;
    var block := n.rs.proposal.value;
    var sm := Vote(cfg, n, Commit, BlockHash(block));
    var n0 := n.(rs := n.rs.(lock := Some(Lock(block, n.rs.round)), ph := Prepared));
    SameTrackKeeps(cfg, n, n0, k, p, sent0);
    RecordKeeps(cfg, n0, sm, k, p, sent0);
    SignKeeps(cfg, n0.(rs := Record(n0.rs, sm).rs), sm, k, p, sent0);
  }

  /** A COMMIT quorum is never for a block of another height. */
  lemma HeldIsPlaced(cfg: Config, n: Node, hash: Hash, k: Genuine, p: Genuine, sent0: seq<Message>)
    requires ValidConfig(cfg) && Guarded(cfg, k, p, sent0) && OnTrack(cfg, n, k, p, sent0)
    requires Disciplined(cfg, n, k) && Count(n.rs.commits, hash) >= cfg.q && HeldBlock(n.rs, hash).Some?
    ensures Number(HeldBlock(n.rs, hash).value) == n.rs.height
  {
    hide Excused, Welcome, Consistent, Placed, Certified;
    var who := n.rs.commits[hash].Keys;
    forall a | a in who ensures Known(cfg, n.sent, k, a, n.rs.height, hash) {
    }
    assert CommittedBy(cfg, k, n.rs.height, who, hash);
    SentCommitGrows(sent0, n.sent, n.rs.height, hash);
    assert SentCommit(n.sent, n.rs.height, hash) ==> !Misplaced(hash, n.rs.height);
  }

  /** A reported lock is of this height, so taking it over is harmless. */
  lemma NextRoundStays(cfg: Config, n: Node, round: nat, k: Genuine, p: Genuine, sent0: seq<Message>)
    requires ValidConfig(cfg) && OnTrack(cfg, n, k, p, sent0) && round in n.rs.changes
    ensures OnTrack(cfg, NextRound(cfg, n, round), k, p, sent0)
  {
    hide Excused, Welcome, Committed, Misplaced, RoundTimeout, ProposerAt;
    ReportIsVote(n.rs.changes[round], cfg.scan(n.rs.height, round));
  }

  lemma {:induction false} ReportIsVote(votes: map<Address, Message>, order: seq<Address>)
    ensures HighestLock(votes, order).Some? ==> exists a :: a in votes && votes[a] == HighestLock(votes, order).value
  {
    if order != [] {
      ReportIsVote(votes, order[..|order| - 1]);
    }
  }

  lemma SealStays(cfg: Config, n: Node, block: Block, who: set<Address>, k: Genuine, p: Genuine, sent0: seq<Message>)
    requires OnTrack(cfg, n, k, p, sent0) && Number(block) == n.rs.height
    ensures Lasting(cfg, Nested(Landed(cfg, Sealed(n, block, who), block)), k, p, sent0)
    ensures OnTrack(cfg, Sealed(n, block, who), k, p, sent0)
  {
    hide Excused, Welcome, Committed, Misplaced, StillWaiting, LandedReplies;
  }

  lemma OpenKeeps(cfg: Config, n: Node, height: nat, k: Genuine, p: Genuine, sent0: seq<Message>)
    requires ValidConfig(cfg) && GoodBuffer(n) && Lasting(cfg, n, k, p, sent0) && height >= cfg.base
    ensures OnTrack(cfg, OpenHeight(cfg, n, height), k, p, sent0)
  {
    hide Excused, Welcome, Committed, Misplaced, ProposerAt;
  }

  lemma SettleKeeps(cfg: Config, n: Node, height: nat, k: Genuine, p: Genuine, sent0: seq<Message>)
    requires WellFormed(n) && OnTrack(cfg, n, k, p, sent0)
    ensures OnTrack(cfg, SettleHeight(cfg, n, height), k, p, sent0)
  {
    hide Excused, Welcome, Committed, Misplaced, RoundTimeout;
  }

  lemma ReceiveStays(cfg: Config, n: Node, sm: Message, k: Genuine, p: Genuine, sent0: seq<Message>)
    requires OnTrack(cfg, n, k, p, sent0) && Welcome(p, sm) && Verified(cfg, sm) && sm.height == n.rs.height
    ensures OnTrack(cfg, Receive(cfg, n, sm), k, p, sent0)
  {
    RecordKeeps(cfg, n, sm, k, p, sent0);
    hide OnTrack, Record, RoundTimeout;
    SameTrackKeeps(cfg, n.(rs := Record(n.rs, sm).rs), Receive(cfg, n, sm), k, p, sent0);
  }

  lemma BufferStays(cfg: Config, n: Node, sm: Message, k: Genuine, p: Genuine, sent0: seq<Message>)
    requires WellFormed(n) && sm.height > n.rs.height && OnTrack(cfg, n, k, p, sent0) && Welcome(p, sm)
    ensures OnTrack(cfg, BufferFuture(n, sm), k, p, sent0)
  {
    hide Excused, Welcome, Committed, Misplaced;
  }

  lemma AskKeeps(cfg: Config, n: Node, next: nat, k: Genuine, p: Genuine, sent0: seq<Message>)
    requires ValidConfig(cfg) && InHeight(n.rs) && OnTrack(cfg, n, k, p, sent0)
    ensures OnTrack(cfg, AskForRound(cfg, n, next), k, p, sent0)
  {
    var sm := RoundChangeVote(cfg, n, next);
    assert ProperVote(n.rs, sm);
    RecordKeeps(cfg, n, sm, k, p, sent0);
    SignKeeps(cfg, n.(rs := Record(n.rs, sm).rs), sm, k, p, sent0);
    hide OnTrack, Record, RoundTimeout, RoundChangeVote;
    SameTrackKeeps(cfg, Broadcast(n.(rs := Record(n.rs, sm).rs), sm), AskForRound(cfg, n, next), k, p, sent0);
  }

  // --- the handlers ---

  lemma {:induction false} MaybeProposeStays(cfg: Config, n: Node, k: Genuine, p: Genuine, sent0: seq<Message>)
    requires ValidConfig(cfg) && WellFormed(n) && BuildsNext(cfg.ops) && Guarded(cfg, k, p, sent0)
    requires Sound(cfg, n, k) && OnTrack(cfg, n, k, p, sent0)
    ensures OnTrack(cfg, MaybePropose(cfg, n), k, p, sent0)
    decreases n.future.Keys, ForeignRank(cfg, n), 7, 0
  {
    hide BroadcastProposal, ProposeFromQueue, Known, Certified, Consistent, OnTrack, Guarded, BuildsNext;
    if n.rs.isSelf && n.rs.ph == Idle {
      var n1 := if n.synced then n else CheckSynced(n);
      SameVotesSound(cfg, n, n1, k);
      SameTrackKeeps(cfg, n, n1, k, p, sent0);
      if n1.synced {
        if n1.rs.lock.Some? {
          NotAstray(cfg, n1, k, p, sent0);
          BroadcastProposalStays(cfg, n1, n1.rs.lock.value.block, k, p, sent0);
        } else {
          ProposeFromQueueStays(cfg, n1, k, p, sent0);
        }
      }
    }
  }

  lemma NotAstray(cfg: Config, n: Node, k: Genuine, p: Genuine, sent0: seq<Message>)
    requires OnTrack(cfg, n, k, p, sent0)
    ensures !n.astray && Lasting(cfg, n, k, p, sent0)
  {
  }

  /** A block built on the head is of another height only if that is excused. */
  lemma BuiltIsExcused(cfg: Config, n: Node, block: Block, k: Genuine, p: Genuine, sent0: seq<Message>)
    requires Guarded(cfg, k, p, sent0) && Sound(cfg, n, k) && OnTrack(cfg, n, k, p, sent0) && n.rs.lock.None?
    requires Number(block) == |n.chain|
    ensures Number(block) != n.rs.height ==> Excused(cfg, k, n.rs.height) && !Committed(n.sent, n.rs.height)
  {
    NotAstray(cfg, n, k, p, sent0);
    hide Disciplined, OnTrack, Guarded, Excused, Committed;
    if n.rs.height != |n.chain| {
      StaleIsExcused(cfg, n, k, p, sent0);
    }
  }

  lemma {:induction false} ProposeFromQueueStays(cfg: Config, n: Node, k: Genuine, p: Genuine, sent0: seq<Message>)
    requires ValidConfig(cfg) && WellFormed(n) && BuildsNext(cfg.ops) && Guarded(cfg, k, p, sent0)
    requires Sound(cfg, n, k) && OnTrack(cfg, n, k, p, sent0)
    requires n.rs.ph == Idle && n.rs.lock.None?
    ensures OnTrack(cfg, ProposeFromQueue(cfg, n), k, p, sent0)
    decreases n.future.Keys, ForeignRank(cfg, n), 6, |n.queue|
  {
    hide BroadcastProposal, Sound, OnTrack, Guarded, Excused, Committed, GoodBucket;
    if n.queue != [] {
      match cfg.ops.build(n.chain, n.queue[0].payload, n.now)
      case None =>
        var n1 := Answered(n, n.queue[0].id, Rejected).(queue := n.queue[1..]);
        SameVotesSound(cfg, n, n1, k);
        SameTrackKeeps(cfg, n, n1, k, p, sent0);
        ProposeFromQueueStays(cfg, n1, k, p, sent0);
      case Some(block) =>
        var n1 := n.(queue := [n.queue[0].(candidate := Some(block))] + n.queue[1..]);
        SameVotesSound(cfg, n, n1, k);
        SameTrackKeeps(cfg, n, n1, k, p, sent0);
        BuiltIsExcused(cfg, n, block, k, p, sent0);
        BroadcastProposalStays(cfg, n1, block, k, p, sent0);
    }
  }

  lemma ProposalKeeps(cfg: Config, n: Node, block: Block, k: Genuine, p: Genuine, sent0: seq<Message>)
    requires OnTrack(cfg, n, k, p, sent0)
    requires Number(block) != n.rs.height ==> Excused(cfg, k, n.rs.height) && !Committed(n.sent, n.rs.height)
    ensures OnTrack(cfg, n.(rs := n.rs.(proposal := Some(block))), k, p, sent0)
  {
    hide Excused, Welcome, Committed, Misplaced;
  }

  lemma {:induction false} BroadcastProposalStays(cfg: Config, n: Node, block: Block, k: Genuine, p: Genuine,
                                                  sent0: seq<Message>)
    requires ValidConfig(cfg) && WellFormed(n) && BuildsNext(cfg.ops) && Guarded(cfg, k, p, sent0)
    requires Sound(cfg, n, k) && OnTrack(cfg, n, k, p, sent0)
    requires n.rs.ph == Idle && (n.rs.lock.Some? ==> n.rs.lock.value.block == block)
    requires Number(block) != n.rs.height ==> Excused(cfg, k, n.rs.height) && !Committed(n.sent, n.rs.height)
    ensures OnTrack(cfg, BroadcastProposal(cfg, n, block), k, p, sent0)
    decreases n.future.Keys, ForeignRank(cfg, n), 5, 0
  {
    hide CastPrepare, Known, Certified, OnTrack, Guarded, BuildsNext, Excused, Committed;
    var sm := Vote(cfg, n, Proposal, BlockHash(block)).(body := Some(block));
    var n0 := n.(rs := n.rs.(proposal := Some(block)));
    var n1 := Broadcast(n0, sm);
    NotAstray(cfg, n, k, p, sent0);
    assert Disciplined(cfg, n0, k);
    SignSound(cfg, n0, sm, k);
    ProposalKeeps(cfg, n, block, k, p, sent0);
    SignKeeps(cfg, n0, sm, k, p, sent0);
    hide Disciplined;
    CastPrepareStays(cfg, n1, BlockHash(block), k, p, sent0);
    var n2 := CastPrepare(cfg, n1, BlockHash(block));
    SameTrackKeeps(cfg, n2, ArmTimer(cfg, n2), k, p, sent0);
  }

  lemma {:induction false} CastPrepareStays(cfg: Config, n: Node, hash: Hash, k: Genuine, p: Genuine,
                                            sent0: seq<Message>)
    requires ValidConfig(cfg) && WellFormed(n) && BuildsNext(cfg.ops) && Guarded(cfg, k, p, sent0)
    requires Sound(cfg, n, k) && OnTrack(cfg, n, k, p, sent0)
    requires n.rs.ph == Idle && n.rs.proposal.Some? && BlockHash(n.rs.proposal.value) == hash
    ensures OnTrack(cfg, CastPrepare(cfg, n, hash), k, p, sent0)
    decreases n.future.Keys, ForeignRank(cfg, n), 4, 0
  {
    hide CheckPrepareQuorum, Disciplined, OnTrack, Guarded, BuildsNext;
    var sm := Vote(cfg, n, Prepare, hash);
    var n1 := Broadcast(n.(rs := Record(n.rs.(ph := PrePrepared), sm).rs), sm);
    OwnVoteNotForeign(n.rs.(ph := PrePrepared), sm);
    NotAstray(cfg, n, k, p, sent0);
    PrepareSigned(cfg, n, k);
    PrepareKeeps(cfg, n, k, p, sent0);
    CheckPrepareQuorumStays(cfg, n1, hash, k, p, sent0);
  }

  lemma {:induction false} CheckPrepareQuorumStays(cfg: Config, n: Node, hash: Hash, k: Genuine, p: Genuine,
                                                   sent0: seq<Message>)
    requires ValidConfig(cfg) && WellFormed(n) && BuildsNext(cfg.ops) && Guarded(cfg, k, p, sent0)
    requires Sound(cfg, n, k) && OnTrack(cfg, n, k, p, sent0)
    ensures OnTrack(cfg, CheckPrepareQuorum(cfg, n, hash), k, p, sent0)
    decreases n.future.Keys, ForeignRank(cfg, n), 3, 0
  {
    hide CheckCommitQuorum, Disciplined, OnTrack, Guarded, BuildsNext;
    if PrepareQuorum(cfg, n.rs, hash) {
      TwoVotersOneForeign(n.rs.prepares[hash], cfg.self);
      NotAstray(cfg, n, k, p, sent0);
      QuorumIsPlaced(cfg, n, hash, k, p, sent0);
      CommitSigned(cfg, n, k);
      CommitKeeps(cfg, n, hash, k, p, sent0);
      CheckCommitQuorumStays(cfg, LockAndCommit(cfg, n), hash, k, p, sent0);
    }
  }

  lemma {:induction false} CheckCommitQuorumStays(cfg: Config, n: Node, hash: Hash, k: Genuine, p: Genuine,
                                                  sent0: seq<Message>)
    requires ValidConfig(cfg) && WellFormed(n) && BuildsNext(cfg.ops) && Guarded(cfg, k, p, sent0)
    requires Sound(cfg, n, k) && OnTrack(cfg, n, k, p, sent0)
    ensures OnTrack(cfg, CheckCommitQuorum(cfg, n, hash), k, p, sent0)
    decreases n.future.Keys, ForeignRank(cfg, n), 2, 0
  {
    hide Finalize, OnTrack, Guarded, BuildsNext, Certified, Consistent;
    if Count(n.rs.commits, hash) >= cfg.q {
      TwoVotersOneForeign(n.rs.commits[hash], cfg.self);
      NotAstray(cfg, n, k, p, sent0);
      match HeldBlock(n.rs, hash)
      case None => SameTrackKeeps(cfg, n, n.(catchUps := n.catchUps + 1), k, p, sent0);
      case Some(block) =>
        HeldIsPlaced(cfg, n, hash, k, p, sent0);
        FinalizeStays(cfg, n, block, n.rs.commits[hash].Keys, k, p, sent0);
    }
  }

  lemma {:induction false} FinalizeStays(cfg: Config, n: Node, block: Block, signers: set<Address>, k: Genuine,
                                         p: Genuine, sent0: seq<Message>)
    requires ValidConfig(cfg) && WellFormed(n) && BuildsNext(cfg.ops) && Guarded(cfg, k, p, sent0)
    requires Sound(cfg, n, k) && OnTrack(cfg, n, k, p, sent0)
    requires Number(block) == n.rs.height && Quorum(cfg, n.sent, k, signers, n.rs.height, BlockHash(block))
    ensures OnTrack(cfg, Finalize(cfg, n, block, signers), k, p, sent0)
    decreases n.future.Keys, 1, 1, 0
  {
    hide StartHeight, Disciplined, Quorum, Landed, Current, Lasting, Guarded, BuildsNext, Lands;
    var n1 := Sealed(n, block, signers);
    SealSafe(cfg, n, block, signers, k);
    SealStays(cfg, n, block, signers, k, p, sent0);
    var n2 := Landed(cfg, n1, block);
    LandedSafe(cfg, n1, block, signers, k);
    if Lands(cfg, n1, block) {
      var n3 := Nested(n2);
      SameVotesSound(cfg, n2, n3, k);
      HeightAtLeast(cfg, n, k, p);
      StartHeightStays(cfg, n3, Number(block) + 1, k, p, sent0);
      SameTrackKeeps(cfg, StartHeight(cfg, n3, Number(block) + 1), Finalize(cfg, n, block, signers), k, p, sent0);
    }
  }

  lemma HeightAtLeast(cfg: Config, n: Node, k: Genuine, p: Genuine)
    requires Current(cfg, n, k, p)
    ensures n.rs.height >= cfg.base
  {
  }

  lemma {:induction false} StartHeightStays(cfg: Config, n: Node, height: nat, k: Genuine, p: Genuine,
                                            sent0: seq<Message>)
    requires ValidConfig(cfg) && GoodBuffer(n) && BuildsNext(cfg.ops) && Guarded(cfg, k, p, sent0)
    requires Sound(cfg, n, k) && Lasting(cfg, n, k, p, sent0)
    requires cfg.base <= height && n.rs.height < height <= |n.chain|
    ensures OnTrack(cfg, StartHeight(cfg, n, height), k, p, sent0)
    decreases n.future.Keys, 0, 8, 0
  {
    hide MaybePropose, ProcessBuffered, OpenHeight, SettleHeight, Sound, Foreign, OnTrack, Guarded, BuildsNext;
    var n1 := OpenHeight(cfg, n, height);
    HeightOpened(cfg, n, height, k);
    OpenKeeps(cfg, n, height, k, p, sent0);
    var n2 := n1;
    if height in n.future {
      assert GoodBucket(n.future[height], height);
      BucketAuthentic(cfg, n, height, k);
      BucketWelcome(cfg, n, height, k, p, sent0);
      n2 := ProcessBuffered(cfg, n1, n.future[height], height);
      ProcessBufferedSafe(cfg, n1, n.future[height], height, k);
      ProcessBufferedStays(cfg, n1, n.future[height], height, k, p, sent0);
    }
    var n3 := SettleHeight(cfg, n2, height);
    SettleSafe(cfg, n2, height, k);
    SettleKeeps(cfg, n2, height, k, p, sent0);
    MaybeProposeStays(cfg, n3, k, p, sent0);
  }

  lemma BucketWelcome(cfg: Config, n: Node, height: nat, k: Genuine, p: Genuine, sent0: seq<Message>)
    requires Lasting(cfg, n, k, p, sent0) && height in n.future
    ensures !n.astray && forall i :: 0 <= i < |n.future[height]| ==> Welcome(p, n.future[height][i])
  {
    hide Welcome;
  }

  lemma {:induction false} ProcessBufferedStays(cfg: Config, n: Node, msgs: seq<Message>, height: nat, k: Genuine,
                                                p: Genuine, sent0: seq<Message>)
    requires ValidConfig(cfg) && WellFormed(n) && BuildsNext(cfg.ops) && Guarded(cfg, k, p, sent0)
    requires Sound(cfg, n, k) && OnTrack(cfg, n, k, p, sent0)
    requires forall i :: 0 <= i < |msgs| ==> msgs[i].height == height && Authentic(k, msgs[i]) && Welcome(p, msgs[i])
    ensures OnTrack(cfg, ProcessBuffered(cfg, n, msgs, height), k, p, sent0)
    decreases n.future.Keys - {height}, 2, 0, |msgs|
  {
    hide OnMessage, Sound, OnTrack, Guarded, BuildsNext, Authentic, Welcome;
    if msgs != [] {
      OnMessageSafe(cfg, n, msgs[0], k);
      OnMessageStays(cfg, n, msgs[0], k, p, sent0);
      ProcessBufferedStays(cfg, OnMessage(cfg, n, msgs[0]), msgs[1..], height, k, p, sent0);
    }
  }

  lemma {:induction false} OnMessageStays(cfg: Config, n: Node, sm: Message, k: Genuine, p: Genuine,
                                          sent0: seq<Message>)
    requires ValidConfig(cfg) && WellFormed(n) && BuildsNext(cfg.ops) && Guarded(cfg, k, p, sent0)
    requires Sound(cfg, n, k) && OnTrack(cfg, n, k, p, sent0)
    requires Authentic(k, sm) && Welcome(p, sm)
    ensures OnTrack(cfg, OnMessage(cfg, n, sm), k, p, sent0)
    decreases n.future.Keys - {sm.height}, 1, 10, 0
  {
    hide Dispatch, Sound, OnTrack, Guarded, BuildsNext, Record, Receive, BufferFuture, WellFormed, Verified, Authentic,
         Welcome;
    if sm.height > n.rs.height {
      BufferStays(cfg, n, sm, k, p, sent0);
    } else if sm.height == n.rs.height && Verified(cfg, sm) {
      CurrentKeys(n);
      ReceiveForms(cfg, n, sm);
      ReceiveSafe(cfg, n, sm, k);
      ReceiveStays(cfg, n, sm, k, p, sent0);
      if Record(n.rs, sm).accepted {
        DispatchStays(cfg, Receive(cfg, n, sm), sm, k, p, sent0);
      }
    }
  }

  lemma {:induction false} DispatchStays(cfg: Config, n: Node, sm: Message, k: Genuine, p: Genuine,
                                         sent0: seq<Message>)
    requires ValidConfig(cfg) && WellFormed(n) && BuildsNext(cfg.ops) && Guarded(cfg, k, p, sent0)
    requires Sound(cfg, n, k) && OnTrack(cfg, n, k, p, sent0) && sm.height == n.rs.height
    ensures OnTrack(cfg, Dispatch(cfg, n, sm), k, p, sent0)
    decreases n.future.Keys, 1, 9, 0
  {
    hide OnProposal, CheckPrepareQuorum, CheckCommitQuorum, CheckRoundChangeQuorum, Sound, OnTrack, Guarded, BuildsNext;
    match sm.typ
    case Proposal => OnProposalStays(cfg, n, sm, k, p, sent0);
    case Prepare => CheckPrepareQuorumStays(cfg, n, sm.blockHash, k, p, sent0);
    case Commit => CheckCommitQuorumStays(cfg, n, sm.blockHash, k, p, sent0);
    case RoundChange => CheckRoundChangeQuorumStays(cfg, n, sm.round, k, p, sent0);
    case Unknown(_) =>
  }

  lemma {:induction false} OnProposalStays(cfg: Config, n: Node, sm: Message, k: Genuine, p: Genuine,
                                           sent0: seq<Message>)
    requires ValidConfig(cfg) && WellFormed(n) && BuildsNext(cfg.ops) && Guarded(cfg, k, p, sent0)
    requires Sound(cfg, n, k) && OnTrack(cfg, n, k, p, sent0) && sm.height == n.rs.height
    ensures OnTrack(cfg, OnProposal(cfg, n, sm), k, p, sent0)
    decreases n.future.Keys, 1, 8, 0
  {
    hide CastPrepare, Known, Certified, Consistent, OnTrack, Guarded, BuildsNext;
    if sm.round == n.rs.round && n.rs.ph == Idle && AcceptableProposal(n.rs, sm.blockHash) && CarriedBlock(sm).Some? {
      var block := CarriedBlock(sm).value;
      var n0 := n.(rs := n.rs.(proposal := Some(block)));
      assert Sound(cfg, n0, k);
      ProposalKeeps(cfg, n, block, k, p, sent0);
      CastPrepareStays(cfg, n0, BlockHash(block), k, p, sent0);
      var n1 := CastPrepare(cfg, n0, BlockHash(block));
      SameTrackKeeps(cfg, n1, ArmTimer(cfg, n1), k, p, sent0);
    }
  }

  lemma {:induction false} CheckRoundChangeQuorumStays(cfg: Config, n: Node, round: nat, k: Genuine, p: Genuine,
                                                       sent0: seq<Message>)
    requires ValidConfig(cfg) && WellFormed(n) && BuildsNext(cfg.ops) && Guarded(cfg, k, p, sent0)
    requires Sound(cfg, n, k) && OnTrack(cfg, n, k, p, sent0)
    ensures OnTrack(cfg, CheckRoundChangeQuorum(cfg, n, round), k, p, sent0)
    decreases n.future.Keys, 1, 8, 0
  {
    hide MaybePropose, Sound, OnTrack, Guarded, BuildsNext, NextRound;
    if round > n.rs.round && ChangeCount(n.rs, round) >= cfg.q {
      RoundEntered(cfg, n, round, k);
      NextRoundStays(cfg, n, round, k, p, sent0);
      MaybeProposeStays(cfg, NextRound(cfg, n, round), k, p, sent0);
    }
  }

  // --- one turn ---

  lemma TimeoutStays(cfg: Config, n: Node, k: Genuine, p: Genuine, sent0: seq<Message>)
    requires ValidConfig(cfg) && WellFormed(n) && BuildsNext(cfg.ops) && Guarded(cfg, k, p, sent0)
    requires Sound(cfg, n, k) && OnTrack(cfg, n, k, p, sent0)
    ensures OnTrack(cfg, OnRoundTimeout(cfg, n), k, p, sent0)
  {
    hide CheckRoundChangeQuorum, AskForRound, OnTrack, Guarded, BuildsNext, Ahead, GoodBucket, Known, Certified,
         Consistent, Placed;
    var next := (n.rs.round + 1) % ROUND_LIMIT;
    NotAstray(cfg, n, k, p, sent0);
    RoundAsked(cfg, n, next, k);
    AskKeeps(cfg, n, next, k, p, sent0);
    CheckRoundChangeQuorumStays(cfg, AskForRound(cfg, n, next), next, k, p, sent0);
  }

  lemma SubmitStays(cfg: Config, n: Node, req: Request, k: Genuine, p: Genuine, sent0: seq<Message>)
    requires ValidConfig(cfg) && WellFormed(n) && BuildsNext(cfg.ops) && Guarded(cfg, k, p, sent0)
    requires Sound(cfg, n, k) && OnTrack(cfg, n, k, p, sent0)
    ensures OnTrack(cfg, OnSubmit(cfg, n, req), k, p, sent0)
  {
    hide MaybePropose, Disciplined, OnTrack, Guarded, BuildsNext;
    if |n.queue| >= MAX_QUEUE {
      SameTrackKeeps(cfg, n, OnSubmit(cfg, n, req), k, p, sent0);
    } else {
      var n1 := ArmTimerIfWorkPending(cfg, n.(queue := n.queue + [req]));
      SameVotesSound(cfg, n, n1, k);
      SameTrackKeeps(cfg, n, n1, k, p, sent0);
      MaybeProposeStays(cfg, n1, k, p, sent0);
    }
  }

  lemma HeadMovedStays(cfg: Config, n: Node, height: nat, k: Genuine, p: Genuine, sent0: seq<Message>)
    requires ValidConfig(cfg) && WellFormed(n) && BuildsNext(cfg.ops) && Guarded(cfg, k, p, sent0)
    requires Sound(cfg, n, k) && OnTrack(cfg, n, k, p, sent0) && height < |n.chain|
    ensures OnTrack(cfg, OnHeadMoved(cfg, n, height), k, p, sent0)
  {
    hide StartHeight, Disciplined, Guarded, BuildsNext, Current, Lasting, StillWaiting, LandedReplies;
    if height >= n.rs.height {
      var n1 := ResolveWaiters(n, height);
      SameTrackKeeps(cfg, n, n1, k, p, sent0);
      ResolveSafe(cfg, n, height, k);
      HeightAtLeast(cfg, n, k, p);
      StartHeightStays(cfg, n1, height + 1, k, p, sent0);
    }
  }

  /** One turn of the loop keeps the validator on track: under proper input it
      does not go astray, and it signs a misplaced PREPARE only at a height that
      a quorum of others had already decided and where it had not committed. */
  lemma ReactStays(cfg: Config, n: Node, ev: Event, now: nat, k: Genuine, p: Genuine, sent0: seq<Message>)
    requires ValidConfig(cfg) && WellFormed(n) && BuildsNext(cfg.ops) && Guarded(cfg, k, p, sent0)
    requires Sound(cfg, n, k) && OnTrack(cfg, n, k, p, sent0) && Possible(n, ev, k)
    requires ev.Deliver? ==> Welcome(p, ev.sm)
    ensures OnTrack(cfg, React(cfg, n, ev, now), k, p, sent0)
  {
    hide OnMessage, OnRoundTimeout, OnSubmit, OnHeadMoved, Disciplined, OnTrack, Guarded, BuildsNext;
    var n0 := Woken(n, now);
    SameVotesSound(cfg, n, n0, k);
    SameTrackKeeps(cfg, n, n0, k, p, sent0);
    match ev {
      case Deliver(sm) => OnMessageStays(cfg, n0, sm, k, p, sent0);
      case Timeout => TimeoutStays(cfg, n0, k, p, sent0);
      case Submit(req) => SubmitStays(cfg, n0, req, k, p, sent0);
      case HeadMoved(height) => HeadMovedStays(cfg, n0, height, k, p, sent0);
    }
    var n1 := Handle(cfg, n0, ev);
    SameTrackKeeps(cfg, n1, CheckSynced(ExpireWaiters(n1)), k, p, sent0);
  }
}
