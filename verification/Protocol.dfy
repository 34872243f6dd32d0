/** One validator of the consensus engine, as functions on values.  The handlers
    call each other exactly as the engine's do: finalizing a block starts the
    next height, which replays buffered messages, which may finalize again. */
module Protocol {
  import opened Blocks

  const MAX_QUEUE: nat := 64
  const MAX_FUTURE_HEIGHTS: nat := 64
  const MAX_FUTURE_PER_HEIGHT: nat := 32
  const MAX_ROUND_BACKOFF: nat := 30000
  const ROUND_LIMIT: nat := 0x1_0000_0000

  datatype MsgType = Proposal | Prepare | Commit | RoundChange | Unknown(code: nat)

  /** A received message.  `body` is None when the carried block is absent or
      does not decode; `signer` is what the signature recovers to. */
  datatype Message = Message(typ: MsgType, height: nat, round: nat, blockHash: Hash, body: Option<Block>,
                             lockedRound: nat, lockedHash: Hash, signer: Address)

  /** The part of a message its signature covers. */
  datatype Signed = Signed(typ: MsgType, height: nat, round: nat, blockHash: Hash, locked: Hash)

  function Digest(m: Message): Signed {
    Signed(m.typ, m.height, if m.typ == Commit then 0 else m.round, m.blockHash,
           if m.typ == RoundChange then m.lockedHash else ZeroHash)
  }

  /** The local chain as the engine sees it: `chain[i]` is the block at height i. */
  datatype ChainOps = ChainOps(
    build: (seq<Block>, nat, nat) -> Option<Block>,
    valid: (seq<Block>, Block) -> bool,
    inTime: (Block, nat) -> bool)

  datatype Applied = Appended(chain: seq<Block>) | AlreadyApplied | Fork | OutOfOrder(expected: nat) | Genesis
                   | Mismatch

  function ApplyExternal(ops: ChainOps, chain: seq<Block>, block: Block): Applied {
    if Number(block) == 0 then Genesis
    else if Number(block) < |chain| then
      if BlockHash(chain[Number(block)]) == BlockHash(block) then AlreadyApplied else Fork
    else if Number(block) > |chain| then OutOfOrder(|chain|)
    else if !ops.valid(chain, block) then Mismatch
    else Appended(chain + [block])
  }

  predicate VerifyCandidate(ops: ChainOps, chain: seq<Block>, block: Block, now: nat) {
    Number(block) != 0 && Number(block) == |chain| && ops.inTime(block, now) && ops.valid(chain, block)
  }

  /** `scan(h, r)` is the order in which the validator's runtime walks the
      round-change votes for round r of height h.  `base` is the length of the
      chain it was started over; no handler reads it. */
  datatype Config = Config(self: Address, members: seq<Address>, q: nat, roundTimeout: nat, ops: ChainOps,
                           scan: (nat, nat) -> seq<Address>, base: nat)

  predicate ValidConfig(cfg: Config) {
    && cfg.self in cfg.members
    && (forall i, j :: 0 <= i < j < |cfg.members| ==> cfg.members[i] != cfg.members[j])
    && 2 <= cfg.q <= |cfg.members|
  }

  function ProposerAt(members: seq<Address>, height: nat, round: nat): (a: Address)
    requires |members| > 0
    ensures a in members
  {
    members[(height % |members| + round % |members|) % |members|]
  }

  datatype Phase = Idle | PrePrepared | Prepared

  datatype VoteKey = VoteKey(round: nat, typ: MsgType, signer: Address)

  type Tally = map<Hash, map<Address, Message>>

  datatype Lock = Lock(block: Block, round: nat)

  datatype Round = Round(height: nat, round: nat, proposer: Address, isSelf: bool, ph: Phase, proposal: Option<Block>,
                         prepares: Tally, commits: Tally, changes: map<nat, map<Address, Message>>,
                         lock: Option<Lock>, seen: map<VoteKey, Hash>, faulty: set<Address>,
                         timerArmed: bool, peerActivity: bool)

  datatype Request = Request(id: nat, payload: nat, deadline: nat, candidate: Option<Block>)

  datatype Answer = Mined(block: Block) | Rejected | Busy | TimedOut

  datatype Reply = Reply(id: nat, answer: Answer)

  datatype Certificate = Certificate(round: nat, signers: set<Address>)

  /** `sent`, `replies` and `catchUps` record what the engine has handed to the
      transport, the waiting clients and the follower.  The rest is history:
      `astray` turns true when the validator locks or finalizes a block whose
      number is not the height it is deciding; `depth` counts the finalizations
      now under way, one inside another, and `deepest` the most there were in
      this turn. */
  datatype Node = Node(chain: seq<Block>, rs: Round, future: map<nat, seq<Message>>, queue: seq<Request>,
                       timer: Option<nat>, synced: bool, now: nat, seals: map<(nat, Hash), Certificate>,
                       sent: seq<Message>, replies: seq<Reply>, catchUps: nat, astray: bool, depth: nat,
                       deepest: nat)

  // --- round state ---

  function NewRound(cfg: Config, height: nat): Round
    requires ValidConfig(cfg)
  {
    var proposer := ProposerAt(cfg.members, height, 0);
    Round(height, 0, proposer, proposer == cfg.self, Idle, None, map[], map[], map[], None, map[], {}, false, false)
  }

  function Count(t: Tally, hash: Hash): nat {
    if hash in t then |t[hash]| else 0
  }

  function AddVote(t: Tally, hash: Hash, sm: Message): Tally {
    t[hash := (if hash in t then t[hash] else map[])[sm.signer := sm]]
  }

  function DropVote(t: Tally, hash: Hash, signer: Address): Tally {
    if hash in t then t[hash := t[hash] - {signer}] else t
  }

  function Withdraw(rs: Round, typ: MsgType, hash: Hash, signer: Address): (r: Round)
    ensures r == rs.(prepares := r.prepares, commits := r.commits)
    ensures typ != Prepare ==> r.prepares == rs.prepares
    ensures typ != Commit ==> r.commits == rs.commits
  {
    match typ
    case Prepare => rs.(prepares := DropVote(rs.prepares, hash, signer))
    case Commit => rs.(commits := DropVote(rs.commits, hash, signer))
    case _ => rs
  }

  function FileVote(rs: Round, sm: Message): (r: Round)
    ensures r == rs.(prepares := r.prepares, commits := r.commits, changes := r.changes)
    ensures sm.typ != Prepare ==> r.prepares == rs.prepares
    ensures sm.typ != Commit ==> r.commits == rs.commits
  {
    match sm.typ
    case Prepare => rs.(prepares := AddVote(rs.prepares, sm.blockHash, sm))
    case Commit => rs.(commits := AddVote(rs.commits, sm.blockHash, sm))
    case RoundChange =>
      var votes := if sm.round in rs.changes then rs.changes[sm.round] else map[];
      rs.(changes := rs.changes[sm.round := votes[sm.signer := sm]])
    case _ => rs
  }

  datatype Recorded = Recorded(rs: Round, accepted: bool, equivocated: bool)

  function KeyOf(sm: Message): VoteKey {
    VoteKey(if sm.typ == Commit then 0 else sm.round, sm.typ, sm.signer)
  }

  function Record(rs: Round, sm: Message): (r: Recorded)
    ensures r.rs == rs.(prepares := r.rs.prepares, commits := r.rs.commits, changes := r.rs.changes,
                        seen := r.rs.seen, faulty := r.rs.faulty)
    ensures sm.typ != Prepare ==> r.rs.prepares == rs.prepares
    ensures sm.typ != Commit ==> r.rs.commits == rs.commits
    ensures !(r.accepted && r.equivocated)
  {
    var key := KeyOf(sm);
    if key in rs.seen then
      if rs.seen[key] == sm.blockHash then Recorded(rs, false, false)
      else Recorded(Withdraw(rs.(faulty := rs.faulty + {sm.signer}), sm.typ, rs.seen[key], sm.signer), false, true)
    else
      Recorded(FileVote(rs.(seen := rs.seen[key := sm.blockHash]), sm), true, false)
  }

  function ChangeCount(rs: Round, round: nat): nat {
    if round in rs.changes then |rs.changes[round]| else 0
  }

  predicate AcceptableProposal(rs: Round, hash: Hash) {
    rs.lock.None? || BlockHash(rs.lock.value.block) == hash
  }

  /** The lock-carrying vote with the highest locked round, first in scan order. */
  function HighestLock(votes: map<Address, Message>, order: seq<Address>): Option<Message> {
    if order == [] then None
    else
      var best := HighestLock(votes, order[..|order| - 1]);
      var a := order[|order| - 1];
      if a in votes && votes[a].lockedHash != ZeroHash && (best.None? || votes[a].lockedRound > best.value.lockedRound)
      then Some(votes[a]) else best
  }

  function EnterRound(cfg: Config, rs: Round, round: nat): Round
    requires ValidConfig(cfg)
  {
    var proposer := ProposerAt(cfg.members, rs.height, round);
    rs.(round := round, proposer := proposer, isSelf := proposer == cfg.self, ph := Idle, proposal := None,
        prepares := map[])
  }

  // --- well-formed nodes, and what every handler keeps ---

  predicate WellFormed(n: Node) {
    && n.rs.height !in n.future
    && |n.future.Keys| <= MAX_FUTURE_HEIGHTS
    && forall h :: h in n.future ==> GoodBucket(n.future[h], h)
  }

  lemma CurrentKeys(n: Node)
    requires WellFormed(n)
    ensures n.future.Keys - {n.rs.height} == n.future.Keys
  {
    assert n.rs.height !in n.future;
  }

  predicate GoodBucket(bucket: seq<Message>, height: nat) {
    0 < |bucket| <= MAX_FUTURE_PER_HEIGHT && forall i :: 0 <= i < |bucket| ==> bucket[i].height == height
  }

  /** Nothing is buffered for a height that is already settled or current. */
  predicate Ahead(n: Node) {
    forall h :: h in n.future ==> h > n.rs.height
  }

  /** The tally counts a vote of some other validator. */
  ghost predicate ForeignIn(self: Address, t: Tally) {
    exists h, a :: h in t && a in t[h] && a != self
  }

  /** Some other validator's PREPARE or COMMIT is counted at this height. */
  ghost predicate Foreign(cfg: Config, n: Node) {
    ForeignIn(cfg.self, n.rs.prepares) || ForeignIn(cfg.self, n.rs.commits)
  }

  ghost function ForeignRank(cfg: Config, n: Node): nat {
    if Foreign(cfg, n) then 1 else 0
  }

  function RequestIds(queue: seq<Request>): multiset<nat> {
    if queue == [] then multiset{} else multiset{queue[0].id} + RequestIds(queue[1..])
  }

  function ReplyIds(replies: seq<Reply>): multiset<nat> {
    if replies == [] then multiset{} else ReplyIds(replies[..|replies| - 1]) + multiset{replies[|replies| - 1].id}
  }

  /** Every request the node has accepted, waiting or answered. */
  function Accounted(n: Node): multiset<nat> {
    RequestIds(n.queue) + ReplyIds(n.replies)
  }

  /** How a handler may change the buffer. */
  ghost predicate BufferKept(n: Node, r: Node) {
    && WellFormed(r)
    && (Ahead(r) || r.rs.height == n.rs.height)
    && (Ahead(n) ==> Ahead(r))
  }

  predicate Shrinks(n: Node, r: Node) {
    r.future.Keys <= n.future.Keys
  }

  // --- waiting clients ---

  function Answered(n: Node, id: nat, answer: Answer): Node {
    n.(replies := n.replies + [Reply(id, answer)])
  }

  predicate LandedAt(req: Request, height: nat) {
    req.candidate.Some? && Number(req.candidate.value) == height
  }

  function StillWaiting(queue: seq<Request>, height: nat): seq<Request> {
    if queue == [] then []
    else
      var last := queue[|queue| - 1];
      StillWaiting(queue[..|queue| - 1], height) + if LandedAt(last, height) then [] else [last.(candidate := None)]
  }

  function LandedReplies(queue: seq<Request>, height: nat): seq<Reply> {
    if queue == [] then []
    else
      var last := queue[|queue| - 1];
      LandedReplies(queue[..|queue| - 1], height)
      + if LandedAt(last, height) then [Reply(last.id, Mined(last.candidate.value))] else []
  }

  function ResolveWaiters(n: Node, height: nat): (r: Node)
    ensures r == n.(queue := r.queue, replies := r.replies)
  {
    n.(queue := StillWaiting(n.queue, height), replies := n.replies + LandedReplies(n.queue, height))
  }

  function Unexpired(queue: seq<Request>, now: nat): seq<Request> {
    if queue == [] then []
    else
      var last := queue[|queue| - 1];
      Unexpired(queue[..|queue| - 1], now) + if now > last.deadline then [] else [last]
  }

  function ExpiredReplies(queue: seq<Request>, now: nat): seq<Reply> {
    if queue == [] then []
    else
      var last := queue[|queue| - 1];
      ExpiredReplies(queue[..|queue| - 1], now) + if now > last.deadline then [Reply(last.id, TimedOut)] else []
  }

  function ExpireWaiters(n: Node): (r: Node)
    ensures r == n.(queue := r.queue, replies := r.replies)
  {
    n.(queue := Unexpired(n.queue, n.now), replies := n.replies + ExpiredReplies(n.queue, n.now))
  }

  // --- timers and status ---

  function Times(d: nat, k: nat): nat {
    d * k
  }

  /** Flat for the first full rotation, then linear, then capped. */
  function RoundTimeout(cfg: Config, round: nat): nat {
    var d := if round >= |cfg.members| then Times(cfg.roundTimeout, round - |cfg.members| + 2) else cfg.roundTimeout;
    if d > MAX_ROUND_BACKOFF then MAX_ROUND_BACKOFF else d
  }

  function ArmTimer(cfg: Config, n: Node): Node {
    n.(timer := Some(RoundTimeout(cfg, n.rs.round)), rs := n.rs.(timerArmed := true))
  }

  function StopTimer(n: Node): Node {
    n.(timer := None, rs := n.rs.(timerArmed := false))
  }

  function ArmTimerIfWorkPending(cfg: Config, n: Node): (r: Node)
    ensures r == n.(timer := r.timer, rs := n.rs.(timerArmed := r.rs.timerArmed))
  {
    if n.queue == [] && n.rs.ph == Idle && n.rs.lock.None? && !n.rs.peerActivity then StopTimer(n)
    else ArmTimer(cfg, n)
  }

  function CheckSynced(n: Node): Node {
    n.(synced := n.rs.height == |n.chain|)
  }

  function Broadcast(n: Node, sm: Message): Node {
    n.(sent := n.sent + [sm])
  }

  function Vote(cfg: Config, n: Node, typ: MsgType, hash: Hash): Message {
    Message(typ, n.rs.height, n.rs.round, hash, None, 0, ZeroHash, cfg.self)
  }

  // --- small facts the handlers need ---

  lemma TwoVotersOneForeign(votes: map<Address, Message>, self: Address)
    requires |votes| >= 2
    ensures exists a :: a in votes && a != self
  {
    if forall a :: a in votes ==> a == self {
      assert votes.Keys <= {self};
      SubsetCount(votes.Keys, {self});
    }
  }

  lemma SubsetCount<T>(a: set<T>, b: set<T>)
    requires a <= b
    ensures |a| <= |b|
  {
    if a != {} {
      var x :| x in a;
      SubsetCount(a - {x}, b - {x});
    }
  }

  lemma {:induction false} ReplyIdsAppend(a: seq<Reply>, b: seq<Reply>)
    ensures ReplyIds(a + b) == ReplyIds(a) + ReplyIds(b)
  {
    if b == [] {
      assert a + b == a;
    } else {
      var k := |b| - 1;
      assert (a + b)[..|a + b| - 1] == a + b[..k];
      ReplyIdsAppend(a, b[..k]);
    }
  }

  lemma {:induction false} RequestIdsAppend(a: seq<Request>, b: seq<Request>)
    ensures RequestIds(a + b) == RequestIds(a) + RequestIds(b)
  {
    if a == [] {
      assert a + b == b;
    } else {
      assert (a + b)[1..] == a[1..] + b;
      RequestIdsAppend(a[1..], b);
    }
  }

  lemma LandedStep(before: seq<Request>, last: Request, height: nat)
    ensures if LandedAt(last, height) then
              && StillWaiting(before + [last], height) == StillWaiting(before, height)
              && LandedReplies(before + [last], height) ==
                 LandedReplies(before, height) + [Reply(last.id, Mined(last.candidate.value))]
            else
              && StillWaiting(before + [last], height) == StillWaiting(before, height) + [last.(candidate := None)]
              && LandedReplies(before + [last], height) == LandedReplies(before, height)
  {
    assert (before + [last])[..|before|] == before;
  }

  lemma ExpiryStep(before: seq<Request>, last: Request, now: nat)
    ensures if now > last.deadline then
              && Unexpired(before + [last], now) == Unexpired(before, now)
              && ExpiredReplies(before + [last], now) == ExpiredReplies(before, now) + [Reply(last.id, TimedOut)]
            else
              && Unexpired(before + [last], now) == Unexpired(before, now) + [last]
              && ExpiredReplies(before + [last], now) == ExpiredReplies(before, now)
  {
    assert (before + [last])[..|before|] == before;
  }

  lemma OneRequest(req: Request, r: Reply)
    ensures RequestIds([req]) == multiset{req.id} && ReplyIds([r]) == multiset{r.id}
  {
    assert [req][1..] == [] && [r][..0] == [];
  }

  /** What is waiting and what has been answered together make up `all`. */
  predicate Balanced(waiting: seq<Request>, answered: seq<Reply>, all: seq<Request>) {
    RequestIds(waiting) + ReplyIds(answered) == RequestIds(all)
  }

  lemma OneAnswered(waiting: seq<Request>, answered: seq<Reply>, all: seq<Request>, req: Request, r: Reply)
    requires Balanced(waiting, answered, all) && r.id == req.id
    ensures Balanced(waiting, answered + [r], all + [req])
  {
    hide RequestIds, ReplyIds;
    RequestIdsAppend(all, [req]);
    ReplyIdsAppend(answered, [r]);
    OneRequest(req, r);
  }

  lemma OneWaits(waiting: seq<Request>, answered: seq<Reply>, all: seq<Request>, req: Request, x: Request)
    requires Balanced(waiting, answered, all) && x.id == req.id
    ensures Balanced(waiting + [x], answered, all + [req])
  {
    hide RequestIds, ReplyIds;
    RequestIdsAppend(all, [req]);
    RequestIdsAppend(waiting, [x]);
    OneRequest(req, Reply(req.id, Busy));
    OneRequest(x, Reply(req.id, Busy));
  }

  lemma {:induction false} LandedAccounting(queue: seq<Request>, height: nat)
    ensures Balanced(StillWaiting(queue, height), LandedReplies(queue, height), queue)
  {
    if queue != [] {
      hide Balanced, StillWaiting, LandedReplies;
      var before, last := queue[..|queue| - 1], queue[|queue| - 1];
      LandedAccounting(before, height);
      assert queue == before + [last];
      LandedStep(before, last, height);
      if LandedAt(last, height) {
        OneAnswered(StillWaiting(before, height), LandedReplies(before, height), before, last,
                    Reply(last.id, Mined(last.candidate.value)));
      } else {
        OneWaits(StillWaiting(before, height), LandedReplies(before, height), before, last, last.(candidate := None));
      }
    }
  }

  lemma {:induction false} ExpiryAccounting(queue: seq<Request>, now: nat)
    ensures Balanced(Unexpired(queue, now), ExpiredReplies(queue, now), queue)
  {
    if queue != [] {
      hide Balanced, Unexpired, ExpiredReplies;
      var before, last := queue[..|queue| - 1], queue[|queue| - 1];
      ExpiryAccounting(before, now);
      assert queue == before + [last];
      ExpiryStep(before, last, now);
      if now > last.deadline {
        OneAnswered(Unexpired(before, now), ExpiredReplies(before, now), before, last, Reply(last.id, TimedOut));
      } else {
        OneWaits(Unexpired(before, now), ExpiredReplies(before, now), before, last, last);
      }
    }
  }

  lemma WaitersAccounted(n: Node, height: nat)
    ensures Accounted(ResolveWaiters(n, height)) == Accounted(n)
    ensures Accounted(ExpireWaiters(n)) == Accounted(n)
  {
    hide RequestIds, ReplyIds, StillWaiting, LandedReplies, Unexpired, ExpiredReplies;
    LandedAccounting(n.queue, height);
    ReplyIdsAppend(n.replies, LandedReplies(n.queue, height));
    ExpiryAccounting(n.queue, n.now);
    ReplyIdsAppend(n.replies, ExpiredReplies(n.queue, n.now));
  }

  lemma QueueHeadRejected(n: Node)
    requires n.queue != []
    ensures Accounted(Answered(n, n.queue[0].id, Rejected).(queue := n.queue[1..])) == Accounted(n)
  {
    ReplyIdsAppend(n.replies, [Reply(n.queue[0].id, Rejected)]);
  }

  lemma QueueHeadProposed(n: Node, block: Block)
    requires n.queue != []
    ensures RequestIds([n.queue[0].(candidate := Some(block))] + n.queue[1..]) == RequestIds(n.queue)
  {
    RequestIdsAppend([n.queue[0].(candidate := Some(block))], n.queue[1..]);
  }

  lemma SubmitAccounted(n: Node, req: Request)
    ensures Accounted(Answered(n, req.id, Busy)) == Accounted(n) + multiset{req.id}
    ensures RequestIds(n.queue + [req]) == RequestIds(n.queue) + multiset{req.id}
  {
    ReplyIdsAppend(n.replies, [Reply(req.id, Busy)]);
    RequestIdsAppend(n.queue, [req]);
  }

  lemma OwnTallyNotForeign(t: Tally, hash: Hash, sm: Message)
    ensures ForeignIn(sm.signer, AddVote(t, hash, sm)) ==> ForeignIn(sm.signer, t)
    ensures forall self :: ForeignIn(self, DropVote(t, hash, sm.signer)) ==> ForeignIn(self, t)
  {
    var t1 := AddVote(t, hash, sm);
    if ForeignIn(sm.signer, t1) {
      var h, a :| h in t1 && a in t1[h] && a != sm.signer;
      assert h in t && a in t[h];
    }
  }

  /** Recording its own vote never makes another validator's vote appear. */
  lemma OwnVoteNotForeign(rs: Round, sm: Message)
    ensures ForeignIn(sm.signer, Record(rs, sm).rs.prepares) ==> ForeignIn(sm.signer, rs.prepares)
    ensures ForeignIn(sm.signer, Record(rs, sm).rs.commits) ==> ForeignIn(sm.signer, rs.commits)
  {
    OwnTallyNotForeign(rs.prepares, sm.blockHash, sm);
    OwnTallyNotForeign(rs.commits, sm.blockHash, sm);
    if KeyOf(sm) in rs.seen {
      OwnTallyNotForeign(rs.prepares, rs.seen[KeyOf(sm)], sm);
      OwnTallyNotForeign(rs.commits, rs.seen[KeyOf(sm)], sm);
    }
  }

  // --- proposing ---

  function MaybePropose(cfg: Config, n: Node): (r: Node)
    requires ValidConfig(cfg) && WellFormed(n)
    ensures BufferKept(n, r) && Shrinks(n, r)
    decreases n.future.Keys, ForeignRank(cfg, n), 7, 0
  {
    if !n.rs.isSelf || n.rs.ph != Idle then n
    else
      var n1 := if n.synced then n else CheckSynced(n);
      if !n1.synced then n1
      else if n1.rs.lock.Some? then BroadcastProposal(cfg, n1, n1.rs.lock.value.block)
      else ProposeFromQueue(cfg, n1)
  }

  function ProposeFromQueue(cfg: Config, n: Node): (r: Node)
    requires ValidConfig(cfg) && WellFormed(n)
    ensures BufferKept(n, r) && Shrinks(n, r)
    decreases n.future.Keys, ForeignRank(cfg, n), 6, |n.queue|
  {
    if n.queue == [] then n
    else
      match cfg.ops.build(n.chain, n.queue[0].payload, n.now)
      case None =>
        ProposeFromQueue(cfg, Answered(n, n.queue[0].id, Rejected).(queue := n.queue[1..]))
      case Some(block) =>
        var head := n.queue[0].(candidate := Some(block));
        BroadcastProposal(cfg, n.(queue := [head] + n.queue[1..]), block)
  }

  function BroadcastProposal(cfg: Config, n: Node, block: Block): (r: Node)
    requires ValidConfig(cfg) && WellFormed(n)
    ensures BufferKept(n, r) && Shrinks(n, r)
    decreases n.future.Keys, ForeignRank(cfg, n), 5, 0
  {
    var sm := Vote(cfg, n, Proposal, BlockHash(block)).(body := Some(block));
    var n1 := Broadcast(n.(rs := n.rs.(proposal := Some(block))), sm);
    ArmTimer(cfg, CastPrepare(cfg, n1, BlockHash(block)))
  }

  function CastPrepare(cfg: Config, n: Node, hash: Hash): (r: Node)
    requires ValidConfig(cfg) && WellFormed(n)
    ensures BufferKept(n, r) && Shrinks(n, r)
    decreases n.future.Keys, ForeignRank(cfg, n), 4, 0
  {
    var sm := Vote(cfg, n, Prepare, hash);
    var n1 := Broadcast(n.(rs := Record(n.rs.(ph := PrePrepared), sm).rs), sm);
    OwnVoteNotForeign(n.rs.(ph := PrePrepared), sm);
    CheckPrepareQuorum(cfg, n1, hash)
  }

  predicate PrepareQuorum(cfg: Config, rs: Round, hash: Hash) {
    && rs.ph == PrePrepared
    && rs.proposal.Some? && BlockHash(rs.proposal.value) == hash
    && Count(rs.prepares, hash) >= cfg.q
  }

  /** The validator is bound to the block before anyone can see its COMMIT. */
  function LockAndCommit(cfg: Config, n: Node): (r: Node)
    requires n.rs.proposal.Some?
    ensures r.future == n.future && r.rs.height == n.rs.height && r.rs.prepares == n.rs.prepares
  {
    var block := n.rs.proposal.value;
    var sm := Vote(cfg, n, Commit, BlockHash(block));
    var rs := n.rs.(lock := Some(Lock(block, n.rs.round)), ph := Prepared);
    Broadcast(n.(rs := Record(rs, sm).rs, astray := n.astray || Number(block) != n.rs.height), sm)
  }

  function CheckPrepareQuorum(cfg: Config, n: Node, hash: Hash): (r: Node)
    requires ValidConfig(cfg) && WellFormed(n)
    ensures BufferKept(n, r) && Shrinks(n, r)
    decreases n.future.Keys, ForeignRank(cfg, n), 3, 0
  {
    if !PrepareQuorum(cfg, n.rs, hash) then n
    else
      TwoVotersOneForeign(n.rs.prepares[hash], cfg.self);
      CheckCommitQuorum(cfg, LockAndCommit(cfg, n), hash)
  }

  function HeldBlock(rs: Round, hash: Hash): Option<Block> {
    if rs.proposal.Some? && BlockHash(rs.proposal.value) == hash then rs.proposal
    else if rs.lock.Some? && BlockHash(rs.lock.value.block) == hash then Some(rs.lock.value.block)
    else None
  }

  function CheckCommitQuorum(cfg: Config, n: Node, hash: Hash): (r: Node)
    requires ValidConfig(cfg) && WellFormed(n)
    ensures BufferKept(n, r) && Shrinks(n, r)
    decreases n.future.Keys, ForeignRank(cfg, n), 2, 0
  {
    if Count(n.rs.commits, hash) < cfg.q then n
    else
      TwoVotersOneForeign(n.rs.commits[hash], cfg.self);
      match HeldBlock(n.rs, hash)
      case None => n.(catchUps := n.catchUps + 1)
      case Some(block) => Finalize(cfg, n, block, n.rs.commits[hash].Keys)
  }

  function Sealed(n: Node, block: Block, signers: set<Address>): (r: Node)
    ensures r == n.(seals := r.seals, astray := r.astray)
  {
    n.(seals := n.seals[(Number(block), BlockHash(block)) := Certificate(n.rs.round, signers)],
       astray := n.astray || Number(block) != n.rs.height)
  }

  /** The block is now the node's own at its height, or already was. */
  predicate Lands(cfg: Config, n: Node, block: Block) {
    var applied := ApplyExternal(cfg.ops, n.chain, block);
    applied.Appended? || applied.AlreadyApplied?
  }

  function Landed(cfg: Config, n: Node, block: Block): (r: Node)
    ensures r == n.(chain := r.chain, queue := r.queue, replies := r.replies)
  {
    match ApplyExternal(cfg.ops, n.chain, block)
    case Appended(chain) => ResolveWaiters(n, Number(block)).(chain := chain)
    case AlreadyApplied => ResolveWaiters(n, Number(block))
    case _ => n
  }

  function Nested(n: Node): (r: Node)
    ensures r == n.(depth := r.depth, deepest := r.deepest)
  {
    n.(depth := n.depth + 1, deepest := if n.deepest > n.depth + 1 then n.deepest else n.depth + 1)
  }

  /** The certificate is stored before the block is applied, and stays stored
      if the block is then refused. */
  function Finalize(cfg: Config, n: Node, block: Block, signers: set<Address>): (r: Node)
    requires ValidConfig(cfg) && WellFormed(n)
    ensures BufferKept(n, r) && Shrinks(n, r)
    decreases n.future.Keys, 1, 1, 0
  {
    var n1 := Sealed(n, block, signers);
    if Lands(cfg, n1, block) then StartHeight(cfg, Nested(Landed(cfg, n1, block)), Number(block) + 1).(depth := n.depth)
    else n1
  }

  // --- heights ---

  predicate GoodBuffer(n: Node) {
    |n.future.Keys| <= MAX_FUTURE_HEIGHTS && forall h :: h in n.future ==> GoodBucket(n.future[h], h)
  }

  function OpenHeight(cfg: Config, n: Node, height: nat): (r: Node)
    requires ValidConfig(cfg) && GoodBuffer(n)
    ensures WellFormed(r) && r.future.Keys == n.future.Keys - {height}
    ensures r.rs.height == height && ForeignRank(cfg, r) == 0
  {
    SubsetCount((n.future - {height}).Keys, n.future.Keys);
    n.(rs := NewRound(cfg, height), future := n.future - {height})
  }

  function DropPast(n: Node, height: nat): (r: Node)
    requires WellFormed(n)
    ensures WellFormed(r) && Shrinks(n, r) && r == n.(future := r.future)
    ensures forall h :: h in r.future ==> h > height && r.future[h] == n.future[h]
  {
    var kept := map h | h in n.future && h > height :: n.future[h];
    SubsetCount(kept.Keys, n.future.Keys);
    n.(future := kept)
  }

  function SettleHeight(cfg: Config, n: Node, height: nat): (r: Node)
    requires WellFormed(n)
    ensures WellFormed(r) && Shrinks(n, r) && r.rs.height == n.rs.height
    ensures forall h :: h in r.future ==> h > height
    ensures ForeignRank(cfg, r) == ForeignRank(cfg, n)
  {
    ArmTimerIfWorkPending(cfg, DropPast(n, height))
  }

  function StartHeight(cfg: Config, n: Node, height: nat): (r: Node)
    requires ValidConfig(cfg) && GoodBuffer(n)
    ensures WellFormed(r) && Shrinks(n, r) && Ahead(r)
    decreases n.future.Keys, 0, 8, 0
  {
    var n1 := OpenHeight(cfg, n, height);
    if height !in n.future then MaybePropose(cfg, SettleHeight(cfg, n1, height))
    else
      assert GoodBucket(n.future[height], height);
      var n2 := SettleHeight(cfg, ProcessBuffered(cfg, n1, n.future[height], height), height);
      assert n2.future.Keys < n.future.Keys;
      MaybePropose(cfg, n2)
  }

  function ProcessBuffered(cfg: Config, n: Node, msgs: seq<Message>, height: nat): (r: Node)
    requires ValidConfig(cfg) && WellFormed(n)
    requires forall i :: 0 <= i < |msgs| ==> msgs[i].height == height
    ensures BufferKept(n, r)
    ensures r.future.Keys - {height} <= n.future.Keys - {height}
    decreases n.future.Keys - {height}, 2, 0, |msgs|
  {
    if msgs == [] then n
    else ProcessBuffered(cfg, OnMessage(cfg, n, msgs[0]), msgs[1..], height)
  }

  // --- messages ---

  function BufferFuture(n: Node, sm: Message): (r: Node)
    requires WellFormed(n) && sm.height > n.rs.height
    ensures WellFormed(r) && r.rs == n.rs && (Ahead(n) ==> Ahead(r))
    ensures r.future.Keys - {sm.height} <= n.future.Keys
  {
    if |n.future.Keys| >= MAX_FUTURE_HEIGHTS && sm.height !in n.future then n.(catchUps := n.catchUps + 1)
    else
      var bucket := if sm.height in n.future then n.future[sm.height] else [];
      assert bucket == [] || GoodBucket(bucket, sm.height);
      var kept := if |bucket| >= MAX_FUTURE_PER_HEIGHT then bucket[1..] else bucket;
      var future := n.future[sm.height := kept + [sm]];
      assert GoodBucket(kept + [sm], sm.height);
      assert future.Keys == n.future.Keys + {sm.height};
      n.(future := future, catchUps := n.catchUps + 1)
  }

  predicate Verified(cfg: Config, sm: Message) {
    !sm.typ.Unknown? && sm.signer in cfg.members
  }

  /** The carried block, if it is the one the message names at its own height. */
  function CarriedBlock(sm: Message): Option<Block> {
    if sm.body.Some? && BlockHash(sm.body.value) == sm.blockHash && Number(sm.body.value) == sm.height
    then sm.body else None
  }

  /** File a verified message and, if it is new, note that the height is live. */
  function Receive(cfg: Config, n: Node, sm: Message): (r: Node)
    ensures r.rs.height == n.rs.height && r.future == n.future
  {
    var rec := Record(n.rs, sm);
    if !rec.accepted then n.(rs := rec.rs)
    else
      var n1 := n.(rs := rec.rs.(peerActivity := true));
      if n1.rs.timerArmed then n1 else ArmTimer(cfg, n1)
  }

  function OnMessage(cfg: Config, n: Node, sm: Message): (r: Node)
    requires ValidConfig(cfg) && WellFormed(n)
    ensures BufferKept(n, r)
    ensures r.future.Keys - {sm.height} <= n.future.Keys - {sm.height}
    decreases n.future.Keys - {sm.height}, 1, 10, 0
  {
    if sm.height < n.rs.height then n
    else if sm.height > n.rs.height then BufferFuture(n, sm)
    else if !Verified(cfg, sm) then n
    else
      var n1 := Receive(cfg, n, sm);
      assert n.future.Keys - {sm.height} == n.future.Keys;
      if Record(n.rs, sm).accepted then Dispatch(cfg, n1, sm) else n1
  }

  function Dispatch(cfg: Config, n: Node, sm: Message): (r: Node)
    requires ValidConfig(cfg) && WellFormed(n)
    ensures BufferKept(n, r) && Shrinks(n, r)
    decreases n.future.Keys, 1, 9, 0
  {
    match sm.typ
    case Proposal => OnProposal(cfg, n, sm)
    case Prepare => CheckPrepareQuorum(cfg, n, sm.blockHash)
    case Commit => CheckCommitQuorum(cfg, n, sm.blockHash)
    case RoundChange => CheckRoundChangeQuorum(cfg, n, sm.round)
    case Unknown(_) => n
  }

  function OnProposal(cfg: Config, n: Node, sm: Message): (r: Node)
    requires ValidConfig(cfg) && WellFormed(n)
    ensures BufferKept(n, r) && Shrinks(n, r)
    decreases n.future.Keys, 1, 8, 0
  {
    if ProposerAt(cfg.members, n.rs.height, sm.round) != sm.signer then n
    else if sm.round != n.rs.round || n.rs.ph != Idle then n
    else if !AcceptableProposal(n.rs, sm.blockHash) then n
    else
      match CarriedBlock(sm)
      case None => n
      case Some(block) =>
        if !VerifyCandidate(cfg.ops, n.chain, block, n.now) then n
        else ArmTimer(cfg, CastPrepare(cfg, n.(rs := n.rs.(proposal := Some(block))), BlockHash(block)))
  }

  // --- round changes ---

  /** Take over the lock a round-change quorum reported, if this node has none. */
  function AdoptLock(n: Node, report: Option<Message>, round: nat): (r: Node)
    ensures r == n.(rs := n.rs.(lock := r.rs.lock), astray := r.astray) && (n.astray ==> r.astray)
  {
    if report.Some? && n.rs.lock.None? && report.value.body.Some?
       && BlockHash(report.value.body.value) == report.value.lockedHash
    then
      var block := report.value.body.value;
      n.(rs := n.rs.(lock := Some(Lock(block, round))), astray := n.astray || Number(block) != n.rs.height)
    else n
  }

  function NextRound(cfg: Config, n: Node, round: nat): (r: Node)
    requires ValidConfig(cfg) && round in n.rs.changes
    ensures r.future == n.future && r.rs.height == n.rs.height
  {
    var report := HighestLock(n.rs.changes[round], cfg.scan(n.rs.height, round));
    ArmTimer(cfg, AdoptLock(n.(rs := EnterRound(cfg, n.rs, round)), report, round))
  }

  function CheckRoundChangeQuorum(cfg: Config, n: Node, round: nat): (r: Node)
    requires ValidConfig(cfg) && WellFormed(n)
    ensures BufferKept(n, r) && Shrinks(n, r)
    decreases n.future.Keys, 1, 8, 0
  {
    if round <= n.rs.round || ChangeCount(n.rs, round) < cfg.q then n
    else MaybePropose(cfg, NextRound(cfg, n, round))
  }

  function RoundChangeVote(cfg: Config, n: Node, next: nat): (r: Message)
    ensures r.typ == RoundChange && r.signer == cfg.self && r.height == n.rs.height
  {
    var sm := Vote(cfg, n, RoundChange, ZeroHash).(round := next);
    match n.rs.lock
    case None => sm
    case Some(l) => sm.(lockedRound := l.round, lockedHash := BlockHash(l.block), body := Some(l.block))
  }

  function AskForRound(cfg: Config, n: Node, next: nat): (r: Node)
    ensures r.future == n.future && r.rs.height == n.rs.height
  {
    var sm := RoundChangeVote(cfg, n, next);
    ArmTimer(cfg, Broadcast(n.(rs := Record(n.rs, sm).rs), sm))
  }

  function OnRoundTimeout(cfg: Config, n: Node): (r: Node)
    requires ValidConfig(cfg) && WellFormed(n)
    ensures BufferKept(n, r) && Shrinks(n, r)
  {
    var next := (n.rs.round + 1) % ROUND_LIMIT;
    CheckRoundChangeQuorum(cfg, AskForRound(cfg, n, next), next)
  }

  // --- the event loop ---

  function OnSubmit(cfg: Config, n: Node, req: Request): (r: Node)
    requires ValidConfig(cfg) && WellFormed(n)
    ensures BufferKept(n, r) && Shrinks(n, r)
  {
    if |n.queue| >= MAX_QUEUE then Answered(n, req.id, Busy)
    else MaybePropose(cfg, ArmTimerIfWorkPending(cfg, n.(queue := n.queue + [req])))
  }

  function OnHeadMoved(cfg: Config, n: Node, height: nat): (r: Node)
    requires ValidConfig(cfg) && WellFormed(n)
    ensures BufferKept(n, r) && Shrinks(n, r)
  {
    if height < n.rs.height then n else StartHeight(cfg, ResolveWaiters(n, height), height + 1)
  }

  datatype Event = Deliver(sm: Message) | Timeout | Submit(req: Request) | HeadMoved(height: nat)

  function Handle(cfg: Config, n: Node, ev: Event): (r: Node)
    requires ValidConfig(cfg) && WellFormed(n)
    ensures BufferKept(n, r)
  {
    match ev
    case Deliver(sm) => OnMessage(cfg, n, sm)
    case Timeout => OnRoundTimeout(cfg, n)
    case Submit(req) => OnSubmit(cfg, n, req)
    case HeadMoved(height) => OnHeadMoved(cfg, n, height)
  }

  function Woken(n: Node, now: nat): (r: Node)
    ensures r == n.(now := now, deepest := 0)
  {
    n.(now := now, deepest := 0)
  }

  /** One turn of the run loop: an event, then expiry, then the status snapshot. */
  function React(cfg: Config, n: Node, ev: Event, now: nat): (r: Node)
    requires ValidConfig(cfg) && WellFormed(n)
    ensures WellFormed(r) && (Ahead(n) ==> Ahead(r))
  {
    CheckSynced(ExpireWaiters(Handle(cfg, Woken(n, now), ev)))
  }

  /** An engine over a local chain, before its loop starts. */
  function Blank(cfg: Config, chain: seq<Block>): Node
    requires ValidConfig(cfg) && |chain| > 0
  {
    Node(chain, NewRound(cfg, |chain| - 1), map[], [], None, false, 0, map[], [], [], 0, false, 0, 0)
  }

  /** The engine as `Run` starts it over a local chain. */
  function Boot(cfg: Config, chain: seq<Block>): (r: Node)
    requires ValidConfig(cfg) && |chain| > 0
    ensures WellFormed(r) && Ahead(r)
  {
    CheckSynced(StartHeight(cfg, Blank(cfg, chain), |chain|))
  }

  /** The follower applying a block it pulled from a peer, outside the engine. */
  function Pull(cfg: Config, n: Node, block: Block): (r: Node)
    ensures r == n.(chain := r.chain) && n.chain <= r.chain
  {
    match ApplyExternal(cfg.ops, n.chain, block)
    case Appended(chain) => n.(chain := chain)
    case _ => n
  }
}
