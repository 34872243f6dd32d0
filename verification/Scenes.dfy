/** What one turn of the loop does to a validator in the plain situations a run is
    built from: nothing buffered, no vote of a sender seen twice.  A scene is what
    has to be known of a validator to say what its next turn leaves. */
module Scenes {
  import opened Blocks
  import opened Protocol
  import opened Locks

  /** How far the current round has come; `voters` are those counted so far, of
      PREPAREs while the block is held, of COMMITs once the validator is bound. */
  datatype Stage = Open | Holding(block: Block, voters: seq<Address>) | Bound(block: Block, voters: seq<Address>)

  /** `asking` have voted to enter round `asked`, which lies past the current one or
      is the last one asked for; `offer` is the block on which their locks are. */
  datatype Scene = Scene(chain: seq<Block>, height: nat, round: nat, stage: Stage, lock: Option<Block>, asked: nat,
                         asking: seq<Address>, offer: Option<Block>, queue: seq<Request>, signed: set<Signed>)

  function LockedBlock(rs: Round): Option<Block> {
    if rs.lock.Some? then Some(rs.lock.value.block) else None
  }

  function Digests(sent: seq<Message>): set<Signed> {
    set m | m in sent :: Digest(m)
  }

  ghost predicate VotersAre(votes: map<Address, Message>, voters: seq<Address>) {
    |votes| == |voters| && forall a :: a in votes <==> a in voters
  }

  /** Votes of this kind were seen from these senders only. */
  ghost predicate SeenFrom(rs: Round, typ: MsgType, voters: seq<Address>) {
    forall k :: k in rs.seen && k.typ == typ ==> k.signer in voters
  }

  ghost predicate Ready(rs: Round) {
    && rs.ph == Idle && rs.proposal == None && rs.prepares == map[] && rs.commits == map[]
    && SeenFrom(rs, Prepare, []) && SeenFrom(rs, Commit, [])
  }

  ghost predicate StageIs(rs: Round, stage: Stage) {
    match stage
    case Open => Ready(rs) && SeenFrom(rs, Proposal, [])
    case Holding(block, voters) =>
      && rs.ph == PrePrepared && rs.proposal == Some(block) && rs.commits == map[]
      && BlockHash(block) in rs.prepares && VotersAre(rs.prepares[BlockHash(block)], voters)
      && SeenFrom(rs, Prepare, voters) && SeenFrom(rs, Commit, [])
    case Bound(block, voters) =>
      && rs.ph == Prepared && rs.proposal == Some(block)
      && BlockHash(block) in rs.commits && VotersAre(rs.commits[BlockHash(block)], voters)
      && SeenFrom(rs, Commit, voters)
  }

  /** The locks these votes report are on the offered block. */
  ghost predicate Offers(votes: map<Address, Message>, offer: Option<Block>) {
    && (forall a :: a in votes && CarriesLock(votes[a]) ==>
          offer.Some? && votes[a].body == offer && votes[a].lockedHash == BlockHash(offer.value))
    && (offer.Some? ==> exists a :: a in votes && CarriesLock(votes[a]))
  }

  ghost predicate AskingIs(rs: Round, asked: nat, asking: seq<Address>, offer: Option<Block>) {
    && (forall r :: r in rs.changes ==> r <= asked)
    && (forall k :: k in rs.seen && k.typ == RoundChange ==> k.round <= asked)
    && (asked > rs.round ==>
          && asked in rs.changes && VotersAre(rs.changes[asked], asking) && Offers(rs.changes[asked], offer)
          && forall k :: k in rs.seen && k.typ == RoundChange && k.round == asked ==> k.signer in asking)
  }

  /** The validator outside its round. */
  predicate At(n: Node, sc: Scene) {
    && n.future == map[] && n.now == 0 && n.chain == sc.chain && n.queue == sc.queue && sc.signed <= Digests(n.sent)
  }

  predicate InRound(cfg: Config, rs: Round, sc: Scene)
    requires |cfg.members| > 0
  {
    && rs.height == sc.height && rs.round == sc.round && LockedBlock(rs) == sc.lock
    && rs.isSelf == (ProposerAt(cfg.members, sc.height, sc.round) == cfg.self)
  }

  ghost predicate RoundIs(cfg: Config, rs: Round, sc: Scene)
    requires |cfg.members| > 0
  {
    InRound(cfg, rs, sc) && StageIs(rs, sc.stage) && AskingIs(rs, sc.asked, sc.asking, sc.offer)
  }

  /** Nothing is prepared yet in this round. */
  ghost predicate Idling(cfg: Config, rs: Round, sc: Scene)
    requires |cfg.members| > 0
  {
    InRound(cfg, rs, sc) && Ready(rs) && AskingIs(rs, sc.asked, sc.asking, sc.offer)
  }

  ghost predicate Shows(cfg: Config, n: Node, sc: Scene)
    requires |cfg.members| > 0
  {
    At(n, sc) && RoundIs(cfg, n.rs, sc) && n.synced == (sc.height == |sc.chain|)
  }

  /** The clusters these scenes are about. */
  ghost predicate PlainConfig(cfg: Config) {
    && ValidConfig(cfg) && cfg.q >= 3
    && (forall h, r :: cfg.scan(h, r) == cfg.members)
    && (forall c, b :: cfg.ops.valid(c, b)) && (forall b, t :: cfg.ops.inTime(b, t))
  }

  // --- the ends of a turn ---

  lemma {:induction false} NoneExpires(queue: seq<Request>)
    ensures Unexpired(queue, 0) == queue && ExpiredReplies(queue, 0) == []
  {
    if queue != [] {
      NoneExpires(queue[..|queue| - 1]);
      assert queue == queue[..|queue| - 1] + [queue[|queue| - 1]];
    }
  }

  /** A turn that starts at time 0 ends with the status snapshot only. */
  lemma TurnEnds(cfg: Config, n: Node, ev: Event)
    requires ValidConfig(cfg) && WellFormed(n) && Handle(cfg, Woken(n, 0), ev).now == 0
    ensures var r := Handle(cfg, Woken(n, 0), ev);
            React(cfg, n, ev, 0) == r.(synced := r.rs.height == |r.chain|)
  {
    hide Handle, GoodBucket;
    NoneExpires(Handle(cfg, Woken(n, 0), ev).queue);
  }

  lemma DigestsGrow(n: Node, sm: Message)
    ensures Digests(Broadcast(n, sm).sent) == Digests(n.sent) + {Digest(sm)}
  {
    var sent := n.sent + [sm];
    forall m | m in sent ensures m in n.sent || m == sm {
    }
    assert sm in sent && forall m :: m in n.sent ==> m in sent;
  }

  // --- filing a vote ---

  predicate FreshVote(cfg: Config, n: Node, sm: Message) {
    sm.height == n.rs.height && Verified(cfg, sm) && KeyOf(sm) !in n.rs.seen
  }

  /** A round apart from its timer and liveness flags. */
  predicate SameRound(a: Round, b: Round) {
    a == b.(timerArmed := a.timerArmed, peerActivity := a.peerActivity)
  }

  predicate SameButTimer(a: Node, b: Node) {
    a == b.(rs := a.rs, timer := a.timer) && SameRound(a.rs, b.rs)
  }

  lemma Handled(cfg: Config, n: Node, sm: Message)
    requires ValidConfig(cfg) && WellFormed(n) && FreshVote(cfg, n, sm)
    ensures var n1 := Receive(cfg, n, sm);
            && SameButTimer(n1, n.(rs := FileVote(n.rs.(seen := n.rs.seen[KeyOf(sm) := sm.blockHash]), sm)))
            && WellFormed(n1) && OnMessage(cfg, n, sm) == Dispatch(cfg, n1, sm)
  {
    hide Dispatch, GoodBucket, RoundTimeout;
  }

  lemma VoteCounted(t: Tally, hash: Hash, sm: Message, voters: seq<Address>)
    requires (if hash in t then VotersAre(t[hash], voters) else voters == []) && sm.signer !in voters
    ensures hash in AddVote(t, hash, sm) && VotersAre(AddVote(t, hash, sm)[hash], voters + [sm.signer])
  {
    assert forall a :: a in voters + [sm.signer] <==> a in voters || a == sm.signer;
  }

  function VoteOf(from: Address, typ: MsgType, height: nat, round: nat, hash: Hash): Message {
    Message(typ, height, round, hash, None, 0, ZeroHash, from)
  }

  // --- PREPAREs ---

  /** Filing a vote of one kind leaves the other kinds' records alone. */
  lemma FiledPrepare(rs: Round, sc: Scene, sm: Message)
    requires StageIs(rs, sc.stage) && sc.stage.Holding? && AskingIs(rs, sc.asked, sc.asking, sc.offer)
    requires sm.typ == Prepare && sm.blockHash == BlockHash(sc.stage.block) && sm.signer !in sc.stage.voters
    ensures var r := FileVote(rs.(seen := rs.seen[KeyOf(sm) := sm.blockHash]), sm);
            && StageIs(r, Holding(sc.stage.block, sc.stage.voters + [sm.signer]))
            && AskingIs(r, sc.asked, sc.asking, sc.offer) && KeyOf(sm) !in rs.seen
  {
    hide Offers;
    VoteCounted(rs.prepares, sm.blockHash, sm, sc.stage.voters);
  }

  lemma FlagsKeepRound(cfg: Config, a: Round, b: Round, sc: Scene)
    requires |cfg.members| > 0 && SameRound(a, b) && RoundIs(cfg, b, sc)
    ensures RoundIs(cfg, a, sc)
  {
    hide VotersAre, Offers;
  }

  function Filed(rs: Round, sm: Message): Round {
    FileVote(rs.(seen := rs.seen[KeyOf(sm) := sm.blockHash]), sm)
  }

  /** A turn that takes a fresh vote: filed, then acted on. */
  lemma Delivered(cfg: Config, n: Node, sm: Message) returns (n1: Node)
    requires ValidConfig(cfg) && WellFormed(n) && FreshVote(cfg, n, sm) && n.now == 0
    ensures n1 == n.(deepest := 0, rs := n1.rs, timer := n1.timer) && SameRound(n1.rs, Filed(n.rs, sm))
    ensures WellFormed(n1)
    ensures var r := Dispatch(cfg, n1, sm); r.now == 0 ==>
              React(cfg, n, Deliver(sm), 0) == r.(synced := r.rs.height == |r.chain|)
  {
    hide Dispatch, React, GoodBucket, FileVote, Record, OnMessage;
    Handled(cfg, Woken(n, 0), sm);
    n1 := Receive(cfg, Woken(n, 0), sm);
    if Dispatch(cfg, n1, sm).now == 0 {
      TurnEnds(cfg, n, Deliver(sm));
    }
  }

  predicate NextPrepare(cfg: Config, sc: Scene, sm: Message) {
    && sc.stage.Holding? && sm.typ == Prepare && sm.height == sc.height && sm.blockHash == BlockHash(sc.stage.block)
    && sm.signer in cfg.members && sm.signer !in sc.stage.voters
  }

  lemma PrepareFiled(cfg: Config, n: Node, sc: Scene, sm: Message) returns (n1: Node)
    requires PlainConfig(cfg) && Shows(cfg, n, sc) && NextPrepare(cfg, sc, sm)
    ensures Shows(cfg, n1, sc.(stage := Holding(sc.stage.block, sc.stage.voters + [sm.signer]))) && WellFormed(n1)
    ensures var r := Dispatch(cfg, n1, sm); r.now == 0 ==>
              React(cfg, n, Deliver(sm), 0) == r.(synced := r.rs.height == |r.chain|)
  {
    hide StageIs, AskingIs, Dispatch, React;
    FiledPrepare(n.rs, sc, sm);
    n1 := Delivered(cfg, n, sm);
    FlagsKeepRound(cfg, n1.rs, Filed(n.rs, sm),
                   sc.(stage := Holding(sc.stage.block, sc.stage.voters + [sm.signer])));
  }

  lemma PrepareCounted(cfg: Config, n: Node, sc: Scene, sm: Message)
    requires PlainConfig(cfg) && Shows(cfg, n, sc) && NextPrepare(cfg, sc, sm) && |sc.stage.voters| + 1 < cfg.q
    ensures Shows(cfg, React(cfg, n, Deliver(sm), 0),
                  sc.(stage := Holding(sc.stage.block, sc.stage.voters + [sm.signer])))
  {
    hide AskingIs, LockAndCommit, CheckCommitQuorum, React;
    var n1 := PrepareFiled(cfg, n, sc, sm);
  }

  function Committing(sc: Scene, self: Address): Scene
    requires sc.stage.Holding?
  {
    sc.(stage := Bound(sc.stage.block, [self]), lock := Some(sc.stage.block),
        signed := sc.signed + {Signed(Commit, sc.height, 0, BlockHash(sc.stage.block), ZeroHash)})
  }

  /** Signing a COMMIT: the own one is counted first. */
  lemma CommitRound(cfg: Config, rs: Round, sc: Scene, sm: Message)
    requires |cfg.members| > 0 && RoundIs(cfg, rs, sc) && sc.stage.Holding?
    requires sm.typ == Commit && sm.blockHash == BlockHash(sc.stage.block) && sm.signer == cfg.self
    ensures var rs1 := rs.(lock := Some(Lock(sc.stage.block, rs.round)), ph := Prepared);
            RoundIs(cfg, Record(rs1, sm).rs, Committing(sc, cfg.self))
  {
    hide Offers, ProposerAt;
    VoteCounted(map[], sm.blockHash, sm, []);
  }

  lemma Commits(cfg: Config, n: Node, sc: Scene)
    requires PlainConfig(cfg) && Shows(cfg, n, sc) && sc.stage.Holding?
    ensures Shows(cfg, LockAndCommit(cfg, n), Committing(sc, cfg.self))
  {
    assert n.rs.proposal == Some(sc.stage.block) && n.rs.round == sc.round && n.rs.height == sc.height;
    hide RoundIs, Record, Digests;
    var sm := Vote(cfg, n, Commit, BlockHash(sc.stage.block));
    CommitRound(cfg, n.rs, sc, sm);
    DigestsGrow(n, sm);
  }

  lemma NotYetFinal(cfg: Config, n: Node, sc: Scene)
    requires PlainConfig(cfg) && WellFormed(n) && StageIs(n.rs, sc.stage) && sc.stage.Bound? && |sc.stage.voters| < cfg.q
    ensures CheckCommitQuorum(cfg, n, BlockHash(sc.stage.block)) == n
  {
    hide Finalize, SeenFrom;
  }

  lemma QuorumPrepared(cfg: Config, n: Node, sc: Scene)
    requires PlainConfig(cfg) && Shows(cfg, n, sc) && sc.stage.Holding? && |sc.stage.voters| >= cfg.q
    ensures Shows(cfg, CheckPrepareQuorum(cfg, n, BlockHash(sc.stage.block)), Committing(sc, cfg.self))
  {
    hide AskingIs, LockAndCommit, CheckCommitQuorum, SeenFrom;
    Commits(cfg, n, sc);
    NotYetFinal(cfg, LockAndCommit(cfg, n), Committing(sc, cfg.self));
  }

  /** The snapshot at the end of a turn. */
  lemma Settles(cfg: Config, r: Node, sc: Scene)
    requires |cfg.members| > 0 && At(r, sc) && RoundIs(cfg, r.rs, sc)
    ensures Shows(cfg, r.(synced := r.rs.height == |r.chain|), sc)
  {
    hide StageIs, AskingIs;
  }

  lemma PrepareDecides(cfg: Config, n: Node, sc: Scene, sm: Message)
    requires PlainConfig(cfg) && Shows(cfg, n, sc) && NextPrepare(cfg, sc, sm) && |sc.stage.voters| + 1 >= cfg.q
    ensures Shows(cfg, React(cfg, n, Deliver(sm), 0), Committing(sc, cfg.self))
  {
    hide RoundIs, CheckPrepareQuorum, React;
    var n1 := PrepareFiled(cfg, n, sc, sm);
    QuorumPrepared(cfg, n1, sc.(stage := Holding(sc.stage.block, sc.stage.voters + [sm.signer])));
    Settles(cfg, Dispatch(cfg, n1, sm), Committing(sc, cfg.self));
  }

  // --- proposals ---

  function Preparing(sc: Scene, self: Address, block: Block): Scene {
    sc.(stage := Holding(block, [self]),
        signed := sc.signed + {Signed(Prepare, sc.height, sc.round, BlockHash(block), ZeroHash)})
  }

  lemma PrepareRound(cfg: Config, rs: Round, sc: Scene, block: Block, sm: Message)
    requires |cfg.members| > 0 && Idling(cfg, rs, sc)
    requires sm.typ == Prepare && sm.blockHash == BlockHash(block) && sm.signer == cfg.self
    ensures var rs1 := rs.(proposal := Some(block), ph := PrePrepared);
            RoundIs(cfg, Record(rs1, sm).rs, Preparing(sc, cfg.self, block))
  {
    hide Offers, ProposerAt;
    VoteCounted(map[], sm.blockHash, sm, []);
  }

  lemma Prepares(cfg: Config, n: Node, sc: Scene, block: Block) returns (r: Node)
    requires PlainConfig(cfg) && WellFormed(n) && At(n, sc) && Idling(cfg, n.rs, sc)
    ensures r == ArmTimer(cfg, CastPrepare(cfg, n.(rs := n.rs.(proposal := Some(block))), BlockHash(block)))
    ensures At(r, Preparing(sc, cfg.self, block)) && RoundIs(cfg, r.rs, Preparing(sc, cfg.self, block))
  {
    assert n.rs.prepares == map[] && n.rs.round == sc.round && n.rs.height == sc.height;
    hide RoundIs, Idling, Record, Digests, CastPrepare, RoundTimeout;
    var n1 := n.(rs := n.rs.(proposal := Some(block)));
    var sm := Vote(cfg, n1, Prepare, BlockHash(block));
    CastPrepareAlone(cfg, n1, BlockHash(block));
    PrepareRound(cfg, n.rs, sc, block, sm);
    DigestsGrow(n1.(rs := Record(n1.rs.(ph := PrePrepared), sm).rs), sm);
    var r0 := CastPrepare(cfg, n1, BlockHash(block));
    r := ArmTimer(cfg, r0);
    FlagsKeepRound(cfg, r.rs, r0.rs, Preparing(sc, cfg.self, block));
  }

  function Proposing(sc: Scene, self: Address, block: Block): Scene {
    Preparing(sc.(signed := sc.signed + {Signed(Proposal, sc.height, sc.round, BlockHash(block), ZeroHash)}), self, block)
  }

  lemma Proposes(cfg: Config, n: Node, sc: Scene, block: Block)
    requires PlainConfig(cfg) && WellFormed(n) && At(n, sc) && Idling(cfg, n.rs, sc)
    ensures var r := BroadcastProposal(cfg, n, block);
            At(r, Proposing(sc, cfg.self, block)) && RoundIs(cfg, r.rs, Proposing(sc, cfg.self, block))
  {
    hide AskingIs, Ready, Digests, CastPrepare, RoundIs, ArmTimer;
    var sm := Vote(cfg, n, Proposal, BlockHash(block)).(body := Some(block));
    DigestsGrow(n, sm);
    var r := Prepares(cfg, Broadcast(n, sm), sc.(signed := sc.signed + {Digest(sm)}), block);
  }

  predicate NextProposal(cfg: Config, sc: Scene, sm: Message)
    requires |cfg.members| > 0
  {
    && sc.stage.Open? && sc.lock == None && sc.height == |sc.chain| && sc.height > 0
    && sm.typ == Proposal && sm.height == sc.height && sm.round == sc.round
    && sm.signer == ProposerAt(cfg.members, sc.height, sc.round)
    && CarriedBlock(sm).Some?
  }

  lemma ProposalFiled(cfg: Config, n: Node, sc: Scene, sm: Message) returns (n1: Node)
    requires PlainConfig(cfg) && Shows(cfg, n, sc) && NextProposal(cfg, sc, sm)
    ensures At(n1, sc) && Idling(cfg, n1.rs, sc) && WellFormed(n1)
    ensures var r := Dispatch(cfg, n1, sm); r.now == 0 ==>
              React(cfg, n, Deliver(sm), 0) == r.(synced := r.rs.height == |r.chain|)
  {
    hide Offers, Dispatch, React, ProposerAt, CarriedBlock;
    n1 := Delivered(cfg, n, sm);
  }

  lemma ProposalPrepared(cfg: Config, n: Node, sc: Scene, sm: Message)
    requires PlainConfig(cfg) && Shows(cfg, n, sc) && NextProposal(cfg, sc, sm)
    ensures Shows(cfg, React(cfg, n, Deliver(sm), 0), Preparing(sc, cfg.self, sm.body.value))
  {
    hide AskingIs, SeenFrom, CastPrepare, React, RoundIs, ProposerAt, ArmTimer;
    var n1 := ProposalFiled(cfg, n, sc, sm);
    var r := Prepares(cfg, n1, sc, sm.body.value);
    assert Dispatch(cfg, n1, sm) == r;
    Settles(cfg, r, Preparing(sc, cfg.self, sm.body.value));
  }

  // --- COMMITs, and the height after ---

  predicate NextCommit(cfg: Config, sc: Scene, sm: Message) {
    && sc.stage.Bound? && sm.typ == Commit && sm.height == sc.height && sm.blockHash == BlockHash(sc.stage.block)
    && sm.signer in cfg.members && sm.signer !in sc.stage.voters
  }

  lemma FiledCommit(rs: Round, sc: Scene, sm: Message)
    requires StageIs(rs, sc.stage) && sc.stage.Bound? && AskingIs(rs, sc.asked, sc.asking, sc.offer)
    requires sm.typ == Commit && sm.blockHash == BlockHash(sc.stage.block) && sm.signer !in sc.stage.voters
    ensures StageIs(Filed(rs, sm), Bound(sc.stage.block, sc.stage.voters + [sm.signer]))
    ensures AskingIs(Filed(rs, sm), sc.asked, sc.asking, sc.offer) && KeyOf(sm) !in rs.seen
  {
    hide Offers;
    VoteCounted(rs.commits, sm.blockHash, sm, sc.stage.voters);
  }

  lemma CommitFiled(cfg: Config, n: Node, sc: Scene, sm: Message) returns (n1: Node)
    requires PlainConfig(cfg) && Shows(cfg, n, sc) && NextCommit(cfg, sc, sm)
    ensures Shows(cfg, n1, sc.(stage := Bound(sc.stage.block, sc.stage.voters + [sm.signer]))) && WellFormed(n1)
    ensures var r := Dispatch(cfg, n1, sm); r.now == 0 ==>
              React(cfg, n, Deliver(sm), 0) == r.(synced := r.rs.height == |r.chain|)
  {
    hide StageIs, AskingIs, Dispatch, React;
    FiledCommit(n.rs, sc, sm);
    n1 := Delivered(cfg, n, sm);
    FlagsKeepRound(cfg, n1.rs, Filed(n.rs, sm), sc.(stage := Bound(sc.stage.block, sc.stage.voters + [sm.signer])));
  }

  lemma CommitCounted(cfg: Config, n: Node, sc: Scene, sm: Message)
    requires PlainConfig(cfg) && Shows(cfg, n, sc) && NextCommit(cfg, sc, sm) && |sc.stage.voters| + 1 < cfg.q
    ensures Shows(cfg, React(cfg, n, Deliver(sm), 0),
                  sc.(stage := Bound(sc.stage.block, sc.stage.voters + [sm.signer])))
  {
    hide AskingIs, CheckCommitQuorum, React, SeenFrom;
    var n1 := CommitFiled(cfg, n, sc, sm);
    NotYetFinal(cfg, n1, sc.(stage := Bound(sc.stage.block, sc.stage.voters + [sm.signer])));
  }

  /** The next height as it stands when it is opened. */
  function Opened(sc: Scene, chain: seq<Block>, queue: seq<Request>, height: nat): Scene {
    Scene(chain, height, 0, Open, None, 0, [], None, queue, sc.signed)
  }

  lemma OpensAt(cfg: Config, n: Node, height: nat) returns (m: Node)
    requires ValidConfig(cfg) && n.future == map[]
    ensures WellFormed(m) && SameButTimer(m, n.(rs := NewRound(cfg, height)))
    ensures StartHeight(cfg, n, height) == MaybePropose(cfg, m)
  {
    hide MaybePropose, RoundTimeout;
    var n1 := OpenHeight(cfg, n, height);
    assert n1.future == map[];
    assert DropPast(n1, height).future == map[];
    m := SettleHeight(cfg, n1, height);
  }

  lemma NewRoundIs(cfg: Config, sc: Scene)
    requires ValidConfig(cfg) && sc == Opened(sc, sc.chain, sc.queue, sc.height)
    ensures RoundIs(cfg, NewRound(cfg, sc.height), sc)
  {
  }

  /** A validator that is not the proposer, or has nothing to propose. */
  predicate Quiet(cfg: Config, sc: Scene)
    requires |cfg.members| > 0
  {
    ProposerAt(cfg.members, sc.height, sc.round) != cfg.self || (sc.queue == [] && sc.lock == None)
  }

  lemma StaysQuiet(cfg: Config, m: Node, sc: Scene)
    requires PlainConfig(cfg) && WellFormed(m) && At(m, sc) && RoundIs(cfg, m.rs, sc) && Quiet(cfg, sc)
    ensures var r := MaybePropose(cfg, m); At(r, sc) && RoundIs(cfg, r.rs, sc)
  {
    hide StageIs, AskingIs, BroadcastProposal, ProposerAt;
  }

  /** A synced proposer without a lock builds on its head for the first request. */
  lemma ProposesFirst(cfg: Config, m: Node, sc: Scene, block: Block)
    requires PlainConfig(cfg) && WellFormed(m) && At(m, sc) && RoundIs(cfg, m.rs, sc) && sc.stage.Open?
    requires ProposerAt(cfg.members, sc.height, sc.round) == cfg.self && sc.lock == None
    requires (m.synced || sc.height == |sc.chain|) && |sc.queue| == 1
    requires cfg.ops.build(sc.chain, sc.queue[0].payload, 0) == Some(block)
    ensures var r, sc1 := MaybePropose(cfg, m), Proposing(sc, cfg.self, block).(queue := [sc.queue[0].(candidate := Some(block))]);
            At(r, sc1) && RoundIs(cfg, r.rs, sc1)
  {
    assert Idling(cfg, m.rs, sc) && m.rs.isSelf && m.rs.ph == Idle && m.rs.lock == None && m.rs.height == sc.height;
    hide StageIs, AskingIs, BroadcastProposal, ProposerAt, Idling, InRound, RoundIs, PlainConfig;
    var n1 := if m.synced then m else CheckSynced(m);
    var queue := [sc.queue[0].(candidate := Some(block))];
    assert queue + n1.queue[1..] == queue;
    assert n1.synced;
    var n2 := n1.(queue := [sc.queue[0].(candidate := Some(block))]);
    assert MaybePropose(cfg, m) == BroadcastProposal(cfg, n2, block);
    SceneQueue(cfg, n2, sc, queue);
    Proposes(cfg, n2, sc.(queue := queue), block);
  }

  lemma SceneQueue(cfg: Config, n: Node, sc: Scene, queue: seq<Request>)
    requires |cfg.members| > 0 && Idling(cfg, n.rs, sc)
    ensures Idling(cfg, n.rs, sc.(queue := queue))
  {
  }

  /** The block is the next one, or the one already there. */
  predicate FitsChain(chain: seq<Block>, block: Block) {
    && 0 < Number(block) <= |chain|
    && (Number(block) < |chain| ==> BlockHash(chain[Number(block)]) == BlockHash(block))
  }

  function Decided(sc: Scene, block: Block): Scene {
    Opened(sc, if Number(block) == |sc.chain| then sc.chain + [block] else sc.chain,
           StillWaiting(sc.queue, Number(block)), Number(block) + 1)
  }

  lemma FinalizeOpens(cfg: Config, n: Node, sc: Scene, block: Block, signers: set<Address>) returns (m: Node)
    requires PlainConfig(cfg) && WellFormed(n) && At(n, sc) && FitsChain(sc.chain, block)
    ensures WellFormed(m) && At(m, Decided(sc, block)) && RoundIs(cfg, m.rs, Decided(sc, block)) && m.synced == n.synced
    ensures Finalize(cfg, n, block, signers) == MaybePropose(cfg, m).(depth := n.depth)
  {
    hide StartHeight, MaybePropose, StillWaiting, LandedReplies, RoundIs, NewRound;
    var n1 := Sealed(n, block, signers);
    var n2 := Nested(Landed(cfg, n1, block));
    m := OpensAt(cfg, n2, Number(block) + 1);
    NewRoundIs(cfg, Decided(sc, block));
    FlagsKeepRound(cfg, m.rs, NewRound(cfg, Number(block) + 1), Decided(sc, block));
  }

  lemma CommitsFinal(cfg: Config, n: Node, sc: Scene)
    requires PlainConfig(cfg) && WellFormed(n) && StageIs(n.rs, sc.stage) && sc.stage.Bound? && |sc.stage.voters| >= cfg.q
    ensures var hash := BlockHash(sc.stage.block);
            && hash in n.rs.commits
            && CheckCommitQuorum(cfg, n, hash) == Finalize(cfg, n, sc.stage.block, n.rs.commits[hash].Keys)
  {
    hide Finalize, SeenFrom;
  }

  lemma CommitFinalizes(cfg: Config, n: Node, sc: Scene, sm: Message) returns (m: Node, depth: nat)
    requires PlainConfig(cfg) && Shows(cfg, n, sc) && NextCommit(cfg, sc, sm) && |sc.stage.voters| + 1 >= cfg.q
    requires FitsChain(sc.chain, sc.stage.block)
    ensures var sc1 := Decided(sc, sc.stage.block);
            && WellFormed(m) && At(m, sc1) && RoundIs(cfg, m.rs, sc1) && m.synced == (sc.height == |sc.chain|)
    ensures var r := MaybePropose(cfg, m); r.now == 0 ==>
              React(cfg, n, Deliver(sm), 0) == r.(depth := depth, synced := r.rs.height == |r.chain|)
  {
    hide StageIs, AskingIs, CheckCommitQuorum, React, MaybePropose, Finalize, StillWaiting;
    var n1 := CommitFiled(cfg, n, sc, sm);
    var sc0 := sc.(stage := Bound(sc.stage.block, sc.stage.voters + [sm.signer]));
    CommitsFinal(cfg, n1, sc0);
    depth := n1.depth;
    m := FinalizeOpens(cfg, n1, sc0, sc.stage.block, n1.rs.commits[sm.blockHash].Keys);
  }

  /** The COMMIT that decides the height, when nothing is to be proposed next. */
  lemma CommitDecides(cfg: Config, n: Node, sc: Scene, sm: Message)
    requires PlainConfig(cfg) && Shows(cfg, n, sc) && NextCommit(cfg, sc, sm) && |sc.stage.voters| + 1 >= cfg.q
    requires FitsChain(sc.chain, sc.stage.block) && Quiet(cfg, Decided(sc, sc.stage.block))
    ensures Shows(cfg, React(cfg, n, Deliver(sm), 0), Decided(sc, sc.stage.block))
  {
    hide RoundIs, React, MaybePropose, StillWaiting;
    var m, depth := CommitFinalizes(cfg, n, sc, sm);
    StaysQuiet(cfg, m, Decided(sc, sc.stage.block));
    var r := MaybePropose(cfg, m);
    Settles(cfg, r.(depth := depth), Decided(sc, sc.stage.block));
  }

  /** The same, when the validator was synced and proposes at once. */
  lemma CommitDecidesAndProposes(cfg: Config, n: Node, sc: Scene, sm: Message, block: Block)
    requires PlainConfig(cfg) && Shows(cfg, n, sc) && NextCommit(cfg, sc, sm) && |sc.stage.voters| + 1 >= cfg.q
    requires FitsChain(sc.chain, sc.stage.block) && sc.height == |sc.chain|
    requires var sc1 := Decided(sc, sc.stage.block);
             && ProposerAt(cfg.members, sc1.height, 0) == cfg.self && |sc1.queue| == 1
             && cfg.ops.build(sc1.chain, sc1.queue[0].payload, 0) == Some(block)
    ensures var sc1 := Decided(sc, sc.stage.block);
            Shows(cfg, React(cfg, n, Deliver(sm), 0),
                  Proposing(sc1, cfg.self, block).(queue := [sc1.queue[0].(candidate := Some(block))]))
  {
    hide RoundIs, React, MaybePropose, StillWaiting;
    var m, depth := CommitFinalizes(cfg, n, sc, sm);
    var sc1 := Decided(sc, sc.stage.block);
    ProposesFirst(cfg, m, sc1, block);
    var r := MaybePropose(cfg, m);
    Settles(cfg, r.(depth := depth),
            Proposing(sc1, cfg.self, block).(queue := [sc1.queue[0].(candidate := Some(block))]));
  }

  /** The follower, or another engine turn, has moved the head. */
  lemma HeadMoves(cfg: Config, n: Node, sc: Scene, height: nat)
    requires PlainConfig(cfg) && At(n, sc) && RoundIs(cfg, n.rs, sc) && sc.height <= height && sc.queue == []
    ensures Shows(cfg, React(cfg, n, HeadMoved(height), 0), Opened(sc, sc.chain, [], height + 1))
  {
    hide StartHeight, MaybePropose, React, NewRound, StageIs, AskingIs;
    var sc1 := Opened(sc, sc.chain, [], height + 1);
    var n1 := ResolveWaiters(Woken(n, 0), height);
    var m := OpensAt(cfg, n1, height + 1);
    NewRoundIs(cfg, sc1);
    FlagsKeepRound(cfg, m.rs, NewRound(cfg, height + 1), sc1);
    StaysQuiet(cfg, m, sc1);
    TurnEnds(cfg, n, HeadMoved(height));
    Settles(cfg, MaybePropose(cfg, m), sc1);
  }

  lemma Boots(cfg: Config, chain: seq<Block>)
    requires PlainConfig(cfg) && |chain| > 0
    ensures Shows(cfg, Boot(cfg, chain), Scene(chain, |chain|, 0, Open, None, 0, [], None, [], {}))
  {
    hide StartHeight, MaybePropose, NewRound, StageIs, AskingIs;
    var sc := Scene(chain, |chain|, 0, Open, None, 0, [], None, [], {});
    var m := OpensAt(cfg, Blank(cfg, chain), |chain|);
    NewRoundIs(cfg, sc);
    FlagsKeepRound(cfg, m.rs, NewRound(cfg, |chain|), sc);
    StaysQuiet(cfg, m, sc);
    Settles(cfg, MaybePropose(cfg, m), sc);
  }

  lemma PullsBlock(cfg: Config, n: Node, sc: Scene, block: Block)
    requires PlainConfig(cfg) && Shows(cfg, n, sc) && 0 < Number(block) == |sc.chain| == sc.height
    ensures var r := Pull(cfg, n, block);
            && At(r, sc.(chain := sc.chain + [block])) && RoundIs(cfg, r.rs, sc.(chain := sc.chain + [block]))
            && WellFormed(r)
  {
    hide StageIs, AskingIs;
  }

  // --- submissions ---

  lemma SubmitProposes(cfg: Config, n: Node, sc: Scene, req: Request, block: Block)
    requires PlainConfig(cfg) && Shows(cfg, n, sc) && sc.stage.Open? && sc.lock == None && sc.queue == []
    requires ProposerAt(cfg.members, sc.height, sc.round) == cfg.self && sc.height == |sc.chain|
    requires cfg.ops.build(sc.chain, req.payload, 0) == Some(block)
    ensures Shows(cfg, React(cfg, n, Submit(req), 0),
                  Proposing(sc, cfg.self, block).(queue := [req.(candidate := Some(block))]))
  {
    hide StageIs, AskingIs, React, MaybePropose, RoundTimeout, BroadcastProposal;
    var w := Woken(n, 0);
    var m := ArmTimerIfWorkPending(cfg, w.(queue := w.queue + [req]));
    var sc1 := sc.(queue := [req]);
    FlagsKeepRound(cfg, m.rs, w.rs, sc1);
    ProposesFirst(cfg, m, sc1, block);
    TurnEnds(cfg, n, Submit(req));
    Settles(cfg, MaybePropose(cfg, m), Proposing(sc, cfg.self, block).(queue := [req.(candidate := Some(block))]));
  }

  lemma SubmitWaits(cfg: Config, n: Node, sc: Scene, req: Request)
    requires PlainConfig(cfg) && Shows(cfg, n, sc) && ProposerAt(cfg.members, sc.height, sc.round) != cfg.self
    requires |sc.queue| < MAX_QUEUE
    ensures Shows(cfg, React(cfg, n, Submit(req), 0), sc.(queue := sc.queue + [req]))
  {
    hide StageIs, AskingIs, React, MaybePropose, RoundTimeout;
    var w := Woken(n, 0);
    var m := ArmTimerIfWorkPending(cfg, w.(queue := w.queue + [req]));
    var sc1 := sc.(queue := sc.queue + [req]);
    FlagsKeepRound(cfg, m.rs, w.rs, sc1);
    StaysQuiet(cfg, m, sc1);
    TurnEnds(cfg, n, Submit(req));
    Settles(cfg, MaybePropose(cfg, m), sc1);
  }

  // --- round changes ---

  function LockHash(lock: Option<Block>): Hash {
    if lock.Some? then BlockHash(lock.value) else ZeroHash
  }

  function Asking(sc: Scene, self: Address): Scene {
    sc.(asked := sc.round + 1, asking := [self], offer := sc.lock,
        signed := sc.signed + {Signed(RoundChange, sc.height, sc.round + 1, ZeroHash, LockHash(sc.lock))})
  }

  lemma ChangeKeepsStage(rs: Round, stage: Stage, sm: Message)
    requires StageIs(rs, stage) && sm.typ == RoundChange
    ensures StageIs(Filed(rs, sm), stage)
  {
    hide VotersAre;
  }

  lemma FirstAsks(rs: Round, asked: nat, asking: seq<Address>, offer: Option<Block>, sm: Message, lock: Option<Block>)
    requires AskingIs(rs, asked, asking, offer) && asked == rs.round && sm.typ == RoundChange && sm.round == asked + 1
    requires sm.lockedHash == LockHash(lock) && (lock.Some? ==> sm.body == lock)
    ensures AskingIs(Filed(rs, sm), asked + 1, [sm.signer], lock) && KeyOf(sm) !in rs.seen
    ensures ChangeCount(Filed(rs, sm), asked + 1) == 1
  {
    OfferAlone(sm, lock);
    hide VotersAre, Offers, LockHash;
    assert Filed(rs, sm).changes == rs.changes[asked + 1 := map[sm.signer := sm]];
  }

  lemma OfferAlone(sm: Message, lock: Option<Block>)
    requires sm.lockedHash == LockHash(lock) && (lock.Some? ==> sm.body == lock)
    ensures VotersAre(map[sm.signer := sm], [sm.signer]) && Offers(map[sm.signer := sm], lock)
  {
    assert sm.signer in map[sm.signer := sm];
  }

  lemma AskRound(cfg: Config, n: Node, sc: Scene)
    requires |cfg.members| > 0 && RoundIs(cfg, n.rs, sc) && sc.asked == sc.round
    ensures var sm := RoundChangeVote(cfg, n, sc.round + 1);
            && RoundIs(cfg, Record(n.rs, sm).rs, Asking(sc, cfg.self))
            && Digest(sm) == Signed(RoundChange, sc.height, sc.round + 1, ZeroHash, LockHash(sc.lock))
            && ChangeCount(Record(n.rs, sm).rs, sc.round + 1) == 1
  {
    hide ProposerAt, StageIs, AskingIs, ChangeCount;
    var sm := RoundChangeVote(cfg, n, sc.round + 1);
    FirstAsks(n.rs, sc.asked, sc.asking, sc.offer, sm, sc.lock);
    ChangeKeepsStage(n.rs, sc.stage, sm);
    assert Record(n.rs, sm).rs == Filed(n.rs, sm);
  }

  lemma AskedAlone(a: Round, b: Round, round: nat)
    requires SameRound(b, a)
    ensures ChangeCount(a, round) == ChangeCount(b, round)
  {
  }

  lemma AsksForRound(cfg: Config, n: Node, sc: Scene) returns (r: Node)
    requires PlainConfig(cfg) && At(n, sc) && RoundIs(cfg, n.rs, sc) && sc.asked == sc.round
    ensures r == AskForRound(cfg, n, sc.round + 1) && At(r, Asking(sc, cfg.self))
    ensures RoundIs(cfg, r.rs, Asking(sc, cfg.self)) && ChangeCount(r.rs, sc.round + 1) == 1
  {
    AskRound(cfg, n, sc);
    hide RoundIs, Record, RoundChangeVote, RoundTimeout, Digests, ChangeCount;
    var sm := RoundChangeVote(cfg, n, sc.round + 1);
    var rs := Record(n.rs, sm).rs;
    DigestsGrow(n.(rs := rs), sm);
    r := AskForRound(cfg, n, sc.round + 1);
    AskedAlone(rs, r.rs, sc.round + 1);
    FlagsKeepRound(cfg, r.rs, rs, Asking(sc, cfg.self));
  }

  lemma TimesOut(cfg: Config, n: Node, next: nat)
    requires PlainConfig(cfg) && WellFormed(n) && n.rs.round + 1 == next < ROUND_LIMIT
    requires ChangeCount(AskForRound(cfg, n, next).rs, next) < cfg.q
    ensures OnRoundTimeout(cfg, n) == AskForRound(cfg, n, next)
  {
    hide AskForRound, MaybePropose, NextRound, ChangeCount;
  }

  lemma TimeoutAsks(cfg: Config, n: Node, sc: Scene)
    requires PlainConfig(cfg) && Shows(cfg, n, sc) && sc.asked == sc.round && sc.round + 1 < ROUND_LIMIT
    ensures Shows(cfg, React(cfg, n, Timeout, 0), Asking(sc, cfg.self))
  {
    hide StageIs, AskingIs, React, AskForRound, OnRoundTimeout, ChangeCount;
    var r := AsksForRound(cfg, Woken(n, 0), sc);
    TimesOut(cfg, Woken(n, 0), sc.round + 1);
    TurnEnds(cfg, n, Timeout);
    Settles(cfg, r, Asking(sc, cfg.self));
  }

  predicate NextChange(cfg: Config, sc: Scene, sm: Message) {
    && sc.asked > sc.round && sm.typ == RoundChange && sm.height == sc.height && sm.round == sc.asked
    && sm.signer in cfg.members && sm.signer !in sc.asking
    && (CarriesLock(sm) ==> sm.body.Some? && sm.lockedHash == BlockHash(sm.body.value)
                            && (sc.offer == None || sc.offer == sm.body))
  }

  function Asked(sc: Scene, sm: Message): Scene {
    sc.(asking := sc.asking + [sm.signer], offer := if CarriesLock(sm) then sm.body else sc.offer)
  }

  lemma OfferAdds(votes: map<Address, Message>, voters: seq<Address>, offer: Option<Block>, sm: Message)
    requires VotersAre(votes, voters) && Offers(votes, offer) && sm.signer !in voters
    requires CarriesLock(sm) ==>
               sm.body.Some? && sm.lockedHash == BlockHash(sm.body.value) && (offer == None || offer == sm.body)
    ensures Offers(votes[sm.signer := sm], if CarriesLock(sm) then sm.body else offer)
    ensures VotersAre(votes[sm.signer := sm], voters + [sm.signer])
  {
    var after := votes[sm.signer := sm];
    assert sm.signer in after && after[sm.signer] == sm;
    assert forall a :: a in voters + [sm.signer] <==> a in voters || a == sm.signer;
    if !CarriesLock(sm) && offer.Some? {
      var a :| a in votes && CarriesLock(votes[a]);
      assert a in after && after[a] == votes[a];
    }
  }

  lemma FiledChange(cfg: Config, rs: Round, sc: Scene, sm: Message)
    requires |cfg.members| > 0 && RoundIs(cfg, rs, sc) && NextChange(cfg, sc, sm)
    ensures RoundIs(cfg, Filed(rs, sm), Asked(sc, sm)) && KeyOf(sm) !in rs.seen
  {
    hide ProposerAt, StageIs, AskingIs, CarriesLock;
    ChangeKeepsStage(rs, sc.stage, sm);
    AskingGrows(rs, sc, sm);
  }

  lemma AskingGrows(rs: Round, sc: Scene, sm: Message)
    requires AskingIs(rs, sc.asked, sc.asking, sc.offer) && sc.asked > rs.round && sm.typ == RoundChange
    requires sm.round == sc.asked && sm.signer !in sc.asking
    requires CarriesLock(sm) ==>
               sm.body.Some? && sm.lockedHash == BlockHash(sm.body.value) && (sc.offer == None || sc.offer == sm.body)
    ensures var sc1 := Asked(sc, sm);
            AskingIs(Filed(rs, sm), sc1.asked, sc1.asking, sc1.offer) && KeyOf(sm) !in rs.seen
  {
    hide Offers, VotersAre;
    OfferAdds(rs.changes[sc.asked], sc.asking, sc.offer, sm);
    hide CarriesLock;
    var asking := sc.asking + [sm.signer];
    assert forall a :: a in sc.asking ==> a in asking;
    assert sm.signer in asking;
  }

  lemma ChangeFiled(cfg: Config, n: Node, sc: Scene, sm: Message) returns (n1: Node)
    requires PlainConfig(cfg) && Shows(cfg, n, sc) && NextChange(cfg, sc, sm)
    ensures Shows(cfg, n1, Asked(sc, sm)) && WellFormed(n1)
    ensures var r := Dispatch(cfg, n1, sm); r.now == 0 ==>
              React(cfg, n, Deliver(sm), 0) == r.(synced := r.rs.height == |r.chain|)
  {
    hide StageIs, AskingIs, Dispatch, React, CarriesLock;
    FiledChange(cfg, n.rs, sc, sm);
    n1 := Delivered(cfg, n, sm);
    FlagsKeepRound(cfg, n1.rs, Filed(n.rs, sm), Asked(sc, sm));
  }

  lemma ChangeCounted(cfg: Config, n: Node, sc: Scene, sm: Message)
    requires PlainConfig(cfg) && Shows(cfg, n, sc) && NextChange(cfg, sc, sm) && |sc.asking| + 1 < cfg.q
    ensures Shows(cfg, React(cfg, n, Deliver(sm), 0), Asked(sc, sm))
  {
    hide StageIs, MaybePropose, NextRound, React, CarriesLock, Offers;
    var n1 := ChangeFiled(cfg, n, sc, sm);
    assert ChangeCount(n1.rs, sm.round) == |sc.asking| + 1;
  }

  /** The round that was asked for, with the lock that came with it. */
  function Entered(sc: Scene): Scene {
    sc.(round := sc.asked, lock := if sc.lock.Some? then sc.lock else sc.offer, asking := [], offer := None)
  }

  lemma ReportIsOffer(cfg: Config, votes: map<Address, Message>, offer: Option<Block>, height: nat, round: nat)
    requires PlainConfig(cfg) && Offers(votes, offer) && forall a :: a in votes ==> a in cfg.members
    ensures var report := HighestLock(votes, cfg.scan(height, round));
            && (report.Some? <==> offer.Some?)
            && (report.Some? ==> report.value.body == offer && report.value.lockedHash == BlockHash(offer.value))
  {
    HighestLockIsHighest(votes, cfg.scan(height, round));
  }

  lemma EntersRound(cfg: Config, n: Node, sc: Scene) returns (m: Node)
    requires PlainConfig(cfg) && WellFormed(n) && Shows(cfg, n, sc) && sc.stage.Open? && sc.asked > sc.round
    requires forall a :: a in sc.asking ==> a in cfg.members
    ensures sc.asked in n.rs.changes && m == NextRound(cfg, n, sc.asked) && WellFormed(m) && m.synced == n.synced
    ensures At(m, Entered(sc)) && RoundIs(cfg, m.rs, Entered(sc))
  {
    hide ProposerAt, HighestLock, RoundTimeout, CarriesLock;
    ReportIsOffer(cfg, n.rs.changes[sc.asked], sc.offer, sc.height, sc.asked);
    hide Offers;
    m := NextRound(cfg, n, sc.asked);
  }

  lemma AskingCount(cfg: Config, rs: Round, sc: Scene)
    requires |cfg.members| > 0 && RoundIs(cfg, rs, sc) && sc.asked > sc.round
    ensures rs.round == sc.round && ChangeCount(rs, sc.asked) == |sc.asking|
  {
    hide Offers, StageIs;
  }

  lemma ChangeEnters(cfg: Config, n: Node, sc: Scene, sm: Message) returns (m: Node)
    requires PlainConfig(cfg) && Shows(cfg, n, sc) && NextChange(cfg, sc, sm) && |sc.asking| + 1 >= cfg.q
    requires sc.stage.Open? && forall a :: a in sc.asking ==> a in cfg.members
    ensures var sc1 := Entered(Asked(sc, sm));
            WellFormed(m) && At(m, sc1) && RoundIs(cfg, m.rs, sc1) && m.synced == (sc.height == |sc.chain|)
    ensures var r := MaybePropose(cfg, m); r.now == 0 ==>
              React(cfg, n, Deliver(sm), 0) == r.(synced := r.rs.height == |r.chain|)
  {
    hide RoundIs, MaybePropose, NextRound, React, CarriesLock;
    var n1 := ChangeFiled(cfg, n, sc, sm);
    AskingCount(cfg, n1.rs, Asked(sc, sm));
    m := EntersRound(cfg, n1, Asked(sc, sm));
  }

  /** The ROUND-CHANGE that completes a quorum, at a validator that has nothing
      to propose in the new round. */
  lemma ChangeDecides(cfg: Config, n: Node, sc: Scene, sm: Message)
    requires PlainConfig(cfg) && Shows(cfg, n, sc) && NextChange(cfg, sc, sm) && |sc.asking| + 1 >= cfg.q
    requires sc.stage.Open? && (forall a :: a in sc.asking ==> a in cfg.members) && Quiet(cfg, Entered(Asked(sc, sm)))
    ensures Shows(cfg, React(cfg, n, Deliver(sm), 0), Entered(Asked(sc, sm)))
  {
    hide RoundIs, React, MaybePropose, CarriesLock;
    var m := ChangeEnters(cfg, n, sc, sm);
    StaysQuiet(cfg, m, Entered(Asked(sc, sm)));
    Settles(cfg, MaybePropose(cfg, m), Entered(Asked(sc, sm)));
  }

  /** The same at the proposer of the new round: it proposes the locked block. */
  lemma ChangeDecidesAndProposes(cfg: Config, n: Node, sc: Scene, sm: Message, block: Block)
    requires PlainConfig(cfg) && Shows(cfg, n, sc) && NextChange(cfg, sc, sm) && |sc.asking| + 1 >= cfg.q
    requires sc.stage.Open? && forall a :: a in sc.asking ==> a in cfg.members
    requires ProposerAt(cfg.members, sc.height, sc.asked) == cfg.self && sc.height == |sc.chain|
    requires Entered(Asked(sc, sm)).lock == Some(block)
    ensures Shows(cfg, React(cfg, n, Deliver(sm), 0), Proposing(Entered(Asked(sc, sm)), cfg.self, block))
  {
    hide StageIs, AskingIs, React, BroadcastProposal, CarriesLock, ProposerAt, ProposeFromQueue;
    var sc1 := Entered(Asked(sc, sm));
    var m := ChangeEnters(cfg, n, sc, sm);
    OpenIsIdle(cfg, m.rs, sc1);
    Proposes(cfg, m, sc1, block);
    assert MaybePropose(cfg, m) == BroadcastProposal(cfg, m, block);
    Settles(cfg, MaybePropose(cfg, m), Proposing(sc1, cfg.self, block));
  }

  lemma OpenIsIdle(cfg: Config, rs: Round, sc: Scene)
    requires |cfg.members| > 0 && RoundIs(cfg, rs, sc) && sc.stage.Open?
    ensures Idling(cfg, rs, sc) && rs.ph == Idle
  {
  }
}
