/** What can happen when a ROUND-CHANGE does report a lock on a block of another
    height: one dishonest validator among four is enough for an honest validator's
    height to fall back, and for two honest chains to differ.  The run is written
    out; every event in it is one the cluster can see. */
module Witness {
  import opened Blocks
  import opened Protocol
  import opened VoteSafety
  import opened Quorums
  import opened Course
  import opened Network
  import opened Scenes
  import Consensus

  function Made(number: nat, payload: nat): Block {
    Block(Header(ZeroHash, number, number, 0, "", payload, World(map[], map[], 0), 0, EmptyRoot, EmptyRoot, {}), [])
  }

  /** A chain that builds on its head and finds every block valid. */
  function PlainOps(): ChainOps {
    ChainOps((chain: seq<Block>, payload: nat, now: nat) => Some(Made(|chain|, payload)),
             (chain: seq<Block>, block: Block) => true, (block: Block, now: nat) => true)
  }

  const MEMBERS: seq<Address> := [0, 1, 2, 3]

  function Settings(v: Address): Config {
    Config(v, MEMBERS, 3, 1000, PlainOps(), (height: nat, round: nat) => MEMBERS, 2)
  }

  /** Four validators, a quorum of three, validator 0 dishonest; the chain they
      start over has one block after genesis. */
  function Four(): Cluster {
    Cluster(MEMBERS, 3, {0}, map v: Address | v in {1, 2, 3} :: Settings(v), [Made(0, 0), Made(1, 0)])
  }

  type Scenery = map<Address, Scene>

  ghost predicate Stands(run: seq<State>, w: Scenery) {
    && |run| > 0 && IsRun(Four(), run) && w.Keys == {1, 2, 3} && run[|run| - 1].Keys == {1, 2, 3}
    && forall v :: v in w ==> Shows(Settings(v), run[|run| - 1][v], w[v])
  }

  lemma PlainSettings(v: Address)
    requires v in {1, 2, 3}
    ensures ValidConfig(Settings(v)) && PlainConfig(Settings(v)) && BuildsNext(Settings(v).ops)
    ensures Settings(v).self == v && Settings(v).members == MEMBERS && Settings(v).q == 3 && Settings(v).base == 2
  {
  }

  lemma PlainCluster()
    ensures ValidCluster(Four())
    ensures forall v :: v in {1, 2, 3} ==>
              v in Four().cfgs && Four().cfgs[v] == Settings(v) && PlainConfig(Settings(v)) && BuildsNext(Settings(v).ops)
  {
    hide Settings, ValidConfig, PlainConfig, BuildsNext;
    PlainSettings(1);
    PlainSettings(2);
    PlainSettings(3);
  }

  // --- one event at one validator ---

  predicate MayCome(w: Scenery, v: Address, ev: Event)
    requires v in w
  {
    && (ev.Deliver? && ev.sm.signer in w ==> Digest(ev.sm) in w[ev.sm.signer].signed)
    && (ev.HeadMoved? ==> ev.height < |w[v].chain|)
  }

  lemma StepExtends(run: seq<State>, s: State)
    requires IsRun(Four(), run) && Next(Four(), run[|run| - 1], s)
    ensures IsRun(Four(), run + [s])
  {
    hide Next, Initial;
    var longer := run + [s];
    forall i: nat | i + 1 < |longer| ensures StepAt(Four(), longer, i) {
      if i + 1 < |run| {
        assert StepAt(Four(), run, i);
      }
    }
  }

  lemma SignedIsSent(n: Node, sc: Scene, x: Signed)
    requires At(n, sc) && x in sc.signed
    ensures exists m :: m in n.sent && Digest(m) == x
  {
    assert x in Digests(n.sent);
  }

  lemma Comes(run: seq<State>, w: Scenery, v: Address, ev: Event)
    requires Stands(run, w) && v in w && MayCome(w, v, ev)
    ensures var s := run[|run| - 1];
            (ev.Deliver? ==> Deliverable(s, ev.sm)) && (ev.HeadMoved? ==> ev.height < |s[v].chain|)
  {
    hide IsRun, RoundIs, Settings, Digest, Digests;
    if ev.Deliver? && ev.sm.signer in w {
      SignedIsSent(run[|run| - 1][ev.sm.signer], w[ev.sm.signer], Digest(ev.sm));
    }
  }

  lemma Stepped(run: seq<State>, s: State, v: Address, n: Node)
    requires IsRun(Four(), run) && v in run[|run| - 1] && s == run[|run| - 1][v := n] && Next(Four(), run[|run| - 1], s)
    ensures IsRun(Four(), run + [s]) && run <= run + [s]
  {
    hide IsRun, Next;
    StepExtends(run, s);
  }

  lemma Takes(run: seq<State>, w: Scenery, v: Address, ev: Event, after: Scene) returns (next: seq<State>)
    requires Stands(run, w) && v in w && MayCome(w, v, ev)
    requires ValidConfig(Settings(v)) && WellFormed(run[|run| - 1][v])
    requires Shows(Settings(v), React(Settings(v), run[|run| - 1][v], ev, 0), after)
    ensures run <= next && Stands(next, w[v := after])
  {
    PlainCluster();
    hide React, IsRun, Shows, Settings, Four, Deliverable, MayCome, WellFormed, ValidConfig, Next;
    var s := run[|run| - 1];
    Comes(run, w, v, ev);
    var n := React(Settings(v), s[v], ev, 0);
    var r := s[v := n];
    assert EngineStep(Four(), s, r, v, ev, 0);
    EventIsNext(Four(), s, r, v, ev, 0);
    Stepped(run, r, v, n);
    next := run + [r];
  }

  lemma EventIsNext(c: Cluster, s: State, r: State, v: Address, ev: Event, now: nat)
    requires EngineStep(c, s, r, v, ev, now)
    ensures Next(c, s, r)
  {
    hide EngineStep;
  }

  lemma Standing(run: seq<State>, w: Scenery, v: Address) returns (n: Node)
    requires Stands(run, w) && v in w
    ensures w.Keys == {1, 2, 3} && ValidConfig(Settings(v)) && PlainConfig(Settings(v))
    ensures n == run[|run| - 1][v] && WellFormed(n) && Shows(Settings(v), n, w[v])
    ensures Settings(v).self == v && Settings(v).members == MEMBERS && Settings(v).q == 3 && Settings(v).ops == PlainOps()
  {
    PlainCluster();
    hide IsRun, RoundIs, ValidCluster, BuildsNext, PlainConfig;
    n := run[|run| - 1][v];
  }

  // --- two votes at a time ---

  /** The vote is one that `a` has signed, or dishonest. */
  predicate HasSigned(w: Scenery, a: Address, x: Signed) {
    a in {0, 1, 2, 3} && (a in w ==> x in w[a].signed)
  }

  predicate Others(v: Address, a: Address, b: Address) {
    v in {1, 2, 3} && a in {0, 1, 2, 3} && b in {0, 1, 2, 3} && v != a && v != b && a != b
  }

  function PrepareOf(sc: Scene, a: Address, round: nat): Message
    requires sc.stage.Holding?
  {
    VoteOf(a, Prepare, sc.height, round, BlockHash(sc.stage.block))
  }

  /** The PREPAREs of two others, of whatever rounds, make v sign a COMMIT. */
  lemma Prepared(run: seq<State>, w: Scenery, v: Address, a: Address, ra: nat, b: Address, rb: nat)
    returns (next: seq<State>)
    requires Stands(run, w) && v in w && Others(v, a, b) && w[v].stage.Holding? && w[v].stage.voters == [v]
    requires HasSigned(w, a, Digest(PrepareOf(w[v], a, ra))) && HasSigned(w, b, Digest(PrepareOf(w[v], b, rb)))
    ensures run <= next && Stands(next, w[v := Committing(w[v], v)])
  {
    hide Stands, React, Shows, Settings, PlainConfig, WellFormed;
    var n := Standing(run, w, v);
    var sm := PrepareOf(w[v], a, ra);
    PrepareCounted(Settings(v), n, w[v], sm);
    var sc1 := w[v].(stage := Holding(w[v].stage.block, [v] + [a]));
    var run1 := Takes(run, w, v, Deliver(sm), sc1);
    var w1 := w[v := sc1];
    n := Standing(run1, w1, v);
    sm := PrepareOf(sc1, b, rb);
    PrepareDecides(Settings(v), n, sc1, sm);
    next := Takes(run1, w1, v, Deliver(sm), Committing(sc1, v));
    assert w1[v := Committing(sc1, v)] == w[v := Committing(w[v], v)];
  }

  function CommitOf(sc: Scene, a: Address): Message
    requires sc.stage.Bound?
  {
    VoteOf(a, Commit, sc.height, 0, BlockHash(sc.stage.block))
  }

  /** v is bound to a block that fits its chain, and two others have committed it. */
  predicate CommitsReady(w: Scenery, v: Address, a: Address, b: Address)
    requires v in w
  {
    && Others(v, a, b) && w[v].stage.Bound? && w[v].stage.voters == [v] && FitsChain(w[v].chain, w[v].stage.block)
    && HasSigned(w, a, Digest(CommitOf(w[v], a))) && HasSigned(w, b, Digest(CommitOf(w[v], b)))
  }

  lemma FirstCommitted(run: seq<State>, w: Scenery, v: Address, a: Address, b: Address)
    returns (next: seq<State>, n: Node, sc: Scene)
    requires Stands(run, w) && v in w && CommitsReady(w, v, a, b)
    ensures sc == w[v].(stage := Bound(w[v].stage.block, [v] + [a]))
    ensures run <= next && Stands(next, w[v := sc]) && n == next[|next| - 1][v] && Shows(Settings(v), n, sc)
    ensures WellFormed(n)
  {
    hide Stands, React, Shows, Settings, PlainConfig, WellFormed, FitsChain;
    n := Standing(run, w, v);
    var sm := CommitOf(w[v], a);
    CommitCounted(Settings(v), n, w[v], sm);
    sc := w[v].(stage := Bound(w[v].stage.block, [v] + [a]));
    next := Takes(run, w, v, Deliver(sm), sc);
    n := Standing(next, w[v := sc], v);
  }

  /** The COMMITs of two others decide the height. */
  lemma Decides(run: seq<State>, w: Scenery, v: Address, a: Address, b: Address) returns (next: seq<State>)
    requires Stands(run, w) && v in w && CommitsReady(w, v, a, b)
    requires ProposerAt(MEMBERS, Number(w[v].stage.block) + 1, 0) != v
    ensures run <= next && Stands(next, w[v := Decided(w[v], w[v].stage.block)])
  {
    hide Stands, React, Shows, Settings, PlainConfig, WellFormed, FitsChain, StillWaiting, ProposerAt;
    var n0 := Standing(run, w, v);
    var run1, n, sc := FirstCommitted(run, w, v, a, b);
    var sm := CommitOf(sc, b);
    assert Decided(sc, sc.stage.block) == Decided(w[v], w[v].stage.block);
    CommitDecides(Settings(v), n, sc, sm);
    next := Takes(run1, w[v := sc], v, Deliver(sm), Decided(sc, sc.stage.block));
    assert w[v := sc][v := Decided(sc, sc.stage.block)] == w[v := Decided(w[v], w[v].stage.block)];
  }

  /** The same at a synced validator that proposes at once. */
  lemma DecidesAndProposes(run: seq<State>, w: Scenery, v: Address, a: Address, b: Address, after: Scene, req: Request)
    returns (next: seq<State>)
    requires Stands(run, w) && v in w && CommitsReady(w, v, a, b) && w[v].height == |w[v].chain|
    requires after == Decided(w[v], w[v].stage.block) && ProposerAt(MEMBERS, after.height, 0) == v && after.queue == [req]
    ensures var block := Made(|after.chain|, req.payload);
            && run <= next
            && Stands(next, w[v := Proposing(after, v, block).(queue := [req.(candidate := Some(block))])])
  {
    hide Stands, React, Shows, Settings, PlainConfig, WellFormed, FitsChain, StillWaiting, ProposerAt, Proposing, Made;
    var n0 := Standing(run, w, v);
    var run1, n, sc := FirstCommitted(run, w, v, a, b);
    var block := Made(|after.chain|, req.payload);
    assert Settings(v).ops.build(after.chain, req.payload, 0) == Some(block);
    var sm := CommitOf(sc, b);
    assert Decided(sc, sc.stage.block) == after;
    CommitDecidesAndProposes(Settings(v), n, sc, sm, block);
    var last := Proposing(after, v, block).(queue := [req.(candidate := Some(block))]);
    next := Takes(run1, w[v := sc], v, Deliver(sm), last);
    assert w[v := sc][v := last] == w[v := last];
  }

  // --- other events ---

  lemma Asks(run: seq<State>, w: Scenery, v: Address) returns (next: seq<State>)
    requires Stands(run, w) && v in w && w[v].asked == w[v].round < 10
    ensures run <= next && Stands(next, w[v := Asking(w[v], v)])
  {
    hide Stands, React, Shows, Settings, PlainConfig, WellFormed, Asking;
    var n := Standing(run, w, v);
    TimeoutAsks(Settings(v), n, w[v]);
    next := Takes(run, w, v, Timeout, Asking(w[v], v));
  }

  function AskOf(sc: Scene, a: Address, lock: Option<Block>): Message {
    VoteOf(a, RoundChange, sc.height, sc.asked, ZeroHash).(lockedHash := LockHash(lock), body := lock)
  }

  function Moved(sc: Scene, block: Block): Scene {
    sc.(round := sc.asked, lock := if sc.lock.Some? then sc.lock else Some(block), asking := [], offer := None)
  }

  /** v has asked for a round alone; `a` asks for it too, with no other lock than
      one on the block. */
  predicate ChangeReady(w: Scenery, v: Address, a: Address, lock: Option<Block>, block: Block)
    requires v in w
  {
    && Others(v, 0, a) && w[v].stage.Open? && w[v].asked > w[v].round && w[v].asking == [v]
    && (w[v].offer == None || w[v].offer == Some(block)) && (lock == None || lock == Some(block))
    && HasSigned(w, a, Digest(AskOf(w[v], a, lock)))
  }

  /** Validator 0 reports a lock on the block. */
  lemma FirstChanges(run: seq<State>, w: Scenery, v: Address, a: Address, lock: Option<Block>, block: Block)
    returns (next: seq<State>, n: Node, sc: Scene)
    requires Stands(run, w) && v in w && ChangeReady(w, v, a, lock, block)
    ensures sc == w[v].(asking := [v] + [0], offer := Some(block))
    ensures run <= next && Stands(next, w[v := sc]) && n == next[|next| - 1][v] && Shows(Settings(v), n, sc)
    ensures WellFormed(n)
  {
    hide Stands, React, Shows, Settings, PlainConfig, WellFormed;
    n := Standing(run, w, v);
    var sm := AskOf(w[v], 0, Some(block));
    ChangeCounted(Settings(v), n, w[v], sm);
    sc := w[v].(asking := [v] + [0], offer := Some(block));
    next := Takes(run, w, v, Deliver(sm), sc);
    n := Standing(next, w[v := sc], v);
  }

  lemma Changes(run: seq<State>, w: Scenery, v: Address, a: Address, lock: Option<Block>, block: Block)
    returns (next: seq<State>)
    requires Stands(run, w) && v in w && ChangeReady(w, v, a, lock, block)
    requires ProposerAt(MEMBERS, w[v].height, w[v].asked) != v
    ensures run <= next && Stands(next, w[v := Moved(w[v], block)])
  {
    hide Stands, React, Shows, Settings, PlainConfig, WellFormed, ProposerAt;
    var n0 := Standing(run, w, v);
    var run1, n, sc := FirstChanges(run, w, v, a, lock, block);
    var sm := AskOf(sc, a, lock);
    assert Entered(Asked(sc, sm)) == Moved(w[v], block);
    ChangeDecides(Settings(v), n, sc, sm);
    next := Takes(run1, w[v := sc], v, Deliver(sm), Moved(w[v], block));
    assert w[v := sc][v := Moved(w[v], block)] == w[v := Moved(w[v], block)];
  }

  lemma ChangesAndProposes(run: seq<State>, w: Scenery, v: Address, a: Address, lock: Option<Block>, block: Block)
    returns (next: seq<State>)
    requires Stands(run, w) && v in w && ChangeReady(w, v, a, lock, block) && w[v].height == |w[v].chain|
    requires ProposerAt(MEMBERS, w[v].height, w[v].asked) == v && (w[v].lock == None || w[v].lock == Some(block))
    ensures run <= next && Stands(next, w[v := Proposing(Moved(w[v], block), v, block)])
  {
    hide Stands, React, Shows, Settings, PlainConfig, WellFormed, ProposerAt, Proposing;
    var n0 := Standing(run, w, v);
    var run1, n, sc := FirstChanges(run, w, v, a, lock, block);
    var sm := AskOf(sc, a, lock);
    assert Entered(Asked(sc, sm)) == Moved(w[v], block);
    ChangeDecidesAndProposes(Settings(v), n, sc, sm, block);
    var last := Proposing(Moved(w[v], block), v, block);
    next := Takes(run1, w[v := sc], v, Deliver(sm), last);
    assert w[v := sc][v := last] == w[v := last];
  }

  lemma Submits(run: seq<State>, w: Scenery, v: Address, req: Request) returns (next: seq<State>)
    requires Stands(run, w) && v in w && w[v].stage.Open? && w[v].lock == None && w[v].queue == []
    requires ProposerAt(MEMBERS, w[v].height, w[v].round) == v && w[v].height == |w[v].chain|
    ensures var block := Made(|w[v].chain|, req.payload);
            run <= next && Stands(next, w[v := Proposing(w[v], v, block).(queue := [req.(candidate := Some(block))])])
  {
    hide Stands, React, Shows, Settings, PlainConfig, WellFormed, ProposerAt, Proposing, Made;
    var n := Standing(run, w, v);
    var block := Made(|w[v].chain|, req.payload);
    assert Settings(v).ops.build(w[v].chain, req.payload, 0) == Some(block);
    SubmitProposes(Settings(v), n, w[v], req, block);
    next := Takes(run, w, v, Submit(req), Proposing(w[v], v, block).(queue := [req.(candidate := Some(block))]));
  }

  lemma Waits(run: seq<State>, w: Scenery, v: Address, req: Request) returns (next: seq<State>)
    requires Stands(run, w) && v in w && w[v].queue == [] && ProposerAt(MEMBERS, w[v].height, w[v].round) != v
    ensures run <= next && Stands(next, w[v := w[v].(queue := [req])])
  {
    hide Stands, React, Shows, Settings, PlainConfig, WellFormed, ProposerAt;
    var n := Standing(run, w, v);
    SubmitWaits(Settings(v), n, w[v], req);
    assert w[v].queue + [req] == [req];
    next := Takes(run, w, v, Submit(req), w[v].(queue := [req]));
  }

  /** v prepares the block that `a` has proposed. */
  lemma Accepts(run: seq<State>, w: Scenery, v: Address, a: Address, block: Block) returns (next: seq<State>)
    requires Stands(run, w) && v in w && w[v].stage.Open? && w[v].lock == None && 0 < w[v].height == |w[v].chain|
    requires ProposerAt(MEMBERS, w[v].height, w[v].round) == a && Number(block) == w[v].height
    requires HasSigned(w, a, Signed(Proposal, w[v].height, w[v].round, BlockHash(block), ZeroHash))
    ensures run <= next && Stands(next, w[v := Preparing(w[v], v, block)])
  {
    hide Stands, React, Shows, Settings, PlainConfig, WellFormed, ProposerAt, Preparing;
    var n := Standing(run, w, v);
    var sm := VoteOf(a, Proposal, w[v].height, w[v].round, BlockHash(block)).(body := Some(block));
    ProposalPrepared(Settings(v), n, w[v], sm);
    next := Takes(run, w, v, Deliver(sm), Preparing(w[v], v, block));
  }

  lemma HearsOfHead(run: seq<State>, w: Scenery, v: Address, height: nat) returns (next: seq<State>)
    requires Stands(run, w) && v in w && w[v].height <= height < |w[v].chain| && w[v].queue == []
    ensures run <= next && Stands(next, w[v := Opened(w[v], w[v].chain, [], height + 1)])
  {
    hide Stands, React, Settings, PlainConfig, WellFormed, RoundIs;
    var n := Standing(run, w, v);
    HeadMoves(Settings(v), n, w[v], height);
    next := Takes(run, w, v, HeadMoved(height), Opened(w[v], w[v].chain, [], height + 1));
  }

  lemma PullIsNext(c: Cluster, s: State, r: State, v: Address, u: Address, i: nat)
    requires PullStep(c, s, r, v, u, i)
    ensures Next(c, s, r)
  {
    hide PullStep;
  }

  /** v's follower pulls u's block at the height v is deciding. */
  lemma Pulled(run: seq<State>, w: Scenery, v: Address, u: Address) returns (next: seq<State>, n: Node)
    requires Stands(run, w) && v in w && u in w && v != u
    requires 0 < w[v].height == |w[v].chain| < |w[u].chain| && Number(w[u].chain[w[v].height]) == w[v].height
    ensures var sc := w[v].(chain := w[v].chain + [w[u].chain[w[v].height]]);
            && WellFormed(n) && At(n, sc) && RoundIs(Settings(v), n.rs, sc)
    ensures run <= next && IsRun(Four(), next) && next[|next| - 1] == run[|run| - 1][v := n]
  {
    PlainCluster();
    hide IsRun, RoundIs, Settings, Four, WellFormed, ValidConfig, PlainConfig, Next;
    var i, s := w[v].height, run[|run| - 1];
    n := Standing(run, w, v);
    var m := Standing(run, w, u);
    PullsBlock(Settings(v), n, w[v], w[u].chain[i]);
    n := Pull(Settings(v), n, w[u].chain[i]);
    PullIsNext(Four(), s, s[v := n], v, u, i);
    Stepped(run, s[v := n], v, n);
    next := run + [s[v := n]];
  }

  /** Then its engine hears of it. */
  lemma PullsAndFollows(run: seq<State>, w: Scenery, v: Address, u: Address) returns (next: seq<State>)
    requires Stands(run, w) && v in w && u in w && v != u && w[v].queue == []
    requires 0 < w[v].height == |w[v].chain| < |w[u].chain| && Number(w[u].chain[w[v].height]) == w[v].height
    ensures var chain := w[v].chain + [w[u].chain[w[v].height]];
            run <= next && Stands(next, w[v := Opened(w[v], chain, [], |chain|)])
  {
    PlainCluster();
    hide React, IsRun, Shows, RoundIs, Settings, Four, WellFormed, ValidConfig, PlainConfig, Next, ValidCluster, BuildsNext;
    var n0 := Standing(run, w, v);
    var run1, n := Pulled(run, w, v, u);
    var i, s := w[v].height, run1[|run1| - 1];
    HeadMoves(Settings(v), n, w[v].(chain := w[v].chain + [w[u].chain[i]]), i);
    var r := React(Settings(v), n, HeadMoved(i), 0);
    EventIsNext(Four(), s, s[v := r], v, HeadMoved(i), 0);
    Stepped(run1, s[v := r], v, r);
    next := run1 + [s[v := r]];
  }

  // --- the run ---

  lemma ProposersAre()
    ensures ProposerAt(MEMBERS, 2, 0) == 2 && ProposerAt(MEMBERS, 2, 1) == 3 && ProposerAt(MEMBERS, 3, 0) == 3
    ensures ProposerAt(MEMBERS, 3, 1) == 0 && ProposerAt(MEMBERS, 3, 2) == 1 && ProposerAt(MEMBERS, 3, 3) == 2
    ensures ProposerAt(MEMBERS, 4, 0) == 0 && |Three()| == 3
  {
  }

  /** A validator at the start of a height. */
  function Fresh(chain: seq<Block>, height: nat, signed: set<Signed>): Scene {
    Scene(chain, height, 0, Open, None, 0, [], None, [], signed)
  }

  /** The chain after the cluster's first decision. */
  function Three(): seq<Block> {
    Four().start + [Made(2, 1)]
  }

  function Req(payload: nat): Request {
    Request(payload, payload, 0, None)
  }

  lemma Starts(v: Address)
    requires v in {1, 2, 3}
    ensures ValidConfig(Settings(v)) && |Four().start| > 0
    ensures Shows(Settings(v), Boot(Settings(v), Four().start), Fresh(Four().start, 2, {}))
  {
    hide Shows, Boot;
    PlainCluster();
    Boots(Settings(v), Four().start);
  }

  /** The cluster as it starts. */
  function Started(): (s: State)
    ensures s.Keys == {1, 2, 3}
  {
    PlainSettings(1);
    PlainSettings(2);
    PlainSettings(3);
    map[1 := Boot(Settings(1), Four().start), 2 := Boot(Settings(2), Four().start), 3 := Boot(Settings(3), Four().start)]
  }

  lemma StartedIsRun()
    ensures IsRun(Four(), [Started()])
  {
    PlainCluster();
    hide Boot, Settings, BuildsNext, PlainConfig, StepAt;
  }

  lemma StartedShows(v: Address)
    requires v in {1, 2, 3}
    ensures Shows(Settings(v), Started()[v], Fresh(Four().start, 2, {}))
  {
    hide Boot, Settings, Shows, Fresh;
    Starts(v);
  }

  lemma Begin() returns (run: seq<State>, w: Scenery)
    ensures Stands(run, w) && |run| == 1
    ensures w == map[1 := Fresh(Four().start, 2, {}), 2 := Fresh(Four().start, 2, {}), 3 := Fresh(Four().start, 2, {})]
  {
    hide Started, Fresh, Settings, Shows, IsRun, Four;
    var sc := Fresh(Four().start, 2, {});
    StartedIsRun();
    StartedShows(1);
    StartedShows(2);
    StartedShows(3);
    run, w := [Started()], map[1 := sc, 2 := sc, 3 := sc];
  }

  /** Validators 1 and 2 decide a block at height 2; validator 3 misses it. */
  lemma FirstDecision() returns (run: seq<State>, w: Scenery)
    ensures Stands(run, w) && w.Keys == {1, 2, 3} && w[3] == Fresh(Four().start, 2, {})
    ensures w[1] == Fresh(Three(), 3, w[1].signed) && w[2] == Fresh(Three(), 3, w[2].signed)
  {
    hide Stands, Settings, ProposerAt;
    ProposersAre();
    run, w := Begin();
    run := Submits(run, w, 2, Req(1));
    var block := Made(2, 1);
    w := w[2 := Proposing(w[2], 2, block).(queue := [Req(1).(candidate := Some(block))])];
    run := Accepts(run, w, 1, 2, block);
    w := w[1 := Preparing(w[1], 1, block)];
    run := Prepared(run, w, 1, 0, 0, 2, 0);
    w := w[1 := Committing(w[1], 1)];
    run := Prepared(run, w, 2, 0, 0, 1, 0);
    w := w[2 := Committing(w[2], 2)];
    run := Decides(run, w, 2, 0, 1);
    w := w[2 := Decided(w[2], block)];
    run := Decides(run, w, 1, 0, 2);
    w := w[1 := Decided(w[1], block)];
  }

  /** At height 3 both take over a lock on the block of height 1, in round 1. */
  lemma LocksHandedOn(run0: seq<State>, w0: Scenery) returns (run: seq<State>, w: Scenery)
    requires Stands(run0, w0) && w0.Keys == {1, 2, 3}
    requires w0[1] == Fresh(Three(), 3, w0[1].signed) && w0[2] == Fresh(Three(), 3, w0[2].signed)
    ensures run0 <= run && Stands(run, w) && w.Keys == {1, 2, 3} && w[3] == w0[3]
    ensures forall v :: v in {1, 2} ==>
              w[v] == Scene(Three(), 3, 1, Open, Some(Made(1, 0)), 1, [], None, if v == 2 then [Req(2)] else [], w[v].signed)
  {
    hide Stands, Settings, Three, Made, ProposerAt;
    ProposersAre();
    var block := Made(1, 0);
    run := Waits(run0, w0, 2, Req(2));
    w := w0[2 := w0[2].(queue := [Req(2)])];
    run := Asks(run, w, 1);
    w := w[1 := Asking(w[1], 1)];
    run := Asks(run, w, 2);
    w := w[2 := Asking(w[2], 2)];
    run := Changes(run, w, 1, 2, None, block);
    w := w[1 := Moved(w[1], block)];
    run := Changes(run, w, 2, 1, None, block);
    w := w[2 := Moved(w[2], block)];
  }

  /** In round 2 validator 1 proposes that block. */
  lemma FirstProposed(run0: seq<State>, w0: Scenery) returns (run: seq<State>, w: Scenery)
    requires Stands(run0, w0) && w0.Keys == {1, 2, 3}
    requires forall v :: v in {1, 2} ==>
               w0[v] == Scene(Three(), 3, 1, Open, Some(Made(1, 0)), 1, [], None, if v == 2 then [Req(2)] else [],
                              w0[v].signed)
    ensures run0 <= run && Stands(run, w) && w.Keys == {1, 2, 3} && w[3] == w0[3]
    ensures w[1] == Scene(Three(), 3, 2, Holding(Made(1, 0), [1]), Some(Made(1, 0)), 2, [], None, [], w[1].signed)
    ensures w[2] == Scene(Three(), 3, 2, Open, Some(Made(1, 0)), 2, [], None, [Req(2)], w[2].signed)
    ensures Signed(Prepare, 3, 2, BlockHash(Made(1, 0)), ZeroHash) in w[1].signed
  {
    hide Stands, Settings, Three, Made, ProposerAt;
    ProposersAre();
    var block := Made(1, 0);
    run := Asks(run0, w0, 1);
    w := w0[1 := Asking(w0[1], 1)];
    run := Asks(run, w, 2);
    w := w[2 := Asking(w[2], 2)];
    run := Changes(run, w, 2, 1, Some(block), block);
    w := w[2 := Moved(w[2], block)];
    run := ChangesAndProposes(run, w, 1, 2, Some(block), block);
    w := w[1 := Proposing(Moved(w[1], block), 1, block)];
  }

  /** In round 3 validator 2 does; validator 1 stays in round 2. */
  lemma SecondProposed(run0: seq<State>, w0: Scenery) returns (run: seq<State>, w: Scenery)
    requires Stands(run0, w0) && w0.Keys == {1, 2, 3}
    requires w0[1] == Scene(Three(), 3, 2, Holding(Made(1, 0), [1]), Some(Made(1, 0)), 2, [], None, [], w0[1].signed)
    requires w0[2] == Scene(Three(), 3, 2, Open, Some(Made(1, 0)), 2, [], None, [Req(2)], w0[2].signed)
    ensures run0 <= run && Stands(run, w) && w.Keys == {1, 2, 3} && w[3] == w0[3]
    ensures w[1] == Asking(w0[1], 1)
    ensures w[2] == Scene(Three(), 3, 3, Holding(Made(1, 0), [2]), Some(Made(1, 0)), 3, [], None, [Req(2)], w[2].signed)
    ensures Signed(Prepare, 3, 3, BlockHash(Made(1, 0)), ZeroHash) in w[2].signed
  {
    hide Stands, Settings, Three, Made, ProposerAt;
    ProposersAre();
    var block := Made(1, 0);
    run := Asks(run0, w0, 1);
    w := w0[1 := Asking(w0[1], 1)];
    run := Asks(run, w, 2);
    w := w[2 := Asking(w[2], 2)];
    run := ChangesAndProposes(run, w, 2, 1, Some(block), block);
    w := w[2 := Proposing(Moved(w[2], block), 2, block)];
  }

  /** Both decide it again, and are back at height 2; validator 1 catches up,
      validator 2 proposes a block that is not of that height. */
  lemma HeightsFall(run0: seq<State>, w0: Scenery) returns (run: seq<State>, w: Scenery)
    requires Stands(run0, w0) && w0.Keys == {1, 2, 3}
    requires w0[1].chain == w0[2].chain == Three() && w0[1].height == w0[2].height == 3 && w0[1].queue == []
    requires w0[2].queue == [Req(2)] && w0[1].round == 2 && w0[2].round == 3
    requires w0[1].stage == Holding(Made(1, 0), [1]) && w0[2].stage == Holding(Made(1, 0), [2])
    requires Signed(Prepare, 3, 2, BlockHash(Made(1, 0)), ZeroHash) in w0[1].signed
    requires Signed(Prepare, 3, 3, BlockHash(Made(1, 0)), ZeroHash) in w0[2].signed
    ensures run0 <= run && Stands(run, w) && w.Keys == {1, 2, 3} && w[3] == w0[3]
    ensures w[1] == Fresh(Three(), 3, w[1].signed)
    ensures Signed(Commit, 3, 0, BlockHash(Made(1, 0)), ZeroHash) in w[1].signed
    ensures w[2].chain == Three() && w[2].height == 2 && w[2].round == w[2].asked == 0 && w[2].lock == None
    ensures w[2].queue == [Req(2).(candidate := Some(Made(3, 2)))] && w[2].stage == Holding(Made(3, 2), [2])
    ensures Signed(Prepare, 2, 0, BlockHash(Made(3, 2)), ZeroHash) in w[2].signed
  {
    hide Stands, Settings, ProposerAt;
    ProposersAre();
    var block := Made(1, 0);
    run := Prepared(run0, w0, 1, 0, 2, 2, 3);
    w := w0[1 := Committing(w0[1], 1)];
    run := Prepared(run, w, 2, 0, 3, 1, 2);
    w := w[2 := Committing(w[2], 2)];
    run := Decides(run, w, 1, 0, 2);
    w := w[1 := Decided(w[1], block)];
    run := HearsOfHead(run, w, 1, 2);
    w := w[1 := Opened(w[1], w[1].chain, [], 3)];
    var after := Decided(w[2], block);
    assert after.queue == [Req(2)];
    run := DecidesAndProposes(run, w, 2, 0, 1, after, Req(2));
    w := w[2 := Proposing(after, 2, Made(3, 2)).(queue := [Req(2).(candidate := Some(Made(3, 2)))])];
  }

  /** Validator 3, still at height 2, takes over a lock on the displaced block and
      proposes it; validator 2 finalizes it as its block of height 3. */
  lemma DisplacedDecided(run0: seq<State>, w0: Scenery) returns (run: seq<State>, w: Scenery)
    requires Stands(run0, w0) && w0.Keys == {1, 2, 3} && w0[3] == Fresh(Four().start, 2, {})
    requires w0[2].chain == Three() && w0[2].height == 2 && w0[2].round == w0[2].asked == 0 && w0[2].lock == None
    requires w0[2].queue == [Req(2).(candidate := Some(Made(3, 2)))] && w0[2].stage == Holding(Made(3, 2), [2])
    requires Signed(Prepare, 2, 0, BlockHash(Made(3, 2)), ZeroHash) in w0[2].signed
    ensures run0 <= run && Stands(run, w) && w.Keys == {1, 2, 3} && w[1] == w0[1]
    ensures w[2].chain == Three() + [Made(3, 2)] && w[3].chain == Four().start && w[3].height == 2 && w[3].queue == []
  {
    hide Stands, Settings, Three, ProposerAt;
    ProposersAre();
    var block := Made(3, 2);
    run := Asks(run0, w0, 2);
    w := w0[2 := Asking(w0[2], 2)];
    run := Asks(run, w, 3);
    w := w[3 := Asking(w[3], 3)];
    run := ChangesAndProposes(run, w, 3, 2, None, block);
    w := w[3 := Proposing(Moved(w[3], block), 3, block)];
    run := Prepared(run, w, 3, 0, 0, 2, 0);
    w := w[3 := Committing(w[3], 3)];
    run := Prepared(run, w, 2, 0, 0, 3, 1);
    w := w[2 := Committing(w[2], 2)];
    run := Decides(run, w, 2, 0, 3);
    w := w[2 := Decided(w[2], block)];
  }

  /** Validators 1 and 3 decide another block of height 3. */
  lemma OtherDecided(run0: seq<State>, w0: Scenery) returns (run: seq<State>, w: Scenery)
    requires Stands(run0, w0) && w0.Keys == {1, 2, 3} && w0[1] == Fresh(Three(), 3, w0[1].signed)
    requires w0[3].chain == Four().start && w0[3].height == 2 && w0[3].queue == []
    ensures run0 <= run && Stands(run, w) && w.Keys == {1, 2, 3} && w[2] == w0[2]
    ensures w[1].chain == Three() + [Made(3, 3)] && w0[1].signed <= w[1].signed
    ensures Signed(Commit, 3, 0, BlockHash(Made(3, 3)), ZeroHash) in w[1].signed
  {
    hide Stands, Settings, ProposerAt;
    ProposersAre();
    var block := Made(3, 3);
    run := PullsAndFollows(run0, w0, 3, 1);
    w := w0[3 := Opened(w0[3], Three(), [], 3)];
    run := Submits(run, w, 3, Req(3));
    w := w[3 := Proposing(w[3], 3, block).(queue := [Req(3).(candidate := Some(block))])];
    run := Accepts(run, w, 1, 3, block);
    w := w[1 := Preparing(w[1], 1, block)];
    run := Prepared(run, w, 1, 0, 0, 3, 0);
    w := w[1 := Committing(w[1], 1)];
    run := Prepared(run, w, 3, 0, 0, 1, 0);
    w := w[3 := Committing(w[3], 3)];
    run := Decides(run, w, 1, 0, 3);
    w := w[1 := Decided(w[1], block)];
  }

  // --- what it shows ---

  lemma WholeRun() returns (run: seq<State>, w: Scenery)
    ensures Stands(run, w) && w.Keys == {1, 2, 3}
    ensures w[1].chain == Three() + [Made(3, 3)] && w[2].chain == Three() + [Made(3, 2)]
    ensures Signed(Commit, 3, 0, BlockHash(Made(1, 0)), ZeroHash) in w[1].signed
    ensures Signed(Commit, 3, 0, BlockHash(Made(3, 3)), ZeroHash) in w[1].signed
  {
    hide Stands, Settings, Made, Three;
    run, w := FirstDecision();
    run, w := LocksHandedOn(run, w);
    run, w := FirstProposed(run, w);
    run, w := SecondProposed(run, w);
    run, w := HeightsFall(run, w);
    run, w := DisplacedDecided(run, w);
    run, w := OtherDecided(run, w);
  }

  lemma CommitIsSent(n: Node, sc: Scene, height: nat, hash: Hash)
    requires At(n, sc) && Signed(Commit, height, 0, hash, ZeroHash) in sc.signed
    ensures SentCommit(n.sent, height, hash)
  {
    SignedIsSent(n, sc, Signed(Commit, height, 0, hash, ZeroHash));
  }

  /** The condition on the input cannot be dropped: with one dishonest validator
      of four, blocks built on the head and every other rule kept, two honest
      validators end up with different blocks at height 3, one of them having
      signed two COMMITs there. */
  lemma HonestChainsDiffer() returns (run: seq<State>)
    ensures ValidCluster(Four()) && |Four().byz| == 1 && IsRun(Four(), run) && !ProperInput(Four(), run)
    ensures forall v :: v in Four().cfgs ==> BuildsNext(Four().cfgs[v].ops)
    ensures var s := run[|run| - 1];
            && 1 in s && 2 in s && |s[1].chain| == |s[2].chain| == 4
            && BlockHash(s[1].chain[3]) != BlockHash(s[2].chain[3])
            && SentCommit(s[1].sent, 3, BlockHash(Made(1, 0))) && SentCommit(s[1].sent, 3, BlockHash(Made(3, 3)))
  {
    PlainCluster();
    hide ValidCluster, BuildsNext, IsRun, ProperInput, Settings, RoundIs, PlainConfig, Digests, SentCommit;
    var w;
    run, w := WholeRun();
    var s := run[|run| - 1];
    CommitIsSent(s[1], w[1], 3, BlockHash(Made(1, 0)));
    CommitIsSent(s[1], w[1], 3, BlockHash(Made(3, 3)));
    NotProper(run);
  }

  lemma NotProper(run: seq<State>)
    requires ValidCluster(Four()) && IsRun(Four(), run)
    requires var s := run[|run| - 1]; 1 in s && 2 in s && |s[1].chain| == |s[2].chain| == 4
    requires BlockHash(run[|run| - 1][1].chain[3]) != BlockHash(run[|run| - 1][2].chain[3])
    ensures !ProperInput(Four(), run)
  {
    var s := run[|run| - 1];
    hide ValidCluster, IsRun, ProperInput, Four;
    if ProperInput(Four(), run) {
      Consensus.Agreement(Four(), run, s, 1, 2, 3);
    }
  }

  /** On the way there an honest validator's position moves back, from height 3
      to height 2. */
  lemma HeightFallsBack() returns (run: seq<State>, i: nat)
    ensures ValidCluster(Four()) && IsRun(Four(), run) && i < |run|
    ensures 2 in run[i] && 2 in run[|run| - 1]
    ensures run[i][2].rs.height == 3 && run[|run| - 1][2].rs.height == 2
  {
    PlainCluster();
    hide Stands, ValidCluster, Settings, Made, Three, Four;
    var w;
    run, w := FirstDecision();
    HeightIs(run, w, 2);
    i := |run| - 1;
    ghost var before := run;
    run, w := LocksHandedOn(run, w);
    run, w := FirstProposed(run, w);
    run, w := SecondProposed(run, w);
    run, w := HeightsFall(run, w);
    HeightIs(run, w, 2);
    assert before[i] == run[i];
  }

  lemma HeightIs(run: seq<State>, w: Scenery, v: Address)
    requires Stands(run, w) && v in w
    ensures |run| > 0 && IsRun(Four(), run) && v in run[|run| - 1] && run[|run| - 1][v].rs.height == w[v].height
  {
    hide IsRun, Settings, StageIs, AskingIs;
  }
}
