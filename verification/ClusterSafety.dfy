/** What every state of a run keeps, as long as no honest validator has gone
    astray; and why, under proper input, none ever does. */
module ClusterSafety {
  import opened Blocks
  import opened Protocol
  import opened VoteSafety
  import opened HandlerSafety
  import opened Quorums
  import opened Course
  import opened Network

  /** No honest validator has locked or finalized a block of another height. */
  predicate OnCourse(s: State) {
    forall v :: v in s ==> !s[v].astray
  }

  ghost predicate Inv(c: Cluster, s: State) {
    && s.Keys == c.cfgs.Keys
    && forall v :: v in s ==> NodeInv(c.cfgs[v], s[v], CommitVotes(s))
  }

  ghost predicate NodeInv(cfg: Config, n: Node, k: Genuine) {
    WellFormed(n) && Ahead(n) && Sound(cfg, n, k)
  }

  // --- the invariant ---

  lemma SoundGrows(cfg: Config, n: Node, k: Genuine, k2: Genuine)
    requires Sound(cfg, n, k) && k <= k2
    ensures Sound(cfg, n, k2)
  {
    hide Consistent;
    if !n.astray {
      forall i | cfg.base <= i < |n.chain| ensures Certified(cfg, n.sent, k2, i, BlockHash(n.chain[i])) {
        var who :| Quorum(cfg, n.sent, k, who, i, BlockHash(n.chain[i]));
        assert Quorum(cfg, n.sent, k2, who, i, BlockHash(n.chain[i]));
      }
    }
  }

  lemma BlankStands(cfg: Config, start: seq<Block>, k: Genuine, p: Genuine)
    requires ValidConfig(cfg) && 0 < |start| == cfg.base && forall i :: 0 <= i < |start| ==> Number(start[i]) == i
    ensures var n := Blank(cfg, start); GoodBuffer(n) && Sound(cfg, n, k) && Lasting(cfg, n, k, p, [])
  {
    hide Quorum, Known, Excused;
    assert Disciplined(cfg, Blank(cfg, start), k);
  }

  lemma BootSound(cfg: Config, start: seq<Block>, k: Genuine)
    requires ValidConfig(cfg) && 0 < |start| == cfg.base
    requires forall i :: 0 <= i < |start| ==> Number(start[i]) == i
    ensures NodeInv(cfg, Boot(cfg, start), k)
  {
    hide StartHeight, Quorum, Known;
    var blank := Blank(cfg, start);
    BlankStands(cfg, start, k, iset{});
    StartHeightSafe(cfg, blank, |start|, k);
    SameVotesSound(cfg, StartHeight(cfg, blank, |start|), Boot(cfg, start), k);
  }

  lemma InitialInv(c: Cluster, s: State)
    requires ValidCluster(c) && Initial(c, s)
    ensures Inv(c, s)
  {
    forall v | v in s ensures NodeInv(c.cfgs[v], s[v], CommitVotes(s)) {
      BootSound(c.cfgs[v], c.start, CommitVotes(s));
    }
  }

  lemma VotesGrow(s: State, v: Address, n: Node)
    requires v in s && s[v].sent <= n.sent
    ensures CommitVotes(s) <= CommitVotes(s[v := n])
  {
    forall a, h, x | (a, h, x) in CommitVotes(s) ensures (a, h, x) in CommitVotes(s[v := n]) {
      if a == v && SentCommit(s[v].sent, h, x) {
        var m :| m in s[v].sent && m.typ == Commit && m.height == h && m.blockHash == x;
        assert m in n.sent;
      }
    }
  }

  lemma ReplaceNode(c: Cluster, s: State, v: Address, n: Node)
    requires Inv(c, s) && v in s && s[v].sent <= n.sent && NodeInv(c.cfgs[v], n, CommitVotes(s))
    ensures Inv(c, s[v := n])
  {
    hide Sound;
    VotesGrow(s, v, n);
    var r := s[v := n];
    forall w | w in r ensures NodeInv(c.cfgs[w], r[w], CommitVotes(r)) {
      SoundGrows(c.cfgs[w], r[w], CommitVotes(s), CommitVotes(r));
    }
  }

  lemma DeliverableIsAuthentic(s: State, sm: Message)
    requires Deliverable(s, sm)
    ensures Authentic(CommitVotes(s), sm)
  {
  }

  lemma EngineStepInv(c: Cluster, s: State, r: State, v: Address, ev: Event, now: nat)
    requires ValidCluster(c) && Inv(c, s) && EngineStep(c, s, r, v, ev, now)
    ensures Inv(c, r) && Progress(s[v], r[v])
  {
    hide Sound, React;
    if ev.Deliver? {
      DeliverableIsAuthentic(s, ev.sm);
    }
    ReactSafe(c.cfgs[v], s[v], ev, now, CommitVotes(s));
    ReplaceNode(c, s, v, React(c.cfgs[v], s[v], ev, now));
  }

  /** A pulled block brings its certificate along. */
  lemma PullSound(cfg: Config, n: Node, other: Config, w: Node, i: nat, k: Genuine)
    requires Sound(cfg, n, k) && Sound(other, w, k) && !w.astray
    requires other.members == cfg.members && other.q == cfg.q && other.base == cfg.base && i < |w.chain|
    requires forall h: nat, x :: SentCommit(w.sent, h, x) ==> (other.self, h, x) in k
    ensures Sound(cfg, Pull(cfg, n, w.chain[i]), k)
  {
    hide Consistent;
    var r := Pull(cfg, n, w.chain[i]);
    var block := w.chain[i];
    if !n.astray && r != n {
      var who :| Quorum(other, w.sent, k, who, i, BlockHash(block));
      assert Quorum(cfg, n.sent, k, who, i, BlockHash(block));
      BlockAppended(cfg, n, block, who, k);
    }
  }

  lemma PullStepNodes(c: Cluster, s: State, v: Address, w: Address)
    requires ValidCluster(c) && Inv(c, s) && v in s && w in s && OnCourse(s)
    ensures Sound(c.cfgs[v], s[v], CommitVotes(s)) && Sound(c.cfgs[w], s[w], CommitVotes(s)) && !s[w].astray
    ensures forall h: nat, x :: SentCommit(s[w].sent, h, x) ==> (w, h, x) in CommitVotes(s)
  {
    hide Sound;
  }

  lemma PullStepInv(c: Cluster, s: State, r: State, v: Address, w: Address, i: nat)
    requires ValidCluster(c) && Inv(c, s) && PullStep(c, s, r, v, w, i) && OnCourse(s)
    ensures Inv(c, r) && Progress(s[v], r[v])
  {
    assert NodeInv(c.cfgs[v], s[v], CommitVotes(s)) && v in c.cfgs && w in c.cfgs;
    PullForms(c.cfgs[v], s[v], s[w].chain[i]);
    PullStepNodes(c, s, v, w);
    SameQuorums(c, v, w);
    hide Sound, Pull, Inv, WellFormed, Ahead, CommitVotes, ValidCluster, OnCourse;
    PullSound(c.cfgs[v], s[v], c.cfgs[w], s[w], i, CommitVotes(s));
    ReplaceNode(c, s, v, r[v]);
  }

  lemma PullForms(cfg: Config, n: Node, block: Block)
    requires WellFormed(n) && Ahead(n)
    ensures WellFormed(Pull(cfg, n, block)) && Ahead(Pull(cfg, n, block)) && Progress(n, Pull(cfg, n, block))
    ensures Pull(cfg, n, block).sent == n.sent
  {
    hide GoodBucket;
  }

  lemma SameQuorums(c: Cluster, v: Address, w: Address)
    requires ValidCluster(c) && v in c.cfgs && w in c.cfgs
    ensures c.cfgs[w].members == c.cfgs[v].members && c.cfgs[w].q == c.cfgs[v].q && c.cfgs[w].base == c.cfgs[v].base
    ensures c.cfgs[w].self == w
  {
  }

  lemma AstrayStays(c: Cluster, s: State, r: State)
    requires ValidCluster(c) && s.Keys == c.cfgs.Keys && Next(c, s, r) && OnCourse(r)
    ensures OnCourse(s)
  {
    hide Sound, Disciplined, React, WellFormed;
    if v, ev, now :| EngineStep(c, s, r, v, ev, now) {
      if s[v].astray {
        AstrayReacts(c.cfgs[v], s[v], ev, now);
      }
      forall u | u in s ensures !s[u].astray {
        assert !r[u].astray;
      }
    } else {
      var v, w, i :| PullStep(c, s, r, v, w, i);
      forall u | u in s ensures !s[u].astray {
        assert !r[u].astray;
      }
    }
  }

  lemma AstrayReacts(cfg: Config, n: Node, ev: Event, now: nat)
    requires ValidConfig(cfg) && WellFormed(n) && n.astray && (ev.HeadMoved? ==> ev.height < |n.chain|)
    ensures React(cfg, n, ev, now).astray
  {
    hide React, Disciplined;
    ReactSafe(cfg, n, ev, now, iset a: Address, h: nat, x: Hash | true :: (a, h, x));
  }

  lemma StepInv(c: Cluster, s: State, r: State)
    requires ValidCluster(c) && Inv(c, s) && Next(c, s, r) && OnCourse(s)
    ensures Inv(c, r) && forall u :: u in s ==> u in r && Progress(s[u], r[u])
  {
    hide Inv, Sound, WellFormed, React;
    if v, ev, now :| EngineStep(c, s, r, v, ev, now) {
      EngineStepInv(c, s, r, v, ev, now);
    } else {
      var v, w, i :| PullStep(c, s, r, v, w, i);
      PullStepInv(c, s, r, v, w, i);
    }
  }

  lemma Predecessor(c: Cluster, run: seq<State>)
    requires ValidCluster(c) && IsRun(c, run) && |run| > 1 && OnCourse(run[|run| - 1])
    ensures IsRun(c, run[..|run| - 1]) && Next(c, run[|run| - 2], run[|run| - 1])
    ensures OnCourse(run[|run| - 2])
  {
    hide OnCourse, Next, StepAt, Initial;
    ShorterRun(c, run);
    KeysStay(c, run[..|run| - 1]);
    hide IsRun;
    AstrayStays(c, run[|run| - 2], run[|run| - 1]);
  }

  lemma {:induction false} RunInv(c: Cluster, run: seq<State>)
    requires ValidCluster(c) && IsRun(c, run) && OnCourse(run[|run| - 1])
    ensures Inv(c, run[|run| - 1])
  {
    hide OnCourse, Inv, Next, StepAt, Initial;
    if |run| == 1 {
      InitialInv(c, run[0]);
    } else {
      Predecessor(c, run);
      RunInv(c, run[..|run| - 1]);
      StepInv(c, run[|run| - 2], run[|run| - 1]);
    }
  }

  // --- nobody goes astray ---

  /** Each honest validator stays at its heights; nothing it has signed is new. */
  ghost predicate Tracked(c: Cluster, s: State) {
    s.Keys == c.cfgs.Keys && forall v :: v in s ==> OnTrack(c.cfgs[v], s[v], CommitVotes(s), PrepareVotes(s), s[v].sent)
  }

  predicate Strayed(sent: seq<Message>, height: nat) {
    exists m :: m in sent && MisplacedPrepare(m) && m.height == height
  }

  /** A quorum has committed x at the height, and its honest members never
      prepared a block of another height there. */
  ghost predicate ShutBy(c: Cluster, s: State, height: nat, who: set<Address>, x: Hash) {
    && |who| >= c.q
    && forall a :: a in who ==>
         a in c.members && (a in s ==> SentCommit(s[a].sent, height, x) && !Strayed(s[a].sent, height))
  }

  ghost predicate ShutAt(c: Cluster, s: State, height: nat) {
    (exists v :: v in s && Strayed(s[v].sent, height)) ==> exists who, x :: ShutBy(c, s, height, who, x)
  }

  /** Wherever an honest validator prepared a misplaced block, the height was
      already shut to it. */
  ghost predicate Shut(c: Cluster, s: State) {
    forall h: nat :: ShutAt(c, s, h)
  }

  lemma SomeHonest(c: Cluster, who: set<Address>)
    requires ValidCluster(c) && |who| >= c.q && forall a :: a in who ==> a in c.members
    ensures exists a :: a in who && a in c.cfgs
  {
    SharedHonestMember(c.members, c.q, c.byz, who, who);
  }

  /** Two quorums that share only dishonest members cannot both exist. */
  lemma SharedHonest(c: Cluster, a: set<Address>, b: set<Address>)
    requires ValidCluster(c) && |a| >= c.q && |b| >= c.q
    requires (forall x :: x in a ==> x in c.members) && (forall x :: x in b ==> x in c.members)
    ensures exists x :: x in a && x in b && x in c.cfgs
  {
    SharedHonestMember(c.members, c.q, c.byz, a, b);
  }

  lemma OwnVotesKnown(s: State, v: Address)
    requires v in s
    ensures forall h: nat, x :: (v, h, x) in CommitVotes(s) ==> SentCommit(s[v].sent, h, x)
    ensures forall h: nat, x :: (v, h, x) in PrepareVotes(s) ==> SentPrepare(s[v].sent, h, x)
  {
  }

  lemma CommitIsPlaced(sent: seq<Message>, h: nat, x: Hash)
    requires CommitsPlaced(sent) && SentCommit(sent, h, x)
    ensures !Misplaced(x, h)
  {
    var m :| m in sent && m.typ == Commit && m.height == h && m.blockHash == x;
  }

  lemma PrepareIsPlaced(sent: seq<Message>, h: nat, x: Hash)
    requires !Strayed(sent, h) && SentPrepare(sent, h, x)
    ensures !Misplaced(x, h)
  {
    var m :| m in sent && m.typ == Prepare && m.height == h && m.blockHash == x;
    assert !MisplacedPrepare(m);
  }

  /** No quorum commits a misplaced block unless this validator is part of it. */
  lemma CommitsGuarded(c: Cluster, s: State, v: Address, h: nat, who: set<Address>, x: Hash)
    requires ValidCluster(c) && s.Keys == c.cfgs.Keys && v in s
    requires forall u :: u in s ==> CommitsPlaced(s[u].sent)
    requires CommittedBy(c.cfgs[v], CommitVotes(s), h, who, x)
    ensures v in who || !Misplaced(x, h)
  {
    hide Misplaced, CommitsPlaced;
    if v !in who {
      SomeHonest(c, who);
      var a :| a in who && a in c.cfgs;
      OwnVotesKnown(s, a);
      CommitIsPlaced(s[a].sent, h, x);
    }
  }

  /** A quorum of members that never prepared a misplaced block at the height,
      this validator not among them. */
  lemma DoneQuorum(c: Cluster, s: State, v: Address, h: nat) returns (who: set<Address>)
    requires ValidCluster(c) && s.Keys == c.cfgs.Keys && v in s && ShutAt(c, s, h)
    requires Excused(c.cfgs[v], CommitVotes(s), h) && !Committed(s[v].sent, h)
    ensures |who| >= c.q && forall a :: a in who ==> a in c.members && (a in s ==> a != v && !Strayed(s[a].sent, h))
  {
    hide MisplacedPrepare, Strayed;
    var x;
    if u :| u in s && Strayed(s[u].sent, h) {
      who, x :| ShutBy(c, s, h, who, x);
      assert v in who ==> SentCommit(s[v].sent, h, x);
    } else {
      who, x :| ExcusedBy(c.cfgs[v], CommitVotes(s), h, who, x);
    }
  }

  /** Once q others have committed at a height where v has not, no quorum that
      v may join prepares a misplaced block there. */
  lemma PreparesGuarded(c: Cluster, s: State, v: Address, h: nat, who: set<Address>, x: Hash)
    requires ValidCluster(c) && s.Keys == c.cfgs.Keys && v in s && ShutAt(c, s, h)
    requires Excused(c.cfgs[v], CommitVotes(s), h) && !Committed(s[v].sent, h)
    requires PreparedBy(c.cfgs[v], PrepareVotes(s), h, who, x)
    ensures !Misplaced(x, h)
  {
    hide Misplaced, ShutAt, Strayed, Excused, Committed, Intersects;
    var done := DoneQuorum(c, s, v, h);
    SharedHonest(c, who, done);
    var a :| a in who && a in done && a in c.cfgs;
    OwnVotesKnown(s, a);
    PrepareIsPlaced(s[a].sent, h, x);
  }

  lemma AllGuarded(c: Cluster, s: State, v: Address)
    requires ValidCluster(c) && s.Keys == c.cfgs.Keys && v in s && Shut(c, s)
    requires forall u :: u in s ==> CommitsPlaced(s[u].sent)
    ensures Guarded(c.cfgs[v], CommitVotes(s), PrepareVotes(s), s[v].sent)
  {
    hide Misplaced, Excused, PreparedBy, CommittedBy, Committed, ShutAt, CommitsPlaced;
    var cfg, k, p := c.cfgs[v], CommitVotes(s), PrepareVotes(s);
    OwnVotesKnown(s, v);
    forall h: nat, who, x | Excused(cfg, k, h) && !Committed(s[v].sent, h) && PreparedBy(cfg, p, h, who, x)
      ensures !Misplaced(x, h)
    {
      PreparesGuarded(c, s, v, h, who, x);
    }
    forall h: nat, who, x | CommittedBy(cfg, k, h, who, x) ensures v in who || !Misplaced(x, h) {
      CommitsGuarded(c, s, v, h, who, x);
    }
  }

  // --- the steps ---

  /** More votes, and a new turn: what was excused stays so. */
  lemma TrackGrows(cfg: Config, n: Node, k: Genuine, p: Genuine, sent0: seq<Message>, k2: Genuine, p2: Genuine)
    requires OnTrack(cfg, n, k, p, sent0) && k <= k2 && p <= p2
    ensures OnTrack(cfg, n, k2, p2, n.sent)
  {
    hide Misplaced, Committed, ProperLock;
    if Excused(cfg, k, n.rs.height) {
      var who, x :| ExcusedBy(cfg, k, n.rs.height, who, x);
      assert ExcusedBy(cfg, k2, n.rs.height, who, x);
    }
  }

  lemma PreparesGrow(s: State, v: Address, n: Node)
    requires v in s && s[v].sent <= n.sent
    ensures PrepareVotes(s) <= PrepareVotes(s[v := n])
  {
    forall a, h, x | (a, h, x) in PrepareVotes(s) ensures (a, h, x) in PrepareVotes(s[v := n]) {
      if a == v && SentPrepare(s[v].sent, h, x) {
        var m :| m in s[v].sent && m.typ == Prepare && m.height == h && m.blockHash == x;
        assert m in n.sent;
      }
    }
  }

  lemma TrackedReplace(c: Cluster, s: State, v: Address, n: Node)
    requires Tracked(c, s) && v in s && s[v].sent <= n.sent
    requires OnTrack(c.cfgs[v], n, CommitVotes(s), PrepareVotes(s), s[v].sent)
    ensures Tracked(c, s[v := n])
  {
    hide OnTrack;
    VotesGrow(s, v, n);
    PreparesGrow(s, v, n);
    var r := s[v := n];
    forall u | u in r ensures OnTrack(c.cfgs[u], r[u], CommitVotes(r), PrepareVotes(r), r[u].sent) {
      TrackGrows(c.cfgs[u], r[u], CommitVotes(s), PrepareVotes(s), s[u].sent, CommitVotes(r), PrepareVotes(r));
    }
  }

  /** What v newly prepared off its height leaves the height shut. */
  lemma ShutAfter(c: Cluster, s: State, v: Address, n: Node, h: nat)
    requires ValidCluster(c) && s.Keys == c.cfgs.Keys && v in s && s[v].sent <= n.sent && ShutAt(c, s, h)
    requires NewMisplacedExcused(c.cfgs[v], n, CommitVotes(s), s[v].sent)
    ensures ShutAt(c, s[v := n], h)
  {
    hide MisplacedPrepare, Excused;
    var r := s[v := n];
    if Strayed(n.sent, h) && !Strayed(s[v].sent, h) {
      var m :| m in n.sent && MisplacedPrepare(m) && m.height == h;
      assert m !in s[v].sent;
      NewlyStrayed(c, s, v, n, h);
    } else if u :| u in r && Strayed(r[u].sent, h) {
      assert u in s && Strayed(s[u].sent, h);
      var who, x :| ShutBy(c, s, h, who, x);
      ShutStays(c, s, v, n, h, who, x);
    }
  }

  lemma ShutStays(c: Cluster, s: State, v: Address, n: Node, h: nat, who: set<Address>, x: Hash)
    requires v in s && s[v].sent <= n.sent && ShutBy(c, s, h, who, x)
    requires v in who ==> !Strayed(n.sent, h)
    ensures ShutBy(c, s[v := n], h, who, x)
  {
    SentCommitGrows(s[v].sent, n.sent, h, x);
  }

  lemma NewlyStrayed(c: Cluster, s: State, v: Address, n: Node, h: nat)
    requires ValidCluster(c) && s.Keys == c.cfgs.Keys && v in s && s[v].sent <= n.sent && ShutAt(c, s, h)
    requires Excused(c.cfgs[v], CommitVotes(s), h) && !Committed(s[v].sent, h)
    ensures ShutAt(c, s[v := n], h)
  {
    hide Strayed, Committed, ShutBy, Intersects;
    var r := s[v := n];
    if u :| u in s && Strayed(s[u].sent, h) {
      var who, x :| ShutBy(c, s, h, who, x);
      NotOfQuorum(c, s, v, h, who, x);
      ShutStays(c, s, v, n, h, who, x);
    } else {
      var who, x :| ExcusedBy(c.cfgs[v], CommitVotes(s), h, who, x);
      ExcusedIsShut(c, s, v, n, h, who, x);
    }
  }

  lemma ExcusedIsShut(c: Cluster, s: State, v: Address, n: Node, h: nat, who: set<Address>, x: Hash)
    requires ValidCluster(c) && v in s && v in c.cfgs && ExcusedBy(c.cfgs[v], CommitVotes(s), h, who, x)
    requires forall u :: u in s ==> !Strayed(s[u].sent, h)
    ensures ShutBy(c, s[v := n], h, who, x)
  {
    hide Strayed, Intersects;
  }

  lemma NotOfQuorum(c: Cluster, s: State, v: Address, h: nat, who: set<Address>, x: Hash)
    requires v in s && !Committed(s[v].sent, h) && ShutBy(c, s, h, who, x)
    ensures v !in who
  {
  }

  ghost predicate Healthy(c: Cluster, s: State) {
    Inv(c, s) && Tracked(c, s) && Shut(c, s)
  }

  lemma HealthyIsOnCourse(c: Cluster, s: State)
    requires Healthy(c, s)
    ensures OnCourse(s) && forall v :: v in s ==> CommitsPlaced(s[v].sent)
  {
    hide Inv, Shut, Current, CommitsPlaced;
  }

  lemma EngineStepHealthy(c: Cluster, s: State, r: State, v: Address, ev: Event, now: nat)
    requires ValidCluster(c) && Healthy(c, s) && EngineStep(c, s, r, v, ev, now)
    requires BuildsNext(c.cfgs[v].ops) && (ev.Deliver? ==> ProperLock(ev.sm))
    ensures Healthy(c, r)
  {
    hide Sound, React, OnTrack, ShutAt, Guarded, BuildsNext, ProperLock;
    EngineStepInv(c, s, r, v, ev, now);
    HealthyIsOnCourse(c, s);
    AllGuarded(c, s, v);
    if ev.Deliver? {
      DeliverableIsAuthentic(s, ev.sm);
      DeliverableIsWelcome(s, ev.sm);
    }
    var n := React(c.cfgs[v], s[v], ev, now);
    ReactStays(c.cfgs[v], s[v], ev, now, CommitVotes(s), PrepareVotes(s), s[v].sent);
    TrackedReplace(c, s, v, n);
    NewOnes(c.cfgs[v], n, CommitVotes(s), PrepareVotes(s), s[v].sent);
    forall h: nat ensures ShutAt(c, r, h) {
      ShutAfter(c, s, v, n, h);
    }
  }

  lemma NewOnes(cfg: Config, n: Node, k: Genuine, p: Genuine, sent0: seq<Message>)
    requires OnTrack(cfg, n, k, p, sent0)
    ensures NewMisplacedExcused(cfg, n, k, sent0) && sent0 <= n.sent
  {
  }

  lemma DeliverableIsWelcome(s: State, sm: Message)
    requires Deliverable(s, sm) && ProperLock(sm)
    ensures Welcome(PrepareVotes(s), sm)
  {
  }

  lemma PullStepHealthy(c: Cluster, s: State, r: State, v: Address, w: Address, i: nat)
    requires ValidCluster(c) && Healthy(c, s) && PullStep(c, s, r, v, w, i)
    ensures Healthy(c, r)
  {
    hide Sound, OnTrack, ShutAt;
    HealthyIsOnCourse(c, s);
    PullStepInv(c, s, r, v, w, i);
    SameTrackKeeps(c.cfgs[v], s[v], r[v], CommitVotes(s), PrepareVotes(s), s[v].sent);
    TrackedReplace(c, s, v, r[v]);
    forall h: nat ensures ShutAt(c, r, h) {
      SameSentShut(c, s, v, r[v], h);
    }
  }

  lemma SameSentShut(c: Cluster, s: State, v: Address, n: Node, h: nat)
    requires v in s && n.sent == s[v].sent && ShutAt(c, s, h)
    ensures ShutAt(c, s[v := n], h)
  {
    hide Strayed;
    var r := s[v := n];
    if u :| u in r && Strayed(r[u].sent, h) {
      assert u in s && Strayed(s[u].sent, h);
      var who, x :| ShutBy(c, s, h, who, x);
      assert ShutBy(c, r, h, who, x);
    }
  }

  // --- the start ---

  /** The validators before their loops start. */
  ghost function Unstarted(c: Cluster): State
    requires ValidCluster(c)
  {
    map v | v in c.cfgs :: Blank(c.cfgs[v], c.start)
  }

  lemma BootTracked(cfg: Config, start: seq<Block>, k: Genuine, p: Genuine)
    requires ValidConfig(cfg) && BuildsNext(cfg.ops) && Guarded(cfg, k, p, [])
    requires 0 < |start| == cfg.base && forall i :: 0 <= i < |start| ==> Number(start[i]) == i
    ensures OnTrack(cfg, Boot(cfg, start), k, p, [])
  {
    hide StartHeight, BuildsNext, Guarded, OnTrack, Lasting, Sound, GoodBuffer, NewRound;
    BlankStands(cfg, start, k, p);
    BlankHeight(cfg, start);
    StartHeightStays(cfg, Blank(cfg, start), |start|, k, p, []);
    SameTrackKeeps(cfg, StartHeight(cfg, Blank(cfg, start), |start|), Boot(cfg, start), k, p, []);
  }

  lemma BlankHeight(cfg: Config, start: seq<Block>)
    requires ValidConfig(cfg) && |start| > 0
    ensures Blank(cfg, start).rs.height == |start| - 1 && Blank(cfg, start).chain == start
  {
  }

  lemma BootStays(c: Cluster, v: Address)
    requires ValidCluster(c) && v in c.cfgs && BuildsNext(c.cfgs[v].ops)
    ensures var s0 := Unstarted(c);
            OnTrack(c.cfgs[v], Boot(c.cfgs[v], c.start), CommitVotes(s0), PrepareVotes(s0), [])
  {
    hide Boot, BuildsNext, Guarded, OnTrack, Shut, CommitVotes, PrepareVotes;
    var s0 := Unstarted(c);
    UnstartedShut(c);
    AllGuarded(c, s0, v);
    BootTracked(c.cfgs[v], c.start, CommitVotes(s0), PrepareVotes(s0));
  }

  lemma UnstartedShut(c: Cluster)
    requires ValidCluster(c)
    ensures Shut(c, Unstarted(c)) && forall u :: u in Unstarted(c) ==> CommitsPlaced(Unstarted(c)[u].sent)
  {
  }

  lemma InitialHealthy(c: Cluster, s: State)
    requires ValidCluster(c) && Initial(c, s) && forall v :: v in c.cfgs ==> BuildsNext(c.cfgs[v].ops)
    ensures Healthy(c, s)
  {
    hide OnTrack, Boot, BuildsNext, Inv, ShutAt;
    InitialInv(c, s);
    var s0 := Unstarted(c);
    forall v | v in s
      ensures OnTrack(c.cfgs[v], s[v], CommitVotes(s0), PrepareVotes(s0), [])
      ensures OnTrack(c.cfgs[v], s[v], CommitVotes(s), PrepareVotes(s), s[v].sent)
    {
      BootStays(c, v);
      TrackGrows(c.cfgs[v], s[v], CommitVotes(s0), PrepareVotes(s0), [], CommitVotes(s), PrepareVotes(s));
    }
    forall h: nat ensures ShutAt(c, s, h) {
      InitialShut(c, s, h);
    }
  }

  lemma InitialShut(c: Cluster, s: State, h: nat)
    requires ValidCluster(c) && s.Keys == c.cfgs.Keys
    requires forall v :: v in s ==>
               OnTrack(c.cfgs[v], s[v], CommitVotes(Unstarted(c)), PrepareVotes(Unstarted(c)), [])
    ensures ShutAt(c, s, h)
  {
    hide MisplacedPrepare, Current;
    if v :| v in s && Strayed(s[v].sent, h) {
      var m :| m in s[v].sent && MisplacedPrepare(m) && m.height == h;
      var who, x :| ExcusedBy(c.cfgs[v], CommitVotes(Unstarted(c)), h, who, x);
      assert ShutBy(c, s, h, who, x);
    }
  }

  // --- runs ---

  lemma ProperStepHealthy(c: Cluster, s: State, r: State)
    requires ValidCluster(c) && Healthy(c, s) && ProperNext(c, s, r)
    requires forall v :: v in c.cfgs ==> BuildsNext(c.cfgs[v].ops)
    ensures Healthy(c, r)
  {
    hide Healthy, BuildsNext, React, WellFormed, ProperLock;
    if v, ev, now :| EngineStep(c, s, r, v, ev, now) && (ev.Deliver? ==> ProperLock(ev.sm)) {
      EngineStepHealthy(c, s, r, v, ev, now);
    } else {
      var v, w, i :| PullStep(c, s, r, v, w, i);
      PullStepHealthy(c, s, r, v, w, i);
    }
  }

  /** Under proper input no honest validator ever locks or finalizes a block of
      another height. */
  lemma {:induction false} ProperRunIsHealthy(c: Cluster, run: seq<State>)
    requires ValidCluster(c) && IsRun(c, run) && ProperInput(c, run)
    ensures Healthy(c, run[|run| - 1])
  {
    hide Next, StepAt, Initial, Healthy, ProperNext, BuildsNext;
    var last := |run| - 1;
    if |run| == 1 {
      InitialHealthy(c, run[0]);
    } else {
      ShorterRun(c, run);
      ProperPrefix(c, run);
      ProperRunIsHealthy(c, run[..last]);
      ProperStepHealthy(c, run[last - 1], run[last]);
    }
  }

  lemma ProperPrefix(c: Cluster, run: seq<State>)
    requires |run| > 1 && ProperInput(c, run)
    ensures ProperInput(c, run[..|run| - 1]) && ProperNext(c, run[|run| - 2], run[|run| - 1])
  {
    hide ProperNext, BuildsNext;
    var shorter := run[..|run| - 1];
    assert ProperAt(c, run, |run| - 2);
    forall i: nat | i + 1 < |shorter| ensures ProperAt(c, shorter, i) {
      assert ProperAt(c, run, i);
    }
  }
}
