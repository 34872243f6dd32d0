/** Who moves the cluster from round to round: only its honest members' timers. */
module Rounds {
  import opened Blocks
  import opened Protocol
  import opened Quorums
  import opened Network
  import opened Pacing
  import Effects

  predicate SentCall(sent: seq<Message>, height: nat, round: nat) {
    exists m :: m in sent && m.typ == RoundChange && m.height == height && m.round == round
  }

  /** ROUND-CHANGEs that exist somewhere: anything a dishonest signer might have
      signed, and what each honest validator did sign. */
  ghost function CallsIn(s: State): Calls {
    iset a, h, r | a !in s || SentCall(s[a].sent, h, r) :: (a, h, r)
  }

  ghost predicate AllWatched(c: Cluster, s: State) {
    forall v :: v in s ==> v in c.cfgs && ValidConfig(c.cfgs[v]) && Watched(CallsIn(s), c.cfgs[v], s[v])
  }

  // --- more calls ---

  lemma CallsGrow(s: State, v: Address, n: Node)
    requires v in s && s[v].sent <= n.sent
    ensures CallsIn(s) <= CallsIn(s[v := n])
  {
    forall a, h, r | (a, h, r) in CallsIn(s) ensures (a, h, r) in CallsIn(s[v := n]) {
      if a == v && SentCall(s[v].sent, h, r) {
        var m :| m in s[v].sent && m.typ == RoundChange && m.height == h && m.round == r;
        assert m in n.sent;
      }
    }
  }

  lemma WatchedGrows(g: Calls, k: Calls, cfg: Config, n: Node)
    requires |cfg.members| > 0 && Watched(g, cfg, n) && g <= k
    ensures Watched(k, cfg, n)
  {
    hide RoundTimeout, ProposerAt, HeardFrom, ChangeCount;
    assert AskedFor(k, cfg, n.rs);
    forall h | h in n.future ensures AllCalled(k, n.future[h]) {
      assert AllCalled(g, n.future[h]);
    }
  }

  lemma WatchedReplace(c: Cluster, s: State, v: Address, n: Node)
    requires AllWatched(c, s) && v in s && s[v].sent <= n.sent
    requires Watched(CallsIn(s[v := n]), c.cfgs[v], n)
    ensures AllWatched(c, s[v := n])
  {
    hide Watched, CallsIn;
    CallsGrow(s, v, n);
    forall u | u in s && u != v ensures Watched(CallsIn(s[v := n]), c.cfgs[u], s[u]) {
      WatchedGrows(CallsIn(s), CallsIn(s[v := n]), c.cfgs[u], s[u]);
    }
  }

  // --- what a turn signs ---

  /** Outside a timeout a turn asks for no round. */
  lemma ReactSpeaks(cfg: Config, n: Node, ev: Event, now: nat)
    requires ValidConfig(cfg) && WellFormed(n)
    ensures n.sent <= React(cfg, n, ev, now).sent
    ensures !ev.Timeout? ==> Effects.SpeaksOn(n.sent, React(cfg, n, ev, now).sent)
    ensures ev.Timeout? ==> SentCall(React(cfg, n, ev, now).sent, n.rs.height, (n.rs.round + 1) % ROUND_LIMIT)
  {
    hide OnMessage, OnRoundTimeout, OnSubmit, OnHeadMoved, ExpireWaiters, Effects.Steady, Effects.Extends, Accounted;
    var w := Woken(n, now);
    match ev
    case Deliver(sm) => Effects.OnMessageKeeps(cfg, w, sm);
    case Timeout =>
      Effects.TimeoutKeeps(cfg, w);
      TimeoutSays(cfg, w);
    case Submit(req) => Effects.SubmitCounts(cfg, w, req);
    case HeadMoved(height) => Effects.HeadMovedKeeps(cfg, w, height);
  }

  lemma TimeoutSays(cfg: Config, n: Node)
    requires ValidConfig(cfg) && WellFormed(n)
    ensures n.sent <= OnRoundTimeout(cfg, n).sent
    ensures SentCall(OnRoundTimeout(cfg, n).sent, n.rs.height, (n.rs.round + 1) % ROUND_LIMIT)
  {
    hide OnRoundTimeout, Effects.Steady;
    Effects.TimeoutKeeps(cfg, n);
    var sent, vote := OnRoundTimeout(cfg, n).sent, RoundChangeVote(cfg, n, (n.rs.round + 1) % ROUND_LIMIT);
    assert (n.sent + [vote])[|n.sent|] == vote == sent[|n.sent|];
    assert vote in sent;
  }

  // --- the steps of a run ---

  lemma EngineStepWatched(c: Cluster, s: State, r: State, v: Address, ev: Event, now: nat)
    requires ValidCluster(c) && AllWatched(c, s) && EngineStep(c, s, r, v, ev, now)
    ensures AllWatched(c, r)
  {
    hide React, Watched, WellFormed, ValidConfig, Intersects;
    var n := React(c.cfgs[v], s[v], ev, now);
    ReactSpeaks(c.cfgs[v], s[v], ev, now);
    CallsGrow(s, v, n);
    WatchedGrows(CallsIn(s), CallsIn(r), c.cfgs[v], s[v]);
    if ev.Deliver? && ev.sm.signer in s {
      var m :| m in s[ev.sm.signer].sent && Digest(m) == Digest(ev.sm);
      assert ev.sm.typ == RoundChange ==> SentCall(s[ev.sm.signer].sent, ev.sm.height, ev.sm.round);
    }
    ReactWatches(CallsIn(r), c.cfgs[v], s[v], ev, now);
    WatchedReplace(c, s, v, n);
  }

  lemma PullStepWatched(c: Cluster, s: State, r: State, v: Address, w: Address, i: nat)
    requires AllWatched(c, s) && PullStep(c, s, r, v, w, i)
    ensures AllWatched(c, r)
  {
    hide Placed, CallsBuffered, RoundTimeout, CallsIn;
    CallsGrow(s, v, r[v]);
    WatchedGrows(CallsIn(s), CallsIn(r), c.cfgs[v], s[v]);
    WatchedReplace(c, s, v, r[v]);
  }

  lemma {:induction false} RunWatched(c: Cluster, run: seq<State>)
    requires ValidCluster(c) && IsRun(c, run)
    ensures AllWatched(c, run[|run| - 1])
  {
    hide Next, StepAt, Boot, Watched, Intersects, CallsIn;
    if |run| == 1 {
      forall v | v in run[0] ensures Watched(CallsIn(run[0]), c.cfgs[v], run[0][v]) {
        BootWatches(CallsIn(run[0]), c.cfgs[v], c.start);
      }
    } else {
      ShorterRun(c, run);
      RunWatched(c, run[..|run| - 1]);
      StepWatched(c, run[|run| - 2], run[|run| - 1]);
    }
  }

  lemma StepWatched(c: Cluster, s: State, r: State)
    requires ValidCluster(c) && AllWatched(c, s) && Next(c, s, r)
    ensures AllWatched(c, r)
  {
    hide AllWatched, EngineStep, PullStep, Intersects;
    if v, ev, now :| EngineStep(c, s, r, v, ev, now) {
      EngineStepWatched(c, s, r, v, ev, now);
    } else {
      var v, w, i :| PullStep(c, s, r, v, w, i);
      PullStepWatched(c, s, r, v, w, i);
    }
  }

  // --- what it means ---

  /** Members that asked for this round, Byzantine or having signed for it. */
  ghost predicate Askers(c: Cluster, s: State, who: set<Address>, height: nat, round: nat) {
    forall a :: a in who ==> a in c.members && (a in s ==> SentCall(s[a].sent, height, round))
  }

  /** In every run an honest validator is past round 0 only because a quorum asked
      for its round, at least q - f of them honest validators whose own timers ran
      out: the Byzantine ones alone cannot move anyone past a proposer's turn. */
  lemma RoundsAskedFor(c: Cluster, run: seq<State>, v: Address) returns (who: set<Address>)
    requires ValidCluster(c) && IsRun(c, run) && v in run[|run| - 1] && run[|run| - 1][v].rs.round > 0
    ensures var rs := run[|run| - 1][v].rs; Askers(c, run[|run| - 1], who, rs.height, rs.round)
    ensures |who| >= c.q && |who - c.byz| >= c.q - |c.byz| > 0
    ensures forall a :: a in who - c.byz ==> a in run[|run| - 1]
  {
    var s := run[|run| - 1];
    hide IsRun, ValidCluster, AllWatched, Askers;
    KeysStay(c, run);
    RunWatched(c, run);
    QuorumBeatsFaulty(c, v);
    who := AskersOf(c, s, v);
    Remaining(who, c.byz);
    HonestRemain(c, s, who, s[v].rs.height, s[v].rs.round);
  }

  lemma HonestRemain(c: Cluster, s: State, who: set<Address>, height: nat, round: nat)
    requires ValidCluster(c) && s.Keys == c.cfgs.Keys && Askers(c, s, who, height, round)
    ensures forall a :: a in who - c.byz ==> a in s
  {
    hide SentCall;
  }

  lemma AskersOf(c: Cluster, s: State, v: Address) returns (who: set<Address>)
    requires ValidCluster(c) && AllWatched(c, s) && v in s && s[v].rs.round > 0
    ensures Askers(c, s, who, s[v].rs.height, s[v].rs.round) && |who| >= c.q
  {
    hide ProposerAt, RoundTimeout, HeardFrom, CallsBuffered, CallsIn, Intersects;
    var rs := s[v].rs;
    assert Placed(CallsIn(s), c.cfgs[v], rs);
    assert rs.round in rs.changes;
    who := rs.changes[rs.round].Keys;
    forall a | a in who ensures a in c.members && (a in s ==> SentCall(s[a].sent, rs.height, rs.round)) {
      CallMade(s, a, rs.height, rs.round);
    }
  }

  lemma QuorumBeatsFaulty(c: Cluster, v: Address)
    requires ValidCluster(c) && v in c.cfgs
    ensures c.q > |c.byz|
  {
  }

  lemma CallMade(s: State, a: Address, height: nat, round: nat)
    requires (a, height, round) in CallsIn(s)
    ensures a in s ==> SentCall(s[a].sent, height, round)
  {
  }

  lemma Remaining(who: set<Address>, byz: set<Address>)
    ensures |who - byz| >= |who| - |byz|
  {
    SubsetCount(who * byz, byz);
    assert who == (who - byz) + (who * byz);
  }

  ghost predicate QuietStep(c: Cluster, s: State, r: State) {
    || (exists v, ev, now :: EngineStep(c, s, r, v, ev, now) && !ev.Timeout?)
    || (exists v, w, i :: PullStep(c, s, r, v, w, i))
  }

  /** A run in which no honest validator's timer runs out. */
  ghost predicate QuietRun(c: Cluster, run: seq<State>) {
    IsRun(c, run) && forall i: nat :: i + 1 < |run| ==> QuietAt(c, run, i)
  }

  ghost predicate QuietAt(c: Cluster, run: seq<State>, i: nat) {
    i + 1 < |run| && QuietStep(c, run[i], run[i + 1])
  }

  predicate NeverAsked(sent: seq<Message>) {
    forall m :: m in sent ==> m.typ != RoundChange
  }

  ghost predicate NobodyAsked(s: State) {
    forall v :: v in s ==> NeverAsked(s[v].sent)
  }

  lemma QuietStepAsksNot(c: Cluster, s: State, r: State)
    requires QuietStep(c, s, r) && NobodyAsked(s)
    ensures NobodyAsked(r)
  {
    hide React, Deliverable, WellFormed, ValidConfig;
    if v, ev, now :| EngineStep(c, s, r, v, ev, now) && !ev.Timeout? {
      ReactSpeaks(c.cfgs[v], s[v], ev, now);
      assert forall m :: m in r[v].sent ==> m in s[v].sent || m.typ != RoundChange;
    }
  }

  lemma BootAsksNot(cfg: Config, chain: seq<Block>)
    requires ValidConfig(cfg) && |chain| > 0
    ensures NeverAsked(Boot(cfg, chain).sent)
  {
    hide StartHeight, Effects.Steady;
    Effects.StartHeightKeeps(cfg, Blank(cfg, chain), |chain|);
  }

  lemma {:induction false} QuietRunAsksNot(c: Cluster, run: seq<State>)
    requires QuietRun(c, run)
    ensures NobodyAsked(run[|run| - 1])
  {
    hide QuietStep, Boot, NeverAsked, Next, StepAt;
    if |run| == 1 {
      forall v | v in run[0] ensures NeverAsked(run[0][v].sent) {
        BootAsksNot(c.cfgs[v], c.start);
      }
    } else {
      var shorter := run[..|run| - 1];
      ShorterRun(c, run);
      forall i: nat | i + 1 < |shorter| ensures QuietAt(c, shorter, i) {
        assert QuietAt(c, run, i);
      }
      QuietRunAsksNot(c, shorter);
      assert QuietAt(c, run, |run| - 2);
      QuietStepAsksNot(c, run[|run| - 2], run[|run| - 1]);
    }
  }

  lemma SomebodyAsked(c: Cluster, run: seq<State>, v: Address)
    requires ValidCluster(c) && IsRun(c, run) && v in run[|run| - 1] && run[|run| - 1][v].rs.round > 0
    ensures !NobodyAsked(run[|run| - 1])
  {
    var who := RoundsAskedFor(c, run, v);
    var s := run[|run| - 1];
    var a :| a in who - c.byz;
    assert SentCall(s[a].sent, s[v].rs.height, s[v].rs.round);
  }

  /** As long as no honest timer runs out, whatever the Byzantine validators send,
      every honest validator stays in round 0 of its height. */
  lemma QuietStaysInRound(c: Cluster, run: seq<State>, v: Address)
    requires ValidCluster(c) && QuietRun(c, run) && v in run[|run| - 1]
    ensures run[|run| - 1][v].rs.round == 0
  {
    hide ValidCluster, QuietAt, NobodyAsked, StepAt, Initial;
    QuietRunAsksNot(c, run);
    if run[|run| - 1][v].rs.round > 0 {
      SomebodyAsked(c, run, v);
    }
  }
}
