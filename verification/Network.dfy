/** N validators over an asynchronous network, at most f of them Byzantine.
    Messages may be lost, repeated, reordered and altered in every part their
    signature does not cover; a Byzantine validator may sign anything. */
module Network {
  import opened Blocks
  import opened Protocol
  import opened VoteSafety
  import opened Quorums
  import opened Course
  import opened Locks
  import Effects

  /** `start` is the chain every honest validator was started over: genesis alone,
      or what the cluster had stored when it was last stopped between heights. */
  datatype Cluster = Cluster(members: seq<Address>, q: nat, byz: set<Address>, cfgs: map<Address, Config>,
                             start: seq<Block>)

  ghost predicate ValidCluster(c: Cluster) {
    && Intersects(|c.members|, c.q, |c.byz|)
    && |c.start| > 0 && (forall i :: 0 <= i < |c.start| ==> Number(c.start[i]) == i)
    && (forall v :: v in c.cfgs <==> v in c.members && v !in c.byz)
    && (forall v :: v in c.cfgs ==>
          && ValidConfig(c.cfgs[v]) && c.cfgs[v].self == v && c.cfgs[v].members == c.members && c.cfgs[v].q == c.q
          && c.cfgs[v].base == |c.start|)
  }

  /** The honest validators' states. */
  type State = map<Address, Node>

  /** Commit votes that exist somewhere: anything a dishonest signer might have
      signed, and what each honest validator did sign. */
  ghost function CommitVotes(s: State): Genuine {
    iset a, h, x | a !in s || SentCommit(s[a].sent, h, x) :: (a, h, x)
  }

  /** The same for PREPARE votes, of whatever round. */
  ghost function PrepareVotes(s: State): Genuine {
    iset a, h, x | a !in s || SentPrepare(s[a].sent, h, x) :: (a, h, x)
  }

  predicate SentPrepare(sent: seq<Message>, height: nat, hash: Hash) {
    exists m :: m in sent && m.typ == Prepare && m.height == height && m.blockHash == hash
  }

  /** The signature on sm is one its signer made. */
  predicate Deliverable(s: State, sm: Message) {
    sm.signer in s ==> exists m :: m in s[sm.signer].sent && Digest(m) == Digest(sm)
  }

  ghost predicate Initial(c: Cluster, s: State) {
    && s.Keys == c.cfgs.Keys && |c.start| > 0
    && forall v :: v in s ==> ValidConfig(c.cfgs[v]) && s[v] == Boot(c.cfgs[v], c.start)
  }

  ghost predicate EngineStep(c: Cluster, s: State, r: State, v: Address, ev: Event, now: nat) {
    && v in s && v in c.cfgs && ValidConfig(c.cfgs[v]) && WellFormed(s[v])
    && (ev.Deliver? ==> Deliverable(s, ev.sm))
    && (ev.HeadMoved? ==> ev.height < |s[v].chain|)
    && r == s[v := React(c.cfgs[v], s[v], ev, now)]
  }

  /** v's follower pulls the block at height i that w holds. */
  ghost predicate PullStep(c: Cluster, s: State, r: State, v: Address, w: Address, i: nat) {
    && v in s && v in c.cfgs && w in s && 1 <= i < |s[w].chain|
    && r == s[v := Pull(c.cfgs[v], s[v], s[w].chain[i])]
  }

  ghost predicate Next(c: Cluster, s: State, r: State) {
    || (exists v, ev, now :: EngineStep(c, s, r, v, ev, now))
    || (exists v, w, i :: PullStep(c, s, r, v, w, i))
  }

  ghost predicate StepAt(c: Cluster, run: seq<State>, i: nat) {
    i + 1 < |run| && Next(c, run[i], run[i + 1])
  }

  /** A finite run from the initial state. */
  ghost predicate IsRun(c: Cluster, run: seq<State>) {
    && |run| > 0 && Initial(c, run[0])
    && forall i: nat :: i + 1 < |run| ==> StepAt(c, run, i)
  }

  /** A step whose input is proper: any event, but a delivered ROUND-CHANGE does not
      report a lock on a block of another height. */
  ghost predicate ProperNext(c: Cluster, s: State, r: State) {
    || (exists v, ev, now :: EngineStep(c, s, r, v, ev, now) && (ev.Deliver? ==> ProperLock(ev.sm)))
    || (exists v, w, i :: PullStep(c, s, r, v, w, i))
  }

  ghost predicate ProperAt(c: Cluster, run: seq<State>, i: nat) {
    i + 1 < |run| && ProperNext(c, run[i], run[i + 1])
  }

  /** Every step's input is proper, and blocks are built on the head. */
  ghost predicate ProperInput(c: Cluster, run: seq<State>) {
    && (forall v :: v in c.cfgs ==> BuildsNext(c.cfgs[v].ops))
    && forall i: nat :: i + 1 < |run| ==> ProperAt(c, run, i)
  }

  lemma ShorterRun(c: Cluster, run: seq<State>)
    requires IsRun(c, run) && |run| > 1
    ensures IsRun(c, run[..|run| - 1]) && Next(c, run[|run| - 2], run[|run| - 1])
  {
    hide Next, Initial;
    var shorter := run[..|run| - 1];
    assert StepAt(c, run, |run| - 2);
    forall i: nat | i + 1 < |shorter| ensures StepAt(c, shorter, i) {
      assert StepAt(c, run, i);
    }
  }

  lemma NextKeepsKeys(c: Cluster, s: State, r: State)
    requires Next(c, s, r)
    ensures r.Keys == s.Keys
  {
    hide React, Pull, Deliverable, WellFormed, ValidConfig;
  }

  lemma {:induction false} KeysStay(c: Cluster, run: seq<State>)
    requires IsRun(c, run)
    ensures run[|run| - 1].Keys == c.cfgs.Keys
  {
    hide Next, StepAt, Boot;
    if |run| > 1 {
      ShorterRun(c, run);
      KeysStay(c, run[..|run| - 1]);
      NextKeepsKeys(c, run[|run| - 2], run[|run| - 1]);
    }
  }

  // --- what holds of every run ---

  /** Every honest chain is the starting chain, extended only by blocks that the
      validator's own re-execution accepted; counted COMMITs are filed ones, and
      signed PREPAREs vouched for. */
  ghost predicate Grown(c: Cluster, s: State) {
    forall v :: v in s ==>
      && v in c.cfgs && Effects.Extends(c.cfgs[v].ops, c.start, s[v].chain) && CommitsFiled(s[v].rs)
      && Effects.Vouched(c.cfgs[v], s[v])
  }

  lemma EngineStepGrows(c: Cluster, s: State, r: State, v: Address, ev: Event, now: nat)
    requires Grown(c, s) && EngineStep(c, s, r, v, ev, now)
    ensures Grown(c, r)
  {
    hide React, Effects.Extends, WellFormed, CommitsFiled, Effects.Vouched;
    Effects.ReactCounts(c.cfgs[v], s[v], ev, now);
    Effects.ExtendsTrans(c.cfgs[v].ops, c.start, s[v].chain, r[v].chain);
  }

  lemma PullStepGrows(c: Cluster, s: State, r: State, v: Address, w: Address, i: nat)
    requires Grown(c, s) && PullStep(c, s, r, v, w, i)
    ensures Grown(c, r)
  {
    hide Effects.Extends, CommitsFiled, Effects.Vouched;
    Effects.AppliedExtends(c.cfgs[v].ops, s[v].chain, s[w].chain[i]);
    Effects.VouchingStays(c.cfgs[v], s[v], r[v]);
    Effects.ExtendsTrans(c.cfgs[v].ops, c.start, s[v].chain, r[v].chain);
  }

  lemma StepGrows(c: Cluster, s: State, r: State)
    requires Grown(c, s) && Next(c, s, r)
    ensures Grown(c, r)
  {
    hide Grown, EngineStep, PullStep;
    if v, ev, now :| EngineStep(c, s, r, v, ev, now) {
      EngineStepGrows(c, s, r, v, ev, now);
    } else {
      var v, w, i :| PullStep(c, s, r, v, w, i);
      PullStepGrows(c, s, r, v, w, i);
    }
  }

  lemma {:induction false} RunGrows(c: Cluster, run: seq<State>)
    requires IsRun(c, run)
    ensures Grown(c, run[|run| - 1])
  {
    hide Next, StepAt, Boot, Effects.Extends, CommitsFiled, Effects.Vouched;
    if |run| == 1 {
      forall v | v in run[0]
        ensures v in c.cfgs && Effects.Extends(c.cfgs[v].ops, c.start, run[0][v].chain) && CommitsFiled(run[0][v].rs)
        ensures Effects.Vouched(c.cfgs[v], run[0][v])
      {
        Effects.BootKeeps(c.cfgs[v], c.start);
      }
    } else {
      ShorterRun(c, run);
      RunGrows(c, run[..|run| - 1]);
      StepGrows(c, run[|run| - 2], run[|run| - 1]);
    }
  }

  /** In every run every honest chain begins with the starting chain. */
  lemma StartShared(c: Cluster, run: seq<State>, v: Address)
    requires IsRun(c, run) && v in run[|run| - 1]
    ensures c.start <= run[|run| - 1][v].chain
  {
    hide IsRun;
    RunGrows(c, run);
  }

  /** In every run no honest validator counts one sender for two blocks. */
  lemma CountedOnce(c: Cluster, run: seq<State>, v: Address, x: Hash, y: Hash, a: Address)
    requires IsRun(c, run) && v in run[|run| - 1]
    requires var t := run[|run| - 1][v].rs.commits; x in t && y in t && a in t[x] && a in t[y]
    ensures x == y
  {
    var rs := run[|run| - 1][v].rs;
    hide IsRun, Effects.Extends, CommitsFiled, Effects.Vouched;
    RunGrows(c, run);
    OneBlockPerSender(rs, x, y, a);
  }

  /** In every run every PREPARE an honest validator has signed is for a block it
      proposed itself in that round, or for one of the vote's height that its own
      chain finds valid there. */
  lemma PreparesVouched(c: Cluster, run: seq<State>, v: Address, m: Message)
    requires IsRun(c, run) && v in run[|run| - 1] && m in run[|run| - 1][v].sent && m.typ == Prepare
    ensures v in c.cfgs
    ensures var n := run[|run| - 1][v];
            Effects.Proposed(n.sent, m) || Effects.Reexecuted(c.cfgs[v].ops, n.chain, m)
  {
    var n := run[|run| - 1][v];
    hide IsRun, Effects.Extends, CommitsFiled, Effects.Proposed, Effects.Reexecuted;
    RunGrows(c, run);
    assert Effects.Vouched(c.cfgs[v], n);
  }
}
