/** What consensus is for: over every run in which no ROUND-CHANGE handed to an
    honest validator reports a lock on a block of another height, the honest
    validators agree. */
module Consensus {
  import opened Blocks
  import opened Protocol
  import opened VoteSafety
  import opened Quorums
  import opened Network
  import opened ClusterSafety

  /** `s` is a state a run reaches under proper input; or, whatever the input was,
      it has led no honest validator astray. */
  ghost predicate Reached(c: Cluster, run: seq<State>, s: State) {
    ValidCluster(c) && IsRun(c, run) && s == run[|run| - 1] && (ProperInput(c, run) || OnCourse(s))
  }

  lemma ReachedOnCourse(c: Cluster, run: seq<State>, s: State)
    requires Reached(c, run, s)
    ensures OnCourse(s)
  {
    hide IsRun, ProperInput, OnCourse, Healthy;
    if ProperInput(c, run) {
      ProperRunIsHealthy(c, run);
      HealthyIsOnCourse(c, s);
    }
  }

  lemma ReachedInv(c: Cluster, run: seq<State>, s: State)
    requires Reached(c, run, s)
    ensures s.Keys == c.cfgs.Keys && forall v :: v in s ==> NodeInv(c.cfgs[v], s[v], CommitVotes(s)) && !s[v].astray
  {
    hide NodeInv, IsRun, ProperInput;
    ReachedOnCourse(c, run, s);
    RunInv(c, run);
  }

  lemma ReachedNode(c: Cluster, run: seq<State>, s: State, v: Address)
    requires Reached(c, run, s) && v in s
    ensures v in c.cfgs && Disciplined(c.cfgs[v], s[v], CommitVotes(s))
  {
    hide Disciplined;
    ReachedInv(c, run, s);
  }

  /** Every member of `who` is Byzantine or has signed a COMMIT for the block. */
  ghost predicate CommitQuorum(c: Cluster, s: State, who: set<Address>, height: nat, hash: Hash) {
    |who| >= c.q && forall a :: a in who ==> a in c.members && (a in s ==> SentCommit(s[a].sent, height, hash))
  }

  /** An honest validator signs COMMIT for at most one block per height, over all
      rounds, PREPARE for at most one block per (height, round), and once it has
      committed at a height it prepares nothing else there. */
  lemma CommitOnce(c: Cluster, run: seq<State>, s: State, v: Address, a: Message, b: Message)
    requires Reached(c, run, s) && v in s && a in s[v].sent && b in s[v].sent && a.height == b.height
    ensures a.typ == Commit && b.typ == Commit ==> a.blockHash == b.blockHash
    ensures a.typ == Prepare && b.typ == Prepare && a.round == b.round ==> a.blockHash == b.blockHash
    ensures a.typ == Commit && b.typ == Prepare && b.round >= a.round ==> a.blockHash == b.blockHash
  {
    hide Backed, ChainCertified, SealsBacked, Placed, InHeight, Reached;
    ReachedNode(c, run, s, v);
    assert Consistent(a, b);
  }

  /** Two commit quorums at one height are for the same block. */
  lemma QuorumsAgree(c: Cluster, run: seq<State>, s: State, p: set<Address>, x: Hash, q: set<Address>, y: Hash,
                     height: nat)
    requires Reached(c, run, s) && CommitQuorum(c, s, p, height, x) && CommitQuorum(c, s, q, height, y)
    ensures x == y
  {
    hide IsRun, NodeInv, Known;
    ReachedInv(c, run, s);
    SharedHonest(c, p, q);
    var v :| v in p && v in q && v in c.cfgs;
    assert SentCommit(s[v].sent, height, x) && SentCommit(s[v].sent, height, y);
    var a :| a in s[v].sent && a.typ == Commit && a.height == height && a.blockHash == x;
    var b :| b in s[v].sent && b.typ == Commit && b.height == height && b.blockHash == y;
    CommitOnce(c, run, s, v, a, b);
  }

  lemma LocalQuorum(c: Cluster, s: State, v: Address, who: set<Address>, height: nat, hash: Hash)
    requires ValidCluster(c) && s.Keys == c.cfgs.Keys && v in s
    requires Quorum(c.cfgs[v], s[v].sent, CommitVotes(s), who, height, hash)
    ensures CommitQuorum(c, s, who, height, hash)
  {
    forall a | a in who ensures a in c.members && (a in s ==> SentCommit(s[a].sent, height, hash)) {
      assert Known(c.cfgs[v], s[v].sent, CommitVotes(s), a, height, hash);
    }
  }

  lemma FinalizedHasQuorum(c: Cluster, run: seq<State>, s: State, v: Address, i: nat) returns (who: set<Address>)
    requires Reached(c, run, s) && v in s && |c.start| <= i < |s[v].chain|
    ensures CommitQuorum(c, s, who, i, BlockHash(s[v].chain[i]))
  {
    hide Backed, SealsBacked, Placed, InHeight, Consistent, IsRun, NodeInv, Known;
    ReachedInv(c, run, s);
    ReachedNode(c, run, s, v);
    assert Certified(c.cfgs[v], s[v].sent, CommitVotes(s), i, BlockHash(s[v].chain[i]));
    who :| Quorum(c.cfgs[v], s[v].sent, CommitVotes(s), who, i, BlockHash(s[v].chain[i]));
    LocalQuorum(c, s, v, who, i, BlockHash(s[v].chain[i]));
  }

  lemma StillOnCourse(s: State, v: Address)
    requires OnCourse(s) && v in s
    ensures !s[v].astray
  {
  }

  lemma {:induction false} OnCourseGrows(c: Cluster, run: seq<State>, i: nat, v: Address)
    requires ValidCluster(c) && IsRun(c, run) && OnCourse(run[|run| - 1]) && i < |run| && v in run[|run| - 1]
    ensures v in run[i] && Progress(run[i][v], run[|run| - 1][v])
  {
    hide Inv, Next, OnCourse, StepAt, Initial;
    var last := |run| - 1;
    if i < last {
      Predecessor(c, run);
      KeysStay(c, run);
      KeysStay(c, run[..last]);
      RunInv(c, run[..last]);
      StepInv(c, run[last - 1], run[last]);
      OnCourseGrows(c, run[..last], i, v);
      StillOnCourse(run[last], v);
    }
  }

  /** A validator's chain is only ever extended, and its position (height,
      round) never moves back. */
  lemma ChainGrows(c: Cluster, run: seq<State>, s: State, i: nat, v: Address)
    requires Reached(c, run, s) && i < |run| && v in s
    ensures v in run[i] && run[i][v].chain <= s[v].chain && run[i][v].sent <= s[v].sent
    ensures NotBefore(run[i][v].rs, s[v].rs)
  {
    hide IsRun, OnCourse, ProperInput, NotBefore;
    ReachedOnCourse(c, run, s);
    OnCourseGrows(c, run, i, v);
    StillOnCourse(s, v);
  }

  /** Agreement: no two honest validators hold different blocks at one height. */
  lemma Agreement(c: Cluster, run: seq<State>, s: State, v: Address, w: Address, i: nat)
    requires Reached(c, run, s) && v in s && w in s && i < |s[v].chain| && i < |s[w].chain|
    ensures BlockHash(s[v].chain[i]) == BlockHash(s[w].chain[i])
  {
    hide IsRun, ProperInput, OnCourse, CommitQuorum;
    if i < |c.start| {
      StartShared(c, run, v);
      StartShared(c, run, w);
    } else {
      var p := FinalizedHasQuorum(c, run, s, v, i);
      var q := FinalizedHasQuorum(c, run, s, w, i);
      QuorumsAgree(c, run, s, p, BlockHash(s[v].chain[i]), q, BlockHash(s[w].chain[i]), i);
    }
  }

  /** Prefix consistency: of any two honest chains, taken at any two moments of
      a run, one is a prefix of the other. */
  lemma PrefixConsistency(c: Cluster, run: seq<State>, s: State, i: nat, j: nat, v: Address, w: Address)
    requires Reached(c, run, s) && i < |run| && j < |run| && v in s && w in s
    ensures v in run[i] && w in run[j]
    ensures Hashes(run[i][v].chain) <= Hashes(run[j][w].chain) || Hashes(run[j][w].chain) <= Hashes(run[i][v].chain)
  {
    hide Reached, NotBefore;
    ChainGrows(c, run, s, i, v);
    ChainGrows(c, run, s, j, w);
    var a, b := run[i][v].chain, run[j][w].chain;
    forall k | 0 <= k < |a| && k < |b| ensures Hashes(a)[k] == Hashes(b)[k] {
      Agreement(c, run, s, v, w, k);
      assert a[k] == s[v].chain[k] && b[k] == s[w].chain[k];
    }
  }

  /** The certificates honest validators keep name one block per height, each
      with q distinct members. */
  lemma CertificatesAgree(c: Cluster, run: seq<State>, s: State, v: Address, w: Address, height: nat, x: Hash, y: Hash)
    requires Reached(c, run, s) && v in s && w in s
    requires (height, x) in s[v].seals && (height, y) in s[w].seals
    ensures x == y && |s[v].seals[(height, x)].signers| >= c.q
    ensures forall a :: a in s[v].seals[(height, x)].signers ==> a in c.members
  {
    hide Backed, ChainCertified, Placed, InHeight, Consistent, IsRun, NodeInv, Known;
    ReachedInv(c, run, s);
    ReachedNode(c, run, s, v);
    ReachedNode(c, run, s, w);
    LocalQuorum(c, s, v, s[v].seals[(height, x)].signers, height, x);
    LocalQuorum(c, s, w, s[w].seals[(height, y)].signers, height, y);
    QuorumsAgree(c, run, s, s[v].seals[(height, x)].signers, x, s[w].seals[(height, y)].signers, y, height);
  }

  /** v has signed a vote for the block, in a round between `lo` and `hi`. */
  predicate SentBetween(sent: seq<Message>, typ: MsgType, height: nat, lo: nat, hi: nat, hash: Hash) {
    exists m :: m in sent && m.typ == typ && m.height == height && lo <= m.round <= hi && m.blockHash == hash
  }

  /** Exclusion after commitment: once a quorum has committed x at a height, the
      honest ones in rounds up to `latest`, no other block can have a quorum of
      PREPAREs in round `latest` or any later one. */
  lemma ExclusionAfterCommitment(c: Cluster, run: seq<State>, s: State, p: set<Address>, x: Hash, latest: nat,
                                 q: set<Address>, y: Hash, round: nat, height: nat)
    requires Reached(c, run, s) && round >= latest && |p| >= c.q && |q| >= c.q
    requires forall a :: a in p ==> a in c.members && (a in s ==> SentBetween(s[a].sent, Commit, height, 0, latest, x))
    requires forall a :: a in q ==>
               a in c.members && (a in s ==> SentBetween(s[a].sent, Prepare, height, round, round, y))
    ensures y == x
  {
    hide IsRun, NodeInv;
    ReachedInv(c, run, s);
    SharedHonest(c, p, q);
    var v :| v in p && v in q && v in c.cfgs;
    assert SentBetween(s[v].sent, Commit, height, 0, latest, x);
    var a :| a in s[v].sent && a.typ == Commit && a.height == height && a.round <= latest && a.blockHash == x;
    assert SentBetween(s[v].sent, Prepare, height, round, round, y);
    var b :| b in s[v].sent && b.typ == Prepare && b.height == height && b.round == round && b.blockHash == y;
    CommitOnce(c, run, s, v, a, b);
  }
}
