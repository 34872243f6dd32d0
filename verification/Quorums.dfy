/** The validator registry, the proposer schedule and the quorum rules. */
module Quorums {
  import opened Blocks
  import Protocol

  const MIN_VALIDATORS: nat := 4

  /** ceil(2n/3), and 0 for an empty set. */
  function DeriveQuorum(n: int): int {
    if n <= 0 then 0 else (2 * n + 2) / 3
  }

  function EffectiveQuorum(n: int, configured: int): int {
    if configured > 0 then configured else DeriveQuorum(n)
  }

  /** The most validators of n that may be faulty under N > 3f. */
  function MaxFaults(n: nat): nat
    requires n >= 1
  {
    (n - 1) / 3
  }

  /** The rules a configured QUORUM must pass; 0 means "derive it". */
  predicate AcceptedQuorum(n: int, configured: int) {
    configured == 0 || (configured <= n && configured > n / 2 && configured >= DeriveQuorum(n))
  }

  /** Any two quorums of q share more members than f. */
  predicate Intersects(n: int, q: int, f: int) {
    2 * q - n > f
  }

  lemma DerivedQuorumIsLeast(n: nat, q: int)
    requires n >= 1
    ensures Intersects(n, q, MaxFaults(n)) <==> q >= DeriveQuorum(n)
    ensures 1 <= DeriveQuorum(n) <= n - MaxFaults(n)
  {
    assert n % 3 == 0 || n % 3 == 1 || n % 3 == 2;
  }

  /** What configuration accepts is exactly what intersects, and never needs
      the degenerate one-validator quorum. */
  lemma AcceptedQuorumExactly(n: nat, configured: int)
    requires n >= MIN_VALIDATORS && configured > 0
    ensures AcceptedQuorum(n, configured) <==> (configured <= n && Intersects(n, configured, MaxFaults(n)))
    ensures AcceptedQuorum(n, configured) || configured == DeriveQuorum(n)
            ==> 3 <= EffectiveQuorum(n, configured) <= n
  {
    DerivedQuorumIsLeast(n, configured);
  }

  /** `FaultTolerance` reports n - q, for a derived or a configured q.  That many
      faults are covered by intersection exactly when q exceeds two thirds of n:
      for the derived quorum when 3 does not divide n, for any larger one always. */
  lemma ReportedToleranceIsCovered(n: nat, configured: int)
    requires n >= 1 && AcceptedQuorum(n, configured)
    ensures var q := EffectiveQuorum(n, configured);
            && (Intersects(n, q, n - q) <==> 3 * q > 2 * n)
            && (Intersects(n, q, n - q) <==> n % 3 != 0 || q > DeriveQuorum(n))
  {
    assert n == 3 * (n / 3) + n % 3;
  }

  lemma ReportedToleranceCounterexample()
    ensures DeriveQuorum(6) == 4 && MaxFaults(6) == 1 && 6 - DeriveQuorum(6) == 2
    ensures !Intersects(6, DeriveQuorum(6), 2)
  {
  }

  // --- the registry ---

  datatype Entry = Entry(name: string, address: Address)

  datatype Validator = Validator(name: string, address: Address, index: nat)

  datatype SetError = EmptySet | DuplicateAddress(address: Address) | DuplicateName(name: string) | QuorumTooLarge

  datatype ValidatorSet = ValidatorSet(members: seq<Validator>, byAddr: map<Address, Validator>,
                                       byName: map<string, Validator>, quorum: int)

  predicate DistinctEntries(entries: seq<Entry>) {
    forall i, j :: 0 <= i < j < |entries| ==>
      entries[i].address != entries[j].address && entries[i].name != entries[j].name
  }

  /** The registry lists the entries in order, and both lookups find exactly them. */
  predicate Registers(vs: ValidatorSet, entries: seq<Entry>) {
    && |vs.members| == |entries|
    && (forall i :: 0 <= i < |entries| ==> vs.members[i] == Validator(entries[i].name, entries[i].address, i))
    && (forall i :: 0 <= i < |entries| ==>
          && entries[i].address in vs.byAddr && vs.byAddr[entries[i].address] == vs.members[i]
          && entries[i].name in vs.byName && vs.byName[entries[i].name] == vs.members[i])
    && (forall a :: a in vs.byAddr ==> vs.byAddr[a] in vs.members && vs.byAddr[a].address == a)
    && (forall s :: s in vs.byName ==> vs.byName[s] in vs.members && vs.byName[s].name == s)
  }

  method NewValidatorSet(entries: seq<Entry>, quorum: int) returns (r: Result<ValidatorSet, SetError>)
    ensures r.Ok? <==> entries != [] && DistinctEntries(entries) && EffectiveQuorum(|entries|, quorum) <= |entries|
    ensures r.Ok? ==> Registers(r.value, entries) && r.value.quorum == EffectiveQuorum(|entries|, quorum)
  {
    if entries == [] {
      return Err(EmptySet);
    }
    var vs := ValidatorSet([], map[], map[], 0);
    for i := 0 to |entries|
      invariant DistinctEntries(entries[..i]) && Registers(vs, entries[..i])
    {
      var v := Validator(entries[i].name, entries[i].address, i);
      if v.address in vs.byAddr {
        assert exists j :: 0 <= j < i && vs.members[j] == vs.byAddr[v.address];
        return Err(DuplicateAddress(v.address));
      }
      if v.name in vs.byName {
        assert exists j :: 0 <= j < i && vs.members[j] == vs.byName[v.name];
        return Err(DuplicateName(v.name));
      }
      vs := vs.(members := vs.members + [v], byAddr := vs.byAddr[v.address := v], byName := vs.byName[v.name := v]);
      assert entries[..i + 1] == entries[..i] + [entries[i]];
    }
    assert entries[..|entries|] == entries;
    vs := vs.(quorum := if quorum <= 0 then DeriveQuorum(|vs.members|) else quorum);
    if vs.quorum > |vs.members| {
      return Err(QuorumTooLarge);
    }
    return Ok(vs);
  }

  // --- the proposer schedule ---

  predicate Distinct(members: seq<Address>) {
    forall i, j :: 0 <= i < j < |members| ==> members[i] != members[j]
  }

  function Turn(n: nat, height: nat, round: nat): nat
    requires n > 0
  {
    (height % n + round % n) % n
  }

  lemma {:induction false} Multiple(n: nat, p: nat, q: nat)
    requires p < q
    ensures n * q - n * p >= n
  {
    if q == p + 1 {
      assert n * q == n * p + n;
    } else {
      Multiple(n, p, q - 1);
      assert n * q == n * (q - 1) + n;
    }
  }

  lemma SplitIsUnique(n: nat, q: nat, m: nat, x: nat)
    requires m < n && x == n * q + m
    ensures x % n == m
  {
    var p, k := x / n, x % n;
    assert x == n * p + k;
    if p < q {
      Multiple(n, p, q);
    } else if q < p {
      Multiple(n, q, p);
    }
  }

  lemma Distribute(n: nat, p: nat, q: nat)
    ensures n * (p + q) == n * p + n * q
  {
  }

  lemma DropMultiple(n: nat, p: nat, x: nat)
    requires n > 0
    ensures (n * p + x) % n == x % n
  {
    Distribute(n, p, x / n);
    SplitIsUnique(n, p + x / n, x % n, n * p + x);
  }

  lemma Split(n: nat, x: nat)
    requires n > 0
    ensures x == n * (x / n) + x % n
  {
  }

  lemma TurnIsSum(n: nat, height: nat, round: nat)
    requires n > 0
    ensures Turn(n, height, round) == (height + round) % n
  {
    Split(n, height);
    DropMultiple(n, height / n, height % n + round);
    Split(n, round);
    DropMultiple(n, round / n, height % n + round % n);
  }

  /** Two rounds fewer than n apart have different turns. */
  lemma TurnsDiffer(n: nat, height: nat, r: nat, s: nat)
    requires r < s < r + n
    ensures Turn(n, height, r) != Turn(n, height, s)
  {
    TurnIsSum(n, height, r);
    TurnIsSum(n, height, s);
    var x, y := height + r, height + s;
    var p, q := x / n, y / n;
    assert x == n * p + x % n && y == n * q + y % n;
    if p < q {
      Multiple(n, p, q);
    } else if q < p {
      Multiple(n, q, p);
    }
  }

  /** The rounds from `round` to the turn of member i. */
  lemma TurnComes(n: nat, height: nat, round: nat, i: nat)
    requires i < n
    ensures exists k :: round <= k < round + n && Turn(n, height, k) == i
  {
    hide Turn;
    var x := height + round;
    var p, m := x / n, x % n;
    Split(n, x);
    Distribute(n, p, 1);
    var k := round + (if i >= m then i - m else i + n - m);
    SplitIsUnique(n, if i >= m then p else p + 1, i, height + k);
    TurnIsSum(n, height, k);
  }

  lemma ProposersDiffer(members: seq<Address>, height: nat, r: nat, s: nat)
    requires Distinct(members) && r < s < r + |members|
    ensures Protocol.ProposerAt(members, height, r) != Protocol.ProposerAt(members, height, s)
  {
    TurnsDiffer(|members|, height, r, s);
  }

  /** One rotation: in any n consecutive rounds every validator has exactly one turn. */
  lemma RotationIsExact(members: seq<Address>, height: nat, round: nat, a: Address)
    requires Distinct(members) && a in members
    ensures exists k :: round <= k < round + |members| && Protocol.ProposerAt(members, height, k) == a
    ensures forall r, s :: round <= r < s < round + |members| ==>
              Protocol.ProposerAt(members, height, r) != Protocol.ProposerAt(members, height, s)
  {
    var n := |members|;
    forall r, s | round <= r < s < round + n
      ensures Protocol.ProposerAt(members, height, r) != Protocol.ProposerAt(members, height, s)
    {
      ProposersDiffer(members, height, r, s);
    }
    var i :| 0 <= i < n && members[i] == a;
    TurnComes(n, height, round, i);
    var k :| round <= k < round + n && Turn(n, height, k) == i;
    assert Protocol.ProposerAt(members, height, k) == a;
  }

  /** Among any f + 1 consecutive rounds, one has a proposer outside a set of f. */
  lemma HonestTurn(members: seq<Address>, height: nat, round: nat, byz: set<Address>)
    requires Distinct(members) && |byz| < |members|
    ensures exists k :: round <= k <= round + |byz| && Protocol.ProposerAt(members, height, k) !in byz
  {
    var turns := Proposers(members, height, round, |byz| + 1);
    TurnCount(members, height, round, |byz| + 1);
    if turns <= byz {
      Protocol.SubsetCount(turns, byz);
    } else {
      var a :| a in turns && a !in byz;
      ProposerWitness(members, height, round, |byz| + 1, a);
    }
  }

  function Proposers(members: seq<Address>, height: nat, round: nat, n: nat): set<Address>
    requires |members| > 0
  {
    if n == 0 then {}
    else Proposers(members, height, round, n - 1) + {Protocol.ProposerAt(members, height, round + n - 1)}
  }

  lemma {:induction false} ProposerWitness(members: seq<Address>, height: nat, round: nat, n: nat, a: Address)
    requires |members| > 0 && a in Proposers(members, height, round, n)
    ensures exists k :: round <= k < round + n && Protocol.ProposerAt(members, height, k) == a
  {
    if a in Proposers(members, height, round, n - 1) {
      ProposerWitness(members, height, round, n - 1, a);
    } else {
      assert Protocol.ProposerAt(members, height, round + n - 1) == a;
    }
  }

  lemma {:induction false} TurnCount(members: seq<Address>, height: nat, round: nat, n: nat)
    requires Distinct(members) && n <= |members| && |members| > 0
    ensures |Proposers(members, height, round, n)| == n
  {
    hide Protocol.ProposerAt, Distinct;
    if n > 0 {
      TurnCount(members, height, round, n - 1);
      var last := Protocol.ProposerAt(members, height, round + n - 1);
      if last in Proposers(members, height, round, n - 1) {
        ProposerWitness(members, height, round, n - 1, last);
        var k :| round <= k < round + n - 1 && Protocol.ProposerAt(members, height, k) == last;
        ProposersDiffer(members, height, k, round + n - 1);
      }
    }
  }

  // --- quorum intersection ---

  function MemberSet(members: seq<Address>): set<Address> {
    set a | a in members
  }

  lemma {:induction false} MembersCount(members: seq<Address>)
    ensures |MemberSet(members)| <= |members|
  {
    if members == [] {
      assert MemberSet(members) == {};
    } else {
      MembersCount(members[1..]);
      assert MemberSet(members) == {members[0]} + MemberSet(members[1..]);
    }
  }

  /** Two quorums of members share a member outside any set of f. */
  lemma SharedHonestMember(members: seq<Address>, q: nat, byz: set<Address>, a: set<Address>, b: set<Address>)
    requires (forall x :: x in a ==> x in members) && (forall x :: x in b ==> x in members)
    requires |a| >= q && |b| >= q && Intersects(|members|, q, |byz|)
    ensures exists x :: x in a && x in b && x !in byz
  {
    MembersCount(members);
    Protocol.SubsetCount(a + b, MemberSet(members));
    assert |a + b| == |a| + |b| - |a * b|;
    if a * b <= byz {
      Protocol.SubsetCount(a * b, byz);
    } else {
      var x :| x in a * b && x !in byz;
    }
  }
}
