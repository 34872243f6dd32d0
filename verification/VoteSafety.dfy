/** What one honest validator keeps, whatever messages it is given. */
module VoteSafety {
  import opened Blocks
  import opened Protocol

  /** Commit votes that may be taken as genuine: (signer, height, hash). */
  type Genuine = iset<(Address, nat, Hash)>

  // --- what the validator has signed ---

  predicate Consistent(a: Message, b: Message) {
    a.height == b.height ==>
      && (a.typ == Commit && b.typ == Commit ==> a.blockHash == b.blockHash)
      && (a.typ == Prepare && b.typ == Prepare && a.round == b.round ==> a.blockHash == b.blockHash)
      && (a.typ == Commit && b.typ == Prepare && b.round >= a.round ==> a.blockHash == b.blockHash)
  }

  predicate Placed(rs: Round, m: Message) {
    && m.height <= rs.height
    && (m.height == rs.height && m.typ == Commit ==>
          m.round <= rs.round && rs.lock.Some? && BlockHash(rs.lock.value.block) == m.blockHash)
    && (m.height == rs.height && m.typ == Prepare ==>
          && m.round <= rs.round
          && (m.round == rs.round ==>
                rs.ph != Idle && rs.proposal.Some? && BlockHash(rs.proposal.value) == m.blockHash))
  }

  ghost predicate VotesConsistent(n: Node) {
    && (forall a, b :: a in n.sent && b in n.sent ==> Consistent(a, b))
    && (forall m :: m in n.sent ==> Placed(n.rs, m))
  }

  predicate InHeight(rs: Round) {
    && (rs.lock.Some? ==> Number(rs.lock.value.block) == rs.height)
    && (rs.lock.Some? && rs.proposal.Some? ==> BlockHash(rs.lock.value.block) == BlockHash(rs.proposal.value))
    && (rs.ph != Idle ==> rs.proposal.Some?)
  }

  // --- what the validator has counted ---

  predicate SentCommit(sent: seq<Message>, height: nat, hash: Hash) {
    exists m :: m in sent && m.typ == Commit && m.height == height && m.blockHash == hash
  }

  predicate Known(cfg: Config, sent: seq<Message>, k: Genuine, a: Address, height: nat, hash: Hash) {
    a in cfg.members && ((a, height, hash) in k || (a == cfg.self && SentCommit(sent, height, hash)))
  }

  predicate Authentic(k: Genuine, sm: Message) {
    sm.typ == Commit ==> (sm.signer, sm.height, sm.blockHash) in k
  }

  ghost predicate Backed(cfg: Config, n: Node, k: Genuine) {
    && (forall x, a :: x in n.rs.commits && a in n.rs.commits[x] ==> Known(cfg, n.sent, k, a, n.rs.height, x))
    && (forall h, i :: h in n.future && 0 <= i < |n.future[h]| ==> Authentic(k, n.future[h][i]))
  }

  /** Every certificate on disk carries a quorum of genuine commit votes. */
  ghost predicate SealsBacked(cfg: Config, n: Node, k: Genuine) {
    forall key :: key in n.seals ==> Quorum(cfg, n.sent, k, n.seals[key].signers, key.0, key.1)
  }

  ghost predicate Quorum(cfg: Config, sent: seq<Message>, k: Genuine, who: set<Address>, height: nat, hash: Hash) {
    |who| >= cfg.q && forall a :: a in who ==> Known(cfg, sent, k, a, height, hash)
  }

  ghost predicate Certified(cfg: Config, sent: seq<Message>, k: Genuine, height: nat, hash: Hash) {
    exists who :: Quorum(cfg, sent, k, who, height, hash)
  }

  ghost predicate ChainCertified(cfg: Config, n: Node, k: Genuine) {
    && n.rs.height <= |n.chain| && cfg.base <= |n.chain|
    && (forall i :: 0 <= i < |n.chain| ==> Number(n.chain[i]) == i)
    && (forall i :: cfg.base <= i < |n.chain| ==> Certified(cfg, n.sent, k, i, BlockHash(n.chain[i])))
  }

  ghost predicate Disciplined(cfg: Config, n: Node, k: Genuine) {
    VotesConsistent(n) && InHeight(n.rs) && Backed(cfg, n, k) && SealsBacked(cfg, n, k) && ChainCertified(cfg, n, k)
  }

  ghost predicate Sound(cfg: Config, n: Node, k: Genuine) {
    !n.astray ==> Disciplined(cfg, n, k)
  }

  // --- how the validator moves ---

  predicate NotBefore(a: Round, b: Round) {
    a.height < b.height || (a.height == b.height && a.round <= b.round)
  }

  predicate Progress(n: Node, r: Node) {
    && n.sent <= r.sent && n.chain <= r.chain
    && (n.astray ==> r.astray)
    && (!r.astray ==> NotBefore(n.rs, r.rs))
  }

  predicate SameVotes(n: Node, r: Node) {
    && r.sent == n.sent && r.chain == n.chain && r.future == n.future && r.astray == n.astray
    && r.seals == n.seals && r.rs.height == n.rs.height && r.rs.round == n.rs.round && r.rs.ph == n.rs.ph
    && r.rs.proposal == n.rs.proposal
    && r.rs.commits == n.rs.commits && r.rs.lock == n.rs.lock
  }

  predicate SameTally(n: Node, r: Node) {
    && r.sent == n.sent && r.chain == n.chain && r.astray == n.astray
    && r.seals == n.seals && r.rs.height == n.rs.height && r.rs.commits == n.rs.commits
    && r.future.Keys <= n.future.Keys && forall h :: h in r.future ==> r.future[h] == n.future[h]
  }

  lemma SameTallyBacked(cfg: Config, n: Node, r: Node, k: Genuine)
    requires SameTally(n, r) && Backed(cfg, n, k) && SealsBacked(cfg, n, k) && ChainCertified(cfg, n, k)
    ensures Backed(cfg, r, k) && SealsBacked(cfg, r, k) && ChainCertified(cfg, r, k)
  {
  }

  lemma SameVotesSound(cfg: Config, n: Node, r: Node, k: Genuine)
    requires SameVotes(n, r) && Sound(cfg, n, k)
    ensures Sound(cfg, r, k)
  {
  }

  lemma QuorumGrows(cfg: Config, n: Node, sm: Message, k: Genuine, who: set<Address>, height: nat, hash: Hash)
    requires Quorum(cfg, n.sent, k, who, height, hash)
    ensures Quorum(cfg, Broadcast(n, sm).sent, k, who, height, hash)
  {
  }

  lemma KnownGrows(cfg: Config, n: Node, sm: Message, k: Genuine)
    requires SealsBacked(cfg, n, k) && ChainCertified(cfg, n, k)
    ensures SealsBacked(cfg, Broadcast(n, sm), k) && ChainCertified(cfg, Broadcast(n, sm), k)
  {
    hide Quorum;
    var sent := n.sent + [sm];
    forall key | key in n.seals ensures Quorum(cfg, sent, k, n.seals[key].signers, key.0, key.1) {
      QuorumGrows(cfg, n, sm, k, n.seals[key].signers, key.0, key.1);
    }
    forall i | cfg.base <= i < |n.chain| ensures Certified(cfg, sent, k, i, BlockHash(n.chain[i])) {
      var who :| Quorum(cfg, n.sent, k, who, i, BlockHash(n.chain[i]));
      QuorumGrows(cfg, n, sm, k, who, i, BlockHash(n.chain[i]));
    }
  }

  /** Filing a vote adds at most that vote to the commit tally. */
  lemma RecordBacked(cfg: Config, n: Node, sm: Message, k: Genuine)
    requires Backed(cfg, n, k)
    requires sm.typ == Commit ==> Known(cfg, n.sent, k, sm.signer, n.rs.height, sm.blockHash)
    ensures Backed(cfg, n.(rs := Record(n.rs, sm).rs), k)
  {
    var before, after := n.rs.commits, Record(n.rs, sm).rs.commits;
    forall x, a | x in after && a in after[x] ensures Known(cfg, n.sent, k, a, n.rs.height, x) {
      assert (x in before && a in before[x]) || (sm.typ == Commit && x == sm.blockHash && a == sm.signer);
    }
  }

  /** Signing one more message. */
  lemma SignSound(cfg: Config, n: Node, sm: Message, k: Genuine)
    requires Disciplined(cfg, n, k)
    requires Placed(n.rs, sm) && Consistent(sm, sm)
    requires forall m :: m in n.sent ==> Consistent(m, sm) && Consistent(sm, m)
    ensures Disciplined(cfg, Broadcast(n, sm), k)
  {
    var r := Broadcast(n, sm);
    KnownGrows(cfg, n, sm, k);
    forall m | m in r.sent ensures Placed(r.rs, m) {
      assert m in n.sent || m == sm;
    }
    forall a, b | a in r.sent && b in r.sent ensures Consistent(a, b) {
      assert (a in n.sent || a == sm) && (b in n.sent || b == sm);
    }
    forall x, a | x in n.rs.commits && a in n.rs.commits[x] ensures Known(cfg, r.sent, k, a, n.rs.height, x) {
      assert Known(cfg, n.sent, k, a, n.rs.height, x);
      if a == cfg.self && SentCommit(n.sent, n.rs.height, x) {
        var m :| m in n.sent && m.typ == Commit && m.height == n.rs.height && m.blockHash == x;
        assert m in r.sent;
      }
    }
  }

  /** The same, and filing the vote in the validator's own tally. */
  lemma SignAndRecord(cfg: Config, n: Node, sm: Message, k: Genuine)
    requires ValidConfig(cfg) && Disciplined(cfg, n, k)
    requires sm.signer == cfg.self && sm.height == n.rs.height
    requires Placed(n.rs, sm) && Consistent(sm, sm)
    requires forall m :: m in n.sent ==> Consistent(m, sm) && Consistent(sm, m)
    ensures Disciplined(cfg, Broadcast(n.(rs := Record(n.rs, sm).rs), sm), k)
  {
    var n1 := Broadcast(n, sm);
    SignSound(cfg, n, sm, k);
    assert sm in n1.sent;
    RecordBacked(cfg, n1, sm, k);
  }
}
