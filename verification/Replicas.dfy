/** Consensus and ledger together: what the honest validators of a cluster end up
    holding on disk. */
module Replicas {
  import opened Blocks
  import opened Ledger
  import opened Storage
  import Protocol
  import Following
  import Effects
  import opened Network
  import opened Consensus
  import ClusterSafety

  /** Every honest validator re-executes with the same EVM. */
  ghost predicate SharedLedger(c: Cluster, evm: Evm) {
    forall v :: v in c.cfgs ==> Following.BackedBy(c.cfgs[v].ops, evm)
  }

  /** A chain grown by blocks the engine accepted is one the ledger can audit, if
      it was when the engine was started. */
  lemma ExtendsFollows(evm: Evm, ops: Protocol.ChainOps, start: seq<Block>, chain: seq<Block>)
    requires Following.BackedBy(ops, evm) && |start| > 0 && Effects.Extends(ops, start, chain)
    ensures Storage.Follows(evm, start) ==> Storage.Follows(evm, chain)
    ensures Executes(evm, start) ==> Executes(evm, chain)
  {
    hide ValidNext, Executed;
    forall i | |start| <= i < |chain| ensures ValidNext(evm, chain[..i], chain[i]) && Executed(evm, chain[..i], chain[i]) {
      ValidIsExecuted(evm, chain[..i], chain[i]);
    }
    assert forall i :: 1 <= i < |start| ==> chain[..i] == start[..i] && chain[i] == start[i];
  }

  // --- one validator ---

  /** Whatever messages, submissions and pulled blocks a validator is given, the
      audit of the database holding its chain succeeds and ends in its head's state. */
  lemma ValidatorAudits(evm: Evm, cfg: Protocol.Config, start: seq<Block>, turns: seq<Effects.Turn>,
                        chain: seq<Block>, db: Store)
    requires Protocol.ValidConfig(cfg) && Following.BackedBy(cfg.ops, evm) && |start| > 0 && Storage.Follows(evm, start)
    requires chain == Effects.AfterTurns(cfg, start, turns).chain && Following.Holds(evm, db, chain)
    ensures |chain| > 0 && start <= chain
    ensures var audit := Replay(evm, db, 1, |chain| - 1);
            audit.Ok? && audit.value.stateRoot == chain[|chain| - 1].header.root && audit.value.blocks == |chain| - 1
  {
    hide Effects.AfterTurns, Effects.AllArrived, Protocol.Accounted, Protocol.WellFormed, Protocol.Ahead;
    hide ReplayRange, Following.BackedBy, Storage.Follows, Executes, Stores, KeepsReceipts;
    Effects.EveryRequestOnce(cfg, start, turns);
    ExtendsFollows(evm, cfg.ops, start, chain);
    AuditMeansFollows(evm, db, chain, |chain| - 1);
    assert chain[..|chain|] == chain;
  }

  // --- all of them ---

  /** In every run, whatever the Byzantine validators do and even if an honest one
      goes astray, every honest chain is one the ledger can audit. */
  lemma EveryChainAudits(c: Cluster, evm: Evm, run: seq<State>, v: Address)
    requires IsRun(c, run) && SharedLedger(c, evm) && v in run[|run| - 1]
    ensures c.start <= run[|run| - 1][v].chain
    ensures Storage.Follows(evm, c.start) ==> Storage.Follows(evm, run[|run| - 1][v].chain)
    ensures Executes(evm, c.start) ==> Executes(evm, run[|run| - 1][v].chain)
  {
    hide StepAt, Protocol.Boot, ValidNext, Executed;
    RunGrows(c, run);
    ExtendsFollows(evm, c.cfgs[v].ops, c.start, run[|run| - 1][v].chain);
  }

  /** Two chains with the same hash at one height have the same block there and
      keep the same receipts for it. */
  lemma SameHashSameRecord(evm: Evm, a: Store, p: seq<Block>, b: Store, q: seq<Block>, i: nat)
    requires Following.Holds(evm, a, p) && Following.Holds(evm, b, q) && Executes(evm, p) && Executes(evm, q)
    requires 0 < i < |p| && i < |q| && BlockHash(p[i]) == BlockHash(q[i])
    ensures p[i] == q[i] && ReadReceipts(a, BlockHash(p[i]), i) == ReadReceipts(b, BlockHash(q[i]), i)
  {
    hide CheckBody, StoredForm, Stores;
    assert Executed(evm, p[..i], p[i]) && Executed(evm, q[..i], q[i]);
    HeaderFixesBody(evm, Hashes(p[..i]), p[i], p[i - 1].header.root, Hashes(q[..i]), q[i], q[i - 1].header.root);
  }

  /** Replicas are identical: at every height two honest validators both have,
      they hold the same block, body included, and the same stored receipts. */
  lemma ReplicasIdentical(c: Cluster, evm: Evm, run: seq<State>, s: State, v: Address, w: Address, i: nat, a: Store,
                          b: Store)
    requires Reached(c, run, s) && SharedLedger(c, evm) && Executes(evm, c.start) && v in s && w in s
    requires i < |s[v].chain| && i < |s[w].chain|
    requires Following.Holds(evm, a, s[v].chain) && Following.Holds(evm, b, s[w].chain)
    ensures s[v].chain[i] == s[w].chain[i]
    ensures i > 0 ==> ReadReceipts(a, BlockHash(s[v].chain[i]), i) == ReadReceipts(b, BlockHash(s[w].chain[i]), i)
  {
    assert |c.start| > 0;
    hide SharedLedger, ValidCluster, IsRun, ProperInput, ClusterSafety.OnCourse, Following.Holds, Executes;
    EveryChainAudits(c, evm, run, v);
    EveryChainAudits(c, evm, run, w);
    Agreement(c, run, s, v, w, i);
    if i > 0 {
      SameHashSameRecord(evm, a, s[v].chain, b, s[w].chain, i);
    }
  }

  /** The vote names a block of its height that the ledger can put on the chain there. */
  ghost predicate NamesNext(evm: Evm, chain: seq<Block>, m: Protocol.Message) {
    m.height <= |chain| &&
    exists b :: BlockHash(b) == m.blockHash && Number(b) == m.height && ValidNext(evm, chain[..m.height], b)
  }

  lemma ReexecutedIsNext(evm: Evm, ops: Protocol.ChainOps, chain: seq<Block>, m: Protocol.Message)
    requires Following.BackedBy(ops, evm) && Effects.Reexecuted(ops, chain, m)
    ensures NamesNext(evm, chain, m)
  {
    hide ValidNext;
    var b :| Effects.ReexecutedAs(ops, chain[..m.height], m, b);
    assert ValidNext(evm, chain[..m.height], b);
  }

  /** In every run every PREPARE of an honest validator is for a block it proposed
      itself in that round, or for one that the ledger can put on its chain there. */
  lemma PreparesReexecuted(c: Cluster, evm: Evm, run: seq<State>, v: Address, m: Protocol.Message)
    requires IsRun(c, run) && SharedLedger(c, evm) && v in run[|run| - 1]
    requires m in run[|run| - 1][v].sent && m.typ == Protocol.Prepare
    ensures var n := run[|run| - 1][v]; Effects.Proposed(n.sent, m) || NamesNext(evm, n.chain, m)
  {
    var n := run[|run| - 1][v];
    hide IsRun, NamesNext, Effects.Proposed, Effects.Reexecuted, Following.BackedBy;
    PreparesVouched(c, run, v, m);
    if !Effects.Proposed(n.sent, m) {
      ReexecutedIsNext(evm, c.cfgs[v].ops, n.chain, m);
    }
  }
}
