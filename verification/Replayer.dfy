/** The audit as it runs: loops over blocks, transactions and receipts, each
    proved to compute what Storage and Ledger define. */
module Replayers {
  import opened Blocks
  import opened SysOps
  import opened Ledger
  import opened Storage

  // --- comparing stored receipts ---

  /** The first place two receipt lists differ. */
  datatype Difference = Count | Status(i: nat) | CumulativeGas(i: nat) | Logs(i: nat, at: LogDifference)

  datatype LogDifference = LogCount | LogAddress(j: nat) | TopicCount(j: nat) | Topic(j: nat, k: nat) | Data(j: nat)

  predicate LocatesLog(d: LogDifference, have: seq<Log>, want: seq<Log>) {
    if d.LogCount? then |have| != |want|
    else
      && |have| == |want| && d.j < |want| && have[..d.j] == want[..d.j]
      && var h, w := have[d.j], want[d.j];
         match d
         case LogAddress(_) => h.address != w.address
         case TopicCount(_) => h.address == w.address && |h.topics| != |w.topics|
         case Topic(_, k) => h.address == w.address && |h.topics| == |w.topics| && k < |w.topics|
                             && h.topics[..k] == w.topics[..k] && h.topics[k] != w.topics[k]
         case Data(_) => h.address == w.address && h.topics == w.topics && h.data != w.data
  }

  predicate Locates(d: Difference, have: seq<StoredReceipt>, want: seq<StoredReceipt>) {
    if d.Count? then |have| != |want|
    else
      && |have| == |want| && d.i < |want| && have[..d.i] == want[..d.i]
      && var h, w := have[d.i], want[d.i];
         match d
         case Status(_) => h.status != w.status
         case CumulativeGas(_) => h.status == w.status && h.cumulativeGas != w.cumulativeGas
         case Logs(_, at) =>
           h.status == w.status && h.cumulativeGas == w.cumulativeGas && LocatesLog(at, h.logs, w.logs)
  }

  method FirstTopic(have: seq<nat>, want: seq<nat>) returns (k: nat)
    requires |have| == |want|
    ensures k <= |want| && have[..k] == want[..k]
    ensures k < |want| ==> have[k] != want[k]
  {
    k := 0;
    while k < |want| && have[k] == want[k]
      invariant k <= |want| && have[..k] == want[..k]
    {
      k := k + 1;
    }
  }

  method CompareLogs(have: seq<Log>, want: seq<Log>) returns (d: Option<LogDifference>)
    ensures d.None? <==> have == want
    ensures d.Some? ==> LocatesLog(d.value, have, want)
  {
    if |have| != |want| {
      return Some(LogCount);
    }
    for j := 0 to |want|
      invariant have[..j] == want[..j]
    {
      var h, w := have[j], want[j];
      if h.address != w.address {
        return Some(LogAddress(j));
      }
      if |h.topics| != |w.topics| {
        return Some(TopicCount(j));
      }
      var k := FirstTopic(h.topics, w.topics);
      if k < |w.topics| {
        return Some(Topic(j, k));
      }
      assert h.topics == h.topics[..k] == w.topics[..k] == w.topics;
      if h.data != w.data {
        return Some(Data(j));
      }
      assert have[..j + 1] == have[..j] + [h] && want[..j + 1] == want[..j] + [w];
    }
    assert have[..|want|] == have && want[..|want|] == want;
    return None;
  }

  /** Stored receipts are accepted exactly when they equal the recomputed ones;
      otherwise the answer is the first field that differs. */
  method CompareReceipts(have: seq<StoredReceipt>, want: seq<StoredReceipt>) returns (d: Option<Difference>)
    ensures d.None? <==> have == want
    ensures d.Some? ==> Locates(d.value, have, want)
  {
    if |have| != |want| {
      return Some(Count);
    }
    for i := 0 to |want|
      invariant have[..i] == want[..i]
    {
      var h, w := have[i], want[i];
      if h.status != w.status {
        return Some(Status(i));
      }
      if h.cumulativeGas != w.cumulativeGas {
        return Some(CumulativeGas(i));
      }
      var at := CompareLogs(h.logs, w.logs);
      if at.Some? {
        return Some(Logs(i, at.value));
      }
      assert have[..i + 1] == have[..i] + [h] && want[..i + 1] == want[..i] + [w];
    }
    assert have[..|want|] == have && want[..|want|] == want;
    return None;
  }

  // --- re-execution ---

  lemma {:induction false} FaultStays(evm: Evm, ctx: Context, txs: seq<Tx>, k: nat, start: World)
    requires k <= |txs| && ReplayTxs(evm, ctx, txs[..k], start).Err?
    ensures ReplayTxs(evm, ctx, txs, start) == ReplayTxs(evm, ctx, txs[..k], start)
  {
    hide ReplayTx;
    if k == |txs| {
      assert txs[..k] == txs;
    } else {
      var shorter := txs[..|txs| - 1];
      assert shorter[..k] == txs[..k];
      FaultStays(evm, ctx, shorter, k, start);
    }
  }

  lemma {:induction false} RangeFaultStays(evm: Evm, db: Store, from: nat, n: nat, last: nat)
    requires 1 <= from <= n + 1 <= last + 1 && ReplayRange(evm, db, from, n).Err?
    ensures ReplayRange(evm, db, from, last) == ReplayRange(evm, db, from, n)
  {
    hide ReplayStep, BlockAt;
    if n < last {
      RangeFaultStays(evm, db, from, n, last - 1);
    }
  }

  class Replayer {
    const evm: Evm
    const src: Store

    constructor (evm: Evm, src: Store)
      ensures this.evm == evm && this.src == src
    {
      this.evm := evm;
      this.src := src;
    }

    /** Execute one block over a parent state. */
    method ReplayBlock(block: Block, parentRoot: World) returns (r: Result<Replayed, Fault>)
      ensures r == Ledger.ReplayBlock(evm, Ancestors(src, Number(block)), block, parentRoot)
    {
      hide ReplayTx, Parse, Ledger.ApplySysOp;
      var n := Number(block);
      var parsed := Parse(block.header.extra);
      if parsed.Ok? {
        if block.txs != [] {
          return Err(BothKinds(n));
        }
        var world := ApplySysOp(parentRoot, parsed.value);
        match world {
          case Err(e) => return Err(BadSysOp(n, e));
          case Ok(w) => return Ok(Replayed(w, [], 0));
        }
      }
      if parsed.error != NotSysOp {
        return Err(BadSysOp(n, parsed.error));
      }
      var ctx := ContextOf(block.header, Ancestors(src, n));
      var sofar := Replayed(parentRoot, [], 0);
      for i := 0 to |block.txs|
        invariant ReplayTxs(evm, ctx, block.txs[..i], parentRoot) == Ok(sofar)
      {
        assert block.txs[..i + 1][..i] == block.txs[..i];
        var next := ReplayTx(evm, ctx, block.txs[i], i, sofar);
        if next.Err? {
          FaultStays(evm, ctx, block.txs, i + 1, parentRoot);
          return next;
        }
        sofar := next.value;
      }
      assert block.txs[..|block.txs|] == block.txs;
      return Ok(sofar);
    }

    /** The first of the header's commitments that re-execution does not meet. */
    method VerifyBlock(block: Block, x: Replayed) returns (field: Option<Field>)
      ensures field == Ledger.VerifyBlock(block, x)
    {
      if x.root != block.header.root {
        return Some(StateRoot);
      }
      if x.gasUsed != block.header.gasUsed {
        return Some(GasUsed);
      }
      var txRoot, receiptRoot := EmptyRoot, EmptyRoot;
      if |block.txs| > 0 {
        txRoot, receiptRoot := RootOf(block.txs), RootOf(Leaves(x.receipts));
      }
      if txRoot != block.header.txRoot {
        return Some(TransactionsRoot);
      }
      if receiptRoot != block.header.receiptRoot {
        return Some(ReceiptsRoot);
      }
      var bloom: set<nat> := {};
      for i := 0 to |x.receipts|
        invariant bloom == ReceiptsBloom(x.receipts[..i])
      {
        assert x.receipts[..i + 1][..i] == x.receipts[..i];
        bloom := bloom + x.receipts[i].bloom;
      }
      assert x.receipts[..|x.receipts|] == x.receipts;
      return if bloom != block.header.bloom then Some(LogsBloomField) else None;
    }

    /** Re-execute blocks from..last and compare each with what is stored. */
    method Replay(from: nat, last: nat) returns (r: Result<Report, Fault>)
      ensures r == Storage.Replay(evm, src, from, last)
    {
      hide Ledger.ReplayBlock, Ledger.VerifyBlock, VerifyLinkage, BlockAt;
      var first := if from == 0 then 1 else from;
      var below := BlockAt(src, first - 1);
      if below.Err? {
        if last >= first {
          RangeFaultStays(evm, src, first, first - 1, last);
        }
        return Err(below.error);
      }
      var parent := below.value;
      var report := Report(first, first - 1, 0, 0, 0, parent.header.root);
      if last < first {
        return Ok(report);
      }
      var n := first;
      while n <= last
        invariant first <= n <= last + 1
        invariant BlockAt(src, n - 1) == Ok(parent) && ReplayRange(evm, src, first, n - 1) == Ok(report)
      {
        var next, step := ReplayOne(n, parent, report);
        if step.Err? {
          RangeFaultStays(evm, src, first, n, last);
          return step;
        }
        parent, report, n := next, step.value, n + 1;
      }
      return Ok(report);
    }

    /** One turn of the loop in Replay. */
    method ReplayOne(n: nat, parent: Block, report: Report) returns (block: Block, r: Result<Report, Fault>)
      ensures r == ReplayStep(evm, src, n, parent, report)
      ensures r.Ok? ==> BlockAt(src, n) == Ok(block)
    {
      hide Ledger.ReplayBlock, Ledger.VerifyBlock, VerifyLinkage, BlockAt;
      block := parent;
      var read := BlockAt(src, n);
      if read.Err? {
        return block, Err(read.error);
      }
      block := read.value;
      var broken := VerifyLinkage(block, parent);
      if broken.Some? {
        return block, Err(Mismatch(Number(block), broken.value));
      }
      var executed := ReplayBlock(block, report.stateRoot);
      if executed.Err? {
        return block, Err(executed.error);
      }
      var wrong := VerifyBlock(block, executed.value);
      if wrong.Some? {
        return block, Err(Mismatch(Number(block), wrong.value));
      }
      var have := StoredForm(executed.value.receipts);
      var differs := CompareReceipts(have, ReadReceipts(src, BlockHash(block), Number(block)));
      if differs.Some? {
        return block, Err(Mismatch(Number(block), StoredReceipts));
      }
      r := Ok(Report(report.from, n, report.blocks + 1, report.transactions + |block.txs|,
                     report.gasUsed + executed.value.gasUsed, executed.value.root));
    }
  }
}
