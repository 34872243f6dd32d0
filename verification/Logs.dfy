/** Event logs: deriving what is not stored, and the filtered scan whose
    header-bloom skip changes its cost and nothing else. */
module LogFilters {
  import opened Blocks
  import opened SysOps
  import opened Ledger
  import opened Storage
  import Following

  datatype Entry = Entry(log: Log, blockHash: Hash, blockNumber: nat, tx: Tx, txIndex: nat, index: nat)

  datatype Derived = Derived(tx: Tx, kind: nat, gasUsed: nat, contract: Option<Address>, blockHash: Hash,
                             blockNumber: nat, txIndex: nat, logs: seq<Entry>, bloom: set<nat>)

  // --- deriving ---

  function LogsBefore(stored: seq<StoredReceipt>, i: nat): nat
    requires i <= |stored|
  {
    if i == 0 then 0 else LogsBefore(stored, i - 1) + |stored[i - 1].logs|
  }

  function GasBefore(stored: seq<StoredReceipt>, i: nat): nat
    requires i <= |stored|
  {
    if i == 0 then 0 else stored[i - 1].cumulativeGas
  }

  function EntriesAt(block: Block, stored: seq<StoredReceipt>, i: nat): (r: seq<Entry>)
    requires i < |stored| == |block.txs|
    ensures |r| == |stored[i].logs|
  {
    seq(|stored[i].logs|, j requires 0 <= j < |stored[i].logs| =>
      Entry(stored[i].logs[j], BlockHash(block), Number(block), block.txs[i], i, LogsBefore(stored, i) + j))
  }

  /** Receipt i with every field a client sees. */
  function DerivedAt(evm: Evm, block: Block, stored: seq<StoredReceipt>, i: nat): Derived
    requires i < |stored| == |block.txs|
  {
    var tx := block.txs[i];
    var contract :=
      if tx.to.None? && evm.sender(tx).Some? then Some(evm.create(evm.sender(tx).value, tx.nonce)) else None;
    Derived(tx, tx.kind, (stored[i].cumulativeGas - GasBefore(stored, i)) % UINT64, contract, BlockHash(block),
            Number(block), i, EntriesAt(block, stored, i), LogsBloom(evm, stored[i].logs))
  }

  predicate Derivable(evm: Evm, block: Block, stored: seq<StoredReceipt>) {
    && |stored| == |block.txs|
    && forall i :: 0 <= i < |block.txs| && block.txs[i].to.None? ==> evm.sender(block.txs[i]).Some?
  }

  /** The running counters of the loop give each log its place in the whole
      block and each receipt its own gas. */
  method DeriveReceiptFields(evm: Evm, block: Block, stored: seq<StoredReceipt>) returns (r: Option<seq<Derived>>)
    ensures r.Some? <==> Derivable(evm, block, stored)
    ensures r.Some? ==> |r.value| == |stored|
    ensures r.Some? ==> forall i :: 0 <= i < |stored| ==> r.value[i] == DerivedAt(evm, block, stored, i)
  {
    hide LogsBloom;
    if |stored| != |block.txs| {
      return None;
    }
    var logIndex: nat, gasBefore: nat := 0, 0;
    var out: seq<Derived> := [];
    for i := 0 to |stored|
      invariant |out| == i && logIndex == LogsBefore(stored, i) && gasBefore == GasBefore(stored, i)
      invariant forall k :: 0 <= k < i && block.txs[k].to.None? ==> evm.sender(block.txs[k]).Some?
      invariant forall k :: 0 <= k < i ==> out[k] == DerivedAt(evm, block, stored, k)
    {
      var receipt, tx := stored[i], block.txs[i];
      var contract := None;
      if tx.to.None? {
        var from := evm.sender(tx);
        if from.None? {
          return None;
        }
        contract := Some(evm.create(from.value, tx.nonce));
      }
      var logs: seq<Entry> := [];
      for j := 0 to |receipt.logs|
        invariant |logs| == j && logIndex == LogsBefore(stored, i) + j
        invariant forall k :: 0 <= k < j ==> logs[k] == EntriesAt(block, stored, i)[k]
      {
        logs := logs + [Entry(receipt.logs[j], BlockHash(block), Number(block), tx, i, logIndex)];
        logIndex := logIndex + 1;
      }
      assert logs == EntriesAt(block, stored, i);
      out := out + [Derived(tx, tx.kind, (receipt.cumulativeGas - gasBefore) % UINT64, contract, BlockHash(block),
                            Number(block), i, logs, LogsBloom(evm, receipt.logs))];
      gasBefore := receipt.cumulativeGas;
    }
    return Some(out);
  }

  // --- filtering ---

  datatype Tag = Latest | Pending | Safe | Finalized | Earliest | At(n: int)

  datatype Filter = Filter(from: Option<Tag>, upto: Option<Tag>, blockHash: Option<Hash>, addresses: seq<Address>,
                           topics: seq<seq<nat>>)

  datatype LogError = Conflict | UnsupportedTag | RangeTooLong(from: nat, upto: nat, limit: nat) | BlockNotFound
                    | ReceiptsMissing | Underivable | HeadMissing

  predicate BloomLookup(evm: Evm, bloom: set<nat>, item: Item) {
    evm.bits(item) <= bloom
  }

  /** Could a block with this bloom hold a matching log? */
  predicate BloomMatches(evm: Evm, bloom: set<nat>, f: Filter) {
    && (f.addresses != [] ==> exists a :: a in f.addresses && BloomLookup(evm, bloom, OfAddress(a)))
    && forall i :: 0 <= i < |f.topics| && f.topics[i] != [] ==>
         exists t :: t in f.topics[i] && BloomLookup(evm, bloom, OfTopic(t))
  }

  /** The log must have a topic for every position of the filter, wildcard
      positions included. */
  predicate MatchLog(l: Log, f: Filter) {
    && (f.addresses == [] || l.address in f.addresses)
    && |f.topics| <= |l.topics|
    && forall i :: 0 <= i < |f.topics| && f.topics[i] != [] ==> l.topics[i] in f.topics[i]
  }

  function Select(entries: seq<Entry>, f: Filter): seq<Entry> {
    if entries == [] then []
    else
      var last := entries[|entries| - 1];
      Select(entries[..|entries| - 1], f) + if MatchLog(last.log, f) then [last] else []
  }

  /** The matching entries of the first i receipts. */
  function SelectUpTo(block: Block, stored: seq<StoredReceipt>, f: Filter, i: nat): seq<Entry>
    requires i <= |stored| == |block.txs|
  {
    if i == 0 then [] else SelectUpTo(block, stored, f, i - 1) + Select(EntriesAt(block, stored, i - 1), f)
  }

  function BlockLogs(evm: Evm, db: Store, block: Block, f: Filter): Result<seq<Entry>, LogError> {
    var stored := ReadReceipts(db, BlockHash(block), Number(block));
    if stored == [] then (if block.txs == [] then Ok([]) else Err(ReceiptsMissing))
    else if !Derivable(evm, block, stored) then Err(Underivable)
    else Ok(SelectUpTo(block, stored, f, |stored|))
  }

  function HeaderByNumber(db: Store, n: nat): Option<Header> {
    match ReadBlock(db, CanonicalHash(db, n), n)
    case None => None
    case Some(b) => if CanonicalHash(db, n) == ZeroHash then None else Some(b.header)
  }

  /** What block n contributes: nothing if `skip` and its bloom rules it out. */
  function LogsAt(evm: Evm, db: Store, f: Filter, n: nat, skip: bool): Result<seq<Entry>, LogError> {
    match HeaderByNumber(db, n)
    case None => Err(BlockNotFound)
    case Some(header) =>
      if skip && !BloomMatches(evm, header.bloom, f) then Ok([])
      else
        match BlockByHeader(db, header)
        case None => Err(BlockNotFound)
        case Some(block) => BlockLogs(evm, db, block, f)
  }

  function ScanRange(evm: Evm, db: Store, f: Filter, from: nat, upto: nat, skip: bool): Result<seq<Entry>, LogError>
    requires from <= upto + 1
    decreases upto
  {
    if upto < from then Ok([])
    else
      match (if upto == 0 then Ok([]) else ScanRange(evm, db, f, from, upto - 1, skip))
      case Err(e) => Err(e)
      case Ok(out) =>
        match LogsAt(evm, db, f, upto, skip)
        case Err(e) => Err(e)
        case Ok(more) => Ok(out + more)
  }

  function ResolveTag(tag: Option<Tag>, head: nat): Option<nat> {
    match tag
    case Some(Earliest) => Some(0)
    case Some(At(n)) => if n < 0 then None else Some(n)
    case _ => Some(head)
  }

  function BlockByHash(db: Store, hash: Hash): Option<Block> {
    if NumberOf(db, hash).None? then None
    else
      match ReadBlock(db, hash, NumberOf(db, hash).value)
      case None => None
      case Some(b) => BlockByHeader(db, b.header)
  }

  function FilterLogs(evm: Evm, db: Store, f: Filter, limit: nat, skip: bool): Result<seq<Entry>, LogError> {
    if f.blockHash.Some? then
      if f.from.Some? || f.upto.Some? then Err(Conflict)
      else
        match BlockByHash(db, f.blockHash.value)
        case None => Err(BlockNotFound)
        case Some(block) => BlockLogs(evm, db, block, f)
    else
      match CurrentHeader(db)
      case None => Err(HeadMissing)
      case Some(head) =>
        match (ResolveTag(f.from, head.number), ResolveTag(f.upto, head.number))
        case (Some(from), Some(end)) =>
          var upto := if end > head.number then head.number else end;
          if from > upto then Ok([])
          else if limit > 0 && upto - from + 1 > limit then Err(RangeTooLong(from, upto, limit))
          else ScanRange(evm, db, f, from, upto, skip)
        case _ => Err(UnsupportedTag)
  }

  // --- as the node runs it ---

  method AppendBlockLogs(evm: Evm, db: Store, out: seq<Entry>, block: Block, f: Filter)
    returns (r: Result<seq<Entry>, LogError>)
    ensures r == match BlockLogs(evm, db, block, f) case Err(e) => Err(e) case Ok(more) => Ok(out + more)
  {
    hide LogsBloom, MatchLog;
    var stored := ReadReceipts(db, BlockHash(block), Number(block));
    if |stored| == 0 {
      if |block.txs| == 0 {
        assert out + [] == out;
        return Ok(out);
      }
      return Err(ReceiptsMissing);
    }
    var receipts := DeriveReceiptFields(evm, block, stored);
    if receipts.None? {
      return Err(Underivable);
    }
    var more: seq<Entry> := [];
    for i := 0 to |stored|
      invariant more == SelectUpTo(block, stored, f, i)
    {
      var logs := receipts.value[i].logs;
      ghost var before := more;
      for j := 0 to |logs|
        invariant more == before + Select(logs[..j], f)
      {
        assert logs[..j + 1][..j] == logs[..j];
        if MatchLog(logs[j].log, f) {
          more := more + [logs[j]];
        }
      }
      assert logs[..|logs|] == logs;
    }
    return Ok(out + more);
  }

  lemma {:induction false} ScanFaultStays(evm: Evm, db: Store, f: Filter, from: nat, n: nat, upto: nat, skip: bool)
    requires from <= n <= upto && ScanRange(evm, db, f, from, n, skip).Err?
    ensures ScanRange(evm, db, f, from, upto, skip) == ScanRange(evm, db, f, from, n, skip)
  {
    hide LogsAt;
    if n < upto {
      ScanFaultStays(evm, db, f, from, n, upto - 1, skip);
    }
  }

  method FindLogs(evm: Evm, db: Store, f: Filter, limit: nat) returns (r: Result<seq<Entry>, LogError>)
    ensures r == FilterLogs(evm, db, f, limit, true)
  {
    hide BlockLogs, BloomMatches;
    if f.blockHash.Some? {
      if f.from.Some? || f.upto.Some? {
        return Err(Conflict);
      }
      var block := BlockByHash(db, f.blockHash.value);
      if block.None? {
        return Err(BlockNotFound);
      }
      r := AppendBlockLogs(evm, db, [], block.value, f);
      assert forall more: seq<Entry> :: [] + more == more;
      return r;
    }
    var head := CurrentHeader(db);
    if head.None? {
      return Err(HeadMissing);
    }
    var from, end := ResolveTag(f.from, head.value.number), ResolveTag(f.upto, head.value.number);
    if from.None? || end.None? {
      return Err(UnsupportedTag);
    }
    var upto := if end.value > head.value.number then head.value.number else end.value;
    if from.value > upto {
      return Ok([]);
    }
    if limit > 0 && upto - from.value + 1 > limit {
      return Err(RangeTooLong(from.value, upto, limit));
    }
    r := ScanForward(evm, db, f, from.value, upto);
  }

  method ScanForward(evm: Evm, db: Store, f: Filter, from: nat, upto: nat) returns (r: Result<seq<Entry>, LogError>)
    requires from <= upto
    ensures r == ScanRange(evm, db, f, from, upto, true)
  {
    hide BlockLogs, BloomMatches;
    var out: seq<Entry> := [];
    var n := from;
    while n <= upto
      invariant from <= n <= upto + 1
      invariant if n == from then out == [] else ScanRange(evm, db, f, from, n - 1, true) == Ok(out)
    {
      assert (if n == 0 then Ok([]) else ScanRange(evm, db, f, from, n - 1, true)) == Ok(out);
      var header := HeaderByNumber(db, n);
      if header.None? {
        ScanFaultStays(evm, db, f, from, n, upto, true);
        return Err(BlockNotFound);
      }
      if BloomMatches(evm, header.value.bloom, f) {
        var block := BlockByHeader(db, header.value);
        if block.None? {
          ScanFaultStays(evm, db, f, from, n, upto, true);
          return Err(BlockNotFound);
        }
        var next := AppendBlockLogs(evm, db, out, block.value, f);
        if next.Err? {
          ScanFaultStays(evm, db, f, from, n, upto, true);
          return next;
        }
        out := next.value;
      } else {
        assert out + [] == out;
      }
      n := n + 1;
    }
    return Ok(out);
  }

  // --- the bloom skip is only an optimisation ---

  lemma {:induction false} TopicInBloom(evm: Evm, topics: seq<nat>, i: nat)
    requires i < |topics|
    ensures evm.bits(OfTopic(topics[i])) <= TopicsBloom(evm, topics)
  {
    if i > 0 {
      TopicInBloom(evm, topics[1..], i - 1);
    }
  }

  lemma {:induction false} LogInBloom(evm: Evm, logs: seq<Log>, j: nat)
    requires j < |logs|
    ensures evm.bits(OfAddress(logs[j].address)) <= LogsBloom(evm, logs)
    ensures TopicsBloom(evm, logs[j].topics) <= LogsBloom(evm, logs)
  {
    if j > 0 {
      LogInBloom(evm, logs[1..], j - 1);
    }
  }

  lemma {:induction false} ReceiptInBloom(receipts: seq<Receipt>, i: nat)
    requires i < |receipts|
    ensures receipts[i].bloom <= ReceiptsBloom(receipts)
  {
    if i < |receipts| - 1 {
      ReceiptInBloom(receipts[..|receipts| - 1], i);
    }
  }

  /** A log that matches the filter shows in every bloom that covers it. */
  lemma MatchShows(evm: Evm, l: Log, f: Filter, bloom: set<nat>)
    requires MatchLog(l, f)
    requires evm.bits(OfAddress(l.address)) <= bloom && TopicsBloom(evm, l.topics) <= bloom
    ensures BloomMatches(evm, bloom, f)
  {
    if f.addresses != [] {
      assert l.address in f.addresses && BloomLookup(evm, bloom, OfAddress(l.address));
    }
    forall i | 0 <= i < |f.topics| && f.topics[i] != []
      ensures exists t :: t in f.topics[i] && BloomLookup(evm, bloom, OfTopic(t))
    {
      TopicInBloom(evm, l.topics, i);
      assert l.topics[i] in f.topics[i] && BloomLookup(evm, bloom, OfTopic(l.topics[i]));
    }
  }

  lemma {:induction false} ReplayedReceipts(evm: Evm, ctx: Context, txs: seq<Tx>, start: World, i: nat)
    requires ReplayTxs(evm, ctx, txs, start).Ok? && i < |txs|
    ensures var r := ReplayTxs(evm, ctx, txs, start).value.receipts[i];
            && r.tx == txs[i] && r.bloom == LogsBloom(evm, r.stored.logs) && evm.sender(txs[i]).Some?
            && r.stored.cumulativeGas ==
               r.gasUsed + (if i == 0 then 0
                            else ReplayTxs(evm, ctx, txs, start).value.receipts[i - 1].stored.cumulativeGas)
    ensures txs != [] ==> ReplayTxs(evm, ctx, txs, start).value.gasUsed ==
                          ReplayTxs(evm, ctx, txs, start).value.receipts[|txs| - 1].stored.cumulativeGas
  {
    hide LogsBloom;
    var last := |txs| - 1;
    if i < last {
      ReplayedReceipts(evm, ctx, txs[..last], start, i);
      assert txs[..last][i] == txs[i];
    }
    if last > 0 {
      ReplayedReceipts(evm, ctx, txs[..last], start, last - 1);
    }
  }

  /** The receipts of a block that re-executes: its transactions in order, each
      with the bloom of its own logs and the running gas total. */
  lemma CheckedReceipts(evm: Evm, chain: seq<Block>, block: Block, i: nat)
    requires Executed(evm, chain, block) && i < |block.txs|
    ensures var rs := ExecuteNext(evm, chain, block).value.receipts;
            && rs[i].tx == block.txs[i] && rs[i].bloom == LogsBloom(evm, rs[i].stored.logs)
            && evm.sender(block.txs[i]).Some? && rs[i].bloom <= block.header.bloom
            && rs[i].stored.cumulativeGas == rs[i].gasUsed + (if i == 0 then 0 else rs[i - 1].stored.cumulativeGas)
  {
    hide LogsBloom, Parse, ReplayTxs, ReceiptsBloom;
    var parent := chain[|chain| - 1];
    ReplayedReceipts(evm, ContextOf(block.header, Hashes(chain)), block.txs, parent.header.root, i);
    ReceiptInBloom(ExecuteNext(evm, chain, block).value.receipts, i);
  }

  /** Deriving gives back what execution produced: each receipt's own gas, its
      transaction and its bloom. */
  lemma DerivingRestores(evm: Evm, chain: seq<Block>, block: Block, i: nat)
    requires Executed(evm, chain, block) && i < |block.txs|
    ensures var rs := ExecuteNext(evm, chain, block).value.receipts;
            && Derivable(evm, block, StoredForm(rs)) && evm.sender(rs[i].tx).Some?
            && (rs[i].gasUsed < UINT64 ==> DerivedAt(evm, block, StoredForm(rs), i).gasUsed == rs[i].gasUsed)
            && DerivedAt(evm, block, StoredForm(rs), i).tx == rs[i].tx
            && DerivedAt(evm, block, StoredForm(rs), i).bloom == rs[i].bloom
            && DerivedAt(evm, block, StoredForm(rs), i).contract ==
               (if rs[i].tx.to.None? then Some(evm.create(evm.sender(rs[i].tx).value, rs[i].tx.nonce)) else None)
  {
    hide LogsBloom, CheckBody;
    CheckedReceipts(evm, chain, block, i);
    forall k | 0 <= k < |block.txs| ensures evm.sender(block.txs[k]).Some? {
      CheckedReceipts(evm, chain, block, k);
    }
  }

  lemma {:induction false} SelectNone(evm: Evm, entries: seq<Entry>, f: Filter)
    requires forall j :: 0 <= j < |entries| ==> !MatchLog(entries[j].log, f)
    ensures Select(entries, f) == []
  {
    hide MatchLog;
    if entries != [] {
      SelectNone(evm, entries[..|entries| - 1], f);
    }
  }

  /** A block ruled out by its bloom contributes nothing. */
  lemma {:induction false} RuledOut(evm: Evm, chain: seq<Block>, block: Block, f: Filter, i: nat)
    requires Executed(evm, chain, block) && !BloomMatches(evm, block.header.bloom, f) && i <= |block.txs|
    ensures SelectUpTo(block, StoredForm(ExecuteNext(evm, chain, block).value.receipts), f, i) == []
  {
    hide LogsBloom, CheckBody, MatchLog, BloomMatches, TopicsBloom;
    if i > 0 {
      RuledOut(evm, chain, block, f, i - 1);
      CheckedReceipts(evm, chain, block, i - 1);
      var r := ExecuteNext(evm, chain, block).value.receipts[i - 1];
      var entries := EntriesAt(block, StoredForm(ExecuteNext(evm, chain, block).value.receipts), i - 1);
      forall j | 0 <= j < |entries| ensures !MatchLog(entries[j].log, f) {
        LogInBloom(evm, r.stored.logs, j);
        if MatchLog(entries[j].log, f) {
          MatchShows(evm, entries[j].log, f, block.header.bloom);
        }
      }
      SelectNone(evm, entries, f);
    }
  }

  /** A chain the node holds, each block with what its re-execution gives, over a
      genesis without receipts. */
  ghost predicate Archive(evm: Evm, db: Store, chain: seq<Block>) {
    && Stores(db, chain) && KeepsReceipts(evm, db, chain) && Executes(evm, chain)
    && chain[0].txs == [] && ReadReceipts(db, BlockHash(chain[0]), 0) == []
  }

  /** Along every run of a node, blocks past the last 64-bit second included, its
      database is such an archive. */
  lemma EveryRunArchives(evm: Evm, gasLimit: nat, db: Store, genesis: Block, steps: seq<Following.Step>)
    returns (chain: seq<Block>)
    requires Following.Holds(evm, db, [genesis]) && genesis.header.time < UINT64
    requires Following.AllAdmissible(evm, gasLimit, db, steps)
    requires genesis.txs == [] && ReadReceipts(db, BlockHash(genesis), 0) == []
    ensures Archive(evm, Following.AfterSteps(evm, gasLimit, db, steps), chain) && chain[0] == genesis
  {
    hide Following.AfterSteps, Following.AllAdmissible, Stores, KeepsReceipts, Executes, ReadReceipts;
    chain := Following.RunKeeps(evm, gasLimit, db, genesis, steps);
  }

  /** The receipts executing block n gives, in stored form. */
  function ReceiptsAt(evm: Evm, chain: seq<Block>, n: nat): (r: seq<StoredReceipt>)
    requires 0 < n < |chain| && Executed(evm, chain[..n], chain[n])
    ensures |r| == |chain[n].txs|
  {
    StoredForm(ExecuteNext(evm, chain[..n], chain[n]).value.receipts)
  }

  /** In an archive block n's logs are those of the receipts execution gives. */
  lemma ArchivedLogs(evm: Evm, db: Store, chain: seq<Block>, f: Filter, n: nat)
    requires Archive(evm, db, chain) && n < |chain|
    ensures HeaderByNumber(db, n) == Some(chain[n].header) && BlockByHeader(db, chain[n].header) == Some(chain[n])
    ensures n > 0 ==> Executed(evm, chain[..n], chain[n])
    ensures n > 0 ==> BlockLogs(evm, db, chain[n], f) ==
                      Ok(SelectUpTo(chain[n], ReceiptsAt(evm, chain, n), f, |chain[n].txs|))
    ensures n == 0 ==> BlockLogs(evm, db, chain[n], f) == Ok([])
  {
    hide CheckBody, StoredForm, LogsBloom, MatchLog;
    assert CanonicalHash(db, n) == BlockHash(chain[n]) && ReadBlock(db, BlockHash(chain[n]), n) == Some(chain[n]);
    assert Number(chain[n]) == n;
    if n > 0 && |chain[n].txs| > 0 {
      DerivingRestores(evm, chain[..n], chain[n], 0);
    }
  }

  /** Bloom skip is only an optimisation: for every archive, filter and range the
      scan that skips returns exactly what the scan that never skips returns. */
  lemma {:induction false} SkipChangesNothing(evm: Evm, db: Store, chain: seq<Block>, f: Filter, from: nat, upto: nat)
    requires Archive(evm, db, chain) && from <= upto + 1 && upto < |chain|
    ensures ScanRange(evm, db, f, from, upto, true) == ScanRange(evm, db, f, from, upto, false)
    ensures ScanRange(evm, db, f, from, upto, true).Ok?
  {
    hide Archive, BlockLogs, BloomMatches, CheckBody, SelectUpTo, StoredForm;
    if from <= upto {
      if upto > 0 {
        SkipChangesNothing(evm, db, chain, f, from, upto - 1);
      }
      ArchivedLogs(evm, db, chain, f, upto);
      if upto > 0 && !BloomMatches(evm, chain[upto].header.bloom, f) {
        RuledOut(evm, chain[..upto], chain[upto], f, |chain[upto].txs|);
      }
    }
  }

  lemma FilterSkipChangesNothing(evm: Evm, db: Store, chain: seq<Block>, f: Filter, limit: nat)
    requires Archive(evm, db, chain)
    ensures FilterLogs(evm, db, f, limit, true) == FilterLogs(evm, db, f, limit, false)
  {
    hide ScanRange, BlockLogs;
    HeadOf(db, chain);
    if f.blockHash.None? {
      var head := |chain| - 1;
      var from, end := ResolveTag(f.from, head), ResolveTag(f.upto, head);
      if from.Some? && end.Some? {
        var upto := if end.value > head then head else end.value;
        if from.value <= upto {
          SkipChangesNothing(evm, db, chain, f, from.value, upto);
        }
      }
    }
  }

  // --- order and completeness ---

  predicate Before(a: Entry, b: Entry) {
    a.blockNumber < b.blockNumber || (a.blockNumber == b.blockNumber && a.index < b.index)
  }

  predicate Ascending(es: seq<Entry>) {
    forall a, b :: 0 <= a < b < |es| ==> Before(es[a], es[b])
  }

  predicate IndexedWithin(es: seq<Entry>, number: nat, lo: nat, hi: nat) {
    forall a :: 0 <= a < |es| ==> es[a].blockNumber == number && lo <= es[a].index < hi
  }

  lemma {:induction false} SelectAscends(block: Block, stored: seq<StoredReceipt>, f: Filter, i: nat, j: nat)
    requires i < |stored| == |block.txs| && j <= |stored[i].logs|
    ensures var es := Select(EntriesAt(block, stored, i)[..j], f);
            Ascending(es) && IndexedWithin(es, Number(block), LogsBefore(stored, i), LogsBefore(stored, i) + j)
  {
    hide MatchLog;
    if j > 0 {
      SelectAscends(block, stored, f, i, j - 1);
      assert EntriesAt(block, stored, i)[..j][..j - 1] == EntriesAt(block, stored, i)[..j - 1];
    }
  }

  lemma {:induction false} BlockAscends(block: Block, stored: seq<StoredReceipt>, f: Filter, i: nat)
    requires i <= |stored| == |block.txs|
    ensures var es := SelectUpTo(block, stored, f, i);
            Ascending(es) && IndexedWithin(es, Number(block), 0, LogsBefore(stored, i))
  {
    hide MatchLog, Select;
    if i > 0 {
      BlockAscends(block, stored, f, i - 1);
      SelectAscends(block, stored, f, i - 1, |stored[i - 1].logs|);
      var entries := EntriesAt(block, stored, i - 1);
      assert entries[..|stored[i - 1].logs|] == entries;
    }
  }

  lemma AppendAscends(a: seq<Entry>, b: seq<Entry>, n: nat, hi: nat)
    requires Ascending(a) && Ascending(b) && IndexedWithin(b, n, 0, hi)
    requires forall k :: 0 <= k < |a| ==> a[k].blockNumber < n
    ensures Ascending(a + b)
  {
    assert forall k :: |a| <= k < |a + b| ==> (a + b)[k] == b[k - |a|];
  }

  /** The answer is in strictly ascending (block number, log index) order. */
  lemma {:induction false} ScanAscends(evm: Evm, db: Store, chain: seq<Block>, f: Filter, from: nat, upto: nat)
    requires Archive(evm, db, chain) && from <= upto + 1 && upto < |chain|
    ensures ScanRange(evm, db, f, from, upto, false).Ok?
    ensures var es := ScanRange(evm, db, f, from, upto, false).value;
            Ascending(es) && forall a :: 0 <= a < |es| ==> from <= es[a].blockNumber <= upto
  {
    hide BlockLogs, CheckBody, SelectUpTo, StoredForm, BloomMatches, KeepsReceipts, Before, LogsBefore, Executes;
    if from <= upto {
      var before: seq<Entry> := [];
      if upto > 0 {
        ScanAscends(evm, db, chain, f, from, upto - 1);
        before := ScanRange(evm, db, f, from, upto - 1, false).value;
      }
      ArchivedLogs(evm, db, chain, f, upto);
      if upto > 0 {
        var stored := ReceiptsAt(evm, chain, upto);
        BlockAscends(chain[upto], stored, f, |stored|);
        assert Number(chain[upto]) == upto;
        AppendAscends(before, SelectUpTo(chain[upto], stored, f, |stored|), upto, LogsBefore(stored, |stored|));
      }
    }
  }

  lemma {:induction false} SelectExactly(entries: seq<Entry>, f: Filter, e: Entry)
    ensures e in Select(entries, f) <==> e in entries && MatchLog(e.log, f)
  {
    hide MatchLog;
    if entries != [] {
      SelectExactly(entries[..|entries| - 1], f, e);
      assert entries == entries[..|entries| - 1] + [entries[|entries| - 1]];
    }
  }

  /** Entry e is one of the logs of the first i receipts. */
  predicate Emitted(block: Block, stored: seq<StoredReceipt>, e: Entry, i: nat)
    requires i <= |stored| == |block.txs|
  {
    exists k :: 0 <= k < i && e in EntriesAt(block, stored, k)
  }

  lemma {:induction false} BlockExactly(block: Block, stored: seq<StoredReceipt>, f: Filter, i: nat, e: Entry)
    requires i <= |stored| == |block.txs|
    ensures e in SelectUpTo(block, stored, f, i) <==> Emitted(block, stored, e, i) && MatchLog(e.log, f)
  {
    hide MatchLog, Select, EntriesAt;
    if i > 0 {
      BlockExactly(block, stored, f, i - 1, e);
      SelectExactly(EntriesAt(block, stored, i - 1), f, e);
    }
  }

  /** Entry e was emitted by block n of the chain. */
  ghost predicate EmittedIn(evm: Evm, chain: seq<Block>, n: nat, e: Entry) {
    0 < n < |chain| && Executed(evm, chain[..n], chain[n]) &&
    Emitted(chain[n], ReceiptsAt(evm, chain, n), e, |chain[n].txs|)
  }

  ghost predicate EmittedWithin(evm: Evm, chain: seq<Block>, from: nat, upto: nat, e: Entry) {
    exists n: nat :: from <= n <= upto && EmittedIn(evm, chain, n, e)
  }

  lemma WidenRange(evm: Evm, chain: seq<Block>, from: nat, upto: nat, e: Entry)
    requires from <= upto
    ensures EmittedWithin(evm, chain, from, upto, e) <==>
            (upto > 0 && EmittedWithin(evm, chain, from, upto - 1, e)) || EmittedIn(evm, chain, upto, e)
  {
    hide EmittedIn;
    if EmittedIn(evm, chain, upto, e) {
      assert EmittedWithin(evm, chain, from, upto, e);
    } else if n: nat :| from <= n <= upto && EmittedIn(evm, chain, n, e) {
      assert n <= upto - 1;
    }
  }

  /** The answer holds exactly the logs that the blocks of the range emitted and
      that match the filter. */
  lemma {:induction false} ScanExactly(evm: Evm, db: Store, chain: seq<Block>, f: Filter, from: nat, upto: nat,
                                       e: Entry)
    requires Archive(evm, db, chain) && from <= upto + 1 && upto < |chain|
    ensures ScanRange(evm, db, f, from, upto, false).Ok?
    ensures e in ScanRange(evm, db, f, from, upto, false).value <==>
            MatchLog(e.log, f) && EmittedWithin(evm, chain, from, upto, e)
  {
    hide BlockLogs, CheckBody, SelectUpTo, StoredForm, BloomMatches, MatchLog, Emitted, Archive, EmittedWithin;
    if from <= upto {
      WidenRange(evm, chain, from, upto, e);
      if upto > 0 {
        ScanExactly(evm, db, chain, f, from, upto - 1, e);
      }
      ArchivedLogs(evm, db, chain, f, upto);
      if upto > 0 {
        BlockExactly(chain[upto], ReceiptsAt(evm, chain, upto), f, |chain[upto].txs|, e);
      }
    } else {
      EmptyRange(evm, chain, from, upto, e);
    }
  }

  lemma EmptyRange(evm: Evm, chain: seq<Block>, from: nat, upto: nat, e: Entry)
    requires from > upto
    ensures !EmittedWithin(evm, chain, from, upto, e)
  {
  }

  // --- what adding a constraint does ---

  function WithAddress(es: seq<Entry>, addresses: seq<Address>): seq<Entry> {
    if es == [] then []
    else
      var last := es[|es| - 1];
      WithAddress(es[..|es| - 1], addresses) + if last.log.address in addresses then [last] else []
  }

  /** The entries whose log has a topic at position i, and one of `sub` there unless
      `sub` is empty. */
  function WithTopic(es: seq<Entry>, i: nat, sub: seq<nat>): seq<Entry> {
    if es == [] then []
    else
      var last := es[|es| - 1];
      WithTopic(es[..|es| - 1], i, sub)
      + if i < |last.log.topics| && (sub == [] || last.log.topics[i] in sub) then [last] else []
  }

  /** A filter, and what is left of its answer when a constraint is added to it. */
  datatype Change = Addressed(addresses: seq<Address>) | Positioned(sub: seq<nat>)

  predicate Addable(f: Filter, c: Change) {
    c.Addressed? ==> f.addresses == [] && c.addresses != []
  }

  function Constrained(f: Filter, c: Change): Filter {
    match c
    case Addressed(addresses) => f.(addresses := addresses)
    case Positioned(sub) => f.(topics := f.topics + [sub])
  }

  function Left(f: Filter, c: Change, es: seq<Entry>): seq<Entry> {
    match c
    case Addressed(addresses) => WithAddress(es, addresses)
    case Positioned(sub) => WithTopic(es, |f.topics|, sub)
  }

  function LeftOf(f: Filter, c: Change, r: Result<seq<Entry>, LogError>): Result<seq<Entry>, LogError> {
    match r
    case Err(e) => Err(e)
    case Ok(es) => Ok(Left(f, c, es))
  }

  lemma {:induction false} LeftOfBoth(f: Filter, c: Change, a: seq<Entry>, b: seq<Entry>)
    ensures Left(f, c, a + b) == Left(f, c, a) + Left(f, c, b)
  {
    if b == [] {
      assert a + b == a;
    } else {
      assert (a + b)[..|a + b| - 1] == a + b[..|b| - 1];
      LeftOfBoth(f, c, a, b[..|b| - 1]);
    }
  }

  lemma MatchesMore(l: Log, f: Filter, c: Change)
    requires Addable(f, c)
    ensures MatchLog(l, Constrained(f, c)) <==>
            && MatchLog(l, f)
            && match c
               case Addressed(addresses) => l.address in addresses
               case Positioned(sub) => |f.topics| < |l.topics| && (sub == [] || l.topics[|f.topics|] in sub)
  {
    if c.Positioned? {
      var g := Constrained(f, c);
      assert g.topics[|f.topics|] == c.sub;
      assert forall i :: 0 <= i < |f.topics| ==> g.topics[i] == f.topics[i];
    }
  }

  lemma {:induction false} SelectLeft(entries: seq<Entry>, f: Filter, c: Change)
    requires Addable(f, c)
    ensures Select(entries, Constrained(f, c)) == Left(f, c, Select(entries, f))
  {
    hide MatchLog, Constrained;
    if entries != [] {
      var last := entries[|entries| - 1];
      SelectLeft(entries[..|entries| - 1], f, c);
      MatchesMore(last.log, f, c);
      LeftOfBoth(f, c, Select(entries[..|entries| - 1], f), if MatchLog(last.log, f) then [last] else []);
      OneLeft(f, c, last);
    }
  }

  lemma OneLeft(f: Filter, c: Change, e: Entry)
    ensures Left(f, c, [e]) ==
            if (match c
                case Addressed(addresses) => e.log.address in addresses
                case Positioned(sub) =>
                  |f.topics| < |e.log.topics| && (sub == [] || e.log.topics[|f.topics|] in sub))
            then [e] else []
  {
    assert [e][..0] == [];
    assert Left(f, c, [e][..0]) == [];
  }

  lemma {:induction false} SelectUpToLeft(block: Block, stored: seq<StoredReceipt>, f: Filter, c: Change, i: nat)
    requires Addable(f, c) && i <= |stored| == |block.txs|
    ensures SelectUpTo(block, stored, Constrained(f, c), i) == Left(f, c, SelectUpTo(block, stored, f, i))
  {
    hide Select, Constrained;
    if i > 0 {
      SelectUpToLeft(block, stored, f, c, i - 1);
      SelectLeft(EntriesAt(block, stored, i - 1), f, c);
      LeftOfBoth(f, c, SelectUpTo(block, stored, f, i - 1), Select(EntriesAt(block, stored, i - 1), f));
    }
  }

  lemma BlockLogsLeft(evm: Evm, db: Store, block: Block, f: Filter, c: Change)
    requires Addable(f, c)
    ensures BlockLogs(evm, db, block, Constrained(f, c)) == LeftOf(f, c, BlockLogs(evm, db, block, f))
  {
    hide Constrained, SelectUpTo;
    var stored := ReadReceipts(db, BlockHash(block), Number(block));
    if |stored| == |block.txs| {
      SelectUpToLeft(block, stored, f, c, |stored|);
    }
  }

  lemma {:induction false} ScanLeft(evm: Evm, db: Store, f: Filter, c: Change, from: nat, upto: nat)
    requires Addable(f, c) && from <= upto + 1
    ensures ScanRange(evm, db, Constrained(f, c), from, upto, false) ==
            LeftOf(f, c, ScanRange(evm, db, f, from, upto, false))
    decreases upto
  {
    hide Constrained, BlockLogs;
    if from <= upto {
      if upto > 0 {
        ScanLeft(evm, db, f, c, from, upto - 1);
      }
      LogsAtLeft(evm, db, f, c, upto);
      var before := if upto == 0 then Ok([]) else ScanRange(evm, db, f, from, upto - 1, false);
      if before.Ok? && LogsAt(evm, db, f, upto, false).Ok? {
        LeftOfBoth(f, c, before.value, LogsAt(evm, db, f, upto, false).value);
      }
    }
  }

  lemma LogsAtLeft(evm: Evm, db: Store, f: Filter, c: Change, n: nat)
    requires Addable(f, c)
    ensures LogsAt(evm, db, Constrained(f, c), n, false) == LeftOf(f, c, LogsAt(evm, db, f, n, false))
  {
    hide Constrained, BlockLogs;
    if HeaderByNumber(db, n).Some? && BlockByHeader(db, HeaderByNumber(db, n).value).Some? {
      BlockLogsLeft(evm, db, BlockByHeader(db, HeaderByNumber(db, n).value).value, f, c);
    }
  }

  /** Adding a list of addresses to a query keeps exactly the entries of its answer
      with such an address; adding a topic position keeps exactly those with a topic
      there and, unless anything may stand there, with one of the given; the order
      stays, and so does any error. */
  lemma ConstraintNarrows(evm: Evm, db: Store, chain: seq<Block>, f: Filter, c: Change, limit: nat)
    requires Archive(evm, db, chain) && Addable(f, c)
    ensures FilterLogs(evm, db, Constrained(f, c), limit, true) == LeftOf(f, c, FilterLogs(evm, db, f, limit, true))
  {
    hide Archive, ScanRange, BlockLogs;
    FilterSkipChangesNothing(evm, db, chain, f, limit);
    FilterSkipChangesNothing(evm, db, chain, Constrained(f, c), limit);
    if f.blockHash.Some? {
      if BlockByHash(db, f.blockHash.value).Some? {
        BlockLogsLeft(evm, db, BlockByHash(db, f.blockHash.value).value, f, c);
      }
    } else if CurrentHeader(db).Some? {
      var head := CurrentHeader(db).value.number;
      var from, end := ResolveTag(f.from, head), ResolveTag(f.upto, head);
      if from.Some? && end.Some? {
        var upto := if end.value > head then head else end.value;
        if from.value <= upto {
          ScanLeft(evm, db, f, c, from.value, upto);
        }
      }
    }
  }

  // --- the unconstrained query ---

  /** Entry k of a block: its own place in the block, and the log it stands for. */
  predicate InPlace(block: Block, stored: seq<StoredReceipt>, e: Entry, k: nat)
    requires |stored| == |block.txs|
  {
    && e.index == k && e.blockHash == BlockHash(block) && e.blockNumber == Number(block)
    && e.txIndex < |stored| && e.tx == block.txs[e.txIndex] && e.log in stored[e.txIndex].logs
  }

  /** Log j of receipt m stands where the running count puts it. */
  predicate LogInPlace(stored: seq<StoredReceipt>, es: seq<Entry>, m: nat, j: nat)
    requires m < |stored| && j < |stored[m].logs|
  {
    LogsBefore(stored, m) + j < |es| && es[LogsBefore(stored, m) + j].log == stored[m].logs[j]
  }

  lemma {:induction false} SelectAll(entries: seq<Entry>, f: Filter)
    requires f.addresses == [] && f.topics == []
    ensures Select(entries, f) == entries
  {
    if entries != [] {
      SelectAll(entries[..|entries| - 1], f);
      assert entries == entries[..|entries| - 1] + [entries[|entries| - 1]];
    }
  }

  /** Without constraints a block gives all its logs, numbered 0, 1, 2 and so on
      through the whole block in the order of its receipts. */
  lemma {:induction false} BlockGivesAll(block: Block, stored: seq<StoredReceipt>, f: Filter, i: nat)
    requires i <= |stored| == |block.txs| && f.addresses == [] && f.topics == []
    ensures var es := SelectUpTo(block, stored, f, i);
            && |es| == LogsBefore(stored, i)
            && (forall k :: 0 <= k < |es| ==> InPlace(block, stored, es[k], k))
            && forall m, j :: 0 <= m < i && 0 <= j < |stored[m].logs| ==> LogInPlace(stored, es, m, j)
  {
    hide Select;
    if i > 0 {
      BlockGivesAll(block, stored, f, i - 1);
      SelectAll(EntriesAt(block, stored, i - 1), f);
      var before, es := SelectUpTo(block, stored, f, i - 1), SelectUpTo(block, stored, f, i);
      forall m, j | 0 <= m < i && 0 <= j < |stored[m].logs|
        ensures LogInPlace(stored, es, m, j)
      {
        if m < i - 1 {
          assert LogInPlace(stored, before, m, j);
        } else {
          assert es[LogsBefore(stored, m) + j] == EntriesAt(block, stored, i - 1)[j];
        }
      }
    }
  }

  lemma HeadIs(db: Store, chain: seq<Block>)
    requires Stores(db, chain)
    ensures |chain| > 0 && CurrentHeader(db).Some? && CurrentHeader(db).value.number == |chain| - 1
  {
    HeadOf(db, chain);
    assert Number(chain[|chain| - 1]) == |chain| - 1;
  }

  /** Asked for everything from the earliest block on, the node answers with exactly
      the logs its blocks emitted. */
  lemma WholeHistory(evm: Evm, db: Store, chain: seq<Block>, e: Entry)
    requires Archive(evm, db, chain)
    ensures var r := FilterLogs(evm, db, Filter(Some(Earliest), None, None, [], []), 0, true);
            r.Ok? && (e in r.value <==> EmittedWithin(evm, chain, 0, |chain| - 1, e))
  {
    hide ScanRange, EmittedWithin, Stores, KeepsReceipts, Executes;
    var f := Filter(Some(Earliest), None, None, [], []);
    HeadOf(db, chain);
    HeadIs(db, chain);
    FilterSkipChangesNothing(evm, db, chain, f, 0);
    ScanExactly(evm, db, chain, f, 0, |chain| - 1, e);
  }

  /** The earliest block is block 0, every other named tag and no tag at all is the
      head, and so is any number past it; a negative number is no tag. */
  lemma TagsMean(evm: Evm, db: Store, chain: seq<Block>, f: Filter, limit: nat, n: int)
    requires Stores(db, chain) && f.blockHash.None?
    ensures var head := |chain| - 1;
            && FilterLogs(evm, db, f.(from := Some(Earliest)), limit, true) ==
               FilterLogs(evm, db, f.(from := Some(At(0))), limit, true)
            && (f.from in {None, Some(Latest), Some(Pending), Some(Safe), Some(Finalized)} ==>
                  FilterLogs(evm, db, f, limit, true) == FilterLogs(evm, db, f.(from := Some(At(head))), limit, true))
            && (f.upto in {None, Some(Latest), Some(Pending), Some(Safe), Some(Finalized)}
                || (n > head && f.upto == Some(At(n))) ==>
                  FilterLogs(evm, db, f, limit, true) == FilterLogs(evm, db, f.(upto := Some(At(head))), limit, true))
            && (n < 0 ==> FilterLogs(evm, db, f.(from := Some(At(n))), limit, true) == Err(UnsupportedTag))
  {
    hide BlockLogs, BloomMatches;
    HeadIs(db, chain);
    var head := |chain| - 1;
    SameScan(evm, db, f, f.(from := Some(At(0))));
    SameScan(evm, db, f, f.(from := Some(Earliest)));
    SameScan(evm, db, f, f.(from := Some(At(head))));
    SameScan(evm, db, f, f.(upto := Some(At(head))));
  }

  /** A scan sees only the constraints of the filter, not its range. */
  lemma SameScan(evm: Evm, db: Store, f: Filter, g: Filter)
    requires g.addresses == f.addresses && g.topics == f.topics
    ensures forall from: nat, upto: nat :: from <= upto + 1 ==>
              ScanRange(evm, db, g, from, upto, true) == ScanRange(evm, db, f, from, upto, true)
  {
    forall from: nat, upto: nat | from <= upto + 1
      ensures ScanRange(evm, db, g, from, upto, true) == ScanRange(evm, db, f, from, upto, true)
    {
      SameScanRange(evm, db, f, g, from, upto);
    }
  }

  lemma {:induction false} SameScanRange(evm: Evm, db: Store, f: Filter, g: Filter, from: nat, upto: nat)
    requires g.addresses == f.addresses && g.topics == f.topics && from <= upto + 1
    ensures ScanRange(evm, db, g, from, upto, true) == ScanRange(evm, db, f, from, upto, true)
    decreases upto
  {
    hide Select, BloomMatches, HeaderByNumber;
    if from <= upto {
      if upto > 0 {
        SameScanRange(evm, db, f, g, from, upto - 1);
      }
      SameLogsAt(evm, db, f, g, upto);
    }
  }

  lemma SameLogsAt(evm: Evm, db: Store, f: Filter, g: Filter, n: nat)
    requires g.addresses == f.addresses && g.topics == f.topics
    ensures LogsAt(evm, db, g, n, true) == LogsAt(evm, db, f, n, true)
  {
    hide Select;
    assert forall bloom: set<nat> :: BloomMatches(evm, bloom, g) == BloomMatches(evm, bloom, f);
    if HeaderByNumber(db, n).Some? && BlockByHeader(db, HeaderByNumber(db, n).value).Some? {
      var block := BlockByHeader(db, HeaderByNumber(db, n).value).value;
      var stored := ReadReceipts(db, BlockHash(block), Number(block));
      if |stored| == |block.txs| {
        SameSelectUpTo(block, stored, f, g, |stored|);
      }
    }
  }

  lemma {:induction false} SameSelectUpTo(block: Block, stored: seq<StoredReceipt>, f: Filter, g: Filter, i: nat)
    requires g.addresses == f.addresses && g.topics == f.topics && i <= |stored| == |block.txs|
    ensures SelectUpTo(block, stored, g, i) == SelectUpTo(block, stored, f, i)
  {
    if i > 0 {
      SameSelectUpTo(block, stored, f, g, i - 1);
      SameSelect(EntriesAt(block, stored, i - 1), f, g);
    }
  }

  lemma {:induction false} SameSelect(entries: seq<Entry>, f: Filter, g: Filter)
    requires g.addresses == f.addresses && g.topics == f.topics
    ensures Select(entries, g) == Select(entries, f)
  {
    if entries != [] {
      SameSelect(entries[..|entries| - 1], f, g);
    }
  }

  // --- ranges, and one block by its hash ---

  function Numbered(f: Filter, from: nat, upto: nat): Filter {
    f.(from := Some(At(from)), upto := Some(At(upto)), blockHash := None)
  }

  lemma {:induction false} ScanJoins(evm: Evm, db: Store, f: Filter, from: nat, m: nat, upto: nat)
    requires from <= m < upto
    ensures var left, right := ScanRange(evm, db, f, from, m, true), ScanRange(evm, db, f, m + 1, upto, true);
            ScanRange(evm, db, f, from, upto, true) ==
            if left.Err? then left else if right.Err? then right else Ok(left.value + right.value)
    decreases upto
  {
    hide LogsAt;
    var left, more := ScanRange(evm, db, f, from, m, true), LogsAt(evm, db, f, upto, true);
    if upto > m + 1 {
      ScanJoins(evm, db, f, from, m, upto - 1);
      var right := ScanRange(evm, db, f, m + 1, upto - 1, true);
      if left.Ok? && right.Ok? && more.Ok? {
        assert left.value + right.value + more.value == left.value + (right.value + more.value);
      }
    } else {
      OneBlock(evm, db, f, upto, true);
    }
  }

  /** A query over numbered blocks: the bound on its length refuses it or changes
      nothing, a range that ends before it starts is empty, and cut anywhere the
      answer is the answers of its two parts in order, up to the first error. */
  lemma RangesJoin(evm: Evm, db: Store, chain: seq<Block>, f: Filter, from: nat, m: nat, upto: nat, limit: nat)
    requires Stores(db, chain) && upto < |chain|
    ensures from > upto ==> FilterLogs(evm, db, Numbered(f, from, upto), limit, true) == Ok([])
    ensures from <= upto ==>
              FilterLogs(evm, db, Numbered(f, from, upto), limit, true) ==
              if 0 < limit < upto - from + 1 then Err(RangeTooLong(from, upto, limit))
              else FilterLogs(evm, db, Numbered(f, from, upto), 0, true)
    ensures from <= m < upto ==>
              var left, right := FilterLogs(evm, db, Numbered(f, from, m), 0, true),
                                 FilterLogs(evm, db, Numbered(f, m + 1, upto), 0, true);
              FilterLogs(evm, db, Numbered(f, from, upto), 0, true) ==
              if left.Err? then left else if right.Err? then right else Ok(left.value + right.value)
  {
    hide ScanRange, FilterLogs;
    RangeIs(evm, db, chain, f, from, upto, limit);
    RangeIs(evm, db, chain, f, from, upto, 0);
    if from <= m < upto {
      RangeIs(evm, db, chain, f, from, m, 0);
      RangeIs(evm, db, chain, f, m + 1, upto, 0);
      ScanJoins(evm, db, f, from, m, upto);
    }
  }

  lemma RangeIs(evm: Evm, db: Store, chain: seq<Block>, f: Filter, from: nat, upto: nat, limit: nat)
    requires Stores(db, chain) && upto < |chain|
    ensures FilterLogs(evm, db, Numbered(f, from, upto), limit, true) ==
            if from > upto then Ok([])
            else if 0 < limit < upto - from + 1 then Err(RangeTooLong(from, upto, limit))
            else ScanRange(evm, db, f, from, upto, true)
  {
    hide ScanRange, Stores;
    HeadIs(db, chain);
    SameScan(evm, db, f, Numbered(f, from, upto));
  }

  /** Asking for a block of the chain by its hash is asking for its number; asking
      for both a hash and a range is refused. */
  lemma HashNamesBlock(evm: Evm, db: Store, chain: seq<Block>, f: Filter, n: nat, limit: nat)
    requires Archive(evm, db, chain) && n < |chain|
    ensures var g := f.(blockHash := Some(BlockHash(chain[n])));
            FilterLogs(evm, db, g, limit, true) ==
            if f.from.Some? || f.upto.Some? then Err(Conflict) else FilterLogs(evm, db, Numbered(f, n, n), limit, true)
  {
    hide ScanRange, BlockLogs, Archive;
    var g := f.(blockHash := Some(BlockHash(chain[n])));
    if f.from.None? && f.upto.None? {
      FoundByHash(evm, db, chain, n);
      FoundByNumber(evm, db, chain, f, n, limit);
      SameBlockLogs(evm, db, chain[n], g, Numbered(f, n, n));
    }
  }

  lemma FoundByHash(evm: Evm, db: Store, chain: seq<Block>, n: nat)
    requires Archive(evm, db, chain) && n < |chain|
    ensures BlockByHash(db, BlockHash(chain[n])) == Some(chain[n])
  {
    hide KeepsReceipts, Executes;
    assert ReadBlock(db, BlockHash(chain[n]), n) == Some(chain[n]) && NumberOf(db, BlockHash(chain[n])) == Some(n);
    assert Number(chain[n]) == n;
  }

  lemma FoundByNumber(evm: Evm, db: Store, chain: seq<Block>, f: Filter, n: nat, limit: nat)
    requires Archive(evm, db, chain) && n < |chain|
    ensures FilterLogs(evm, db, Numbered(f, n, n), limit, true) == BlockLogs(evm, db, chain[n], Numbered(f, n, n))
  {
    hide KeepsReceipts, Executes, BlockLogs, BloomMatches;
    HeadIs(db, chain);
    SkipChangesNothing(evm, db, chain, Numbered(f, n, n), n, n);
    ArchivedLogs(evm, db, chain, Numbered(f, n, n), n);
    OneBlock(evm, db, Numbered(f, n, n), n, false);
  }

  lemma SameBlockLogs(evm: Evm, db: Store, block: Block, f: Filter, g: Filter)
    requires g.addresses == f.addresses && g.topics == f.topics
    ensures BlockLogs(evm, db, block, g) == BlockLogs(evm, db, block, f)
  {
    var stored := ReadReceipts(db, BlockHash(block), Number(block));
    if |stored| == |block.txs| {
      SameSelectUpTo(block, stored, f, g, |stored|);
    }
  }

  lemma OneBlock(evm: Evm, db: Store, f: Filter, n: nat, skip: bool)
    ensures ScanRange(evm, db, f, n, n, skip) == LogsAt(evm, db, f, n, skip)
  {
    hide LogsAt;
    var r := LogsAt(evm, db, f, n, skip);
    assert n == 0 || ScanRange(evm, db, f, n, n - 1, skip) == Ok([]);
    if r.Ok? {
      assert [] + r.value == r.value;
    }
  }

  /** A block whose receipts are gone is reported, not passed over. */
  lemma MissingReceiptsShow(evm: Evm, db: Store, chain: seq<Block>, n: nat)
    requires Stores(db, chain) && n < |chain|
    requires chain[n].txs != [] && ReadReceipts(db, BlockHash(chain[n]), n) == []
    ensures FilterLogs(evm, db, Filter(Some(At(n)), Some(At(n)), None, [], []), 0, true) == Err(ReceiptsMissing)
  {
    var f := Filter(Some(At(n)), Some(At(n)), None, [], []);
    HeadIs(db, chain);
    assert CanonicalHash(db, n) == BlockHash(chain[n]) && ReadBlock(db, BlockHash(chain[n]), n) == Some(chain[n]);
    assert Number(chain[n]) == n && LogsAt(evm, db, f, n, true) == Err(ReceiptsMissing);
    OneBlock(evm, db, f, n, true);
  }
}
