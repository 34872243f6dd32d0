/** What a block does to the state and what its header then has to say, written on
    the states, the EVM's own outcomes and the stored chain. */
module Outcomes {
  import opened Blocks
  import opened SysOps
  import opened Ledger
  import opened Storage

  // --- system operations ---

  /** Re-executing a block whose extra data is a system operation sets the one
      balance it names and changes nothing else. */
  lemma SetsBalance(evm: Evm, ancestors: seq<Hash>, block: Block, start: World)
    requires Parse(block.header.extra).Ok? && ReplayBlock(evm, ancestors, block, start).Ok?
    ensures var op, r := Parse(block.header.extra).value, ReplayBlock(evm, ancestors, block, start).value;
            op.value >= 0 && OnlyBalance(start, r.root, op.address, op.value) && block.txs == [] && r.receipts == []
  {
    hide Parse, Pow16;
    ParsedIsApplicable(block.header.extra);
  }

  /** The prefix is reserved: a block that carries it re-executes only as the
      operation its text spells, and carries nothing else. */
  lemma PrefixReserved(evm: Evm, ancestors: seq<Hash>, block: Block, start: World)
    requires "sysop:" <= block.header.extra && ReplayBlock(evm, ancestors, block, start).Ok?
    ensures exists op, address, value :: Spells(block.header.extra, op, address, value) &&
              OnlyBalance(start, ReplayBlock(evm, ancestors, block, start).value.root, op.address, op.value)
    ensures block.txs == []
  {
    hide Parse, Pow16, Spells, OnlyBalance;
    ParsesExactly(block.header.extra, SysOp("", 0, 0));
    var op := Parse(block.header.extra).value;
    ParsesExactly(block.header.extra, op);
    SetsBalance(evm, ancestors, block, start);
    var address, value :| Spells(block.header.extra, op, address, value);
  }

  /** So the head's state after sealing one, read through the stored head. */
  lemma SealedBalance(evm: Evm, db: Store, gasLimit: nat, timestamp: nat, a: Address, v: int)
    requires CurrentHeader(db).Some?
    requires SealSysOp(evm, CurrentHeader(db).value, gasLimit, timestamp, SysOp(SET_BALANCE, a, v)).Ok?
    ensures var head := CurrentHeader(db).value;
            var built := SealSysOp(evm, head, gasLimit, timestamp, SysOp(SET_BALANCE, a, v)).value;
            var after := CurrentHeader(Persist(db, built.block, StoredForm(built.receipts)));
            && after.Some? && v >= 0 && OnlyBalance(head.root, after.value.root, a, v)
            && after.value.number == head.number + 1 && after.value.parentHash == HashOf(head)
  {
    hide Parse, Encode, Pow16, IndexTxs;
  }

  // --- transactions ---

  /** Executing tx in state w, as the EVM and the sender's nonce allow it, ends in w2. */
  predicate StepsTo(evm: Evm, ctx: Context, w: World, tx: Tx, w2: World) {
    && evm.sender(tx).Some? && tx.nonce == NonceOf(w, evm.sender(tx).value)
    && var out := evm.run(w, ctx, tx, evm.sender(tx).value);
       out.Ran? && !out.failed && out.world == w2
  }

  /** The states before, between and after the transactions. */
  predicate Trace(evm: Evm, ctx: Context, txs: seq<Tx>, start: World, worlds: seq<World>) {
    && |worlds| == |txs| + 1 && worlds[0] == start
    && forall i :: 0 <= i < |txs| ==> StepsTo(evm, ctx, worlds[i], txs[i], worlds[i + 1])
  }

  /** The receipt of a transaction executed in w, with `before` units of gas used
      ahead of it in the block. */
  predicate ReceiptIs(evm: Evm, ctx: Context, w: World, tx: Tx, before: nat, r: Receipt) {
    && evm.sender(tx).Some?
    && var out := evm.run(w, ctx, tx, evm.sender(tx).value);
       out.Ran?
       && r == Receipt(tx, out.used, StoredReceipt(true, before + out.used, out.logs), LogsBloom(evm, out.logs))
  }

  function GasUpTo(receipts: seq<Receipt>, i: nat): nat
    requires i <= |receipts|
  {
    if i == 0 then 0 else receipts[i - 1].stored.cumulativeGas
  }

  predicate ReceiptsOf(evm: Evm, ctx: Context, txs: seq<Tx>, worlds: seq<World>, x: Replayed) {
    && |worlds| == |txs| + 1 && |x.receipts| == |txs| && x.root == worlds[|txs|]
    && (forall i :: 0 <= i < |txs| ==> ReceiptIs(evm, ctx, worlds[i], txs[i], GasUpTo(x.receipts, i), x.receipts[i]))
    && x.gasUsed == GasUpTo(x.receipts, |txs|)
  }

  /** Re-execution succeeds exactly when there is a run of the EVM through all the
      transactions; it ends in that run's last state, with that run's receipts. */
  lemma {:induction false} ReplaysTrace(evm: Evm, ctx: Context, txs: seq<Tx>, start: World, worlds: seq<World>)
    requires Trace(evm, ctx, txs, start, worlds)
    ensures ReplayTxs(evm, ctx, txs, start).Ok?
    ensures ReceiptsOf(evm, ctx, txs, worlds, ReplayTxs(evm, ctx, txs, start).value)
  {
    hide Trace, ReceiptsOf, ReplayTx;
    if txs == [] {
      NothingRuns(evm, ctx, start, worlds);
    } else {
      var last := |txs| - 1;
      TraceBefore(evm, ctx, txs, start, worlds);
      ReplaysTrace(evm, ctx, txs[..last], start, worlds[..last + 1]);
      ReceiptsGrow(evm, ctx, txs, worlds, ReplayTxs(evm, ctx, txs[..last], start).value);
    }
  }

  lemma NothingRuns(evm: Evm, ctx: Context, start: World, worlds: seq<World>)
    requires Trace(evm, ctx, [], start, worlds)
    ensures ReceiptsOf(evm, ctx, [], worlds, Replayed(start, [], 0))
  {
  }

  lemma TraceBefore(evm: Evm, ctx: Context, txs: seq<Tx>, start: World, worlds: seq<World>)
    requires txs != [] && Trace(evm, ctx, txs, start, worlds)
    ensures |worlds| == |txs| + 1 && Trace(evm, ctx, txs[..|txs| - 1], start, worlds[..|txs|])
    ensures StepsTo(evm, ctx, worlds[|txs| - 1], txs[|txs| - 1], worlds[|txs|])
  {
    hide StepsTo;
    var before, above := txs[..|txs| - 1], worlds[..|txs|];
    forall i | 0 <= i < |before| ensures StepsTo(evm, ctx, above[i], before[i], above[i + 1]) {
      assert StepsTo(evm, ctx, worlds[i], txs[i], worlds[i + 1]);
    }
  }

  lemma ReceiptsGrow(evm: Evm, ctx: Context, txs: seq<Tx>, worlds: seq<World>, sofar: Replayed)
    requires txs != [] && |worlds| == |txs| + 1
    requires ReceiptsOf(evm, ctx, txs[..|txs| - 1], worlds[..|txs|], sofar)
    requires StepsTo(evm, ctx, worlds[|txs| - 1], txs[|txs| - 1], worlds[|txs|])
    ensures var r := ReplayTx(evm, ctx, txs[|txs| - 1], |txs| - 1, sofar);
            r.Ok? && ReceiptsOf(evm, ctx, txs, worlds, r.value)
  {
    hide ReceiptIs, StepsTo, ReplayTx;
    var last := |txs| - 1;
    OneStep(evm, ctx, txs[last], last, sofar, worlds[last + 1]);
    var x := ReplayTx(evm, ctx, txs[last], last, sofar).value;
    forall i | 0 <= i < |txs|
      ensures ReceiptIs(evm, ctx, worlds[i], txs[i], GasUpTo(x.receipts, i), x.receipts[i])
    {
      assert i < last ==> x.receipts[i] == x.receipts[..last][i];
      assert 0 < i ==> x.receipts[i - 1] == x.receipts[..last][i - 1];
      if i < last {
        assert ReceiptIs(evm, ctx, worlds[..|txs|][i], txs[..last][i], GasUpTo(sofar.receipts, i), sofar.receipts[i]);
      }
    }
  }

  lemma OneStep(evm: Evm, ctx: Context, tx: Tx, index: nat, sofar: Replayed, w2: World)
    requires StepsTo(evm, ctx, sofar.root, tx, w2)
    ensures var r := ReplayTx(evm, ctx, tx, index, sofar);
            && r.Ok? && r.value.root == w2 && |r.value.receipts| == |sofar.receipts| + 1
            && r.value.receipts[..|sofar.receipts|] == sofar.receipts
            && var last := r.value.receipts[|sofar.receipts|];
               ReceiptIs(evm, ctx, sofar.root, tx, sofar.gasUsed, last) && r.value.gasUsed == last.stored.cumulativeGas
  {
    hide LogsBloom;
  }

  lemma {:induction false} TraceOf(evm: Evm, ctx: Context, txs: seq<Tx>, start: World) returns (worlds: seq<World>)
    requires ReplayTxs(evm, ctx, txs, start).Ok?
    ensures Trace(evm, ctx, txs, start, worlds)
  {
    hide LogsBloom;
    worlds := [start];
    if txs != [] {
      var last := |txs| - 1;
      var before := TraceOf(evm, ctx, txs[..last], start);
      ReplaysTrace(evm, ctx, txs[..last], start, before);
      worlds := before + [ReplayTxs(evm, ctx, txs, start).value.root];
      forall i | 0 <= i < |txs| ensures StepsTo(evm, ctx, worlds[i], txs[i], worlds[i + 1]) {
        if i < last {
          assert txs[..last][i] == txs[i] && before[i] == worlds[i] && before[i + 1] == worlds[i + 1];
        }
      }
    }
  }

  /** The same for a block of transactions: what it sees is its own header's gas
      limit, number and time, and the hashes below it. */
  lemma ExecutesExactly(evm: Evm, ancestors: seq<Hash>, block: Block, start: World)
    requires Parse(block.header.extra) == Err(NotSysOp)
    ensures var h := block.header;
            var ctx := Context(h.gasLimit, h.number, h.time, ancestors);
            && (ReplayBlock(evm, ancestors, block, start).Ok? <==>
                  exists worlds :: Trace(evm, ctx, block.txs, start, worlds))
            && forall worlds :: Trace(evm, ctx, block.txs, start, worlds) ==>
                 ReceiptsOf(evm, ctx, block.txs, worlds, ReplayBlock(evm, ancestors, block, start).value)
  {
    hide Parse, LogsBloom, ReplayTxs, Trace, ReceiptsOf;
    var h := block.header;
    var ctx := Context(h.gasLimit, h.number, h.time, ancestors);
    forall worlds | Trace(evm, ctx, block.txs, start, worlds)
      ensures ReplayTxs(evm, ctx, block.txs, start).Ok?
      ensures ReceiptsOf(evm, ctx, block.txs, worlds, ReplayTxs(evm, ctx, block.txs, start).value)
    {
      ReplaysTrace(evm, ctx, block.txs, start, worlds);
    }
    if ReplayTxs(evm, ctx, block.txs, start).Ok? {
      var worlds := TraceOf(evm, ctx, block.txs, start);
    }
  }

  // --- what a header may say ---

  /** Two blocks with the same transactions, gas limit, number, time and extra data
      that both re-execute over the same state say the same in every field that
      depends on execution. */
  lemma HeaderDetermined(evm: Evm, ancestors: seq<Hash>, start: World, a: Block, b: Block)
    requires CheckBody(evm, ancestors, a, start).Ok? && CheckBody(evm, ancestors, b, start).Ok?
    requires a.txs == b.txs && a.header.gasLimit == b.header.gasLimit && a.header.number == b.header.number
    requires a.header.time == b.header.time && a.header.extra == b.header.extra
    ensures var g, h := a.header, b.header;
            g.root == h.root && g.gasUsed == h.gasUsed && g.txRoot == h.txRoot && g.receiptRoot == h.receiptRoot
            && g.bloom == h.bloom
  {
    hide ReplayTxs, Parse, ApplySysOp, ReceiptsBloom, Leaves;
  }

  /** A bloom bit set by this log's address or by one of its topics. */
  predicate BitOf(evm: Evm, l: Log, bit: nat) {
    bit in evm.bits(OfAddress(l.address)) || exists k :: 0 <= k < |l.topics| && bit in evm.bits(OfTopic(l.topics[k]))
  }

  lemma {:induction false} TopicBits(evm: Evm, topics: seq<nat>, bit: nat)
    ensures bit in TopicsBloom(evm, topics) <==> exists k :: 0 <= k < |topics| && bit in evm.bits(OfTopic(topics[k]))
  {
    if topics != [] {
      TopicBits(evm, topics[1..], bit);
      if k :| 0 <= k < |topics| && bit in evm.bits(OfTopic(topics[k])) {
        assert k > 0 ==> topics[1..][k - 1] == topics[k];
      }
      if k :| 0 <= k < |topics[1..]| && bit in evm.bits(OfTopic(topics[1..][k])) {
        assert topics[k + 1] == topics[1..][k];
      }
    }
  }

  lemma {:induction false} LogBits(evm: Evm, logs: seq<Log>, bit: nat)
    ensures bit in LogsBloom(evm, logs) <==> exists j :: 0 <= j < |logs| && BitOf(evm, logs[j], bit)
  {
    if logs != [] {
      LogBits(evm, logs[1..], bit);
      TopicBits(evm, logs[0].topics, bit);
      hide BitOf;
      var own := evm.bits(OfAddress(logs[0].address)) + TopicsBloom(evm, logs[0].topics);
      assert BitOf(evm, logs[0], bit) <==> bit in own by {
        BitIs(evm, logs[0], bit);
      }
      if j :| 0 <= j < |logs| && BitOf(evm, logs[j], bit) {
        assert j > 0 ==> logs[1..][j - 1] == logs[j];
      }
      if j :| 0 <= j < |logs[1..]| && BitOf(evm, logs[1..][j], bit) {
        assert logs[j + 1] == logs[1..][j];
      }
    }
  }

  lemma BitIs(evm: Evm, l: Log, bit: nat)
    ensures BitOf(evm, l, bit) <==> bit in evm.bits(OfAddress(l.address)) + TopicsBloom(evm, l.topics)
  {
    TopicBits(evm, l.topics, bit);
  }

  lemma {:induction false} ReceiptBits(receipts: seq<Receipt>, bit: nat)
    ensures bit in ReceiptsBloom(receipts) <==> exists i :: 0 <= i < |receipts| && bit in receipts[i].bloom
  {
    if receipts != [] {
      ReceiptBits(receipts[..|receipts| - 1], bit);
    }
  }

  /** The gas a header names is what its transactions used, and its bloom has
      exactly the bits of its logs. */
  lemma HeaderTotals(evm: Evm, ancestors: seq<Hash>, start: World, block: Block, bit: nat)
    requires CheckBody(evm, ancestors, block, start).Ok?
    ensures var rs := CheckBody(evm, ancestors, block, start).value.receipts;
            && block.header.gasUsed == GasUpTo(rs, |rs|)
            && (forall i :: 0 <= i < |rs| ==> GasUpTo(rs, i + 1) == GasUpTo(rs, i) + rs[i].gasUsed)
            && (bit in block.header.bloom <==>
                  exists i, j :: 0 <= i < |rs| && 0 <= j < |rs[i].stored.logs| && BitOf(evm, rs[i].stored.logs[j], bit))
  {
    hide LogsBloom, Parse, ReplayTxs, BitOf, ReceiptsBloom;
    var x := CheckBody(evm, ancestors, block, start).value;
    ReceiptBits(x.receipts, bit);
    if Parse(block.header.extra).Err? {
      var h := block.header;
      var ctx := Context(h.gasLimit, h.number, h.time, ancestors);
      var worlds := TraceOf(evm, ctx, block.txs, start);
      ReplaysTrace(evm, ctx, block.txs, start, worlds);
      forall i | 0 <= i < |x.receipts| ensures bit in x.receipts[i].bloom <==>
        exists j :: 0 <= j < |x.receipts[i].stored.logs| && BitOf(evm, x.receipts[i].stored.logs[j], bit)
      {
        assert ReceiptIs(evm, ctx, worlds[i], block.txs[i], GasUpTo(x.receipts, i), x.receipts[i]);
        LogBits(evm, x.receipts[i].stored.logs, bit);
      }
      forall i | 0 <= i < |x.receipts|
        ensures GasUpTo(x.receipts, i + 1) == GasUpTo(x.receipts, i) + x.receipts[i].gasUsed
      {
        assert ReceiptIs(evm, ctx, worlds[i], block.txs[i], GasUpTo(x.receipts, i), x.receipts[i]);
      }
    }
  }

  // --- what is sealed ---

  /** The header fields every sealed block takes from its parent and from the node. */
  predicate Over(parent: Header, gasLimit: nat, timestamp: nat, h: Header) {
    h.parentHash == HashOf(parent) && h.number == parent.number + 1 && h.gasLimit == gasLimit && h.time == timestamp
  }

  /** A transaction is sealed exactly when its signature recovers, it asks for no
      more gas than a block has, its nonce is the sender's next and the EVM executes
      it without failing; the block holds that transaction and the state it led to. */
  lemma SealsExactly(evm: Evm, ancestors: seq<Hash>, parent: Header, gasLimit: nat, timestamp: nat, tx: Tx)
    ensures var ctx := Context(gasLimit, parent.number + 1, timestamp, ancestors);
            var sealed := SealTx(evm, ancestors, parent, gasLimit, timestamp, tx);
            && (sealed.Ok? <==> tx.gas <= gasLimit && exists w2 :: StepsTo(evm, ctx, parent.root, tx, w2))
            && (sealed.Ok? ==>
                  && sealed.value.block.txs == [tx] && sealed.value.block.header.extra == ""
                  && Over(parent, gasLimit, timestamp, sealed.value.block.header)
                  && StepsTo(evm, ctx, parent.root, tx, sealed.value.block.header.root))
  {
    hide LogsBloom;
    var sealed := SealTx(evm, ancestors, parent, gasLimit, timestamp, tx);
    if sealed.Ok? {
      assert StepsTo(evm, Context(gasLimit, parent.number + 1, timestamp, ancestors), parent.root, tx,
                     sealed.value.block.header.root);
    }
  }

  /** An empty block changes nothing; a system operation's block carries its text
      and changes the one balance. */
  lemma SealsAsAsked(evm: Evm, parent: Header, gasLimit: nat, timestamp: nat, op: SysOp)
    ensures var b := SealEmpty(parent, gasLimit, timestamp).block;
            && b.txs == [] && b.header.extra == "" && b.header.root == parent.root
            && Over(parent, gasLimit, timestamp, b.header)
    ensures var sealed := SealSysOp(evm, parent, gasLimit, timestamp, op);
            sealed.Ok? ==>
              var b := sealed.value.block;
              && b.txs == [] && b.header.extra == Encode(op, evm.checksum)
              && Over(parent, gasLimit, timestamp, b.header)
              && op.value >= 0 && OnlyBalance(parent.root, b.header.root, op.address, op.value)
  {
    hide Parse, Encode, Pow16;
  }

  // --- what an audit reports ---

  function TxTotal(chain: seq<Block>, n: nat): nat
    requires n < |chain|
  {
    if n == 0 then 0 else TxTotal(chain, n - 1) + |chain[n].txs|
  }

  function HeaderGas(chain: seq<Block>, n: nat): nat
    requires n < |chain|
  {
    if n == 0 then 0 else HeaderGas(chain, n - 1) + chain[n].header.gasUsed
  }

  lemma FaultNamesBlock(evm: Evm, ancestors: seq<Hash>, parent: Block, parentRoot: World, block: Block)
    requires Check(evm, ancestors, parent, parentRoot, block).Err?
    ensures Check(evm, ancestors, parent, parentRoot, block).error.block == Number(block)
  {
    hide Parse, ApplySysOp, ReplayTxs, VerifyLinkage;
    if Parse(block.header.extra) == Err(NotSysOp) {
      TxFaultNamesBlock(evm, ContextOf(block.header, ancestors), block.txs, parentRoot);
    }
  }

  lemma {:induction false} TxFaultNamesBlock(evm: Evm, ctx: Context, txs: seq<Tx>, start: World)
    ensures ReplayTxs(evm, ctx, txs, start).Err? ==> ReplayTxs(evm, ctx, txs, start).error.block == ctx.number
  {
    if txs != [] {
      TxFaultNamesBlock(evm, ctx, txs[..|txs| - 1], start);
    }
  }

  /** The audit of a stored chain reports the range, the number of transactions and
      the gas of its headers; or else it names the first block that does not follow
      from those below it. */
  lemma {:induction false} AuditReports(evm: Evm, db: Store, chain: seq<Block>, n: nat)
    requires Stores(db, chain) && KeepsReceipts(evm, db, chain) && n < |chain|
    ensures var r := ReplayRange(evm, db, 1, n);
            && (r.Ok? ==> r.value == Report(1, n, n, TxTotal(chain, n), HeaderGas(chain, n), chain[n].header.root))
            && (r.Err? ==> 0 < r.error.block <= n
                           && !Storage.ValidNext(evm, chain[..r.error.block], chain[r.error.block])
                           && Storage.Follows(evm, chain[..r.error.block]))
  {
    hide Stores, KeepsReceipts, ReplayStep, Follows, ValidNext, BlockAt;
    StoredBlockAt(db, chain, n);
    if n > 0 {
      AuditReports(evm, db, chain, n - 1);
      StoredBlockAt(db, chain, n - 1);
      AuditMeansFollows(evm, db, chain, n - 1);
      if ReplayRange(evm, db, 1, n - 1).Ok? {
        StepReports(evm, db, chain, n, ReplayRange(evm, db, 1, n - 1).value);
      }
      assert chain[..n - 1 + 1] == chain[..n];
    }
  }

  lemma StepReports(evm: Evm, db: Store, chain: seq<Block>, n: nat, sofar: Report)
    requires Stores(db, chain) && KeepsReceipts(evm, db, chain) && 0 < n < |chain|
    requires sofar.stateRoot == chain[n - 1].header.root
    ensures var r := ReplayStep(evm, db, n, chain[n - 1], sofar);
            && (r.Ok? <==> Storage.ValidNext(evm, chain[..n], chain[n]))
            && (r.Ok? ==> r.value == Report(sofar.from, n, sofar.blocks + 1, sofar.transactions + |chain[n].txs|,
                                            sofar.gasUsed + chain[n].header.gasUsed, chain[n].header.root))
            && (r.Err? ==> r.error.block == n)
  {
    hide Stores, KeepsReceipts, BlockAt, Check, StoredForm, ReadReceipts, Ancestors;
    StoredBlockAt(db, chain, n);
    NumberedAt(db, chain, n);
    StepMeansValid(evm, db, chain, n);
    var c := Check(evm, Ancestors(db, n), chain[n - 1], sofar.stateRoot, chain[n]);
    if c.Err? {
      FaultNamesBlock(evm, Ancestors(db, n), chain[n - 1], sofar.stateRoot, chain[n]);
    } else {
      HeaderGasIs(evm, Ancestors(db, n), chain[n - 1], sofar.stateRoot, chain[n]);
    }
  }

  lemma NumberedAt(db: Store, chain: seq<Block>, n: nat)
    requires Stores(db, chain) && n < |chain|
    ensures Number(chain[n]) == n
  {
  }

  lemma HeaderGasIs(evm: Evm, ancestors: seq<Hash>, parent: Block, parentRoot: World, block: Block)
    requires Check(evm, ancestors, parent, parentRoot, block).Ok?
    ensures Check(evm, ancestors, parent, parentRoot, block).value.gasUsed == block.header.gasUsed
  {
    hide ReplayBlock, ReceiptsBloom, Leaves;
  }
}
