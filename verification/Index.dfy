/** Finding a mined transaction: along every run a transaction is mined at most
    once, so the index and a scan of the whole chain give the same one place. */
module Index {
  import opened Blocks
  import opened SysOps
  import opened Ledger
  import opened Storage
  import opened Following

  // --- what is asked of the EVM ---

  predicate NoncesGrow(w: World, r: World, from: Address) {
    NonceOf(r, from) > NonceOf(w, from)
  }

  ghost predicate NoncesKept(w: World, r: World) {
    forall a :: NonceOf(w, a) <= NonceOf(r, a)
  }

  /** Executing a transaction uses up its sender's nonce and lowers nobody's. */
  ghost predicate UsesNonces(evm: Evm) {
    forall w, ctx, tx, from :: evm.run(w, ctx, tx, from).Ran? ==>
      NoncesKept(w, evm.run(w, ctx, tx, from).world) && NoncesGrow(w, evm.run(w, ctx, tx, from).world, from)
  }

  /** The transaction's own nonce is already used up in this state. */
  predicate Spent(evm: Evm, w: World, tx: Tx) {
    evm.sender(tx).Some? && tx.nonce < NonceOf(w, evm.sender(tx).value)
  }

  lemma StaysSpent(evm: Evm, w: World, r: World, tx: Tx)
    requires Spent(evm, w, tx) && NoncesKept(w, r)
    ensures Spent(evm, r, tx)
  {
  }

  /** Executing txs keeps nonces, spends each of them, and includes none that
      was spent before or twice. */
  lemma {:induction false} ExecutionSpends(evm: Evm, ctx: Context, txs: seq<Tx>, start: World)
    requires UsesNonces(evm) && ReplayTxs(evm, ctx, txs, start).Ok?
    ensures var end := ReplayTxs(evm, ctx, txs, start).value.root;
            NoncesKept(start, end) && forall k :: 0 <= k < |txs| ==> Spent(evm, end, txs[k])
    ensures forall k :: 0 <= k < |txs| ==> !Spent(evm, start, txs[k])
    ensures forall j, k :: 0 <= j < k < |txs| ==> txs[j] != txs[k]
  {
    hide UsesNonces;
    if txs != [] {
      var last := |txs| - 1;
      var before := txs[..last];
      ExecutionSpends(evm, ctx, before, start);
      var sofar := ReplayTxs(evm, ctx, before, start).value;
      var end := ReplayTxs(evm, ctx, txs, start).value.root;
      OneSpends(evm, ctx, txs[last], last, sofar);
      forall k | 0 <= k < |txs| ensures Spent(evm, end, txs[k]) && !Spent(evm, start, txs[k]) {
        if k < last {
          assert txs[k] == before[k];
          StaysSpent(evm, sofar.root, end, txs[k]);
        } else if Spent(evm, start, txs[k]) {
          StaysSpent(evm, start, sofar.root, txs[k]);
        }
      }
      forall j, k | 0 <= j < k < |txs| ensures txs[j] != txs[k] {
        assert txs[j] == before[j];
        if k < last {
          assert txs[k] == before[k];
        }
      }
    }
  }

  lemma OneSpends(evm: Evm, ctx: Context, tx: Tx, index: nat, sofar: Replayed)
    requires UsesNonces(evm) && ReplayTx(evm, ctx, tx, index, sofar).Ok?
    ensures var end := ReplayTx(evm, ctx, tx, index, sofar).value.root;
            NoncesKept(sofar.root, end) && Spent(evm, end, tx) && !Spent(evm, sofar.root, tx)
  {
    hide LogsBloom;
    var from := evm.sender(tx).value;
    assert evm.run(sofar.root, ctx, tx, from).Ran?;
  }

  /** The same for a whole block executed on a chain. */
  lemma BlockSpends(evm: Evm, chain: seq<Block>, block: Block)
    requires UsesNonces(evm) && Executed(evm, chain, block)
    ensures var start := chain[|chain| - 1].header.root;
            && NoncesKept(start, block.header.root)
            && (forall k :: 0 <= k < |block.txs| ==>
                  Spent(evm, block.header.root, block.txs[k]) && !Spent(evm, start, block.txs[k]))
    ensures forall j, k :: 0 <= j < k < |block.txs| ==> block.txs[j] != block.txs[k]
  {
    hide UsesNonces, Parse, ReplayTxs;
    var start := chain[|chain| - 1].header.root;
    if Parse(block.header.extra).Err? {
      ExecutionSpends(evm, ContextOf(block.header, Hashes(chain)), block.txs, start);
    }
  }

  predicate Mined(chain: seq<Block>, tx: Tx, i: nat, k: nat) {
    i < |chain| && k < |chain[i].txs| && chain[i].txs[k] == tx
  }

  /** Whatever is mined in a chain is spent in its head's state. */
  lemma {:induction false} MinedIsSpent(evm: Evm, chain: seq<Block>, tx: Tx, i: nat, k: nat)
    requires UsesNonces(evm) && Executes(evm, chain) && 0 < i && Mined(chain, tx, i, k)
    ensures Spent(evm, chain[|chain| - 1].header.root, tx)
  {
    hide UsesNonces, Executed, Spent, NoncesKept;
    var last := |chain| - 1;
    assert Executed(evm, chain[..last], chain[last]);
    BlockSpends(evm, chain[..last], chain[last]);
    if i < last {
      PrefixExecutes(evm, chain, last);
      MinedIsSpent(evm, chain[..last], tx, i, k);
      StaysSpent(evm, chain[last - 1].header.root, chain[last].header.root, tx);
    }
  }

  lemma PrefixExecutes(evm: Evm, chain: seq<Block>, n: nat)
    requires Executes(evm, chain) && n <= |chain|
    ensures Executes(evm, chain[..n])
  {
    hide Executed;
    forall i | 1 <= i < n ensures Executed(evm, chain[..n][..i], chain[..n][i]) {
      assert chain[..n][..i] == chain[..i] && chain[..n][i] == chain[i];
    }
  }

  /** A transaction is mined in at most one place. */
  lemma MinedOnce(evm: Evm, chain: seq<Block>, tx: Tx, i: nat, k: nat, j: nat, l: nat)
    requires UsesNonces(evm) && Executes(evm, chain) && |chain| > 0 && chain[0].txs == []
    requires Mined(chain, tx, i, k) && Mined(chain, tx, j, l)
    ensures i == j && k == l
  {
    hide UsesNonces, Executed, Spent, NoncesKept;
    if i > j {
      MinedOnce(evm, chain, tx, j, l, i, k);
    } else {
      assert Executed(evm, chain[..j], chain[j]);
      BlockSpends(evm, chain[..j], chain[j]);
      if i < j {
        PrefixExecutes(evm, chain, j);
        MinedIsSpent(evm, chain[..j], tx, i, k);
      }
    }
  }

  // --- the index ---

  /** The index names a block for exactly the mined transactions, and it is the
      block that holds them. */
  ghost predicate Indexed(db: Store, chain: seq<Block>) {
    && (forall tx :: tx in db.lookup ==> db.lookup[tx] < |chain| && tx in chain[db.lookup[tx]].txs)
    && (forall tx, i, k :: Mined(chain, tx, i, k) ==> tx in db.lookup)
  }

  lemma IndexGrows(db: Store, chain: seq<Block>, block: Block, receipts: seq<StoredReceipt>)
    requires Indexed(db, chain) && Number(block) == |chain|
    ensures Indexed(Persist(db, block, receipts), chain + [block])
    ensures forall tx :: tx in block.txs ==>
              tx in Persist(db, block, receipts).lookup && Persist(db, block, receipts).lookup[tx] == |chain|
  {
    var r, longer := Persist(db, block, receipts), chain + [block];
    forall tx, i: nat, k: nat | Mined(longer, tx, i, k) ensures tx in r.lookup {
      if i < |chain| {
        assert Mined(chain, tx, i, k);
      }
    }
    forall tx | tx in r.lookup ensures r.lookup[tx] < |longer| && tx in longer[r.lookup[tx]].txs {
      if tx !in block.txs {
        assert longer[db.lookup[tx]] == chain[db.lookup[tx]];
      }
    }
  }

  datatype Location = Location(blockHash: Hash, number: nat, index: nat)

  datatype LookupError = NotFound | Corrupt

  function Position(txs: seq<Tx>, tx: Tx): (r: Option<nat>)
    ensures r.Some? ==> r.value < |txs| && txs[r.value] == tx
    ensures r.None? ==> tx !in txs
  {
    if txs == [] then None
    else if txs[0] == tx then Some(0)
    else
      match Position(txs[1..], tx)
      case None => None
      case Some(k) => Some(k + 1)
  }

  /** Through the index: the height, the block there, the place in its body. */
  function TransactionByHash(db: Store, tx: Tx): Result<Location, LookupError> {
    if tx !in db.lookup then Err(NotFound)
    else
      var n := db.lookup[tx];
      var hash := CanonicalHash(db, n);
      if hash == ZeroHash then Err(Corrupt)
      else
        match ReadBlock(db, hash, n)
        case None => Err(Corrupt)
        case Some(block) =>
          match Position(block.txs, tx)
          case None => Err(Corrupt)
          case Some(k) => Ok(Location(hash, n, k))
  }

  /** The same lookup as the node runs it, scanning the block's body. */
  method FindTransaction(db: Store, tx: Tx) returns (r: Result<Location, LookupError>)
    ensures r == TransactionByHash(db, tx)
  {
    if tx !in db.lookup {
      return Err(NotFound);
    }
    var n := db.lookup[tx];
    var hash := CanonicalHash(db, n);
    if hash == ZeroHash {
      return Err(Corrupt);
    }
    var block := ReadBlock(db, hash, n);
    if block.None? {
      return Err(Corrupt);
    }
    var txs := block.value.txs;
    for i := 0 to |txs|
      invariant Position(txs, tx) == match Position(txs[i..], tx) case None => None case Some(k) => Some(i + k)
    {
      assert txs[i..][1..] == txs[i + 1..];
      if txs[i] == tx {
        return Ok(Location(hash, n, i));
      }
    }
    return Err(Corrupt);
  }

  /** The first place a linear scan of the chain finds tx. */
  function Scan(chain: seq<Block>, tx: Tx): Option<Location> {
    if chain == [] then None
    else
      match Scan(chain[..|chain| - 1], tx)
      case Some(l) => Some(l)
      case None =>
        var block := chain[|chain| - 1];
        match Position(block.txs, tx)
        case None => None
        case Some(k) => Some(Location(BlockHash(block), |chain| - 1, k))
  }

  lemma {:induction false} ScanFinds(chain: seq<Block>, tx: Tx)
    ensures var r := Scan(chain, tx);
            && (r.None? ==> forall i, k :: !Mined(chain, tx, i, k))
            && (r.Some? ==> Mined(chain, tx, r.value.number, r.value.index)
                            && r.value.blockHash == BlockHash(chain[r.value.number]))
  {
    if chain != [] {
      var shorter := chain[..|chain| - 1];
      ScanFinds(shorter, tx);
      if Scan(chain, tx).None? {
        forall i: nat, k: nat ensures !Mined(chain, tx, i, k) {
          if Mined(chain, tx, i, k) && i < |shorter| {
            assert Mined(shorter, tx, i, k);
          }
        }
      }
    }
  }

  /** In a database with an intact index, looking a transaction up is scanning
      for it: found in both or in neither, and at the same place. */
  lemma LookupIsScan(evm: Evm, db: Store, chain: seq<Block>, tx: Tx)
    requires UsesNonces(evm) && Stores(db, chain) && Indexed(db, chain)
    requires Executes(evm, chain) && chain[0].txs == []
    ensures TransactionByHash(db, tx) ==
            match Scan(chain, tx) case None => Err(NotFound) case Some(l) => Ok(l)
  {
    hide UsesNonces, Executes;
    ScanFinds(chain, tx);
    if tx in db.lookup {
      var n := db.lookup[tx];
      assert CanonicalHash(db, n) == BlockHash(chain[n]) && ReadBlock(db, BlockHash(chain[n]), n) == Some(chain[n]);
      var k := Position(chain[n].txs, tx).value;
      assert Mined(chain, tx, n, k);
      MinedOnce(evm, chain, tx, n, k, Scan(chain, tx).value.number, Scan(chain, tx).value.index);
    }
  }

  // --- along every run ---

  lemma StepIndexes(evm: Evm, gasLimit: nat, db: Store, chain: seq<Block>, step: Step) returns (longer: seq<Block>)
    requires Intact(evm, db, chain) && Admissible(db, step) && Indexed(db, chain)
    ensures Intact(evm, Perform(evm, gasLimit, db, step), longer) && chain <= longer
    ensures Indexed(Perform(evm, gasLimit, db, step), longer)
  {
    hide Judge, Build, KeepsReceipts, ValidNext, CheckNext, Executes, Pow16, Indexed, StoredForm, FollowsInTime, Timed,
         Persist, ReadReceipts;
    longer := StepKeeps(evm, gasLimit, db, chain, step);
    HoldsStores(evm, db, chain);
    var r := Perform(evm, gasLimit, db, step);
    HeldOnce(r, chain, longer);
    match step {
      case Take(block) =>
        JudgeExactly(evm, db, chain, block);
        NeverRewrites(evm, db, chain, block);
        if Judge(evm, db, block).Accepted? {
          IndexGrows(db, chain, block, StoredForm(Judge(evm, db, block).replayed.receipts));
          HeldOnce(r, chain + [block], longer);
        }
      case Seal(work, timestamp) =>
        if Build(evm, db, gasLimit, timestamp, work).Ok? {
          var built := Build(evm, db, gasLimit, timestamp, work).value;
          BuiltChecks(evm, db, chain, gasLimit, timestamp, work);
          IndexGrows(db, chain, built.block, StoredForm(built.receipts));
          PersistStores(db, chain, built.block, StoredForm(built.receipts));
          HeldOnce(r, chain + [built.block], longer);
        }
    }
  }

  /** A database holds one chain. */
  lemma HeldOnce(db: Store, a: seq<Block>, b: seq<Block>)
    ensures Stores(db, a) && Stores(db, b) ==> a == b
  {
    if Stores(db, a) && Stores(db, b) {
      assert |a| == |b| by {
        assert NumberOf(db, db.head) == Some(|a| - 1) == Some(|b| - 1);
      }
      forall i | 0 <= i < |a| ensures a[i] == b[i] {
        assert CanonicalHash(db, i) == BlockHash(a[i]) == BlockHash(b[i]);
        assert ReadBlock(db, BlockHash(a[i]), i) == Some(a[i]);
        assert ReadBlock(db, BlockHash(b[i]), i) == Some(b[i]);
      }
    }
  }

  lemma {:induction false} RunIndexes(evm: Evm, gasLimit: nat, db: Store, genesis: Block, steps: seq<Step>)
    returns (chain: seq<Block>)
    requires Holds(evm, db, [genesis]) && genesis.header.time < UINT64 && AllAdmissible(evm, gasLimit, db, steps)
    requires genesis.txs == [] && db.lookup == map[]
    ensures Intact(evm, AfterSteps(evm, gasLimit, db, steps), chain)
    ensures [genesis] <= chain && Indexed(AfterSteps(evm, gasLimit, db, steps), chain)
  {
    hide Holds, Perform, Admissible, ValidNext, Executed;
    if steps == [] {
      chain := [genesis];
    } else {
      var last := |steps| - 1;
      forall i | 0 <= i < last ensures Admissible(AfterSteps(evm, gasLimit, db, steps[..last][..i]), steps[..last][i]) {
        assert steps[..last][..i] == steps[..i];
        assert Admissible(AfterSteps(evm, gasLimit, db, steps[..i]), steps[i]);
      }
      chain := RunIndexes(evm, gasLimit, db, genesis, steps[..last]);
      assert Admissible(AfterSteps(evm, gasLimit, db, steps[..last]), steps[last]);
      chain := StepIndexes(evm, gasLimit, AfterSteps(evm, gasLimit, db, steps[..last]), chain, steps[last]);
    }
  }

  /** Index agrees with scan.  Along every run, the node's lookup of a transaction
      is a scan of its whole chain, and the place found is the only one. */
  lemma IndexAgreesWithScan(evm: Evm, gasLimit: nat, db: Store, genesis: Block, steps: seq<Step>, tx: Tx)
    returns (chain: seq<Block>)
    requires Holds(evm, db, [genesis]) && genesis.header.time < UINT64 && AllAdmissible(evm, gasLimit, db, steps)
    requires genesis.txs == [] && db.lookup == map[] && UsesNonces(evm)
    ensures Stores(AfterSteps(evm, gasLimit, db, steps), chain) && chain[0] == genesis
    ensures TransactionByHash(AfterSteps(evm, gasLimit, db, steps), tx) ==
            match Scan(chain, tx) case None => Err(NotFound) case Some(l) => Ok(l)
    ensures forall i, k, j, l :: Mined(chain, tx, i, k) && Mined(chain, tx, j, l) ==> i == j && k == l
  {
    hide AfterSteps, AllAdmissible, KeepsReceipts, Executes, UsesNonces, Indexed;
    chain := RunIndexes(evm, gasLimit, db, genesis, steps);
    LookupIsScan(evm, AfterSteps(evm, gasLimit, db, steps), chain, tx);
    forall i, k, j, l | Mined(chain, tx, i, k) && Mined(chain, tx, j, l) ensures i == j && k == l {
      MinedOnce(evm, chain, tx, i, k, j, l);
    }
  }
}
