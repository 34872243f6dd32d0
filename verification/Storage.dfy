/** The chain database: what a sealed or accepted block writes, what a reader
    gets back, and the audit that re-executes the whole of it. */
module Storage {
  import opened Blocks
  import opened Ledger

  /** Receipts and blocks are filed under (number, hash).  `lookup` finds the
      height a transaction was mined at. */
  datatype Store = Store(blocks: map<(nat, Hash), Block>, receipts: map<(nat, Hash), seq<StoredReceipt>>,
                         canonical: map<nat, Hash>, numbers: map<Hash, nat>, head: Hash, lookup: map<Tx, nat>)

  function CanonicalHash(db: Store, n: nat): Hash {
    if n in db.canonical then db.canonical[n] else ZeroHash
  }

  function ReadBlock(db: Store, hash: Hash, n: nat): Option<Block> {
    if (n, hash) in db.blocks then Some(db.blocks[(n, hash)]) else None
  }

  /** Missing or unreadable receipts read back as none. */
  function ReadReceipts(db: Store, hash: Hash, n: nat): seq<StoredReceipt> {
    if (n, hash) in db.receipts then db.receipts[(n, hash)] else []
  }

  /** The height a hash was filed at. */
  function NumberOf(db: Store, hash: Hash): Option<nat> {
    if hash in db.numbers then Some(db.numbers[hash]) else None
  }

  function CurrentHeader(db: Store): Option<Header> {
    if db.head == ZeroHash || NumberOf(db, db.head).None? then None
    else
      match ReadBlock(db, db.head, NumberOf(db, db.head).value)
      case None => None
      case Some(b) => Some(b.header)
  }

  function BlockByHeader(db: Store, h: Header): Option<Block> {
    ReadBlock(db, HashOf(h), h.number)
  }

  function IndexTxs(lookup: map<Tx, nat>, txs: seq<Tx>, n: nat): map<Tx, nat> {
    map t | t in lookup.Keys + (set x | x in txs) :: if t in txs then n else lookup[t]
  }

  /** One atomic batch: the block, its receipts, the canonical and head
      pointers, and the transaction index. */
  function Persist(db: Store, block: Block, receipts: seq<StoredReceipt>): Store {
    var n, hash := Number(block), BlockHash(block);
    Store(db.blocks[(n, hash) := block], db.receipts[(n, hash) := receipts], db.canonical[n := hash],
          db.numbers[hash := n], hash, IndexTxs(db.lookup, block.txs, n))
  }

  function Ancestors(db: Store, n: nat): (r: seq<Hash>)
    ensures |r| == n
  {
    seq(n, i requires 0 <= i < n => CanonicalHash(db, i))
  }

  // --- a database that holds a chain ---

  /** The canonical blocks of db are exactly `chain`, numbered from 0. */
  ghost predicate Stores(db: Store, chain: seq<Block>) {
    && |chain| > 0
    && (forall i :: 0 <= i < |chain| ==> Number(chain[i]) == i)
    && (forall i: nat :: i in db.canonical <==> i < |chain|)
    && (forall i :: 0 <= i < |chain| ==> CanonicalHash(db, i) == BlockHash(chain[i]))
    && (forall i :: 0 <= i < |chain| ==> ReadBlock(db, BlockHash(chain[i]), i) == Some(chain[i]))
    && (forall i :: 0 <= i < |chain| ==> NumberOf(db, BlockHash(chain[i])) == Some(i))
    && db.head == BlockHash(chain[|chain| - 1])
  }

  /** The outcome of checking `block` as the next one on `chain`. */
  function CheckNext(evm: Evm, chain: seq<Block>, block: Block): (r: Result<Replayed, Fault>)
    requires |chain| > 0
    ensures r.Ok? ==> r.value.root == block.header.root && |r.value.receipts| == |block.txs|
  {
    var parent := chain[|chain| - 1];
    Check(evm, Hashes(chain), parent, parent.header.root, block)
  }

  predicate ValidNext(evm: Evm, chain: seq<Block>, block: Block) {
    |chain| > 0 && CheckNext(evm, chain, block).Ok?
  }

  /** The same without the linkage to the head: what re-execution alone says. */
  function ExecuteNext(evm: Evm, chain: seq<Block>, block: Block): (r: Result<Replayed, Fault>)
    requires |chain| > 0
    ensures r.Ok? ==> r.value.root == block.header.root && |r.value.receipts| == |block.txs|
  {
    CheckBody(evm, Hashes(chain), block, chain[|chain| - 1].header.root)
  }

  predicate Executed(evm: Evm, chain: seq<Block>, block: Block) {
    |chain| > 0 && ExecuteNext(evm, chain, block).Ok?
  }

  /** Every block after the first re-executes to what its header commits to. */
  predicate Executes(evm: Evm, chain: seq<Block>) {
    forall i :: 1 <= i < |chain| ==> Executed(evm, chain[..i], chain[i])
  }

  lemma ValidIsExecuted(evm: Evm, chain: seq<Block>, block: Block)
    ensures ValidNext(evm, chain, block) <==>
            Executed(evm, chain, block) && VerifyLinkage(block, chain[|chain| - 1]).None?
    ensures ValidNext(evm, chain, block) ==> CheckNext(evm, chain, block) == ExecuteNext(evm, chain, block)
  {
    hide CheckBody, VerifyLinkage;
  }

  /** A chain that audits executes; the converse lacks only the linkage. */
  lemma FollowsExecutes(evm: Evm, chain: seq<Block>)
    requires Follows(evm, chain)
    ensures Executes(evm, chain)
  {
    hide ValidNext, Executed;
    forall i | 1 <= i < |chain| ensures Executed(evm, chain[..i], chain[i]) {
      ValidIsExecuted(evm, chain[..i], chain[i]);
    }
  }

  lemma ExecutesGrows(evm: Evm, chain: seq<Block>, block: Block)
    requires Executes(evm, chain) && Executed(evm, chain, block)
    ensures Executes(evm, chain + [block])
  {
    hide Executed;
    var longer := chain + [block];
    forall i | 1 <= i < |longer| ensures Executed(evm, longer[..i], longer[i]) {
      if i < |chain| {
        assert longer[..i] == chain[..i] && longer[i] == chain[i];
      } else {
        assert longer[..i] == chain;
      }
    }
  }

  /** Every block after the first follows from the ones before it. */
  predicate Follows(evm: Evm, chain: seq<Block>) {
    forall i :: 1 <= i < |chain| ==> ValidNext(evm, chain[..i], chain[i])
  }

  /** The receipts on disk are the ones execution produces. */
  ghost predicate KeepsReceipts(evm: Evm, db: Store, chain: seq<Block>) {
    forall i :: 1 <= i < |chain| && Executed(evm, chain[..i], chain[i]) ==>
      ReadReceipts(db, BlockHash(chain[i]), i) == StoredForm(ExecuteNext(evm, chain[..i], chain[i]).value.receipts)
  }

  lemma HeadOf(db: Store, chain: seq<Block>)
    requires Stores(db, chain)
    ensures CurrentHeader(db) == Some(chain[|chain| - 1].header)
    ensures BlockByHeader(db, chain[|chain| - 1].header) == Some(chain[|chain| - 1])
    ensures Ancestors(db, |chain|) == Hashes(chain)
    ensures forall n: nat :: n <= |chain| ==> Ancestors(db, n) == Hashes(chain[..n])
  {
    var last := chain[|chain| - 1];
    assert ReadBlock(db, BlockHash(last), |chain| - 1) == Some(last);
    assert chain[..|chain|] == chain;
    forall n: nat | n <= |chain| ensures Ancestors(db, n) == Hashes(chain[..n]) {
    }
  }

  lemma PersistStores(db: Store, chain: seq<Block>, block: Block, receipts: seq<StoredReceipt>)
    requires Stores(db, chain) && Number(block) == |chain|
    ensures Stores(Persist(db, block, receipts), chain + [block])
    ensures ReadReceipts(Persist(db, block, receipts), BlockHash(block), |chain|) == receipts
    ensures forall i: nat, hash :: i < |chain| ==>
              ReadReceipts(Persist(db, block, receipts), hash, i) == ReadReceipts(db, hash, i)
  {
    var r, longer := Persist(db, block, receipts), chain + [block];
    forall i | 0 <= i < |longer|
      ensures CanonicalHash(r, i) == BlockHash(longer[i]) && ReadBlock(r, BlockHash(longer[i]), i) == Some(longer[i])
      ensures NumberOf(r, BlockHash(longer[i])) == Some(i)
    {
      if i < |chain| {
        assert CanonicalHash(db, i) == BlockHash(chain[i]) && ReadBlock(db, BlockHash(chain[i]), i) == Some(chain[i]);
        assert NumberOf(db, BlockHash(chain[i])) == Some(i) && Number(chain[i]) == i;
      }
    }
  }

  lemma PersistKeepsReceipts(evm: Evm, db: Store, chain: seq<Block>, block: Block, receipts: seq<StoredReceipt>)
    requires Stores(db, chain) && KeepsReceipts(evm, db, chain) && Number(block) == |chain|
    requires Executed(evm, chain, block) ==> receipts == StoredForm(ExecuteNext(evm, chain, block).value.receipts)
    ensures KeepsReceipts(evm, Persist(db, block, receipts), chain + [block])
  {
    hide CheckBody, StoredForm;
    PersistStores(db, chain, block, receipts);
    var r, longer := Persist(db, block, receipts), chain + [block];
    forall i | 1 <= i < |longer| && Executed(evm, longer[..i], longer[i])
      ensures ReadReceipts(r, BlockHash(longer[i]), i) ==
              StoredForm(ExecuteNext(evm, longer[..i], longer[i]).value.receipts)
    {
      if i < |chain| {
        assert longer[..i] == chain[..i] && longer[i] == chain[i];
      } else {
        assert longer[..i] == chain;
      }
    }
  }

  // --- the audit ---

  datatype Report = Report(from: nat, last: nat, blocks: nat, transactions: nat, gasUsed: nat, stateRoot: World)

  /** A stored block, if it hashes to the hash it is filed under. */
  function BlockAt(db: Store, n: nat): (r: Result<Block, Fault>)
    ensures r.Ok? ==> n in db.canonical && BlockHash(r.value) == db.canonical[n]
  {
    var hash := CanonicalHash(db, n);
    if hash == ZeroHash then Err(Unreadable(n))
    else
      match ReadBlock(db, hash, n)
      case None => Err(Unreadable(n))
      case Some(b) => if BlockHash(b) != hash then Err(Mismatch(n, BlockHashField)) else Ok(b)
  }

  /** Re-execute block n on top of what the report so far covers. */
  function ReplayStep(evm: Evm, db: Store, n: nat, parent: Block, sofar: Report): (r: Result<Report, Fault>)
    ensures r.Ok? ==> BlockAt(db, n).Ok? && r.value.stateRoot == BlockAt(db, n).value.header.root
  {
    match BlockAt(db, n)
    case Err(e) => Err(e)
    case Ok(block) =>
      match Check(evm, Ancestors(db, Number(block)), parent, sofar.stateRoot, block)
      case Err(e) => Err(e)
      case Ok(x) =>
        if ReadReceipts(db, BlockHash(block), Number(block)) != StoredForm(x.receipts)
        then Err(Mismatch(Number(block), StoredReceipts))
        else Ok(Report(sofar.from, n, sofar.blocks + 1, sofar.transactions + |block.txs|, sofar.gasUsed + x.gasUsed,
                       x.root))
  }

  function ReplayRange(evm: Evm, db: Store, from: nat, last: nat): (r: Result<Report, Fault>)
    requires 1 <= from <= last + 1
    ensures r.Ok? ==> BlockAt(db, last).Ok? && r.value.stateRoot == BlockAt(db, last).value.header.root
    decreases last
  {
    if last < from then
      match BlockAt(db, from - 1)
      case Err(e) => Err(e)
      case Ok(parent) => Ok(Report(from, last, 0, 0, 0, parent.header.root))
    else
      match ReplayRange(evm, db, from, last - 1)
      case Err(e) => Err(e)
      case Ok(sofar) => ReplayStep(evm, db, last, BlockAt(db, last - 1).value, sofar)
  }

  /** `from` 0 means 1, and an empty range has nothing wrong with it. */
  function Replay(evm: Evm, db: Store, from: nat, last: nat): Result<Report, Fault> {
    var first := if from == 0 then 1 else from;
    ReplayRange(evm, db, first, if last < first then first - 1 else last)
  }

  /** Cut anywhere, the audit of a range is the audit of its two parts: the
      totals add up, the final state is the same, and so is the first fault. */
  lemma {:induction false} AuditComposes(evm: Evm, db: Store, from: nat, m: nat, last: nat)
    requires 1 <= from <= m + 1 <= last + 1
    ensures var whole, left, right := ReplayRange(evm, db, from, last), ReplayRange(evm, db, from, m),
                                      ReplayRange(evm, db, m + 1, last);
            && (whole.Ok? <==> left.Ok? && right.Ok?)
            && (whole.Ok? ==>
                  && whole.value.blocks == left.value.blocks + right.value.blocks
                  && whole.value.transactions == left.value.transactions + right.value.transactions
                  && whole.value.gasUsed == left.value.gasUsed + right.value.gasUsed
                  && whole.value.stateRoot == right.value.stateRoot)
            && (whole.Err? ==> whole.error == if left.Err? then left.error else right.error)
  {
    hide Check, BlockAt;
    if m < last {
      AuditComposes(evm, db, from, m, last - 1);
    }
  }

  /** What a successful audit establishes about block n of its range. */
  lemma {:induction false} AuditedBlock(evm: Evm, db: Store, from: nat, last: nat, n: nat)
    requires 1 <= from <= n <= last && ReplayRange(evm, db, from, last).Ok?
    ensures BlockAt(db, n).Ok? && BlockAt(db, n - 1).Ok?
    ensures var block, parent := BlockAt(db, n).value, BlockAt(db, n - 1).value;
            var r := Check(evm, Ancestors(db, Number(block)), parent, parent.header.root, block);
            r.Ok? && ReadReceipts(db, BlockHash(block), Number(block)) == StoredForm(r.value.receipts)
  {
    hide Check, BlockAt;
    if n < last {
      AuditedBlock(evm, db, from, last - 1, n);
    }
  }

  lemma LeavesFixReceipts(a: seq<Receipt>, b: seq<Receipt>)
    requires Leaves(a) == Leaves(b)
    ensures StoredForm(a) == StoredForm(b)
  {
    assert |Leaves(a)| == |Leaves(b)|;
    forall i | 0 <= i < |a| ensures StoredForm(a)[i] == StoredForm(b)[i] {
      assert Leaves(a)[i] == Leaves(b)[i];
    }
  }

  /** A header fixes the block's body and, if it re-executes, its receipts. */
  lemma HeaderFixesBody(evm: Evm, p: seq<Hash>, a: Block, v: World, q: seq<Hash>, b: Block, w: World)
    requires CheckBody(evm, p, a, v).Ok? && CheckBody(evm, q, b, w).Ok? && BlockHash(a) == BlockHash(b)
    ensures a == b
    ensures StoredForm(CheckBody(evm, p, a, v).value.receipts) == StoredForm(CheckBody(evm, q, b, w).value.receipts)
  {
    hide ReplayBlock, StoredForm, Leaves, ReceiptsBloom;
    var r, s := CheckBody(evm, p, a, v).value, CheckBody(evm, q, b, w).value;
    assert TxRoot(a.txs) == TxRoot(b.txs);
    if a.txs == [] {
      assert r.receipts == s.receipts == [];
    } else {
      LeavesFixReceipts(r.receipts, s.receipts);
    }
  }

  /** If it also links to a parent, it fixes the parent's hash. */
  lemma HeaderFixesContents(evm: Evm, p: seq<Hash>, a: Block, q: seq<Hash>, b: Block, x: Block, y: Block)
    requires Check(evm, p, x, x.header.root, a).Ok? && Check(evm, q, y, y.header.root, b).Ok?
    requires BlockHash(a) == BlockHash(b)
    ensures a == b && BlockHash(x) == BlockHash(y) && Number(x) == Number(y) == Number(a) - 1
    ensures StoredForm(Check(evm, p, x, x.header.root, a).value.receipts) ==
            StoredForm(Check(evm, q, y, y.header.root, b).value.receipts)
  {
    hide CheckBody, StoredForm;
    HeaderFixesBody(evm, p, a, x.header.root, q, b, y.header.root);
  }

  /** In an audited database whose genesis is block 0, block n is numbered n. */
  lemma {:induction false} AuditedNumber(evm: Evm, db: Store, last: nat, n: nat)
    requires ReplayRange(evm, db, 1, last).Ok? && n <= last
    requires BlockAt(db, 0).Ok? ==> Number(BlockAt(db, 0).value) == 0
    ensures BlockAt(db, n).Ok? && Number(BlockAt(db, n).value) == n
  {
    hide BlockAt, ReplayBlock, VerifyBlock, ReplayRange;
    if n > 0 {
      AuditedBlock(evm, db, 1, last, n);
      AuditedNumber(evm, db, last, n - 1);
    } else {
      AuditComposes(evm, db, 1, 0, last);
    }
  }

  /** The head hash fixes history: two databases that pass a full audit, share
      their genesis and have the same head hash have the same length, and at
      every height the same block and the same stored receipts. */
  lemma {:induction false} HeadHashFixesHistory(evm: Evm, a: Store, b: Store, m: nat, n: nat, i: nat)
    requires ReplayRange(evm, a, 1, m).Ok? && ReplayRange(evm, b, 1, n).Ok?
    requires BlockAt(a, 0) == BlockAt(b, 0) && (BlockAt(a, 0).Ok? ==> Number(BlockAt(a, 0).value) == 0)
    requires CanonicalHash(a, m) == CanonicalHash(b, n)
    requires i <= m
    ensures m == n && BlockAt(a, i).Ok? && BlockAt(a, i) == BlockAt(b, i)
    ensures i > 0 ==> var block := BlockAt(a, i).value;
              ReadReceipts(a, BlockHash(block), i) == ReadReceipts(b, BlockHash(block), i)
    decreases m - i
  {
    hide Check, ReplayRange;
    AuditedNumber(evm, a, m, m);
    AuditedNumber(evm, b, n, n);
    AuditedNumber(evm, a, m, i);
    assert BlockHash(BlockAt(a, m).value) == BlockHash(BlockAt(b, n).value);
    assert m == n;
    AuditedNumber(evm, b, n, i);
    if i < m {
      HeadHashFixesHistory(evm, a, b, m, n, i + 1);
      AuditedNumber(evm, a, m, i + 1);
      AuditedBlock(evm, a, 1, m, i + 1);
      AuditedBlock(evm, b, 1, n, i + 1);
      SameHashBelow(evm, a, b, i + 1);
    }
    if i > 0 {
      AuditedBlock(evm, a, 1, m, i);
      AuditedBlock(evm, b, 1, n, i);
      SameHashBelow(evm, a, b, i);
    }
  }

  /** One step down: equal hashes at i give equal contents at i, and equal hashes at i - 1. */
  lemma SameHashBelow(evm: Evm, a: Store, b: Store, i: nat)
    requires i > 0 && BlockAt(a, i).Ok? && BlockAt(b, i).Ok? && BlockAt(a, i - 1).Ok? && BlockAt(b, i - 1).Ok?
    requires Number(BlockAt(a, i).value) == i && BlockHash(BlockAt(a, i).value) == BlockHash(BlockAt(b, i).value)
    requires var block, parent := BlockAt(a, i).value, BlockAt(a, i - 1).value;
             var r := Check(evm, Ancestors(a, Number(block)), parent, parent.header.root, block);
             r.Ok? && ReadReceipts(a, BlockHash(block), Number(block)) == StoredForm(r.value.receipts)
    requires var block, parent := BlockAt(b, i).value, BlockAt(b, i - 1).value;
             var r := Check(evm, Ancestors(b, Number(block)), parent, parent.header.root, block);
             r.Ok? && ReadReceipts(b, BlockHash(block), Number(block)) == StoredForm(r.value.receipts)
    ensures BlockAt(a, i) == BlockAt(b, i)
    ensures BlockHash(BlockAt(a, i - 1).value) == BlockHash(BlockAt(b, i - 1).value)
    ensures var block := BlockAt(a, i).value;
            ReadReceipts(a, BlockHash(block), i) == ReadReceipts(b, BlockHash(block), i)
  {
    hide Check, BlockAt, ReadReceipts, Ancestors;
    var x, y := BlockAt(a, i).value, BlockAt(b, i).value;
    HeaderFixesContents(evm, Ancestors(a, Number(x)), x, Ancestors(b, Number(y)), y,
                        BlockAt(a, i - 1).value, BlockAt(b, i - 1).value);
  }

  // --- the audit of a database that holds a chain ---

  lemma StoredBlockAt(db: Store, chain: seq<Block>, n: nat)
    requires Stores(db, chain) && n < |chain|
    ensures BlockAt(db, n) == Ok(chain[n])
  {
    assert CanonicalHash(db, n) == BlockHash(chain[n]) && ReadBlock(db, BlockHash(chain[n]), n) == Some(chain[n]);
  }

  lemma FollowsBase(evm: Evm, chain: seq<Block>)
    requires |chain| <= 1
    ensures Follows(evm, chain)
  {
  }

  lemma FollowsGrows(evm: Evm, chain: seq<Block>, block: Block)
    requires |chain| > 0
    ensures Follows(evm, chain + [block]) <==> Follows(evm, chain) && ValidNext(evm, chain, block)
  {
    hide ValidNext;
    var longer := chain + [block];
    assert longer[..|chain|] == chain && longer[|chain|] == block;
    assert forall i :: 1 <= i < |chain| ==> longer[..i] == chain[..i] && longer[i] == chain[i];
    if Follows(evm, longer) {
      forall i | 1 <= i < |chain| ensures ValidNext(evm, chain[..i], chain[i]) {
        assert ValidNext(evm, longer[..i], longer[i]);
      }
      assert ValidNext(evm, longer[..|chain|], longer[|chain|]);
    }
  }

  /** The audit of the first n blocks succeeds exactly when each of them follows
      from those before it, and then ends in block n's state. */
  lemma {:induction false} AuditMeansFollows(evm: Evm, db: Store, chain: seq<Block>, n: nat)
    requires Stores(db, chain) && KeepsReceipts(evm, db, chain) && n < |chain|
    ensures ReplayRange(evm, db, 1, n).Ok? <==> Follows(evm, chain[..n + 1])
    ensures ReplayRange(evm, db, 1, n).Ok? ==> ReplayRange(evm, db, 1, n).value.stateRoot == chain[n].header.root
    ensures ReplayRange(evm, db, 1, n).Ok? ==> ReplayRange(evm, db, 1, n).value.blocks == n
  {
    hide Check, BlockAt, StoredForm, Stores, ReplayStep, ValidNext, KeepsReceipts, Follows;
    StoredBlockAt(db, chain, n);
    assert Follows(evm, chain[..1]) by { FollowsBase(evm, chain[..1]); }
    if n > 0 {
      StoredBlockAt(db, chain, n - 1);
      AuditMeansFollows(evm, db, chain, n - 1);
      StepMeansValid(evm, db, chain, n);
      FollowsGrows(evm, chain[..n], chain[n]);
      assert chain[..n + 1] == chain[..n] + [chain[n]];
    }
  }

  /** One step of the audit succeeds exactly when the block follows. */
  lemma StepMeansValid(evm: Evm, db: Store, chain: seq<Block>, n: nat)
    requires Stores(db, chain) && KeepsReceipts(evm, db, chain) && 0 < n < |chain|
    ensures forall sofar: Report :: sofar.stateRoot == chain[n - 1].header.root ==>
              && (ReplayStep(evm, db, n, chain[n - 1], sofar).Ok? <==> ValidNext(evm, chain[..n], chain[n]))
              && (ReplayStep(evm, db, n, chain[n - 1], sofar).Ok? ==>
                    ReplayStep(evm, db, n, chain[n - 1], sofar).value.blocks == sofar.blocks + 1)
  {
    hide CheckBody, BlockAt, StoredForm;
    StoredBlockAt(db, chain, n);
    HeadOf(db, chain);
    assert Number(chain[n]) == n && Ancestors(db, n) == Hashes(chain[..n]);
    assert chain[..n][n - 1] == chain[n - 1];
  }
}
