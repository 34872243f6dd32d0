/** Executing, sealing and checking one block.  The EVM is one uninterpreted
    function; everything around it is what the node does. */
module Ledger {
  import opened Blocks
  import opened SysOps

  /** What a block gives its transactions to see. */
  datatype Context = Context(gasLimit: nat, number: nat, time: nat, ancestors: seq<Hash>)

  datatype Outcome = Refused(code: nat) | Ran(failed: bool, output: nat, used: nat, world: World, logs: seq<Log>)

  datatype Item = OfAddress(address: Address) | OfTopic(topic: nat)

  /** `sender` recovers a signature, `run` executes, `bits` are the bloom
      positions of an address or topic, `checksum` the letter case of an address,
      `create` the address of the contract a creation makes. */
  datatype Evm = Evm(sender: Tx -> Option<Address>, run: (World, Context, Tx, Address) -> Outcome,
                     bits: Item -> set<nat>, checksum: Address -> nat -> bool, create: (Address, nat) -> Address)

  datatype TxError = WrongChainId | GasLimitExceeded | NonceTooLow | NonceTooHigh | Precheck(code: nat)
                   | Reverted(output: nat)

  datatype Receipt = Receipt(tx: Tx, gasUsed: nat, stored: StoredReceipt, bloom: set<nat>)

  // --- blooms and roots ---

  function TopicsBloom(evm: Evm, topics: seq<nat>): set<nat> {
    if topics == [] then {} else evm.bits(OfTopic(topics[0])) + TopicsBloom(evm, topics[1..])
  }

  function LogsBloom(evm: Evm, logs: seq<Log>): set<nat> {
    if logs == [] then {}
    else evm.bits(OfAddress(logs[0].address)) + TopicsBloom(evm, logs[0].topics) + LogsBloom(evm, logs[1..])
  }

  function ReceiptsBloom(receipts: seq<Receipt>): set<nat> {
    if receipts == [] then {} else ReceiptsBloom(receipts[..|receipts| - 1]) + receipts[|receipts| - 1].bloom
  }

  function GasTotal(receipts: seq<Receipt>): nat {
    if receipts == [] then 0 else GasTotal(receipts[..|receipts| - 1]) + receipts[|receipts| - 1].gasUsed
  }

  function Leaf(r: Receipt): ReceiptLeaf {
    ReceiptLeaf(r.tx.kind, r.stored, r.bloom)
  }

  function Leaves(receipts: seq<Receipt>): (r: seq<ReceiptLeaf>)
    ensures |r| == |receipts|
  {
    seq(|receipts|, i requires 0 <= i < |receipts| => Leaf(receipts[i]))
  }

  function StoredForm(receipts: seq<Receipt>): (r: seq<StoredReceipt>)
    ensures |r| == |receipts|
  {
    seq(|receipts|, i requires 0 <= i < |receipts| => receipts[i].stored)
  }

  function TxRoot(txs: seq<Tx>): Root<Tx> {
    if txs == [] then EmptyRoot else RootOf(txs)
  }

  function ReceiptRoot(txs: seq<Tx>, receipts: seq<Receipt>): Root<ReceiptLeaf> {
    if txs == [] then EmptyRoot else RootOf(Leaves(receipts))
  }

  // --- execution ---

  function NonceOf(w: World, a: Address): nat {
    if a in w.nonces then w.nonces[a] else 0
  }

  function BalanceOf(w: World, a: Address): nat {
    if a in w.balances then w.balances[a] else 0
  }

  /** From w to r, account a's balance has become v, with no entry left for zero, and
      nothing else has changed. */
  ghost predicate OnlyBalance(w: World, r: World, a: Address, v: nat) {
    && BalanceOf(r, a) == v && (a in r.balances <==> v > 0)
    && (forall b :: b != a ==> BalanceOf(r, b) == BalanceOf(w, b) && (b in r.balances <==> b in w.balances))
    && r.nonces == w.nonces && r.rest == w.rest
  }

  /** An account with no balance entry holds zero. */
  function SetBalance(w: World, a: Address, value: nat): World {
    w.(balances := if value == 0 then w.balances - {a} else w.balances[a := value])
  }

  function ApplySysOp(w: World, op: SysOp): Result<World, ParseError> {
    if op.kind != SET_BALANCE then Err(UnknownKind)
    else if op.value < 0 || op.value >= Pow16(VALUE_DIGITS) then Err(Malformed)
    else Ok(SetBalance(w, op.address, op.value))
  }

  function CheckNonce(w: World, tx: Tx, from: Address): Option<TxError> {
    if tx.nonce < NonceOf(w, from) then Some(NonceTooLow)
    else if tx.nonce > NonceOf(w, from) then Some(NonceTooHigh)
    else None
  }

  function ValidateTx(evm: Evm, w: World, tx: Tx, gasLimit: nat): Result<Address, TxError> {
    match evm.sender(tx)
    case None => Err(WrongChainId)
    case Some(from) =>
      if tx.gas > gasLimit then Err(GasLimitExceeded)
      else if CheckNonce(w, tx, from).Some? then Err(CheckNonce(w, tx, from).value)
      else Ok(from)
  }

  /** The execution chokepoint: pre-checks, then the EVM. */
  function ApplyMessage(evm: Evm, w: World, ctx: Context, tx: Tx, from: Address): (r: Result<Outcome, TxError>)
    ensures r.Ok? ==> r.value.Ran?
  {
    if CheckNonce(w, tx, from).Some? then Err(CheckNonce(w, tx, from).value)
    else
      match evm.run(w, ctx, tx, from)
      case Refused(code) => Err(Precheck(code))
      case Ran(failed, output, used, world, logs) => Ok(Ran(failed, output, used, world, logs))
  }

  function BuildReceipt(evm: Evm, tx: Tx, ran: Outcome, cumulative: nat): Receipt
    requires ran.Ran?
  {
    Receipt(tx, ran.used, StoredReceipt(!ran.failed, cumulative, ran.logs), LogsBloom(evm, ran.logs))
  }

  function ContextOf(h: Header, ancestors: seq<Hash>): Context {
    Context(h.gasLimit, h.number, h.time, ancestors)
  }

  // --- re-execution ---

  datatype Field = BlockHashField | ParentHash | BlockNumber | Timestamp | TransactionStatus | StateRoot | GasUsed
                 | TransactionsRoot | ReceiptsRoot | LogsBloomField | StoredReceipts

  datatype Fault = Unreadable(block: nat) | BadTransaction(block: nat, index: nat, error: TxError)
                 | BothKinds(block: nat) | BadSysOp(block: nat, cause: ParseError)
                 | Mismatch(block: nat, field: Field)

  datatype Replayed = Replayed(root: World, receipts: seq<Receipt>, gasUsed: nat)

  /** One more transaction on top of what the ones before it left. */
  function ReplayTx(evm: Evm, ctx: Context, tx: Tx, index: nat, sofar: Replayed): Result<Replayed, Fault> {
    match evm.sender(tx)
    case None => Err(BadTransaction(ctx.number, index, WrongChainId))
    case Some(from) =>
      match ApplyMessage(evm, sofar.root, ctx, tx, from)
      case Err(e) => Err(BadTransaction(ctx.number, index, e))
      case Ok(ran) =>
        if ran.failed then Err(Mismatch(ctx.number, TransactionStatus))
        else
          var cumulative := sofar.gasUsed + ran.used;
          Ok(Replayed(ran.world, sofar.receipts + [BuildReceipt(evm, tx, ran, cumulative)], cumulative))
  }

  function ReplayTxs(evm: Evm, ctx: Context, txs: seq<Tx>, start: World): (r: Result<Replayed, Fault>)
    ensures r.Ok? ==> |r.value.receipts| == |txs|
  {
    if txs == [] then Ok(Replayed(start, [], 0))
    else
      var last := |txs| - 1;
      match ReplayTxs(evm, ctx, txs[..last], start)
      case Err(e) => Err(e)
      case Ok(sofar) => ReplayTx(evm, ctx, txs[last], last, sofar)
  }

  /** A block is either a system operation or its transactions, never both. */
  function ReplayBlock(evm: Evm, ancestors: seq<Hash>, block: Block, parentRoot: World): (r: Result<Replayed, Fault>)
    ensures r.Ok? ==> |r.value.receipts| == |block.txs|
  {
    match Parse(block.header.extra)
    case Ok(op) =>
      if block.txs != [] then Err(BothKinds(Number(block)))
      else (match ApplySysOp(parentRoot, op)
            case Err(e) => Err(BadSysOp(Number(block), e))
            case Ok(world) => Ok(Replayed(world, [], 0)))
    case Err(NotSysOp) => ReplayTxs(evm, ContextOf(block.header, ancestors), block.txs, parentRoot)
    case Err(e) => Err(BadSysOp(Number(block), e))
  }

  function VerifyLinkage(block: Block, parent: Block): Option<Field> {
    if block.header.parentHash != BlockHash(parent) then Some(ParentHash)
    else if Number(block) != Number(parent) + 1 then Some(BlockNumber)
    else if block.header.time <= parent.header.time then Some(Timestamp)
    else None
  }

  function VerifyBlock(block: Block, r: Replayed): Option<Field> {
    var h := block.header;
    if r.root != h.root then Some(StateRoot)
    else if r.gasUsed != h.gasUsed then Some(GasUsed)
    else if TxRoot(block.txs) != h.txRoot then Some(TransactionsRoot)
    else if ReceiptRoot(block.txs, r.receipts) != h.receiptRoot then Some(ReceiptsRoot)
    else if ReceiptsBloom(r.receipts) != h.bloom then Some(LogsBloomField)
    else None
  }

  /** Re-execute a block and hold what it gives against the header's commitments. */
  function CheckBody(evm: Evm, ancestors: seq<Hash>, block: Block, parentRoot: World): (r: Result<Replayed, Fault>)
    ensures r.Ok? ==> r.value.root == block.header.root
    ensures r.Ok? ==> |r.value.receipts| == |block.txs|
  {
    match ReplayBlock(evm, ancestors, block, parentRoot)
    case Err(e) => Err(e)
    case Ok(r) =>
      match VerifyBlock(block, r)
      case Some(field) => Err(Mismatch(Number(block), field))
      case None => Ok(r)
  }

  /** Everything a node checks before a block may follow `parent`. */
  function Check(evm: Evm, ancestors: seq<Hash>, parent: Block, parentRoot: World, block: Block)
    : (r: Result<Replayed, Fault>)
    ensures r.Ok? ==> r.value.root == block.header.root
    ensures r.Ok? ==> |r.value.receipts| == |block.txs|
  {
    match VerifyLinkage(block, parent)
    case Some(field) => Err(Mismatch(Number(block), field))
    case None => CheckBody(evm, ancestors, block, parentRoot)
  }

  // --- sealing ---

  datatype Built = Built(block: Block, receipts: seq<Receipt>)

  function BuildHeader(parent: Header, gasLimit: nat, timestamp: nat, extra: string): Header {
    Header(HashOf(parent), parent.number + 1, timestamp, gasLimit, extra, 0,
           World(map[], map[], 0), 0, EmptyRoot, EmptyRoot, {})
  }

  function Assemble(h: Header, root: World, txs: seq<Tx>, receipts: seq<Receipt>): Built {
    Built(Block(h.(root := root, gasUsed := GasTotal(receipts), bloom := ReceiptsBloom(receipts),
                   txRoot := TxRoot(txs), receiptRoot := ReceiptRoot(txs, receipts)), txs), receipts)
  }

  /** A one-transaction block on top of `parent`, or the reason there is none. */
  function SealTx(evm: Evm, ancestors: seq<Hash>, parent: Header, gasLimit: nat, timestamp: nat, tx: Tx)
    : Result<Built, TxError>
  {
    match ValidateTx(evm, parent.root, tx, gasLimit)
    case Err(e) => Err(e)
    case Ok(from) =>
      var header := BuildHeader(parent, gasLimit, timestamp, "");
      match ApplyMessage(evm, parent.root, ContextOf(header, ancestors), tx, from)
      case Err(e) => Err(e)
      case Ok(ran) =>
        if ran.failed then Err(Reverted(ran.output))
        else Ok(Assemble(header, ran.world, [tx], [BuildReceipt(evm, tx, ran, ran.used)]))
  }

  function SealEmpty(parent: Header, gasLimit: nat, timestamp: nat): Built {
    Assemble(BuildHeader(parent, gasLimit, timestamp, ""), parent.root, [], [])
  }

  /** The encoding is parsed back before the block is built. */
  function SealSysOp(evm: Evm, parent: Header, gasLimit: nat, timestamp: nat, op: SysOp): Result<Built, ParseError> {
    match ApplySysOp(parent.root, op)
    case Err(e) => Err(e)
    case Ok(world) =>
      var extra := Encode(op, evm.checksum);
      match Parse(extra)
      case Err(e) => Err(e)
      case Ok(_) => Ok(Assemble(BuildHeader(parent, gasLimit, timestamp, extra), world, [], []))
  }

  // --- whatever is sealed is accepted ---

  /** A sealed transaction block re-executes to what it was sealed with; it passes
      every check exactly when its timestamp moved forward. */
  lemma SealedTxChecks(evm: Evm, ancestors: seq<Hash>, parent: Block, gasLimit: nat, timestamp: nat, tx: Tx)
    requires SealTx(evm, ancestors, parent.header, gasLimit, timestamp, tx).Ok?
    ensures var built := SealTx(evm, ancestors, parent.header, gasLimit, timestamp, tx).value;
            var body := CheckBody(evm, ancestors, built.block, parent.header.root);
            && body == Ok(Replayed(built.block.header.root, built.receipts, built.block.header.gasUsed))
            && Check(evm, ancestors, parent, parent.header.root, built.block) ==
               if timestamp > parent.header.time then body else Err(Mismatch(Number(built.block), Timestamp))
  {
    hide LogsBloom;
    var built := SealTx(evm, ancestors, parent.header, gasLimit, timestamp, tx).value;
    assert built.block.txs == [tx] && built.block.txs[..0] == [];
    assert |built.receipts| == 1 && built.receipts[..0] == [];
    var ctx := ContextOf(built.block.header, ancestors);
    assert ReplayTxs(evm, ctx, [], parent.header.root) == Ok(Replayed(parent.header.root, [], 0));
    var r := ReplayBlock(evm, ancestors, built.block, parent.header.root);
    assert r == ReplayTx(evm, ctx, tx, 0, Replayed(parent.header.root, [], 0));
    assert r.value.receipts == [] + built.receipts == built.receipts;
    assert GasTotal(built.receipts) == GasTotal(built.receipts[..0]) + built.receipts[0].gasUsed;
  }

  lemma SealedEmptyChecks(evm: Evm, ancestors: seq<Hash>, parent: Block, gasLimit: nat, timestamp: nat)
    ensures var built := SealEmpty(parent.header, gasLimit, timestamp);
            var body := CheckBody(evm, ancestors, built.block, parent.header.root);
            && body == Ok(Replayed(built.block.header.root, [], 0))
            && Check(evm, ancestors, parent, parent.header.root, built.block) ==
               if timestamp > parent.header.time then body else Err(Mismatch(Number(built.block), Timestamp))
  {
  }

  /** The same for a system operation; it is refused before sealing exactly when
      `ApplySysOp` would not carry it out. */
  lemma SealedSysOpChecks(evm: Evm, ancestors: seq<Hash>, parent: Block, gasLimit: nat, timestamp: nat, op: SysOp)
    requires op.address < Pow16(ADDRESS_DIGITS)
    ensures SealSysOp(evm, parent.header, gasLimit, timestamp, op).Ok? <==> Applicable(op)
    ensures Applicable(op) ==>
              var built := SealSysOp(evm, parent.header, gasLimit, timestamp, op).value;
              var body := CheckBody(evm, ancestors, built.block, parent.header.root);
              && body == Ok(Replayed(built.block.header.root, [], 0))
              && Check(evm, ancestors, parent, parent.header.root, built.block) ==
                 if timestamp > parent.header.time then body else Err(Mismatch(Number(built.block), Timestamp))
  {
    hide Encode, Parse, Pow16;
    RoundTrip(op, evm.checksum);
  }
}
