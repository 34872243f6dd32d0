/** Taking a block somebody else produced, and the runs of a node that seals,
    proposes and follows: its chain is only ever extended by blocks that audit. */
module Following {
  import opened Blocks
  import opened SysOps
  import opened Ledger
  import opened Storage
  import Protocol

  datatype Verdict = Accepted(replayed: Replayed) | AlreadyApplied | Fork | OutOfOrder(expected: nat) | GenesisPush
                   | NoHead | Refused(fault: Fault)

  /** What `ApplyExternalBlock` answers. */
  function Judge(evm: Evm, db: Store, block: Block): Verdict {
    if Number(block) == 0 then GenesisPush
    else
      match CurrentHeader(db)
      case None => NoHead
      case Some(head) =>
        if Number(block) <= head.number then
          if CanonicalHash(db, Number(block)) == BlockHash(block) then AlreadyApplied else Fork
        else if Number(block) > head.number + 1 then OutOfOrder(head.number + 1)
        else
          match BlockByHeader(db, head)
          case None => NoHead
          case Some(parent) =>
            match Check(evm, Ancestors(db, Number(block)), parent, parent.header.root, block)
            case Err(e) => Verdict.Refused(e)
            case Ok(r) => Accepted(r)
  }

  function ApplyExternalBlock(evm: Evm, db: Store, block: Block): Store {
    match Judge(evm, db, block)
    case Accepted(r) => Persist(db, block, StoredForm(r.receipts))
    case _ => db
  }

  /** The block is the next one, whatever is in it. */
  predicate NextInLine(db: Store, block: Block) {
    CurrentHeader(db).Some? && Number(block) == CurrentHeader(db).value.number + 1
  }

  /** The same decision at proposal time: a bound on the timestamp comes before
      anything is executed, and nothing is written. */
  function VerifyCandidate(evm: Evm, db: Store, block: Block, limit: nat): Verdict {
    if NextInLine(db, block) && block.header.time > limit then Verdict.Refused(Mismatch(Number(block), Timestamp))
    else Judge(evm, db, block)
  }

  /** What the node holds: one chain, with the receipts its blocks produce. */
  ghost predicate Holds(evm: Evm, db: Store, chain: seq<Block>) {
    Stores(db, chain) && KeepsReceipts(evm, db, chain)
  }

  // --- robustness ---

  /** Every answer, in terms of the chain the node holds. */
  lemma JudgeExactly(evm: Evm, db: Store, chain: seq<Block>, block: Block)
    requires Stores(db, chain)
    ensures var v, n := Judge(evm, db, block), Number(block);
            && (v.GenesisPush? <==> n == 0)
            && (v.AlreadyApplied? <==> 0 < n < |chain| && BlockHash(chain[n]) == BlockHash(block))
            && (v.Fork? <==> 0 < n < |chain| && BlockHash(chain[n]) != BlockHash(block))
            && (v.OutOfOrder? <==> n > |chain|) && (v.OutOfOrder? ==> v.expected == |chain|)
            && (v.Accepted? <==> n == |chain| && ValidNext(evm, chain, block))
            && (v.Accepted? ==> Ok(v.replayed) == CheckNext(evm, chain, block))
            && !v.NoHead?
  {
    hide Check;
    HeadOf(db, chain);
    assert Number(block) < |chain| ==> CanonicalHash(db, Number(block)) == BlockHash(chain[Number(block)]);
  }

  /** Whatever block is offered, nothing canonical is rewritten: the chain gains
      exactly that block when it was accepted, and the database is otherwise untouched. */
  lemma NeverRewrites(evm: Evm, db: Store, chain: seq<Block>, block: Block)
    requires Holds(evm, db, chain)
    ensures Judge(evm, db, block).Accepted? ==> Holds(evm, ApplyExternalBlock(evm, db, block), chain + [block])
    ensures !Judge(evm, db, block).Accepted? ==> ApplyExternalBlock(evm, db, block) == db
  {
    hide Check, Judge, Persist, StoredForm, Stores;
    JudgeExactly(evm, db, chain, block);
    if Judge(evm, db, block).Accepted? {
      ValidIsExecuted(evm, chain, block);
      PersistStores(db, chain, block, StoredForm(Judge(evm, db, block).replayed.receipts));
      PersistKeepsReceipts(evm, db, chain, block, StoredForm(Judge(evm, db, block).replayed.receipts));
    }
  }

  function AfterOffers(evm: Evm, db: Store, offers: seq<Block>): Store {
    if offers == [] then db
    else ApplyExternalBlock(evm, AfterOffers(evm, db, offers[..|offers| - 1]), offers[|offers| - 1])
  }

  /** Under any sequence of offers, stale, repeated, out of order or forged, the
      old chain stays a prefix of the new one, every added block was offered and
      follows from what is below it, and the chain still audits if it did. */
  lemma {:induction false} OffersNeverRewrite(evm: Evm, db: Store, chain: seq<Block>, offers: seq<Block>)
    returns (longer: seq<Block>)
    requires Holds(evm, db, chain)
    ensures Holds(evm, AfterOffers(evm, db, offers), longer)
    ensures chain <= longer && |longer| <= |chain| + |offers|
    ensures forall i :: |chain| <= i < |longer| ==> longer[i] in offers && ValidNext(evm, longer[..i], longer[i])
    ensures Storage.Follows(evm, chain) ==> Storage.Follows(evm, longer)
  {
    hide Judge, Check, Holds, ApplyExternalBlock, ValidNext;
    longer := chain;
    if offers != [] {
      var last := |offers| - 1;
      longer := OffersNeverRewrite(evm, db, chain, offers[..last]);
      var before := AfterOffers(evm, db, offers[..last]);
      NeverRewrites(evm, before, longer, offers[last]);
      if Judge(evm, before, offers[last]).Accepted? {
        HoldsStores(evm, before, longer);
        JudgeExactly(evm, before, longer, offers[last]);
        var shorter := longer;
        longer := shorter + [offers[last]];
        HoldsStores(evm, before, shorter);
        FollowsGrows(evm, shorter, offers[last]);
        forall i | |chain| <= i < |longer| ensures longer[i] in offers && ValidNext(evm, longer[..i], longer[i]) {
          if i < |shorter| {
            assert longer[i] == shorter[i] && longer[..i] == shorter[..i];
          } else {
            assert longer[..i] == shorter;
          }
        }
      }
    }
  }

  lemma HoldsStores(evm: Evm, db: Store, chain: seq<Block>)
    requires Holds(evm, db, chain)
    ensures Stores(db, chain)
  {
  }

  // --- catching up ---

  /** One pull: offer the peer's newest block, and if it is ahead apply the block
      the refusal names. */
  function Pull(evm: Evm, db: Store, peer: seq<Block>): Store
    requires |peer| > 0
  {
    match Judge(evm, db, peer[|peer| - 1])
    case OutOfOrder(expected) => if expected < |peer| then ApplyExternalBlock(evm, db, peer[expected]) else db
    case _ => ApplyExternalBlock(evm, db, peer[|peer| - 1])
  }

  function Pulls(evm: Evm, db: Store, peer: seq<Block>, k: nat): Store
    requires |peer| > 0
  {
    if k == 0 then db else Pull(evm, Pulls(evm, db, peer, k - 1), peer)
  }

  lemma PullAddsOne(evm: Evm, db: Store, peer: seq<Block>, n: nat)
    requires 0 < n <= |peer| && Holds(evm, db, peer[..n]) && Storage.Follows(evm, peer)
    requires forall i :: 0 <= i < |peer| ==> Number(peer[i]) == i
    ensures n < |peer| ==> Holds(evm, Pull(evm, db, peer), peer[..n + 1])
    ensures n == |peer| ==> Pull(evm, db, peer) == db
  {
    hide Check, Judge, CheckNext, KeepsReceipts;
    var last := peer[|peer| - 1];
    HoldsStores(evm, db, peer[..n]);
    JudgeExactly(evm, db, peer[..n], last);
    NeverRewrites(evm, db, peer[..n], last);
    if n < |peer| {
      assert ValidNext(evm, peer[..n], peer[n]);
      JudgeExactly(evm, db, peer[..n], peer[n]);
      NeverRewrites(evm, db, peer[..n], peer[n]);
      assert peer[..n] + [peer[n]] == peer[..n + 1];
    }
  }

  /** A node that holds the first n blocks of an audited peer holds exactly
      min(n + k, all) of them after k pulls: it catches up in the missing number
      of steps, no fewer and no more, and then stays. */
  lemma {:induction false} CatchesUpExactly(evm: Evm, db: Store, peer: seq<Block>, n: nat, k: nat)
    requires 0 < n <= |peer| && Holds(evm, db, peer[..n]) && Storage.Follows(evm, peer)
    requires forall i :: 0 <= i < |peer| ==> Number(peer[i]) == i
    ensures Holds(evm, Pulls(evm, db, peer, k), peer[..if n + k < |peer| then n + k else |peer|])
    ensures k >= |peer| - n ==> Pulls(evm, db, peer, k) == Pulls(evm, db, peer, |peer| - n)
  {
    hide Holds, Pull, ValidNext;
    if k > 0 {
      CatchesUpExactly(evm, db, peer, n, k - 1);
      PullAddsOne(evm, Pulls(evm, db, peer, k - 1), peer, if n + k - 1 < |peer| then n + k - 1 else |peer|);
    }
  }

  // --- the consensus engine's view of all this ---

  /** The chain operations the engine is given: the ledger's own. */
  ghost predicate BackedBy(ops: Protocol.ChainOps, evm: Evm) {
    forall chain, block :: ops.valid(chain, block) <==> ValidNext(evm, chain, block)
  }

  /** What a validator accepts as a proposal is what the engine's `VerifyCandidate` says. */
  lemma EngineVerifiesLedger(evm: Evm, ops: Protocol.ChainOps, db: Store, chain: seq<Block>, block: Block, now: nat,
                             limit: nat)
    requires Holds(evm, db, chain) && BackedBy(ops, evm) && (ops.inTime(block, now) <==> block.header.time <= limit)
    ensures Protocol.VerifyCandidate(ops, chain, block, now) <==> VerifyCandidate(evm, db, block, limit).Accepted?
  {
    hide Judge, Check, KeepsReceipts;
    HeadOf(db, chain);
    JudgeExactly(evm, db, chain, block);
  }

  /** The engine's `ApplyExternal` is the ledger's: the same answer, and the
      database then holds the chain the engine computed. */
  lemma EngineAppliesLedger(evm: Evm, ops: Protocol.ChainOps, db: Store, chain: seq<Block>, block: Block)
    requires Holds(evm, db, chain) && BackedBy(ops, evm)
    ensures var a, v := Protocol.ApplyExternal(ops, chain, block), Judge(evm, db, block);
            && (a.Appended? <==> v.Accepted?) && (a.AlreadyApplied? <==> v.AlreadyApplied?) && (a.Fork? <==> v.Fork?)
            && (a.OutOfOrder? <==> v.OutOfOrder?) && (a.Genesis? <==> v.GenesisPush?) && (a.Mismatch? <==> v.Refused?)
            && (a.OutOfOrder? ==> a.expected == v.expected)
            && Holds(evm, ApplyExternalBlock(evm, db, block), if a.Appended? then a.chain else chain)
  {
    hide Judge, Check, Stores, KeepsReceipts, ApplyExternalBlock;
    JudgeExactly(evm, db, chain, block);
    NeverRewrites(evm, db, chain, block);
  }

  // --- sealing alone, or proposing and applying, is the same ---

  /** A block sealed on the head the database has, offered back to it. */
  lemma OfferSealed(evm: Evm, db: Store, chain: seq<Block>, built: Built)
    requires Holds(evm, db, chain) && Number(built.block) == |chain|
    requires Executed(evm, chain, built.block) ==>
               ExecuteNext(evm, chain, built.block).value.receipts == built.receipts
    ensures ValidNext(evm, chain, built.block) ==>
              ApplyExternalBlock(evm, db, built.block) == Persist(db, built.block, StoredForm(built.receipts))
    ensures !ValidNext(evm, chain, built.block) ==> ApplyExternalBlock(evm, db, built.block) == db
    ensures Holds(evm, Persist(db, built.block, StoredForm(built.receipts)), chain + [built.block])
  {
    assert |chain| > 0;
    hide Judge, CheckNext, ExecuteNext, Persist, StoredForm, Stores, KeepsReceipts;
    ValidIsExecuted(evm, chain, built.block);
    JudgeExactly(evm, db, chain, built.block);
    NeverRewrites(evm, db, chain, built.block);
    PersistStores(db, chain, built.block, StoredForm(built.receipts));
    PersistKeepsReceipts(evm, db, chain, built.block, StoredForm(built.receipts));
  }

  /** What a client may ask a node to put in a block. */
  datatype Work = Transaction(tx: Tx) | Empty | Balance(op: SysOp)

  datatype BuildError = HeadMissing | TxFailed(error: TxError) | OpFailed(reason: ParseError) | NotIncreasing

  /** The block that work gives on the node's head, or why there is none. */
  function Build(evm: Evm, db: Store, gasLimit: nat, timestamp: nat, work: Work): Result<Built, BuildError> {
    match CurrentHeader(db)
    case None => Err(HeadMissing)
    case Some(head) =>
      match work
      case Transaction(tx) =>
        (match SealTx(evm, Ancestors(db, head.number + 1), head, gasLimit, timestamp, tx)
         case Ok(built) => Ok(built)
         case Err(e) => Err(TxFailed(e)))
      case Empty => Ok(SealEmpty(head, gasLimit, timestamp))
      case Balance(op) =>
        (match SealSysOp(evm, head, gasLimit, timestamp, op)
         case Ok(built) => Ok(built)
         case Err(e) => Err(OpFailed(e)))
  }

  lemma BuiltChecks(evm: Evm, db: Store, chain: seq<Block>, gasLimit: nat, timestamp: nat, work: Work)
    requires Stores(db, chain) && (work.Balance? ==> work.op.address < Pow16(ADDRESS_DIGITS))
    requires Build(evm, db, gasLimit, timestamp, work).Ok?
    ensures var built := Build(evm, db, gasLimit, timestamp, work).value;
            && Number(built.block) == |chain|
            && built.block.header.parentHash == BlockHash(chain[|chain| - 1]) && built.block.header.time == timestamp
            && (ValidNext(evm, chain, built.block) <==> timestamp > chain[|chain| - 1].header.time)
            && Executed(evm, chain, built.block)
            && ExecuteNext(evm, chain, built.block).value.receipts == built.receipts
  {
    hide Check, CheckBody, Pow16, ApplySysOp;
    HeadOf(db, chain);
    var parent := chain[|chain| - 1];
    match work
    case Transaction(tx) => SealedTxChecks(evm, Hashes(chain), parent, gasLimit, timestamp, tx);
    case Empty => SealedEmptyChecks(evm, Hashes(chain), parent, gasLimit, timestamp);
    case Balance(op) => SealedSysOpChecks(evm, Hashes(chain), parent, gasLimit, timestamp, op);
  }

  /** Proposing refines sealing: a candidate built on the head, later applied to
      that same head, leaves the very database that sealing it would have left,
      head, state, receipts and index alike, exactly when its time moved forward. */
  lemma ApplyingIsSealing(evm: Evm, db: Store, chain: seq<Block>, gasLimit: nat, timestamp: nat, work: Work)
    requires Holds(evm, db, chain) && (work.Balance? ==> work.op.address < Pow16(ADDRESS_DIGITS))
    requires Build(evm, db, gasLimit, timestamp, work).Ok?
    ensures var built := Build(evm, db, gasLimit, timestamp, work).value;
            ApplyExternalBlock(evm, db, built.block) == Persist(db, built.block, StoredForm(built.receipts))
            <==> timestamp > chain[|chain| - 1].header.time
  {
    hide Build, CheckNext, ExecuteNext, StoredForm, KeepsReceipts;
    var built := Build(evm, db, gasLimit, timestamp, work).value;
    BuiltChecks(evm, db, chain, gasLimit, timestamp, work);
    OfferSealed(evm, db, chain, built);
    if ApplyExternalBlock(evm, db, built.block) == db {
      assert |chain| in Persist(db, built.block, StoredForm(built.receipts)).canonical && |chain| !in db.canonical;
    }
  }

  // --- runs of a node ---

  /** One thing a node does: seal work at a timestamp, or take a block. */
  datatype Step = Seal(work: Work, timestamp: nat) | Take(block: Block)

  /** A header's time is 64 bits wide, an address 160, and the node's clock always
      moves a block past its parent unless the parent is at the very last second. */
  predicate Admissible(db: Store, step: Step) {
    match step
    case Take(block) => block.header.time < UINT64
    case Seal(work, timestamp) =>
      && timestamp < UINT64
      && (work.Balance? ==> work.op.address < Pow16(ADDRESS_DIGITS))
      && CurrentHeader(db).Some?
      && (timestamp > CurrentHeader(db).value.time || CurrentHeader(db).value.time == UINT64 - 1)
  }

  function Perform(evm: Evm, gasLimit: nat, db: Store, step: Step): Store {
    match step
    case Take(block) => ApplyExternalBlock(evm, db, block)
    case Seal(work, timestamp) =>
      match Build(evm, db, gasLimit, timestamp, work)
      case Err(_) => db
      case Ok(built) => Persist(db, built.block, StoredForm(built.receipts))
  }

  function AfterSteps(evm: Evm, gasLimit: nat, db: Store, steps: seq<Step>): Store {
    if steps == [] then db
    else Perform(evm, gasLimit, AfterSteps(evm, gasLimit, db, steps[..|steps| - 1]), steps[|steps| - 1])
  }

  predicate AllAdmissible(evm: Evm, gasLimit: nat, db: Store, steps: seq<Step>) {
    forall i :: 0 <= i < |steps| ==> Admissible(AfterSteps(evm, gasLimit, db, steps[..i]), steps[i])
  }

  /** Each block follows from those before it, unless its parent sits at the last second. */
  predicate FollowsInTime(evm: Evm, chain: seq<Block>) {
    forall i :: 1 <= i < |chain| ==>
      (ValidNext(evm, chain[..i], chain[i]) <==> chain[i - 1].header.time < UINT64 - 1)
  }

  predicate Timed(chain: seq<Block>) {
    forall i :: 0 <= i < |chain| ==> chain[i].header.time < UINT64
  }

  lemma GrowsInTime(evm: Evm, chain: seq<Block>, block: Block)
    requires FollowsInTime(evm, chain) && |chain| > 0
    requires ValidNext(evm, chain, block) <==> chain[|chain| - 1].header.time < UINT64 - 1
    ensures FollowsInTime(evm, chain + [block])
  {
    hide ValidNext;
    var longer := chain + [block];
    forall i | 1 <= i < |longer|
      ensures ValidNext(evm, longer[..i], longer[i]) <==> longer[i - 1].header.time < UINT64 - 1
    {
      if i < |chain| {
        assert longer[..i] == chain[..i] && longer[i] == chain[i] && longer[i - 1] == chain[i - 1];
      } else {
        assert longer[..i] == chain;
      }
    }
  }

  lemma ValidMovesTime(evm: Evm, chain: seq<Block>, block: Block)
    requires ValidNext(evm, chain, block)
    ensures block.header.time > chain[|chain| - 1].header.time
  {
    hide ReplayBlock, VerifyBlock;
  }

  /** What holds of the chain of a node along its runs. */
  ghost predicate Intact(evm: Evm, db: Store, chain: seq<Block>) {
    Holds(evm, db, chain) && FollowsInTime(evm, chain) && Timed(chain) && Executes(evm, chain)
  }

  /** r is db after at most one more block. */
  ghost predicate Lengthened(evm: Evm, db: Store, chain: seq<Block>, r: Store, longer: seq<Block>) {
    && Intact(evm, r, longer) && chain <= longer && |longer| <= |chain| + 1
    && forall i: nat, hash :: i < |chain| ==> ReadReceipts(r, hash, i) == ReadReceipts(db, hash, i)
  }

  lemma TakeKeeps(evm: Evm, db: Store, chain: seq<Block>, block: Block) returns (longer: seq<Block>)
    requires Intact(evm, db, chain) && block.header.time < UINT64
    ensures Lengthened(evm, db, chain, ApplyExternalBlock(evm, db, block), longer)
  {
    hide Judge, KeepsReceipts, ValidNext, CheckNext, Executed, StoredForm;
    longer := chain;
    HeadOf(db, chain);
    JudgeExactly(evm, db, chain, block);
    NeverRewrites(evm, db, chain, block);
    if Judge(evm, db, block).Accepted? {
      longer := chain + [block];
      PersistStores(db, chain, block, StoredForm(Judge(evm, db, block).replayed.receipts));
      ValidMovesTime(evm, chain, block);
      ValidIsExecuted(evm, chain, block);
      GrowsInTime(evm, chain, block);
      ExecutesGrows(evm, chain, block);
    }
  }

  lemma SealKeeps(evm: Evm, gasLimit: nat, db: Store, chain: seq<Block>, timestamp: nat, work: Work)
    returns (longer: seq<Block>)
    requires Intact(evm, db, chain) && Admissible(db, Seal(work, timestamp))
    ensures Lengthened(evm, db, chain, Perform(evm, gasLimit, db, Seal(work, timestamp)), longer)
  {
    hide Build, KeepsReceipts, ValidNext, ExecuteNext, Pow16, StoredForm;
    longer := chain;
    HeadOf(db, chain);
    if Build(evm, db, gasLimit, timestamp, work).Ok? {
      var built := Build(evm, db, gasLimit, timestamp, work).value;
      BuiltChecks(evm, db, chain, gasLimit, timestamp, work);
      OfferSealed(evm, db, chain, built);
      longer := chain + [built.block];
      PersistStores(db, chain, built.block, StoredForm(built.receipts));
      GrowsInTime(evm, chain, built.block);
      ExecutesGrows(evm, chain, built.block);
    }
  }

  lemma StepKeeps(evm: Evm, gasLimit: nat, db: Store, chain: seq<Block>, step: Step) returns (longer: seq<Block>)
    requires Intact(evm, db, chain) && Admissible(db, step)
    ensures Lengthened(evm, db, chain, Perform(evm, gasLimit, db, step), longer)
  {
    hide Intact, Lengthened, Build, ApplyExternalBlock, Pow16;
    match step
    case Take(block) => longer := TakeKeeps(evm, db, chain, block);
    case Seal(work, timestamp) => longer := SealKeeps(evm, gasLimit, db, chain, timestamp, work);
  }

  lemma {:induction false} RunKeeps(evm: Evm, gasLimit: nat, db: Store, genesis: Block, steps: seq<Step>)
    returns (chain: seq<Block>)
    requires Holds(evm, db, [genesis]) && genesis.header.time < UINT64 && AllAdmissible(evm, gasLimit, db, steps)
    ensures Intact(evm, AfterSteps(evm, gasLimit, db, steps), chain) && [genesis] <= chain
    ensures forall hash :: ReadReceipts(AfterSteps(evm, gasLimit, db, steps), hash, 0) == ReadReceipts(db, hash, 0)
  {
    hide Holds, Perform, Admissible, ValidNext, Executed, ReadReceipts;
    if steps == [] {
      chain := [genesis];
      assert FollowsInTime(evm, chain);
    } else {
      var last := |steps| - 1;
      forall i | 0 <= i < last ensures Admissible(AfterSteps(evm, gasLimit, db, steps[..last][..i]), steps[..last][i]) {
        assert steps[..last][..i] == steps[..i];
        assert Admissible(AfterSteps(evm, gasLimit, db, steps[..i]), steps[i]);
      }
      chain := RunKeeps(evm, gasLimit, db, genesis, steps[..last]);
      assert Admissible(AfterSteps(evm, gasLimit, db, steps[..last]), steps[last]);
      chain := StepKeeps(evm, gasLimit, AfterSteps(evm, gasLimit, db, steps[..last]), chain, steps[last]);
    }
  }

  /** A chain whose genesis is stamped with the last 64-bit second. */
  function LastSecond(): Block {
    Block(Header(ZeroHash, 0, UINT64 - 1, 0, "", 0, World(map[], map[], 0), 0, EmptyRoot, EmptyRoot, {}), [])
  }

  function FirstDatabase(genesis: Block): Store {
    Persist(Store(map[], map[], map[], map[], ZeroHash, map[]), genesis, [])
  }

  /** Sealing one empty block over it, stamped 0, leaves a database that does not audit. */
  lemma LastSecondFailsAudit(evm: Evm) returns (db: Store, steps: seq<Step>)
    ensures db == FirstDatabase(LastSecond()) && steps == [Seal(Empty, 0)]
    ensures Holds(evm, db, [LastSecond()]) && AllAdmissible(evm, 0, db, steps)
    ensures Replay(evm, AfterSteps(evm, 0, db, steps), 1, 1) == Err(Mismatch(1, Timestamp))
  {
    db, steps := FirstDatabase(LastSecond()), [Seal(Empty, 0)];
    FirstHolds(evm, LastSecond());
    assert steps[..0] == [];
    var built := SealEmpty(LastSecond().header, 0, 0);
    HeadOf(db, [LastSecond()]);
    var after := Persist(db, built.block, []);
    assert AfterSteps(evm, 0, db, steps[..0]) == db;
    assert AfterSteps(evm, 0, db, steps) == after;
    PersistStores(db, [LastSecond()], built.block, []);
    StoredBlockAt(after, [LastSecond()] + [built.block], 0);
    StoredBlockAt(after, [LastSecond()] + [built.block], 1);
    hide Stores, KeepsReceipts, ReplayBlock;
    SealedEmptyChecks(evm, Ancestors(after, 1), LastSecond(), 0, 0);
  }

  lemma FirstHolds(evm: Evm, genesis: Block)
    requires Number(genesis) == 0
    ensures Holds(evm, FirstDatabase(genesis), [genesis])
  {
  }

  lemma InTimeFollows(evm: Evm, chain: seq<Block>)
    requires FollowsInTime(evm, chain)
    ensures Storage.Follows(evm, chain) <==> forall i :: 0 <= i < |chain| - 1 ==> chain[i].header.time < UINT64 - 1
  {
    hide ValidNext;
    if forall i :: 0 <= i < |chain| - 1 ==> chain[i].header.time < UINT64 - 1 {
      forall i | 1 <= i < |chain| ensures ValidNext(evm, chain[..i], chain[i]) {
        assert chain[i - 1].header.time < UINT64 - 1;
      }
    } else {
      var i :| 0 <= i < |chain| - 1 && chain[i].header.time >= UINT64 - 1;
      assert !ValidNext(evm, chain[..i + 1], chain[i + 1]);
    }
  }

  /** Seal implies audit.  Along every run, whatever mixture of transactions,
      empty blocks, system operations and blocks from elsewhere built it, the
      full audit of the chain succeeds and ends in the head's state, exactly
      when no block was built on a parent at the last representable second. */
  lemma SealImpliesAudit(evm: Evm, gasLimit: nat, db: Store, genesis: Block, steps: seq<Step>)
    returns (chain: seq<Block>)
    requires Holds(evm, db, [genesis]) && genesis.header.time < UINT64 && AllAdmissible(evm, gasLimit, db, steps)
    ensures Stores(AfterSteps(evm, gasLimit, db, steps), chain) && chain[0] == genesis
    ensures var audit := Replay(evm, AfterSteps(evm, gasLimit, db, steps), 1, |chain| - 1);
            && (audit.Ok? <==> forall i :: 0 <= i < |chain| - 1 ==> chain[i].header.time < UINT64 - 1)
            && (audit.Ok? ==>
                  audit.value.stateRoot == chain[|chain| - 1].header.root && audit.value.blocks == |chain| - 1)
  {
    hide AfterSteps, ReplayRange, AllAdmissible, KeepsReceipts, Executes, Storage.Follows, FollowsInTime, Timed;
    chain := RunKeeps(evm, gasLimit, db, genesis, steps);
    AuditMeansFollows(evm, AfterSteps(evm, gasLimit, db, steps), chain, |chain| - 1);
    assert chain[..|chain|] == chain;
    InTimeFollows(evm, chain);
  }
}
