/** The node's single write path: one object that seals, proposes, verifies and
    follows, and keeps the development clock.  Every method states the whole new
    state; a call that fails changes nothing but what it says. */
module Sequencers {
  import opened Blocks
  import opened SysOps
  import opened Ledger
  import opened Storage
  import opened Following
  import opened Clock
  import opened Replayers
  import Outcomes

  const MAX_FUTURE_DRIFT: int := 15 * SECOND

  datatype Candidate = Candidate(block: Block, receipt: Option<Receipt>, parent: Hash)

  datatype Dial = Dial(offset: int, pin: Option<nat>)

  /** The dial once a block stamped `sealed` is on disk: a pin is used up once. */
  function Consumed(c: Dial, sealed: nat, now: int): Dial {
    if c.pin.None? then c else Dial(Rebased(sealed, now), None)
  }

  /** The timestamp the next block would carry. */
  function Due(db: Store, c: Dial, now: int): nat {
    match CurrentHeader(db)
    case None => 0
    case Some(head) => Peek(head.time, c.offset, c.pin, now)
  }

  /** An explicit timestamp replaces the pin. */
  function Staged(c: Dial, at: Option<nat>): Dial {
    if at.Some? then c.(pin := at) else c
  }

  /** A requested time must lie past the head's. */
  predicate TooEarly(db: Store, at: Option<nat>) {
    at.Some? && CurrentHeader(db).Some? && at.value <= CurrentHeader(db).value.time
  }

  function CandidateOf(built: Built): Candidate {
    Candidate(built.block, if built.receipts == [] then None else Some(built.receipts[0]),
              built.block.header.parentHash)
  }

  /** Complete a header from what execution produced. */
  method AssembleBlock(header: Header, root: World, txs: seq<Tx>, receipts: seq<Receipt>) returns (block: Block)
    ensures block == Assemble(header, root, txs, receipts).block
  {
    var gasUsed: nat := 0;
    var bloom: set<nat> := {};
    for i := 0 to |receipts|
      invariant gasUsed == GasTotal(receipts[..i]) && bloom == ReceiptsBloom(receipts[..i])
    {
      assert receipts[..i + 1][..i] == receipts[..i];
      gasUsed := gasUsed + receipts[i].gasUsed;
      bloom := bloom + receipts[i].bloom;
    }
    assert receipts[..|receipts|] == receipts;
    var h := header.(root := root, gasUsed := gasUsed, bloom := bloom);
    if |txs| == 0 {
      h := h.(txRoot := EmptyRoot, receiptRoot := EmptyRoot);
    } else {
      h := h.(txRoot := RootOf(txs), receiptRoot := RootOf(Leaves(receipts)));
    }
    return Block(h, txs);
  }

  class Sequencer {
    const evm: Evm
    const gasLimit: nat
    const adoptClock: bool
    var db: Store
    var devOffset: int
    var pinnedTime: Option<nat>
    var feed: seq<Block>

    ghost function Time(): Dial
      reads this
    {
      Dial(devOffset, pinnedTime)
    }

    ghost predicate Valid()
      reads this
    {
      InRange(devOffset) && (pinnedTime.Some? ==> pinnedTime.value < UINT64)
    }

    /** Over a stored chain: the clock resumes from the head. */
    constructor (evm: Evm, db: Store, gasLimit: nat, adoptClock: bool, now: int)
      requires SaneWall(now) && (CurrentHeader(db).Some? ==> CurrentHeader(db).value.time < UINT64)
      ensures Valid() && this.evm == evm && this.db == db && this.gasLimit == gasLimit && this.adoptClock == adoptClock
      ensures pinnedTime == None && feed == []
      ensures devOffset == if CurrentHeader(db).Some? then Seeded(CurrentHeader(db).value.time, now) else 0
    {
      this.evm, this.db, this.gasLimit, this.adoptClock := evm, db, gasLimit, adoptClock;
      pinnedTime, feed := None, [];
      var head := CurrentHeader(db);
      if head.Some? {
        SeedInRange(head.value.time, now);
        devOffset := Seeded(head.value.time, now);
      } else {
        devOffset := 0;
      }
    }

    // --- the clock ---

    method SetDevOffset(d: int)
      modifies this`devOffset
      ensures devOffset == ClampDuration(d) && (d % SECOND == 0 ==> InRange(devOffset))
    {
      var limit := MAX_OFFSET * SECOND;
      devOffset := if d > limit then limit else if d < -limit then -limit else d;
    }

    /** Add to the offset, but never by less than it takes to put the next block
        `seconds` past the head. */
    method IncreaseTime(seconds: nat, now: int) returns (r: Option<int>)
      requires Valid() && SaneWall(now) && (CurrentHeader(db).Some? ==> CurrentHeader(db).value.time < UINT64)
      modifies this`devOffset
      ensures Valid()
      ensures r == if CurrentHeader(db).None? then None
                   else Clock.IncreaseTime(old(devOffset), CurrentHeader(db).value.time, now, seconds)
      ensures devOffset == if r.Some? then r.value * SECOND else old(devOffset)
    {
      if seconds > MAX_OFFSET {
        return None;
      }
      var parent := CurrentHeader(db);
      if parent.None? {
        return None;
      }
      OffsetStaysInRange(devOffset, parent.value.time, now, seconds);
      var total := ToInt64(Quotient(devOffset, SECOND) + ToInt64(seconds));
      var floor := ToInt64(ToInt64(ToInt64(parent.value.time) + ToInt64(seconds)) - Unix(now));
      if total < floor {
        total := floor;
      }
      if total > MAX_OFFSET || total < -MAX_OFFSET {
        return None;
      }
      devOffset := ToInt64(total * SECOND);
      return Some(total);
    }

    method SetNextBlockTimestamp(ts: nat) returns (r: Option<BuildError>)
      requires Valid() && ts < UINT64
      modifies this`pinnedTime
      ensures Valid()
      ensures r.None? <==> CurrentHeader(db).Some? && !TooEarly(db, Some(ts))
      ensures pinnedTime == if r.None? then Some(ts) else old(pinnedTime)
    {
      var parent := CurrentHeader(db);
      if parent.None? {
        return Some(HeadMissing);
      }
      if ts <= parent.value.time {
        return Some(NotIncreasing);
      }
      pinnedTime := Some(ts);
      return None;
    }

    method PeekTimestamp(parentTime: nat, now: int) returns (ts: nat)
      ensures ts == Peek(parentTime, devOffset, pinnedTime, now)
    {
      if pinnedTime.Some? {
        ts := pinnedTime.value;
        if ts <= parentTime {
          return ToUint64(parentTime + 1);
        }
        return ts;
      }
      return NextTimestamp(parentTime, devOffset, now);
    }

    method CommitTimestamp(sealed: nat, now: int)
      requires Valid() && SaneWall(now) && sealed < UINT64
      modifies this`devOffset, this`pinnedTime
      ensures Valid() && Time() == Consumed(old(Time()), sealed, now)
    {
      if pinnedTime.None? {
        return;
      }
      OffsetStaysInRange(devOffset, sealed, now, 0);
      pinnedTime := None;
      Rebase(sealed, now);
    }

    method AdoptTimestamp(sealed: nat, now: int)
      requires Valid() && SaneWall(now) && sealed < UINT64
      modifies this`devOffset
      ensures Valid() && devOffset == if adoptClock then Rebased(sealed, now) else old(devOffset)
    {
      if !adoptClock {
        return;
      }
      OffsetStaysInRange(devOffset, sealed, now, 0);
      Rebase(sealed, now);
    }

    method Rebase(sealed: nat, now: int)
      modifies this`devOffset
      ensures devOffset == Rebased(sealed, now)
    {
      var delta := ToInt64(ToInt64(sealed) - Unix(now));
      if delta > MAX_OFFSET {
        delta := MAX_OFFSET;
      }
      if delta < -MAX_OFFSET {
        delta := -MAX_OFFSET;
      }
      devOffset := ToInt64(delta * SECOND);
    }

    // --- sealing alone ---

    /** What sealing leaves behind: the block on disk as head, its pin consumed,
        its event published. */
    twostate predicate Sealed(built: Built, dial: Dial, now: int)
      reads this
    {
      && db == Persist(old(db), built.block, StoredForm(built.receipts))
      && feed == old(feed) + [built.block]
      && Time() == Consumed(dial, built.block.header.time, now)
    }

    twostate predicate Untouched()
      reads this
    {
      db == old(db) && feed == old(feed) && Time() == old(Time())
    }

    /** Assemble, persist, use up the pin, publish. */
    method Finalize(header: Header, root: World, txs: seq<Tx>, receipts: seq<Receipt>, now: int) returns (block: Block)
      requires Valid() && SaneWall(now) && header.time < UINT64
      modifies this
      ensures Valid() && Sealed(Assemble(header, root, txs, receipts), old(Time()), now)
      ensures block == Assemble(header, root, txs, receipts).block
    {
      block := AssembleBlock(header, root, txs, receipts);
      db := Persist(db, block, StoredForm(receipts));
      CommitTimestamp(header.time, now);
      feed := feed + [block];
    }

    /** Execute a transaction on the head and seal it; a transaction that cannot
        be included, or reverts, leaves everything as it was, the pin included. */
    method SubmitTx(tx: Tx, now: int) returns (r: Result<Receipt, BuildError>)
      requires Valid() && SaneWall(now) && (CurrentHeader(db).Some? ==> CurrentHeader(db).value.time < UINT64)
      modifies this
      ensures Valid()
      ensures var built := Build(evm, old(db), gasLimit, Due(old(db), old(Time()), now), Transaction(tx));
              if built.Err? then r == Err(built.error) && Untouched()
              else r == Ok(built.value.receipts[0]) && Sealed(built.value, old(Time()), now)
      ensures CurrentHeader(old(db)).Some? ==>
                var step := Seal(Transaction(tx), Due(old(db), old(Time()), now));
                Admissible(old(db), step) && db == Perform(evm, gasLimit, old(db), step)
    {
      hide ReplayBlock, LogsBloom, Peek, Rebased, Persist, InRange, CheckNonce;
      var head := CurrentHeader(db);
      if head.None? {
        return Err(HeadMissing);
      }
      Moving(now, Transaction(tx));
      var parent := head.value;
      var from := ValidateTx(evm, parent.root, tx, gasLimit);
      if from.Err? {
        return Err(TxFailed(from.error));
      }
      StampInRange(parent.time, now);
      var timestamp := PeekTimestamp(parent.time, now);
      var header := BuildHeader(parent, gasLimit, timestamp, "");
      var result := ApplyMessage(evm, parent.root, ContextOf(header, Ancestors(db, header.number)), tx, from.value);
      if result.Err? {
        return Err(TxFailed(result.error));
      }
      if result.value.failed {
        return Err(TxFailed(Reverted(result.value.output)));
      }
      var receipt := BuildReceipt(evm, tx, result.value, result.value.used);
      var _ := Finalize(header, result.value.world, [tx], [receipt], now);
      return Ok(receipt);
    }

    lemma Moving(now: int, work: Work)
      requires Valid() && SaneWall(now) && CurrentHeader(db).Some? && CurrentHeader(db).value.time < UINT64
      requires work.Balance? ==> work.op.address < Pow16(ADDRESS_DIGITS)
      ensures Admissible(db, Seal(work, Due(db, Time(), now)))
    {
      DueIsAdmissible(db, Time(), now, work);
    }

    lemma StampInRange(parentTime: nat, now: int)
      requires Valid() && SaneWall(now) && parentTime < UINT64
      ensures Peek(parentTime, devOffset, pinnedTime, now) < UINT64
    {
      StrictlyLater(parentTime, devOffset, pinnedTime, now);
    }

    /** An empty block, at a given time if one is asked for. */
    method MineEmpty(at: Option<nat>, now: int) returns (r: Result<Block, BuildError>)
      requires Valid() && SaneWall(now) && (CurrentHeader(db).Some? ==> CurrentHeader(db).value.time < UINT64)
      requires at.Some? ==> at.value < UINT64
      modifies this
      ensures Valid()
      ensures var dial := Staged(old(Time()), at);
              var built := Build(evm, old(db), gasLimit, Due(old(db), dial, now), Empty);
              if built.Err? then r == Err(built.error) && Untouched()
              else if TooEarly(old(db), at) then r == Err(NotIncreasing) && Untouched()
              else r == Ok(built.value.block) && Sealed(built.value, dial, now)
      ensures CurrentHeader(old(db)).Some? && !TooEarly(old(db), at) ==>
                var step := Seal(Empty, Due(old(db), Staged(old(Time()), at), now));
                Admissible(old(db), step) && db == Perform(evm, gasLimit, old(db), step)
    {
      hide NextTimestamp, Rebased, Persist, InRange;
      var head := CurrentHeader(db);
      if head.None? {
        return Err(HeadMissing);
      }
      var parent := head.value;
      var timestamp: nat;
      if at.Some? {
        if at.value <= parent.time {
          return Err(NotIncreasing);
        }
        timestamp := at.value;
        pinnedTime := at;
      } else {
        Moving(now, Empty);
        StampInRange(parent.time, now);
        timestamp := PeekTimestamp(parent.time, now);
      }
      var block := Finalize(BuildHeader(parent, gasLimit, timestamp, ""), parent.root, [], [], now);
      return Ok(block);
    }

    /** A balance change, sealed as a block that carries it as text: the account then
        has that balance in the head's state, and nothing else there has changed. */
    method SetBalance(address: Address, balance: int, now: int) returns (r: Result<Block, BuildError>)
      requires Valid() && SaneWall(now) && (CurrentHeader(db).Some? ==> CurrentHeader(db).value.time < UINT64)
      modifies this
      ensures Valid()
      ensures var op := SysOp(SET_BALANCE, address, balance);
              var built := Build(evm, old(db), gasLimit, Due(old(db), old(Time()), now), Balance(op));
              if balance < 0 then r == Err(OpFailed(Malformed)) && Untouched()
              else if built.Err? then r == Err(built.error) && Untouched()
              else r == Ok(built.value.block) && Sealed(built.value, old(Time()), now)
      ensures balance >= 0 && address < Pow16(ADDRESS_DIGITS) && CurrentHeader(old(db)).Some? ==>
                var step := Seal(Balance(SysOp(SET_BALANCE, address, balance)), Due(old(db), old(Time()), now));
                Admissible(old(db), step) && db == Perform(evm, gasLimit, old(db), step)
      ensures r.Ok? ==>
                && CurrentHeader(old(db)).Some? && CurrentHeader(db).Some? && balance >= 0
                && OnlyBalance(CurrentHeader(old(db)).value.root, CurrentHeader(db).value.root, address, balance)
    {
      hide Parse, Encode, Peek, Rebased, Persist, InRange, ApplySysOp, Pow16, OnlyBalance, CurrentHeader;
      if balance < 0 {
        return Err(OpFailed(Malformed));
      }
      var op := SysOp(SET_BALANCE, address, balance);
      var head := CurrentHeader(db);
      if head.None? {
        return Err(HeadMissing);
      }
      if address < Pow16(ADDRESS_DIGITS) {
        Moving(now, Balance(op));
      }
      var parent := head.value;
      var world := ApplySysOp(parent.root, op);
      if world.Err? {
        return Err(OpFailed(world.error));
      }
      var extra := Encode(op, evm.checksum);
      var parsed := Parse(extra);
      if parsed.Err? {
        return Err(OpFailed(parsed.error));
      }
      StampInRange(parent.time, now);
      var timestamp := PeekTimestamp(parent.time, now);
      Outcomes.SealedBalance(evm, db, gasLimit, timestamp, address, balance);
      var block := Finalize(BuildHeader(parent, gasLimit, timestamp, extra), world.value, [], [], now);
      return Ok(block);
    }

    // --- proposing: the same blocks, and nothing written ---

    /** Fails exactly when SubmitTx would, with the same error, and otherwise
        gives the block SubmitTx would have sealed. */
    method BuildCandidate(tx: Tx, now: int) returns (r: Result<Candidate, BuildError>)
      ensures var built := Build(evm, db, gasLimit, Due(db, Time(), now), Transaction(tx));
              r == if built.Err? then Err(built.error) else Ok(CandidateOf(built.value))
    {
      hide LogsBloom, Peek, CheckNonce;
      var head := CurrentHeader(db);
      if head.None? {
        return Err(HeadMissing);
      }
      var parent := head.value;
      var from := ValidateTx(evm, parent.root, tx, gasLimit);
      if from.Err? {
        return Err(TxFailed(from.error));
      }
      var timestamp := PeekTimestamp(parent.time, now);
      var header := BuildHeader(parent, gasLimit, timestamp, "");
      var result := ApplyMessage(evm, parent.root, ContextOf(header, Ancestors(db, header.number)), tx, from.value);
      if result.Err? {
        return Err(TxFailed(result.error));
      }
      if result.value.failed {
        return Err(TxFailed(Reverted(result.value.output)));
      }
      var receipt := BuildReceipt(evm, tx, result.value, result.value.used);
      var block := AssembleBlock(header, result.value.world, [tx], [receipt]);
      return Ok(Candidate(block, Some(receipt), HashOf(parent)));
    }

    method BuildEmptyCandidate(at: Option<nat>, now: int) returns (r: Result<Candidate, BuildError>)
      ensures var built := Build(evm, db, gasLimit, Due(db, Staged(Time(), at), now), Empty);
              r == if built.Err? then Err(built.error)
                   else if TooEarly(db, at) then Err(NotIncreasing) else Ok(CandidateOf(built.value))
    {
      hide NextTimestamp;
      var head := CurrentHeader(db);
      if head.None? {
        return Err(HeadMissing);
      }
      var parent := head.value;
      var timestamp := PeekTimestamp(parent.time, now);
      if at.Some? {
        if at.value <= parent.time {
          return Err(NotIncreasing);
        }
        timestamp := at.value;
      }
      var block := AssembleBlock(BuildHeader(parent, gasLimit, timestamp, ""), parent.root, [], []);
      return Ok(Candidate(block, None, HashOf(parent)));
    }

    method BuildSysOpCandidate(op: SysOp, now: int) returns (r: Result<Candidate, BuildError>)
      ensures var built := Build(evm, db, gasLimit, Due(db, Time(), now), Balance(op));
              r == if built.Err? then Err(built.error) else Ok(CandidateOf(built.value))
    {
      hide Parse, Encode, Peek, ApplySysOp;
      var head := CurrentHeader(db);
      if head.None? {
        return Err(HeadMissing);
      }
      var parent := head.value;
      var world := ApplySysOp(parent.root, op);
      if world.Err? {
        return Err(OpFailed(world.error));
      }
      var extra := Encode(op, evm.checksum);
      var parsed := Parse(extra);
      if parsed.Err? {
        return Err(OpFailed(parsed.error));
      }
      var timestamp := PeekTimestamp(parent.time, now);
      var block := AssembleBlock(BuildHeader(parent, gasLimit, timestamp, extra), world.value, [], []);
      return Ok(Candidate(block, None, HashOf(parent)));
    }

    // --- taking blocks from elsewhere ---

    /** The checks shared by voting on a block and adopting one. */
    method Reexecute(block: Block, parent: Block) returns (r: Result<Replayed, Fault>)
      ensures r == Check(evm, Ancestors(db, Number(block)), parent, parent.header.root, block)
    {
      var broken := VerifyLinkage(block, parent);
      if broken.Some? {
        return Err(Mismatch(Number(block), broken.value));
      }
      var replayer := new Replayer(evm, db);
      var executed := replayer.ReplayBlock(block, parent.header.root);
      if executed.Err? {
        return executed;
      }
      var wrong := replayer.VerifyBlock(block, executed.value);
      if wrong.Some? {
        return Err(Mismatch(Number(block), wrong.value));
      }
      return executed;
    }

    /** What a validator runs before it votes: re-execution, and a bound on the
        block's timestamp; nothing is written. */
    method VerifyCandidate(block: Block, now: int) returns (verdict: Verdict)
      ensures verdict == Following.VerifyCandidate(evm, db, block, ToUint64(Unix(now + devOffset + MAX_FUTURE_DRIFT)))
    {
      hide Check, Unix, ToUint64;
      var n := Number(block);
      if n == 0 {
        return GenesisPush;
      }
      var head := CurrentHeader(db);
      if head.None? {
        return NoHead;
      }
      if n <= head.value.number {
        return if CanonicalHash(db, n) == BlockHash(block) then AlreadyApplied else Fork;
      }
      if n > head.value.number + 1 {
        return OutOfOrder(head.value.number + 1);
      }
      var limit := ToUint64(Unix(now + devOffset + MAX_FUTURE_DRIFT));
      if block.header.time > limit {
        return Verdict.Refused(Mismatch(n, Timestamp));
      }
      var parent := BlockByHeader(db, head.value);
      if parent.None? {
        return NoHead;
      }
      var checked := Reexecute(block, parent.value);
      match checked {
        case Err(e) => return Verdict.Refused(e);
        case Ok(x) => return Accepted(x);
      }
    }

    /** Adopt a block from elsewhere if re-execution reproduces it: the database
        gains exactly that block, or nothing changes at all. */
    method ApplyExternalBlock(block: Block, now: int) returns (verdict: Verdict)
      requires Valid() && SaneWall(now) && block.header.time < UINT64
      modifies this
      ensures Valid() && verdict == Judge(evm, old(db), block)
      ensures db == Following.ApplyExternalBlock(evm, old(db), block) && pinnedTime == old(pinnedTime)
      ensures Admissible(old(db), Take(block)) && db == Perform(evm, gasLimit, old(db), Take(block))
      ensures feed == if verdict.Accepted? then old(feed) + [block] else old(feed)
      ensures devOffset == if verdict.Accepted? && adoptClock then Rebased(block.header.time, now) else old(devOffset)
    {
      hide Check, Persist, Rebased, InRange;
      var n := Number(block);
      if n == 0 {
        return GenesisPush;
      }
      var head := CurrentHeader(db);
      if head.None? {
        return NoHead;
      }
      if n <= head.value.number {
        return if CanonicalHash(db, n) == BlockHash(block) then AlreadyApplied else Fork;
      }
      if n > head.value.number + 1 {
        return OutOfOrder(head.value.number + 1);
      }
      var parent := BlockByHeader(db, head.value);
      if parent.None? {
        return NoHead;
      }
      var checked := Reexecute(block, parent.value);
      if checked.Err? {
        return Verdict.Refused(checked.error);
      }
      db := Persist(db, block, StoredForm(checked.value.receipts));
      AdoptTimestamp(block.header.time, now);
      feed := feed + [block];
      return Accepted(checked.value);
    }
  }

  /** A pin past the head stamps exactly one block: that block carries it, and the
      next follows the clock again, with no wall second lost when the pin was at
      most 2^32 seconds ahead or at most a second has passed. */
  lemma PinUsedOnce(parent: nat, c: Dial, now: int, later: int)
    requires c.pin.Some? && parent < c.pin.value < UINT64 && SaneWall(now) && SaneWall(later) && now <= later
    ensures var pin, after := c.pin.value, Consumed(c, c.pin.value, now);
            && Peek(parent, c.offset, c.pin, now) == pin && after.pin == None
            && (Continues(Peek(pin, after.offset, after.pin, later), pin, now, later) <==>
                pin < UINT64 - 1 && (pin - Unix(now) <= MAX_OFFSET || Unix(later) - Unix(now) <= 1))
  {
    hide Unix, Rebased, NextTimestamp, Continues;
    ContinuesAfterRebase(c.pin.value, now, later);
  }

  /** The bound on a proposal's timestamp is fifteen seconds past the node's clock,
      exactly as long as that is not before 1970. */
  lemma DriftBound(offset: int, now: int)
    requires InRange(offset) && SaneWall(now)
    ensures var exact := Unix(now) + offset / SECOND + 15;
            ToUint64(Unix(now + offset + MAX_FUTURE_DRIFT)) == exact <==> exact >= 0
  {
    ShiftBy(now, offset / SECOND + 15);
    assert offset == SECOND * (offset / SECOND);
  }

  /** The dial always gives an admissible timestamp, so every run of the methods
      above is a run of Following's steps. */
  lemma DueIsAdmissible(db: Store, c: Dial, now: int, work: Work)
    requires CurrentHeader(db).Some? && CurrentHeader(db).value.time < UINT64 && SaneWall(now)
    requires InRange(c.offset) && (c.pin.Some? ==> c.pin.value < UINT64)
    requires work.Balance? ==> work.op.address < Pow16(ADDRESS_DIGITS)
    ensures Admissible(db, Seal(work, Due(db, c, now)))
  {
    hide Peek, Pow16;
    StrictlyLater(CurrentHeader(db).value.time, c.offset, c.pin, now);
  }
}
