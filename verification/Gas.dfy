/** The gas estimate: a run at the ceiling, one probe, and a binary search, in
    unsigned 64-bit arithmetic. */
module GasEstimate {
  import opened Blocks

  const TX_GAS: nat := 21_000

  datatype Trial = Refused(code: nat) | Failed(outOfGas: bool, revert: nat) | Succeeded(used: nat)

  datatype GasError = Precheck(code: nat) | ExceedsAllowance(limit: nat) | Reverted(revert: nat)

  /** A trial at limit g; 0 means "not given", which is the block's own limit. */
  function Execute(run: nat -> Trial, blockLimit: nat, g: nat): Trial {
    run(if g == 0 then blockLimit else g)
  }

  predicate Works(run: nat -> Trial, blockLimit: nat, g: nat) {
    Execute(run, blockLimit, g).Succeeded?
  }

  /** An execution costs something, and never more than it was given. */
  ghost predicate SpendsWithin(run: nat -> Trial) {
    forall g: nat :: run(g).Succeeded? ==> 0 < run(g).used <= g
  }

  function Ceiling(blockLimit: nat, asked: nat): nat {
    if TX_GAS <= asked < blockLimit then asked else blockLimit
  }

  /** g works, is no less than the net gas used at the ceiling, and the limit
      just below it either failed or is less than that. */
  predicate Answer(run: nat -> Trial, blockLimit: nat, ceiling: nat, used: nat, g: nat) {
    used <= g <= ceiling && Works(run, blockLimit, g) && (g > used ==> !Works(run, blockLimit, g - 1))
  }

  function Wrap(x: int): nat {
    x % UINT64
  }

  /** net * (64*5) / (63*4), multiplied before it is divided. */
  function Probe(used: nat): nat {
    Wrap(used * 320) / 252
  }

  method EstimateGas(run: nat -> Trial, blockLimit: nat, asked: nat) returns (r: Result<nat, GasError>)
    requires SpendsWithin(run) && blockLimit < UINT64 && asked < UINT64
    ensures var top := Execute(run, blockLimit, Ceiling(blockLimit, asked));
            match top
            case Refused(code) => r == Err(Precheck(code))
            case Failed(outOfGas, revert) =>
              r == Err(if outOfGas then ExceedsAllowance(Ceiling(blockLimit, asked)) else Reverted(revert))
            case Succeeded(used) => r.Ok? && Answer(run, blockLimit, Ceiling(blockLimit, asked), used, r.value)
  {
    var hi := blockLimit;
    if asked >= TX_GAS && asked < hi {
      hi := asked;
    }
    var result := Execute(run, blockLimit, hi);
    match result {
      case Refused(code) => return Err(Precheck(code));
      case Failed(outOfGas, revert) => return Err(if outOfGas then ExceedsAllowance(hi) else Reverted(revert));
      case Succeeded(_) =>
    }
    var used := result.used;
    ghost var ceiling := hi;
    Fits(used - 1);
    var lo := Wrap(used - 1);
    var probe := Probe(used);
    if probe > lo && probe < hi {
      var trial := Execute(run, blockLimit, probe);
      if trial.Succeeded? {
        hi := probe;
      } else {
        lo := probe;
      }
    }
    hide SpendsWithin, Probe;
    while Next(lo) < hi
      invariant used - 1 <= lo < hi <= ceiling < UINT64
      invariant Works(run, blockLimit, hi) && (lo > used - 1 ==> !Works(run, blockLimit, lo))
      decreases hi - lo
    {
      var mid := Midpoint(lo, hi);
      var trial := Execute(run, blockLimit, mid);
      if trial.Succeeded? {
        hi := mid;
      } else {
        lo := mid;
      }
    }
    return Ok(hi);
  }

  lemma Fits(x: int)
    requires 0 <= x < UINT64
    ensures Wrap(x) == x
  {
  }

  function Next(lo: nat): (r: nat)
    ensures lo < UINT64 - 1 ==> r == lo + 1
  {
    Wrap(lo + 1)
  }

  /** Computed in wrapping arithmetic; exact, and strictly inside the interval. */
  function Midpoint(lo: nat, hi: nat): (mid: nat)
    requires lo + 1 < hi < UINT64
    ensures mid == (lo + hi) / 2 && lo < mid < hi
  {
    Fits(hi - lo);
    Fits(lo + (hi - lo) / 2);
    Wrap(lo + Wrap(hi - lo) / 2)
  }

  // --- what the answer means ---

  /** More gas never turns success into failure. */
  ghost predicate Monotone(run: nat -> Trial) {
    forall a: nat, b: nat :: 1 <= a <= b && run(a).Succeeded? ==> run(b).Succeeded?
  }

  /** When success is monotone the answer is the boundary: every limit from the
      net gas used up to the ceiling works exactly when it is at least g. */
  lemma AnswerIsBoundary(run: nat -> Trial, blockLimit: nat, ceiling: nat, used: nat, g: nat, x: nat)
    requires Monotone(run) && Answer(run, blockLimit, ceiling, used, g) && 1 <= used <= x <= ceiling
    ensures Works(run, blockLimit, x) <==> x >= g
  {
  }

  /** So the probe changes nothing: any two answers are the same. */
  lemma AnswerIsUnique(run: nat -> Trial, blockLimit: nat, ceiling: nat, used: nat, g: nat, h: nat)
    requires Monotone(run) && used >= 1
    requires Answer(run, blockLimit, ceiling, used, g) && Answer(run, blockLimit, ceiling, used, h)
    ensures g == h
  {
    AnswerIsBoundary(run, blockLimit, ceiling, used, g, h);
    AnswerIsBoundary(run, blockLimit, ceiling, used, h, g);
  }

  /** And it is the least limit of all that works exactly when the execution does
      not also work with one less than its own net use. */
  lemma AnswerIsLeast(run: nat -> Trial, blockLimit: nat, ceiling: nat, used: nat, g: nat)
    requires Monotone(run) && Answer(run, blockLimit, ceiling, used, g) && used >= 1
    ensures (forall x :: 1 <= x < g ==> !Works(run, blockLimit, x)) <==>
            used == 1 || !Works(run, blockLimit, used - 1)
  {
    if used > 1 && Works(run, blockLimit, used - 1) {
      assert 1 <= used - 1 < g && Works(run, blockLimit, used - 1);
    } else {
      forall x | 1 <= x < g ensures !Works(run, blockLimit, x) {
        if x >= used {
          AnswerIsBoundary(run, blockLimit, ceiling, used, g, x);
        }
      }
    }
  }

  /** An execution that uses all it is given, up to 50 000 units, and needs 30 000:
      the estimate is its net use, and much less would do. */
  lemma AnswerNeedNotBeLeast() returns (run: nat -> Trial)
    ensures SpendsWithin(run) && Monotone(run) && Execute(run, 100_000, 100_000) == Succeeded(50_000)
    ensures Answer(run, 100_000, 100_000, 50_000, 50_000) && Works(run, 100_000, 30_000)
  {
    run := (g: nat) => if g < 30_000 then Failed(true, 0) else Succeeded(if g < 50_000 then g else 50_000);
  }

  /** The probe product is exact exactly up to 2^64 / 320, far above any block limit. */
  lemma ProbeIsExact(used: nat)
    ensures Probe(used) == used * 320 / 252 <==> used <= 57_646_075_230_342_348
  {
    var p := used * 320;
    assert p == UINT64 * (p / UINT64) + p % UINT64;
    if used > 57_646_075_230_342_348 {
      assert p >= UINT64 && p / UINT64 >= 1;
      assert p - Wrap(p) >= UINT64;
    }
  }

  /** The estimate is never above what the caller offered, if that pays for a
      transaction at all, nor above the block's own limit. */
  lemma AnswerWithinOffer(run: nat -> Trial, blockLimit: nat, asked: nat, used: nat, g: nat)
    requires Answer(run, blockLimit, Ceiling(blockLimit, asked), used, g)
    ensures g <= blockLimit && (asked >= 21_000 ==> g <= asked)
    ensures Ceiling(blockLimit, asked) == if asked < 21_000 || asked > blockLimit then blockLimit else asked
  {
  }
}
