/** The node's development clock: a shift of wall time with four writers, held as
    a 64-bit count of nanoseconds.  Casts and sums wrap as the machine's do. */
module Clock {
  import opened Blocks

  const SECOND: int := 1_000_000_000
  const MAX_OFFSET: int := 0x1_0000_0000
  const INT64: int := 0x8000_0000_0000_0000
  function ToInt64(x: int): (r: int)
    ensures -INT64 <= r < INT64
  {
    (x + INT64) % UINT64 - INT64
  }

  function ToUint64(x: int): (r: nat)
    ensures r < UINT64
  {
    x % UINT64
  }

  /** Whole seconds of a time in nanoseconds, rounded down. */
  function Unix(now: int): int {
    now / SECOND
  }

  /** Signed machine division rounds toward zero. */
  function Quotient(x: int, y: int): int
    requires y > 0
  {
    if x >= 0 then x / y else -(-x / y)
  }

  function NextTimestamp(parent: nat, offset: int, now: int): nat {
    var t := Unix(now + offset);
    var clamped := if t < 0 then 0 else t;
    if clamped <= parent then ToUint64(parent + 1) else clamped
  }

  /** A pin wins unless the chain has already passed it. */
  function Peek(parent: nat, offset: int, pin: Option<nat>, now: int): nat {
    match pin
    case None => NextTimestamp(parent, offset, now)
    case Some(ts) => if ts <= parent then ToUint64(parent + 1) else ts
  }

  function Clamp(d: int): int {
    if d > MAX_OFFSET then MAX_OFFSET else if d < -MAX_OFFSET then -MAX_OFFSET else d
  }

  function ClampDuration(d: int): int {
    if d > MAX_OFFSET * SECOND then MAX_OFFSET * SECOND
    else if d < -MAX_OFFSET * SECOND then -MAX_OFFSET * SECOND else d
  }

  /** The offset after a pinned block is sealed, or a block is adopted. */
  function Rebased(sealed: nat, now: int): int {
    ToInt64(Clamp(ToInt64(ToInt64(sealed) - Unix(now))) * SECOND)
  }

  /** The offset a node starts with over a stored head. */
  function Seeded(head: nat, now: int): int {
    if head > ToUint64(MAX_OFFSET + ToUint64(Unix(now))) then 0
    else
      var ahead := ToInt64(ToInt64(head) - Unix(now));
      if ahead <= 0 then 0 else ClampDuration(ToInt64(ahead * SECOND))
  }

  /** The new total offset in seconds, or None when it is refused. */
  function IncreaseTime(offset: int, head: nat, now: int, seconds: nat): Option<int> {
    if seconds > MAX_OFFSET then None
    else
      var sum := ToInt64(Quotient(offset, SECOND) + ToInt64(seconds));
      var floor := ToInt64(ToInt64(ToInt64(head) + ToInt64(seconds)) - Unix(now));
      var total := if sum < floor then floor else sum;
      if total > MAX_OFFSET || total < -MAX_OFFSET then None else Some(total)
  }

  lemma Wraps(x: int)
    ensures -INT64 <= x < INT64 ==> ToInt64(x) == x
    ensures INT64 <= x < UINT64 + INT64 ==> ToInt64(x) == x - UINT64
    ensures -INT64 - UINT64 <= x < -INT64 ==> ToInt64(x) == x + UINT64
  {
  }

  lemma WrapSum(a: int, b: int)
    ensures ToInt64(ToInt64(a) + b) == ToInt64(a + b)
  {
  }

  // --- the invariant every writer keeps ---

  /** The stored shift: whole seconds, within the bound. */
  predicate InRange(offset: int) {
    -MAX_OFFSET * SECOND <= offset <= MAX_OFFSET * SECOND && offset % SECOND == 0
  }

  /** Wall time is after 1970 and within 2^62 seconds of it. */
  predicate SaneWall(now: int) {
    0 <= Unix(now) < INT64 / 2
  }

  lemma SeedInRange(t: nat, now: int)
    requires SaneWall(now) && t < UINT64
    ensures InRange(Seeded(t, now))
    ensures Seeded(t, now) == if 0 < t - Unix(now) <= MAX_OFFSET then (t - Unix(now)) * SECOND else 0
  {
    hide ToInt64, Unix;
    var w := Unix(now);
    Wraps(t);
    Wraps(t - w);
    Wraps((t - w) * SECOND);
  }

  /** Every writer leaves the offset in range, and nothing on the way overflows:
      the nanosecond products equal their exact values. */
  lemma OffsetStaysInRange(offset: int, t: nat, now: int, seconds: nat)
    requires InRange(offset) && SaneWall(now) && t < UINT64
    ensures InRange(Rebased(t, now)) && InRange(Seeded(t, now))
    ensures Rebased(t, now) == Clamp(ToInt64(ToInt64(t) - Unix(now))) * SECOND
    ensures IncreaseTime(offset, t, now, seconds).Some? ==>
              var total := IncreaseTime(offset, t, now, seconds).value;
              InRange(total * SECOND) && ToInt64(total * SECOND) == total * SECOND && total >= offset / SECOND + seconds
  {
    hide ToInt64, ToUint64, Unix;
    var w := Unix(now);
    Wraps(t);
    Wraps(ToInt64(t) - w);
    Wraps(Clamp(ToInt64(ToInt64(t) - w)) * SECOND);
    Wraps(ToInt64(ToInt64(t) - w) * SECOND);
    SeedInRange(t, now);
    if IncreaseTime(offset, t, now, seconds).Some? {
      Wraps(seconds);
      Wraps(Quotient(offset, SECOND) + seconds);
      Wraps(IncreaseTime(offset, t, now, seconds).value * SECOND);
    }
  }

  // --- time moves forward ---

  /** The next block is stamped later than its parent exactly when there is a later second. */
  lemma StrictlyLater(parent: nat, offset: int, pin: Option<nat>, now: int)
    requires InRange(offset) && SaneWall(now) && parent < UINT64 && (pin.Some? ==> pin.value < UINT64)
    ensures Peek(parent, offset, pin, now) > parent <==> parent < UINT64 - 1
    ensures Peek(parent, offset, pin, now) < UINT64
  {
    assert offset == SECOND * (offset / SECOND);
    assert Unix(now + offset) == Unix(now) + offset / SECOND;
  }

  /** What continuity asks of the block built at `later`, over a head stamped t
      when the wall clock read `now`. */
  predicate Continues(next: nat, t: nat, now: int, later: int) {
    next >= t + 1 && next >= t + (Unix(later) - Unix(now))
  }

  lemma ShiftBy(now: int, seconds: int)
    ensures Unix(now + seconds * SECOND) == Unix(now) + seconds
  {
  }

  /** Time continuity after a consumed pin or an adopted block: no second of wall
      time is lost exactly when the head was at most 2^32 seconds ahead, or no
      more than one second has passed. */
  lemma ContinuesAfterRebase(t: nat, now: int, later: int)
    requires SaneWall(now) && SaneWall(later) && later >= now && t < UINT64
    ensures Continues(NextTimestamp(t, Rebased(t, now), later), t, now, later) <==>
            t < UINT64 - 1 && (t - Unix(now) <= MAX_OFFSET || Unix(later) - Unix(now) <= 1)
  {
    hide ToInt64, Unix;
    OffsetStaysInRange(0, t, now, 0);
    Wraps(t);
    Wraps(ToInt64(t) - Unix(now));
    Later(now, later);
    ShiftBy(later, Clamp(ToInt64(ToInt64(t) - Unix(now))));
  }

  /** The same after a restart, which leaves a head in the past alone. */
  lemma ContinuesAfterSeed(t: nat, now: int, later: int)
    requires SaneWall(now) && SaneWall(later) && later >= now && t < UINT64
    ensures Continues(NextTimestamp(t, Seeded(t, now), later), t, now, later) <==>
            t < UINT64 - 1 && (t - Unix(now) <= MAX_OFFSET || Unix(later) - Unix(now) <= 1)
  {
    hide ToInt64, Unix, Seeded;
    SeedInRange(t, now);
    Later(now, later);
    ShiftBy(later, t - Unix(now));
    ShiftBy(later, 0);
  }

  /** A granted jump of s seconds puts the next block s past the head exactly when
      the sums fit in 63 bits, or the jump is one that parent + 1 covers. */
  lemma JumpReachesExactly(offset: int, head: nat, now: int, seconds: nat, later: int)
    requires InRange(offset) && SaneWall(now) && SaneWall(later) && later >= now && head < UINT64
    requires IncreaseTime(offset, head, now, seconds).Some?
    ensures var total := IncreaseTime(offset, head, now, seconds).value;
            NextTimestamp(head, total * SECOND, later) >= head + seconds <==>
            head + seconds - Unix(now) < INT64 || (seconds <= 1 && head < UINT64 - 1)
  {
    hide ToInt64, Unix;
    var total, d := IncreaseTime(offset, head, now, seconds).value, head + seconds - Unix(now);
    OffsetStaysInRange(offset, head, now, seconds);
    Wraps(seconds);
    WrapSum(head, seconds);
    WrapSum(head + seconds, -Unix(now));
    Wraps(d);
    ShiftBy(later, total);
    Later(now, later);
  }

  /** A granted jump of two seconds, over a head stamped 2^63, that gains one. */
  lemma JumpFallsShort()
    ensures IncreaseTime(0, INT64, 0, 2) == Some(2) && NextTimestamp(INT64, 2 * SECOND, 0) == INT64 + 1
  {
    Wraps(2);
    Wraps(INT64);
    Wraps(INT64 + 2);
    ShiftBy(0, 2);
  }

  lemma Later(now: int, later: int)
    requires now <= later
    ensures Unix(now) <= Unix(later)
  {
  }
}
