/** The scheduling arithmetic of the Virtual ASIO driver: the rational callback clock, the periodic
    deadline, and the conversions between counter ticks and 100 ns units. All of it is 64-bit. */
module CallbackClock {
  import opened Basics

  const HUNDRED_NS_PER_SECOND: nat := 10_000_000
  const I64_MAX: nat := 0x7FFF_FFFF_FFFF_FFFF

  datatype Deadline = Deadline(qpc: u64, skipped: u64)

  datatype Period = Period(whole: u64, remainder: u64)

  /** Unsigned 64-bit arithmetic wraps. */
  function Wrap(x: int): u64 {
    x % U64_MODULUS
  }

  lemma WrapSmall(x: nat)
    requires x <= U64_MAX
    ensures Wrap(x) == x
  {
  }

  function Saturated(x: nat): u64 {
    if x <= U64_MAX then x else U64_MAX
  }

  /** A sum that stays at the maximum. */
  function SaturatingSum(a: u64, b: u64): (s: u64)
    ensures s == Saturated(a + b) && s >= a
  {
    if a > U64_MAX - b then U64_MAX else a + b
  }

  lemma MulMonotone(a: nat, b: nat, c: nat)
    requires a <= b
    ensures a * c <= b * c
  {
  }

  /** The overflow test `a > b / c` is exact. */
  lemma QuotientTest(a: nat, b: nat, c: nat)
    requires c > 0
    ensures a > b / c <==> a * c > b
  {
    assert b == (b / c) * c + b % c;
    if a <= b / c {
      MulMonotone(a, b / c, c);
    } else {
      MulMonotone(b / c + 1, a, c);
    }
  }

  predicate SoundPeriod(whole: nat, remainder: nat, denominator: nat) {
    remainder < denominator <= U32_MAX && (whole != 0 || remainder != 0) && (whole < U64_MAX || remainder == 0)
  }

  /** qpc_period(): the length of a block in ticks, as a whole number and a remainder over the rate. */
  method QpcPeriod(sampleRate: u32, frames: u32, frequency: u64) returns (period: Option<Period>)
    ensures period.Some? <==> && sampleRate > 0 && frames > 0 && 0 < frequency <= U64_MAX / HUNDRED_NS_PER_SECOND
                              && frames * frequency <= U64_MAX
    ensures period.Some? ==> && period.value.whole * sampleRate + period.value.remainder == frames * frequency
                             && SoundPeriod(period.value.whole, period.value.remainder, sampleRate)
  {
    if sampleRate == 0 || frames == 0 || frequency == 0 || frequency > U64_MAX / HUNDRED_NS_PER_SECOND {
      return None;
    }
    QuotientTest(frames, U64_MAX, frequency);
    if frames > U64_MAX / frequency {
      return None;
    }
    MulMonotone(1, frames, frequency);
    var numerator: u64 := frames * frequency;
    var whole: u64, remainder: u64 := numerator / sampleRate, numerator % sampleRate;
    assert numerator == whole * sampleRate + remainder;
    MulMonotone(1, sampleRate, whole);
    return if whole != 0 || remainder != 0 then Some(Period(whole, remainder)) else None;
  }

  /** The number of periods skipped leads to the first deadline after `now`. */
  lemma Skipping(first: nat, period: nat, now: nat)
    requires period > 0 && first < now
    ensures var skipped := (now - first) / period + 1;
            && skipped <= now - first + 1 && first + skipped * period > now && first + (skipped - 1) * period <= now
  {
    var late := now - first;
    var q := late / period;
    assert late == q * period + late % period;
    MulMonotone(1, period, q);
    assert (q + 1) * period == q * period + period;
  }

  /** advance_windows_virtual_asio_deadline() */
  method AdvanceDeadline(deadline: u64, period: u64, now: u64) returns (next: Deadline)
    ensures period == 0 ==> next == Deadline(deadline, 0)
    ensures period > 0 ==> FirstAfter(next, deadline + period, period, now)
  {
    if period == 0 {
      return Deadline(deadline, 0);
    }
    if deadline > U64_MAX - period {
      return Deadline(U64_MAX, 0);
    }
    var first: u64 := deadline + period;
    if first >= now {
      return Deadline(first, 0);
    }
    next := SkipPeriods(first, period, now);
  }

  /** What advance_windows_virtual_asio_deadline() answers: a deadline on the grid of periods from `first` on,
      saturated. The first one is kept unless it is past; otherwise it is the first one after `now`. */
  predicate FirstAfter(next: Deadline, first: nat, period: nat, now: u64) {
    && next.qpc == Saturated(first + next.skipped * period) && next.qpc >= now
    && if first >= now then next.skipped == 0
       else next.skipped > 0 && first + (next.skipped - 1) * period <= now < first + next.skipped * period
  }

  /** There is only one such answer. */
  lemma FirstAfterIsUnique(a: Deadline, b: Deadline, first: nat, period: nat, now: u64)
    requires period > 0 && FirstAfter(a, first, period, now) && FirstAfter(b, first, period, now)
    ensures a == b
  {
    if first < now {
      SkippedIsQuotient(a.skipped, first, period, now);
      SkippedIsQuotient(b.skipped, first, period, now);
    }
  }

  lemma SkippedIsQuotient(skipped: nat, first: nat, period: nat, now: nat)
    requires period > 0 && skipped > 0 && first + (skipped - 1) * period <= now < first + skipped * period
    ensures skipped == (now - first) / period + 1 && (now - first) % period == now - first - (skipped - 1) * period
  {
    assert skipped * period == (skipped - 1) * period + period;
    DivModUnique(now - first, skipped - 1, now - first - (skipped - 1) * period, period);
  }

  /** `skipped` periods lead to the first deadline of the grid that is not past. */
  predicate FirstNotPast(skipped: nat, first: nat, period: nat, now: nat) {
    first + skipped * period >= now && (skipped > 0 ==> first + (skipped - 1) * period < now)
  }

  /** The answer is that deadline exactly if the first deadline is not past, or `now` is none of the grid. */
  lemma FirstNotPastIff(next: Deadline, first: nat, period: nat, now: u64)
    requires period > 0 && FirstAfter(next, first, period, now)
    ensures FirstNotPast(next.skipped, first, period, now) <==> first >= now || (now - first) % period != 0
  {
    if first < now {
      SkippedIsQuotient(next.skipped, first, period, now);
    }
  }

  /** A deadline that is due right now is skipped when it is not the first one: after deadline 0 with period
      10 the deadlines are 10 and 20, but at time 20 the answer is 30. */
  lemma DueNowIsSkipped(next: Deadline)
    requires FirstAfter(next, 10, 10, 20)
    ensures next == Deadline(30, 2) && FirstNotPast(1, 10, 10, 20) && !FirstNotPast(next.skipped, 10, 10, 20)
  {
    FirstAfterIsUnique(next, Deadline(30, 2), 10, 10, 20);
  }

  method SkipPeriods(first: u64, period: u64, now: u64) returns (next: Deadline)
    requires period > 0 && 0 < first < now
    ensures FirstAfter(next, first, period, now)
  {
    Skipping(first, period, now);
    var skipped: u64 := (now - first) / period + 1;
    QuotientTest(skipped, U64_MAX - first, period);
    if skipped > (U64_MAX - first) / period {
      return Deadline(U64_MAX, skipped);
    }
    return Deadline(first + skipped * period, skipped);
  }

  // The rational clock.

  /** Ticks since the anchor, and what is left of a tick over the denominator. */
  datatype Position = Position(ticks: nat, rest: nat)

  /** The position of the `n`-th deadline, carried from period to period. */
  function PositionAt(n: nat, whole: nat, remainder: nat, denominator: nat): (p: Position)
    requires remainder < denominator
    ensures p.rest < denominator
  {
    if n == 0 then Position(0, 0) else
      var last := PositionAt(n - 1, whole, remainder, denominator);
      if last.rest + remainder >= denominator
      then Position(last.ticks + whole + 1, last.rest + remainder - denominator)
      else Position(last.ticks + whole, last.rest + remainder)
  }

  lemma Distribute(t: nat, whole: nat, carry: nat, denominator: nat)
    ensures (t + whole + carry) * denominator == t * denominator + whole * denominator + carry * denominator
  {
  }

  lemma OneMore(n: nat, period: nat)
    requires n > 0
    ensures n * period == (n - 1) * period + period
  {
  }

  /** No drift: it is exactly `n` periods, in ticks and a rest of less than one tick, however large `n`. */
  lemma {:induction false} DeadlinesDoNotDrift(n: nat, whole: nat, remainder: nat, denominator: nat, period: nat)
    requires remainder < denominator && period == whole * denominator + remainder
    ensures var p := PositionAt(n, whole, remainder, denominator);
            p.ticks * denominator + p.rest == n * period
  {
    if n > 0 {
      var last := PositionAt(n - 1, whole, remainder, denominator);
      DeadlinesDoNotDrift(n - 1, whole, remainder, denominator, period);
      Distribute(last.ticks, whole, 0, denominator);
      Distribute(last.ticks, whole, 1, denominator);
      OneMore(n, period);
    }
  }

  /** Where the `n`-th deadline after an anchor belongs. */
  function Due(anchor: u64, n: nat, whole: nat, remainder: nat, denominator: nat): u64
    requires remainder < denominator
  {
    Saturated(anchor + PositionAt(n, whole, remainder, denominator).ticks)
  }

  lemma NextDue(anchor: u64, n: nat, whole: nat, remainder: nat, denominator: nat, carried: nat, rest: nat)
    requires remainder < denominator
    requires var sum := PositionAt(n, whole, remainder, denominator).rest + remainder;
             if sum >= denominator then carried == 1 && rest == sum - denominator else carried == 0 && rest == sum
    ensures PositionAt(n + 1, whole, remainder, denominator).rest == rest
    ensures Due(anchor, n + 1, whole, remainder, denominator)
         == Saturated(Due(anchor, n, whole, remainder, denominator) + whole + carried)
  {
  }

  class RationalClock {
    const whole: u64
    const remainder: u64
    const denominator: u64
    var deadline: u64
    var accumulator: u64
    /** The last re-anchoring, and the number of deadlines since. */
    ghost var anchor: u64
    ghost var steps: nat

    /** As qpc_period() makes them. */
    ghost predicate Sound() {
      SoundPeriod(whole, remainder, denominator)
    }

    ghost predicate Valid()
      reads this
    {
      && Sound()
      && deadline == Due(anchor, steps, whole, remainder, denominator)
      && accumulator == PositionAt(steps, whole, remainder, denominator).rest
    }

    constructor (whole: u64, remainder: u64, denominator: u64)
      ensures this.whole == whole && this.remainder == remainder && this.denominator == denominator
      ensures deadline == 0 && accumulator == 0
      ensures Sound() ==> Valid()
    {
      this.whole, this.remainder, this.denominator := whole, remainder, denominator;
      deadline, accumulator := 0, 0;
      anchor, steps := 0, 0;
    }

    /** One more period. */
    method AdvanceOne() returns (next: Deadline)
      modifies this
      ensures next == Deadline(deadline, 0) && deadline >= old(deadline)
      ensures old(Valid()) ==> Valid() && anchor == old(anchor) && steps == old(steps) + 1
    {
      if denominator == 0 || (whole == 0 && remainder == 0) {
        return Deadline(deadline, 0);
      }
      hide PositionAt, Due, Wrap, Saturated;
      if Valid() {
        WrapSmall(accumulator + remainder);
      }
      var carried, rest := Carry(Wrap(accumulator + remainder));
      if Valid() {
        NextDue(anchor, steps, whole, remainder, denominator, carried, rest);
        WrapSmall(whole + carried);
      }
      accumulator := rest;
      deadline := SaturatingSum(deadline, Wrap(whole + carried));
      steps := steps + 1;
      return Deadline(deadline, 0);
    }

    /** The whole ticks in the accumulator, and what stays in it. */
    method Carry(sum: u64) returns (carried: u64, rest: u64)
      requires denominator > 0
      ensures sum < denominator ==> carried == 0 && rest == sum
      ensures denominator <= sum < 2 * denominator ==> carried == 1 && rest == sum - denominator
    {
      if sum < denominator {
        return 0, sum;
      }
      if sum < 2 * denominator {
        DivModUnique(sum, 1, sum - denominator, denominator);
      }
      Quotient(sum, denominator);
      return sum / denominator, sum % denominator;
    }

    /** reset() */
    method Reset(anchorQpc: u64) returns (next: Deadline)
      modifies this
      ensures next == Deadline(deadline, 0) && deadline >= anchorQpc
      ensures Sound() ==> Valid() && anchor == anchorQpc && steps == 1
    {
      deadline, accumulator := anchorQpc, 0;
      anchor, steps := anchorQpc, 0;
      next := AdvanceOne();
    }

    /** advance(): never a deadline in the past. It is the next deadline of the law or, after a late call,
        the first one of the law anchored now. */
    method Advance(now: u64) returns (next: Deadline)
      modifies this
      ensures next.qpc == deadline >= now
      ensures old(Valid()) ==>
                && Valid()
                && if Due(old(anchor), old(steps) + 1, whole, remainder, denominator) >= now
                   then anchor == old(anchor) && steps == old(steps) + 1 && next.skipped == 0
                   else anchor == now && steps == 1 && next.skipped == 1
    {
      next := AdvanceOne();
      if next.qpc >= now {
        return;
      }
      next := Reset(now);
      next := next.(skipped := 1);
    }
  }

  lemma Quotient(a: nat, d: nat)
    requires d > 0
    ensures 0 <= a / d <= a
  {
    QuotientTest(a, a, d);
    MulMonotone(1, d, a);
  }

  /** With the period of qpc_period() the `n`-th deadline after an anchor is the anchor plus `n` times
      frames times frequency over the sample rate, rounded down, until it saturates. `blockTicks` is
      frames times frequency. */
  lemma DueIsExact(anchor: u64, n: nat, blockTicks: nat, whole: nat, remainder: nat, sampleRate: nat)
    requires remainder < sampleRate && blockTicks == whole * sampleRate + remainder
    ensures Due(anchor, n, whole, remainder, sampleRate) == Saturated(anchor + (n * blockTicks) / sampleRate)
  {
    var p := PositionAt(n, whole, remainder, sampleRate);
    DeadlinesDoNotDrift(n, whole, remainder, sampleRate, blockTicks);
    DivModUnique(n * blockTicks, p.ticks, p.rest, sampleRate);
  }

  /** After `denominator` periods the deadlines repeat exactly, shifted by a whole number of ticks. */
  lemma ExactAfterDenominator(n: nat, whole: nat, remainder: nat, denominator: nat, period: nat)
    requires remainder < denominator && period == whole * denominator + remainder
    ensures var p, q := PositionAt(n, whole, remainder, denominator), PositionAt(n + denominator, whole, remainder, denominator);
            q.ticks == p.ticks + period && q.rest == p.rest
  {
    var p, q := PositionAt(n, whole, remainder, denominator), PositionAt(n + denominator, whole, remainder, denominator);
    DeadlinesDoNotDrift(n, whole, remainder, denominator, period);
    DeadlinesDoNotDrift(n + denominator, whole, remainder, denominator, period);
    Distribute(n, denominator, 0, period);
    Distribute(p.ticks, period, 0, denominator);
    Commutes(denominator, period);
    SameDivision(q.ticks, q.rest, p.ticks + period, p.rest, denominator);
  }

  lemma Commutes(a: nat, b: nat)
    ensures a * b == b * a
  {
  }

  lemma SameDivision(q: nat, r: nat, s: nat, t: nat, d: nat)
    requires r < d && t < d && q * d + r == s * d + t
    ensures q == s && r == t
  {
    DivModUnique(q * d + r, q, r, d);
    DivModUnique(s * d + t, s, t, d);
  }

  // Conversions to units of 100 ns.

  /** qpc_100ns() after the counter was read: the exact quotient, rounded down. */
  method Qpc100ns(counter: u64, frequency: u64) returns (units: u64)
    requires 0 < frequency <= U64_MAX / HUNDRED_NS_PER_SECOND
    ensures units == Wrap((counter * HUNDRED_NS_PER_SECOND) / frequency)
  {
    RemainderFits(counter % frequency, frequency);
    SplitQuotient(counter, frequency, HUNDRED_NS_PER_SECOND);
    units := AddParts(counter / frequency, counter % frequency, frequency);
  }

  method AddParts(whole: nat, remainder: nat, frequency: u64) returns (units: u64)
    requires frequency > 0 && Wrap(remainder * HUNDRED_NS_PER_SECOND) == remainder * HUNDRED_NS_PER_SECOND
    ensures units == Wrap(whole * HUNDRED_NS_PER_SECOND + (remainder * HUNDRED_NS_PER_SECOND) / frequency)
  {
    var fraction := Wrap(remainder * HUNDRED_NS_PER_SECOND) / frequency;
    WrapTwice(whole * HUNDRED_NS_PER_SECOND, fraction);
    units := Wrap(Wrap(whole * HUNDRED_NS_PER_SECOND) + fraction);
  }

  lemma RemainderFits(remainder: nat, frequency: nat)
    requires remainder < frequency <= U64_MAX / HUNDRED_NS_PER_SECOND
    ensures Wrap(remainder * HUNDRED_NS_PER_SECOND) == remainder * HUNDRED_NS_PER_SECOND
  {
  }

  lemma WrapTwice(a: nat, b: nat)
    ensures Wrap(Wrap(a) + b) == Wrap(a + b)
  {
  }

  lemma SplitQuotient(x: nat, d: nat, k: nat)
    requires d > 0
    ensures (x * k) / d == (x / d) * k + ((x % d) * k) / d
    ensures (x * k) % d == ((x % d) * k) % d
  {
    var q, r := x / d, x % d;
    assert x == q * d + r;
    var s, t := (r * k) / d, (r * k) % d;
    assert r * k == s * d + t;
    assert x * k == (q * d) * k + r * k;
    assert (q * d) * k == (q * k) * d;
    assert x * k == (q * k + s) * d + t;
    DivModUnique(x * k, q * k + s, t, d);
  }

  /** The delay of arm_timer(), or None when it does not fit a signed 64-bit count. */
  method TimerDelay(deadline: u64, now: u64, frequency: u64) returns (delay: Option<int>)
    requires 0 < frequency <= U64_MAX / HUNDRED_NS_PER_SECOND
    ensures delay == DelayOf(if deadline > now then deadline - now else 0, frequency)
  {
    var remaining: u64 := if deadline > now then deadline - now else 0;
    var wholeSeconds, remainder := remaining / frequency, remaining % frequency;
    if wholeSeconds > I64_MAX / HUNDRED_NS_PER_SECOND {
      return None;
    }
    var fractional := Wrap(remainder * HUNDRED_NS_PER_SECOND + frequency - 1) / frequency;
    var whole := wholeSeconds * HUNDRED_NS_PER_SECOND;
    if fractional > I64_MAX - whole {
      return None;
    }
    return Some(Max(whole + fractional, 1));
  }

  /** What the arithmetic of arm_timer() yields, wrap-around included. */
  function DelayOf(remaining: u64, frequency: u64): Option<int>
    requires frequency > 0
  {
    var whole := (remaining / frequency) * HUNDRED_NS_PER_SECOND;
    var fractional := Wrap((remaining % frequency) * HUNDRED_NS_PER_SECOND + frequency - 1) / frequency;
    if remaining / frequency > I64_MAX / HUNDRED_NS_PER_SECOND || fractional > I64_MAX - whole then None
    else Some(Max(whole + fractional, 1))
  }

  function Ceiling(x: nat, d: nat): nat
    requires d > 0
  {
    (x + d - 1) / d
  }

  /** The timer is armed with the remaining time rounded up to 100 ns, but never with zero. */
  predicate ExactDelay(remaining: u64, frequency: u64)
    requires frequency > 0
  {
    var exact := Ceiling(remaining * HUNDRED_NS_PER_SECOND, frequency);
    DelayOf(remaining, frequency) == if exact <= I64_MAX then Some(Max(exact, 1)) else None
  }

  lemma CeilingSplits(x: nat, d: nat, k: nat)
    requires d > 0
    ensures Ceiling(x * k, d) == (x / d) * k + Ceiling((x % d) * k, d)
  {
    var q, r := x / d, x % d;
    assert x == q * d + r;
    assert x * k == (q * k) * d + r * k;
    var y := r * k + d - 1;
    assert y == (y / d) * d + y % d;
    assert x * k + d - 1 == (q * k + y / d) * d + y % d;
    DivModUnique(x * k + d - 1, q * k + y / d, y % d, d);
  }

  /** The rounding of one call is exact if and only if its numerator fits 64 bits. */
  lemma DelayIsExactIff(remaining: u64, frequency: u64)
    requires 0 < frequency <= U64_MAX / HUNDRED_NS_PER_SECOND
    ensures ExactDelay(remaining, frequency) <==> (remaining % frequency) * HUNDRED_NS_PER_SECOND + frequency - 1 <= U64_MAX
  {
    if (remaining % frequency) * HUNDRED_NS_PER_SECOND + frequency - 1 <= U64_MAX {
      FittingDelayIsExact(remaining, frequency);
    } else {
      WrappedDelayIsShort(remaining, frequency);
    }
  }

  lemma FittingDelayIsExact(remaining: u64, frequency: u64)
    requires 0 < frequency && (remaining % frequency) * HUNDRED_NS_PER_SECOND + frequency - 1 <= U64_MAX
    ensures ExactDelay(remaining, frequency)
  {
    WrapSmall((remaining % frequency) * HUNDRED_NS_PER_SECOND + frequency - 1);
    CeilingSplits(remaining, frequency, HUNDRED_NS_PER_SECOND);
    QuotientTest(remaining / frequency, I64_MAX, HUNDRED_NS_PER_SECOND);
  }

  /** A numerator that wraps loses a whole second. */
  lemma WrappedDelayIsShort(remaining: u64, frequency: u64)
    requires 0 < frequency <= U64_MAX / HUNDRED_NS_PER_SECOND
    requires (remaining % frequency) * HUNDRED_NS_PER_SECOND + frequency - 1 > U64_MAX
    ensures !ExactDelay(remaining, frequency)
  {
    var r := remaining % frequency;
    var numerator := r * HUNDRED_NS_PER_SECOND + frequency - 1;
    MulMonotone(r, frequency - 1, HUNDRED_NS_PER_SECOND);
    assert frequency * HUNDRED_NS_PER_SECOND <= U64_MAX;
    DivModUnique(numerator, 1, numerator - U64_MODULUS, U64_MODULUS);
    DivModUnique(numerator - U64_MODULUS, 0, numerator - U64_MODULUS, frequency);
    DivModUnique(numerator, HUNDRED_NS_PER_SECOND, numerator - HUNDRED_NS_PER_SECOND * frequency, frequency);
    CeilingSplits(remaining, frequency, HUNDRED_NS_PER_SECOND);
    FewSeconds(remaining, frequency);
  }

  /** At so high a frequency 64 bits of ticks last a few months only. */
  lemma FewSeconds(remaining: u64, frequency: nat)
    requires frequency * (HUNDRED_NS_PER_SECOND + 1) > U64_MAX
    ensures remaining / frequency <= HUNDRED_NS_PER_SECOND
  {
    QuotientTest(HUNDRED_NS_PER_SECOND + 1, remaining, frequency);
  }

  /** At a frequency every call is exact if and only if the largest numerator fits 64 bits; then one tick less
      than a second is the worst remaining time. */
  lemma EveryDelayIsExactIff(frequency: u64)
    requires 0 < frequency <= U64_MAX / HUNDRED_NS_PER_SECOND
    ensures (forall remaining: u64 :: ExactDelay(remaining, frequency)) <==> (frequency - 1) * (HUNDRED_NS_PER_SECOND + 1) <= U64_MAX
  {
    if (frequency - 1) * (HUNDRED_NS_PER_SECOND + 1) <= U64_MAX {
      forall remaining: u64 ensures ExactDelay(remaining, frequency) {
        MulMonotone(remaining % frequency, frequency - 1, HUNDRED_NS_PER_SECOND);
        FittingDelayIsExact(remaining, frequency);
      }
    } else {
      DivModUnique(frequency - 1, 0, frequency - 1, frequency);
      WrappedDelayIsShort(frequency - 1, frequency);
    }
  }

  /** At the highest frequency that is accepted, one tick less than a second becomes 100 ns. */
  lemma ASecondIsLost()
    ensures var frequency: u64 := 1_844_674_407_370;
            && DelayOf(frequency - 1, frequency) == Some(1)
            && Ceiling((frequency - 1) * HUNDRED_NS_PER_SECOND, frequency) == HUNDRED_NS_PER_SECOND
  {
  }
}
