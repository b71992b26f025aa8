/**
 The two exponential backoffs of an account (internal/pool/cooldown.go): the soft cooldown
 of rate limits and the circuit breaker of repeated failures.

 Durations and instants are nanoseconds. Durations are Go int64 values, so every shift and
 doubling below wraps as the machine does. The zero instant is 0 and never lies in the future.
 */
module Backoff {
  import opened Wrappers

  const TWO_63 := 0x8000_0000_0000_0000
  const TWO_64 := 0x1_0000_0000_0000_0000
  const DEFAULT_SOFT_RATE_MAX := 7_200_000_000_000
  const SOFT_STREAK_SHIFT_MAX := 16

  /** Two's-complement truncation to a signed 64-bit word. */
  function Wrap64(x: int): int {
    (x + TWO_63) % TWO_64 - TWO_63
  }

  function Pow2(k: nat): (p: nat)
    ensures p > 0
  {
    if k == 0 then 1 else 2 * Pow2(k - 1)
  }

  function Min(a: int, b: int): int {
    if a < b then a else b
  }

  // ---- Soft cooldown ----

  function SoftRateMaxOr(softRateMax: int): int {
    if softRateMax > 0 then softRateMax else DEFAULT_SOFT_RATE_MAX
  }

  function SoftShift(streak: int): nat {
    if streak <= 1 then 0 else Min(streak - 1, SOFT_STREAK_SHIFT_MAX)
  }

  function SoftDuration(d: int, streak: int, softRateMax: int): (r: int)
    ensures d >= 0 ==> r >= 0
  {
    if streak <= 1 then d
    else
      var shifted := Wrap64(d * Pow2(SoftShift(streak)));
      var max := SoftRateMaxOr(softRateMax);
      if shifted > max || shifted <= 0 then max else shifted
  }

  /** What a soft cooldown is meant to last: the base doubled per earlier cooldown, capped at max. */
  function Ideal(base: nat, streak: int, max: nat): nat {
    Min(base * Pow2(SoftShift(streak)), max)
  }

  lemma WrapSmall(x: int)
    requires -TWO_63 <= x < TWO_63
    ensures Wrap64(x) == x
  {
  }

  lemma WrapNegative(x: int)
    requires TWO_63 <= x < TWO_64
    ensures Wrap64(x) == x - TWO_64 < 0
  {
  }

  /** The shifted base fits 63 bits, or its truncation happens to land outside the open interval (0, max). */
  predicate Tame(ideal: int, max: int) {
    ideal < TWO_63 || !(0 < Wrap64(ideal) < max)
  }

  /** A soft cooldown lasts min(base * 2^shift, max) exactly when the shift is tame. */
  lemma SoftDurationExact(base: int, streak: int, limit: int)
    requires 0 < base <= SoftRateMaxOr(limit) < TWO_63
    ensures var ideal, max := base * Pow2(SoftShift(streak)), SoftRateMaxOr(limit);
            SoftDuration(base, streak, limit) == Min(ideal, max) <==> Tame(ideal, max)
  {
    var ideal, max := base * Pow2(SoftShift(streak)), SoftRateMaxOr(limit);
    assert ideal >= base > 0;
    if ideal < TWO_63 {
      WrapSmall(ideal);
    } else if streak > 1 {
      assert Min(ideal, max) == max;
    }
  }

  /** None of the sixteen shifts goes wrong: what a configuration can be checked for. */
  ghost predicate SafeBase(base: nat, limit: int) {
    && 0 < base <= SoftRateMaxOr(limit) < TWO_63
    && forall k :: 0 <= k <= SOFT_STREAK_SHIFT_MAX ==> Tame(base * Pow2(k), SoftRateMaxOr(limit))
  }

  /** A configuration is safe exactly when every soft cooldown lasts as intended, whatever the streak. */
  lemma SafeExactly(base: nat, limit: int)
    requires 0 < base <= SoftRateMaxOr(limit) < TWO_63
    ensures SafeBase(base, limit) <==> forall streak: nat :: SoftDuration(base, streak, limit) == Ideal(base, streak, SoftRateMaxOr(limit))
  {
    hide SoftDuration, Pow2, Wrap64, Tame;
    forall streak: nat
      ensures SoftDuration(base, streak, limit) == Ideal(base, streak, SoftRateMaxOr(limit)) <==> Tame(base * Pow2(SoftShift(streak)), SoftRateMaxOr(limit))
    {
      SoftDurationExact(base, streak, limit);
    }
    if forall streak: nat :: SoftDuration(base, streak, limit) == Ideal(base, streak, SoftRateMaxOr(limit)) {
      forall k | 0 <= k <= SOFT_STREAK_SHIFT_MAX
        ensures Tame(base * Pow2(k), SoftRateMaxOr(limit))
      {
        var streak: nat := k + 1;
        assert SoftShift(streak) == k;
        assert SoftDuration(base, streak, limit) == Ideal(base, streak, SoftRateMaxOr(limit));
      }
    }
  }

  lemma {:induction false} Pow2Monotone(a: nat, b: nat)
    requires a <= b
    ensures Pow2(a) <= Pow2(b)
  {
    if a < b {
      Pow2Monotone(a, b - 1);
    }
  }

  /** Every base up to 2^48 ns (78 hours) is safe, whatever the maximum. */
  lemma SoftDurationBounded(base: nat, limit: int)
    requires 0 < base <= SoftRateMaxOr(limit) < TWO_63 && base <= 0x1_0000_0000_0000
    ensures SafeBase(base, limit)
  {
    forall k | 0 <= k <= SOFT_STREAK_SHIFT_MAX
      ensures Tame(base * Pow2(k), SoftRateMaxOr(limit))
    {
      Pow2Monotone(k, 16);
      Pow16();
      MulMonotone(base, 0x1_0000_0000_0000, Pow2(k), 0x1_0000);
      WrapTame(base * Pow2(k), SoftRateMaxOr(limit));
    }
  }

  lemma WrapTame(x: int, max: int)
    requires 0 <= x <= TWO_64
    ensures Tame(x, max)
  {
    if TWO_63 <= x < TWO_64 {
      WrapNegative(x);
    }
  }

  lemma Pow16()
    ensures Pow2(16) == 0x1_0000
  {
    assert Pow2(4) == 16;
    assert Pow2(8) == 256;
    assert Pow2(12) == 4096;
  }

  lemma MulMonotone(a: int, b: int, p: int, q: int)
    requires 0 <= a <= b && 0 <= p <= q
    ensures a * p <= b * q
  {
    assert a * p <= b * p <= b * q by {
      assert (b - a) * p >= 0 && b * (q - p) >= 0;
    }
  }

  /** What a shift means: the first cooldown is the base, each further one doubles it, from the 17th on no more. */
  lemma ShiftsDouble(streak: nat)
    ensures streak <= 1 ==> Pow2(SoftShift(streak)) == 1
    ensures 1 <= streak < 17 ==> Pow2(SoftShift(streak + 1)) == 2 * Pow2(SoftShift(streak))
    ensures streak >= 17 ==> Pow2(SoftShift(streak)) == 65536
  {
    Pow16();
  }

  /** The next base is not: 2^48 + 1 ns shrinks to 65 microseconds on the 17th cooldown. */
  lemma SoftDurationOverflows()
    ensures SoftDuration(0x1_0000_0000_0001, 17, 0x4000_0000_0000_0000) == 0x1_0000
    ensures !SafeBase(0x1_0000_0000_0001, 0x4000_0000_0000_0000)
  {
    Pow16();
    assert !Tame(0x1_0000_0000_0001 * Pow2(16), 0x4000_0000_0000_0000);
  }

  /** The upstream reset instant, no later than now + max and strictly in the future. */
  function CappedSoftUntil(now: nat, resetAt: nat, softRateMax: int): nat {
    var cap := now + SoftRateMaxOr(softRateMax);
    if resetAt > cap then cap else if resetAt > now then resetAt else now + 1_000_000
  }

  datatype CoolKind = CoolHard | CoolSoft

  datatype Soft = Soft(kind: CoolKind, until: nat, streak: nat)

  function SoftRate(s: Soft, now: nat, base: nat, resetAt: Option<nat>, softRateMax: int): Soft {
    if resetAt.Some? then Soft(CoolSoft, CappedSoftUntil(now, resetAt.value, softRateMax), s.streak)
    else if s.kind != CoolSoft || now >= s.until then
      Soft(CoolSoft, now + SoftDuration(base, s.streak + 1, softRateMax), s.streak + 1)
    else s
  }

  predicate Ordered(times: seq<nat>) {
    forall i, j :: 0 <= i < j < |times| ==> times[i] <= times[j]
  }

  /** The account after rate limits without a reset time at the given instants. */
  function SoftRun(s: Soft, times: seq<nat>, base: nat, limit: int): Soft {
    if times == [] then s else SoftRate(SoftRun(s, times[..|times| - 1], base, limit), times[|times| - 1], base, None, limit)
  }

  /** The instants at which such a limit really started a new cooldown. */
  function Starts(s: Soft, times: seq<nat>, base: nat, limit: int): seq<nat> {
    if times == [] then []
    else
      var n := |times| - 1;
      var earlier := Starts(s, times[..n], base, limit);
      if SoftRun(s, times, base, limit).streak > SoftRun(s, times[..n], base, limit).streak then earlier + [times[n]] else earlier
  }

  /**
   In every run of limits without a reset time, from any state: the cooldown that starts after s others
   since the last success lasts min(base * 2^s, max) with the shift capped at 16, none starts while
   the one before is still running, the deadline is always that of the latest start, so probing during a
   cooldown never moves it, and after each limit the account is cooling.
   */
  lemma {:induction false} SoftBackoff(s: Soft, times: seq<nat>, base: nat, limit: int)
    requires SafeBase(base, limit) && Ordered(times)
    ensures var starts, final, max := Starts(s, times, base, limit), SoftRun(s, times, base, limit), SoftRateMaxOr(limit);
            && final.streak == s.streak + |starts| && |starts| <= |times|
            && (starts == [] ==> final == s)
            && (starts != [] ==>
                  && final.kind == CoolSoft
                  && final.until == starts[|starts| - 1] + Ideal(base, final.streak, max)
                  && starts[|starts| - 1] <= times[|times| - 1]
                  && (s.kind == CoolSoft ==> s.until <= starts[0]))
            && (forall k :: 0 < k < |starts| ==> starts[k - 1] + Ideal(base, s.streak + k, max) <= starts[k])
            && (times != [] ==> final.kind == CoolSoft && times[|times| - 1] < final.until)
  {
    if times != [] {
      var n := |times| - 1;
      SoftBackoff(s, times[..n], base, limit);
      SafeExactly(base, limit);
      assert SoftDuration(base, SoftRun(s, times[..n], base, limit).streak + 1, limit)
          == Ideal(base, SoftRun(s, times[..n], base, limit).streak + 1, SoftRateMaxOr(limit)) > 0 by {
        MulMonotone(1, base, 1, Pow2(SoftShift(SoftRun(s, times[..n], base, limit).streak + 1)));
      }
      hide SoftDuration, Ideal, Pow2, Wrap64, SoftShift, SafeBase;
    }
  }

  // ---- Circuit breaker ----

  /** The doubling loop of a trip: k doublings from d, stopping at max. */
  function TripDuration(d: int, max: int, k: nat): int
    decreases k
  {
    if k == 0 then d
    else
      var doubled := Wrap64(d * 2);
      if doubled >= max then max else TripDuration(doubled, max, k - 1)
  }

  /** Doubling from d passes max before it overflows. */
  ghost predicate ReachesCap(d: int, max: int) {
    exists i: nat :: CapsAt(d, max, i)
  }

  ghost predicate CapsAt(d: int, max: int, i: nat) {
    i >= 1 && max <= d * Pow2(i) < TWO_63
  }

  lemma {:induction false} TripWithinCap(d: int, max: int, k: nat, i: nat)
    requires 0 < d <= max < TWO_63 && CapsAt(d, max, i)
    ensures TripDuration(d, max, k) == Min(d * Pow2(k), max)
    decreases k
  {
    if k > 0 {
      Pow2Monotone(1, i);
      Pow2Monotone(1, k);
      MulMonotone(d, d, 2, Pow2(i));
      MulMonotone(d, d, 2, Pow2(k));
      WrapSmall(d * 2);
      if d * 2 < max {
        assert d * Pow2(i) == (d * 2) * Pow2(i - 1);
        assert d * Pow2(k) == (d * 2) * Pow2(k - 1);
        TripWithinCap(d * 2, max, k - 1, i - 1);
      }
    }
  }

  /** Without ReachesCap some trip comes out negative. */
  lemma {:induction false} TripOverflows(d: int, max: int) returns (k: nat)
    requires 0 < d <= max < TWO_63 && !ReachesCap(d, max)
    ensures TripDuration(d, max, k) < 0
    decreases max - d
  {
    assert !CapsAt(d, max, 1);
    assert Pow2(1) == 2;
    if d * 2 >= TWO_63 {
      WrapNegative(d * 2);
      k := 1;
      assert TripDuration(Wrap64(d * 2), max, 0) < 0;
    } else {
      WrapSmall(d * 2);
      forall i: nat
        ensures !CapsAt(d * 2, max, i)
      {
        assert d * Pow2(i + 1) == (d * 2) * Pow2(i);
        assert !CapsAt(d, max, i + 1);
      }
      k := TripOverflows(d * 2, max);
      k := k + 1;
    }
  }

  /** Every trip lasts min(cooldown * 2^k, max) if and only if doubling reaches max within 63 bits. */
  lemma TripExact(cooldown: int, max: int)
    requires 0 < cooldown <= max < TWO_63
    ensures (forall k: nat :: TripDuration(cooldown, max, k) == Min(cooldown * Pow2(k), max))
            <==> ReachesCap(cooldown, max)
  {
    if ReachesCap(cooldown, max) {
      var i: nat :| CapsAt(cooldown, max, i);
      forall k: nat
        ensures TripDuration(cooldown, max, k) == Min(cooldown * Pow2(k), max)
      {
        TripWithinCap(cooldown, max, k, i);
      }
    } else {
      var k := TripOverflows(cooldown, max);
      assert cooldown * Pow2(k) > 0;
      assert TripDuration(cooldown, max, k) != Min(cooldown * Pow2(k), max);
    }
  }

  /** The condition holds for every configured maximum below 2^62 ns (146 years). */
  lemma {:induction false} CapReached(d: int, max: int)
    requires 0 < d <= max < 0x4000_0000_0000_0000
    ensures ReachesCap(d, max)
    decreases max - d
  {
    if d * 2 >= max {
      assert Pow2(1) == 2;
      assert CapsAt(d, max, 1);
    } else {
      CapReached(d * 2, max);
      var i: nat :| CapsAt(d * 2, max, i);
      assert d * Pow2(i + 1) == (d * 2) * Pow2(i);
      assert CapsAt(d, max, i + 1);
    }
  }

  /** An input where it fails: with both settings at 2^62 ns the second trip lies in the past. */
  lemma TripCounterexample()
    ensures TripDuration(0x4000_0000_0000_0000, 0x4000_0000_0000_0000, 1) == -TWO_63
  {
    assert TripDuration(-TWO_63, 0x4000_0000_0000_0000, 0) == -TWO_63;
  }

  datatype Breaker = Breaker(fails: nat, retryCount: nat, until: int)

  function RecordFailure(b: Breaker, now: nat, threshold: nat, cooldown: int, max: int): Breaker {
    if b.fails + 1 < threshold then b.(fails := b.fails + 1)
    else Breaker(0, b.retryCount + 1, now + TripDuration(cooldown, max, b.retryCount))
  }

  function ErrorRun(b: Breaker, times: seq<nat>, threshold: nat, cooldown: int, max: int): Breaker {
    if times == [] then b
    else RecordFailure(ErrorRun(b, times[..|times| - 1], threshold, cooldown, max), times[|times| - 1],
                       threshold, cooldown, max)
  }

  /**
   Between two successes, trips * threshold + open failures is the number of errors, whatever the
   durations are set to; and the deadline is always that of the last trip, which the error number
   retryCount * threshold completed.
   */
  lemma {:induction false} BreakerAccounting(times: seq<nat>, threshold: nat, cooldown: int, max: int)
    requires threshold > 0
    ensures var b := ErrorRun(Breaker(0, 0, 0), times, threshold, cooldown, max);
            && b.retryCount * threshold + b.fails == |times| && b.fails < threshold
            && (b.retryCount == 0 ==> b.until == 0)
            && (b.retryCount > 0 ==>
                  && 0 < b.retryCount * threshold <= |times|
                  && b.until == times[b.retryCount * threshold - 1] + TripDuration(cooldown, max, b.retryCount - 1))
  {
    if times != [] {
      var n := |times| - 1;
      var before := ErrorRun(Breaker(0, 0, 0), times[..n], threshold, cooldown, max);
      BreakerAccounting(times[..n], threshold, cooldown, max);
      assert (before.retryCount + 1) * threshold == before.retryCount * threshold + threshold;
      hide TripDuration;
      if before.retryCount > 0 {
        assert times[..n][before.retryCount * threshold - 1] == times[before.retryCount * threshold - 1];
      }
    }
  }

  /** With settings that reach the maximum, the (k+1)-th trip lasts min(cooldown * 2^k, max). */
  lemma BreakerDeadlines(times: seq<nat>, threshold: nat, cooldown: int, max: int)
    requires threshold > 0 && 0 < cooldown <= max < TWO_63 && ReachesCap(cooldown, max)
    ensures var b := ErrorRun(Breaker(0, 0, 0), times, threshold, cooldown, max);
            b.retryCount > 0 ==>
              && 0 < b.retryCount * threshold <= |times|
              && b.until == times[b.retryCount * threshold - 1] + Min(cooldown * Pow2(b.retryCount - 1), max)
  {
    BreakerAccounting(times, threshold, cooldown, max);
    TripExact(cooldown, max);
  }

  // ---- The account fields in imperative form ----

  class Account {
    var coolKind: CoolKind
    var until: nat
    var reason: string
    var modelCooldowns: map<string, nat>
    var softStreak: nat
    var fails: nat
    var retryCount: nat
    var breakerUntil: int
    /** The fields that the next save forces. */
    var forced: set<string>

    constructor ()
      ensures SoftView() == Soft(CoolHard, 0, 0) && BreakerView() == Breaker(0, 0, 0)
      ensures reason == "" && modelCooldowns == map[] && forced == {}
    {
      coolKind, until, softStreak := CoolHard, 0, 0;
      fails, retryCount, breakerUntil := 0, 0, 0;
      reason, modelCooldowns, forced := "", map[], {};
    }

    function SoftView(): Soft
      reads this
    {
      Soft(coolKind, until, softStreak)
    }

    function BreakerView(): Breaker
      reads this
    {
      Breaker(fails, retryCount, breakerUntil)
    }

    /** A soft limit of the whole account: it replaces the model cooldowns. */
    method CooldownSoftRate(now: nat, base: nat, resetAt: Option<nat>, why: string, softRateMax: int)
      modifies this`coolKind, this`until, this`softStreak, this`reason, this`modelCooldowns, this`forced
      ensures SoftView() == SoftRate(old(SoftView()), now, base, resetAt, softRateMax)
      ensures coolKind == CoolSoft && reason == why && modelCooldowns == map[]
      ensures forced == old(forced) + {"until", "cool_kind", "reason", "soft_streak", "model_cooldowns"}
      ensures resetAt.Some? ==>
                && softStreak == old(softStreak)
                && var cap := now + if softRateMax > 0 then softRateMax else 7_200_000_000_000;
                   until == if resetAt.value > cap then cap else if resetAt.value > now then resetAt.value else now + 1_000_000
      ensures resetAt.None? && old(coolKind) == CoolSoft && now < old(until) ==> until == old(until) && softStreak == old(softStreak)
      ensures resetAt.None? && !(old(coolKind) == CoolSoft && now < old(until)) ==> softStreak == old(softStreak) + 1
      ensures SafeBase(base, softRateMax) && softStreak > old(softStreak) ==> until == now + Ideal(base, softStreak, SoftRateMaxOr(softRateMax))
    {
      if resetAt.Some? {
        until := CappedSoftUntil(now, resetAt.value, softRateMax);
      } else if coolKind != CoolSoft || now >= until {
        var d := SoftDuration(base, softStreak + 1, softRateMax);
        if SafeBase(base, softRateMax) {
          SafeExactly(base, softRateMax);
        }
        softStreak := softStreak + 1;
        until := now + d;
      }
      coolKind := CoolSoft;
      reason := why;
      modelCooldowns := map[];
      forced := forced + {"until", "cool_kind", "reason", "soft_streak", "model_cooldowns"};
    }

    method RecordBreakerFailure(now: nat, threshold: nat, cooldown: int, max: int)
      modifies this`fails, this`retryCount, this`breakerUntil
      ensures BreakerView() == RecordFailure(old(BreakerView()), now, threshold, cooldown, max)
      ensures old(fails) + 1 < threshold ==> fails == old(fails) + 1 && retryCount == old(retryCount) && breakerUntil == old(breakerUntil)
      ensures old(fails) + 1 >= threshold ==> fails == 0 && retryCount == old(retryCount) + 1
      ensures old(fails) + 1 >= threshold && 0 < cooldown <= max < 0x4000_0000_0000_0000 ==>
                breakerUntil == now + Min(cooldown * Pow2(old(retryCount)), max)
    {
      fails := fails + 1;
      if fails < threshold {
        return;
      }
      var d := cooldown;
      var i := 0;
      while i < retryCount
        invariant 0 <= i <= retryCount
        invariant TripDuration(d, max, retryCount - i) == TripDuration(cooldown, max, retryCount)
      {
        d := Wrap64(d * 2);
        i := i + 1;
        if d >= max {
          d := max;
          break;
        }
      }
      if 0 < cooldown <= max < 0x4000_0000_0000_0000 {
        CapReached(cooldown, max);
        TripExact(cooldown, max);
      }
      fails := 0;
      retryCount := retryCount + 1;
      breakerUntil := now + d;
    }

    method NoteSuccess()
      modifies this`fails, this`retryCount, this`breakerUntil, this`softStreak, this`forced
      ensures BreakerView() == Breaker(0, 0, 0)
      ensures SoftView() == old(SoftView()).(streak := 0)
      ensures forced == old(forced) + {"breaker_until", "retry_count", "soft_streak", "session_dead_fails"}
    {
      fails, retryCount, breakerUntil, softStreak := 0, 0, 0, 0;
      forced := forced + {"breaker_until", "retry_count", "soft_streak", "session_dead_fails"};
    }
  }
}
