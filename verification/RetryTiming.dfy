/** Backoff of job retries and of outbox publication. */
module RetryTiming {
  import opened Numbers
  import opened Options

  /** A delay, or the range error the source throws. */
  datatype Delay = Delay(milliseconds: int) | RangeError

  const MINIMUM_DURATION_MS: int := 100
  const MAXIMUM_DURATION_MS: int := 3_600_000

  function Power2(n: nat): (p: nat)
    ensures p >= 1
  {
    if n == 0 then 1 else 2 * Power2(n - 1)
  }

  function Capped(attempt: nat, base: int, maximum: int): int
    requires attempt >= 1
  {
    MinInt(maximum, base * Power2(attempt - 1))
  }

  function Jitter(random: real): real { 0.5 + random * 0.5 }

  function CalculateProcessingRetryDelay(attempt: int, base: int, maximum: int, random: real): Delay {
    if attempt < 1 then RangeError
    else if base < MINIMUM_DURATION_MS || base > MAXIMUM_DURATION_MS then RangeError
    else if maximum < base || maximum > MAXIMUM_DURATION_MS then RangeError
    else if random < 0.0 || random > 1.0 then RangeError
    else Delay(Round(Capped(attempt, base, maximum) as real * Jitter(random)))
  }

  function CalculateProcessingOutboxRetryDelay(attempt: int, base: int, maximum: int, random: real): Delay {
    if attempt < 1 || random < 0.0 || random > 1.0 then RangeError
    else Delay(Ceil(Capped(attempt, base, maximum) as real * Jitter(random)))
  }

  /** `retryAfter` is the provider's hint when it gave a finite one. */
  function RespectProviderRetryAfter(backoff: int, retryAfter: Option<real>, maximum: int): int {
    if retryAfter == None || retryAfter.value <= backoff as real then backoff
    else MaxInt(backoff, MinInt(maximum, Ceil(retryAfter.value)))
  }

  // ----- bounds -----

  predicate ValidTiming(base: int, maximum: int) {
    MINIMUM_DURATION_MS <= base <= maximum <= MAXIMUM_DURATION_MS
  }

  lemma JitteredBounds(e: int, x: real, random: real)
    requires e >= 0 && 0.0 <= random <= 1.0 && x == e as real * Jitter(random)
    ensures e as real <= 2.0 * x && x <= e as real
  {
    var f := Jitter(random);
    ProductSign(e as real, f - 0.5);
    ProductSign(e as real, 1.0 - f);
  }

  lemma JitteredMonotone(d: int, e: int, random: real)
    requires 0 <= d <= e && 0.0 <= random <= 1.0
    ensures d as real * Jitter(random) <= e as real * Jitter(random)
  {
    ProductSign((e - d) as real, Jitter(random));
  }

  lemma CappedBounds(attempt: nat, base: int, maximum: int)
    requires attempt >= 1 && 0 < base <= maximum
    ensures base <= Capped(attempt, base, maximum) <= maximum
  {
    assert base * Power2(attempt - 1) >= base by {
      var p := Power2(attempt - 1) - 1;
      assert base * (p + 1) == base * p + base && base * p >= 0;
    }
  }

  lemma {:induction false} CappedMonotone(early: nat, late: nat, base: int, maximum: int)
    requires 1 <= early <= late && 0 < base <= maximum
    ensures Capped(early, base, maximum) <= Capped(late, base, maximum)
    decreases late
  {
    if early < late {
      CappedMonotone(early, late - 1, base, maximum);
      var p := Power2(late - 2);
      assert Power2(late - 1) == 2 * p;
      assert base * (2 * p) == base * p + base * p && base * p >= 0;
    }
  }

  lemma RoundBounds(e: int, x: real)
    requires e as real <= 2.0 * x && x <= e as real
    ensures e <= 2 * Round(x) && Round(x) <= e
    ensures e <= 2 * Ceil(x) && Ceil(x) <= e
  {
    var n, m := Round(x), Ceil(x);
    assert n as real <= x + 0.5 < n as real + 1.0;
    assert x <= m as real < x + 1.0;
    assert 2.0 * (n as real) > e as real - 1.0;
    assert (2 * n) as real > (e - 1) as real;
    assert (2 * m) as real >= e as real;
  }

  lemma RoundMonotone(x: real, y: real)
    requires x <= y
    ensures Round(x) <= Round(y) && Ceil(x) <= Ceil(y)
  {
  }

  /** The backoff of attempt `n`, as an exact real before rounding. */
  function Jittered(attempt: nat, base: int, maximum: int, random: real): real
    requires attempt >= 1
  {
    Capped(attempt, base, maximum) as real * Jitter(random)
  }

  lemma JitteredIsBounded(attempt: nat, base: int, maximum: int, random: real)
    requires attempt >= 1 && ValidTiming(base, maximum) && 0.0 <= random <= 1.0
    ensures var e, x := Capped(attempt, base, maximum), Jittered(attempt, base, maximum, random);
            && 0 < e <= maximum && e <= 2 * Round(x) && Round(x) <= e && e <= 2 * Ceil(x) && Ceil(x) <= e
  {
    hide Capped, Jitter, Round, Ceil;
    var e, x := Capped(attempt, base, maximum), Jittered(attempt, base, maximum, random);
    CappedBounds(attempt, base, maximum);
    assert x == e as real * Jitter(random);
    JitteredBounds(e, x, random);
    RoundBounds(e, x);
  }

  lemma JitteredGrows(early: nat, late: nat, base: int, maximum: int, random: real)
    requires 1 <= early <= late && ValidTiming(base, maximum) && 0.0 <= random <= 1.0
    ensures var x, y := Jittered(early, base, maximum, random), Jittered(late, base, maximum, random);
            Round(x) <= Round(y) && Ceil(x) <= Ceil(y)
  {
    hide Capped, Jitter, Round, Ceil;
    CappedBounds(early, base, maximum);
    CappedMonotone(early, late, base, maximum);
    JitteredMonotone(Capped(early, base, maximum), Capped(late, base, maximum), random);
    RoundMonotone(Jittered(early, base, maximum, random), Jittered(late, base, maximum, random));
  }

  /** What the worker waits before the next attempt, hint included. */
  function RetryDelay(attempt: nat, base: int, maximum: int, random: real, hint: Option<real>): int
    requires attempt >= 1 && ValidTiming(base, maximum) && 0.0 <= random <= 1.0
  {
    RespectProviderRetryAfter(CalculateProcessingRetryDelay(attempt, base, maximum, random).milliseconds, hint, maximum)
  }

  lemma HintBounds(backoff: int, hint: Option<real>, maximum: int)
    requires 0 < backoff <= maximum
    ensures var d := RespectProviderRetryAfter(backoff, hint, maximum);
            && backoff <= d <= maximum && (hint.Some? ==> d as real >= hint.value || d == maximum)
            && (d == backoff || (hint.Some? && (d as real) < hint.value + 1.0))
  {
  }

  lemma HintMonotone(early: int, late: int, hint: Option<real>, maximum: int)
    requires 0 < early <= late <= maximum
    ensures RespectProviderRetryAfter(early, hint, maximum) <= RespectProviderRetryAfter(late, hint, maximum)
  {
  }

  /** The ceiling starts at the base and doubles with every attempt, up to the maximum. */
  lemma CeilingDoubles(attempt: nat, base: int, maximum: int)
    requires attempt >= 1 && 0 < base <= maximum
    ensures Capped(1, base, maximum) == base
    ensures var ceiling := Capped(attempt, base, maximum);
            Capped(attempt + 1, base, maximum) == if 2 * ceiling <= maximum then 2 * ceiling else maximum
  {
    assert Power2(0) == 1;
    var p := Power2(attempt - 1);
    assert Power2(attempt) == 2 * p && base * (2 * p) == 2 * (base * p);
    CappedBounds(attempt, base, maximum);
  }

  /** Without jitter a retry waits half its ceiling, with full jitter the whole of it, and in proportion in between. */
  lemma JitterIsProportional(attempt: nat, base: int, maximum: int, random: real)
    requires attempt >= 1 && ValidTiming(base, maximum) && 0.0 <= random <= 1.0
    ensures var d := CalculateProcessingRetryDelay(attempt, base, maximum, random).milliseconds;
            -1.0 < 2.0 * d as real - Capped(attempt, base, maximum) as real * (1.0 + random) <= 1.0
    ensures var d := CalculateProcessingOutboxRetryDelay(attempt, base, maximum, random).milliseconds;
            0.0 <= 2.0 * d as real - Capped(attempt, base, maximum) as real * (1.0 + random) < 2.0
  {
    var e := Capped(attempt, base, maximum) as real;
    hide Capped;
    assert 2.0 * (e * Jitter(random)) == e * (1.0 + random);
    RoundedNear(e * Jitter(random));
  }

  lemma RoundedNear(x: real)
    ensures -0.5 < Round(x) as real - x <= 0.5 && 0.0 <= Ceil(x) as real - x < 1.0
  {
  }

  /** Without a hint, or with one no longer than the backoff, the worker waits the backoff. */
  lemma HintlessWaitsBackoff(attempt: nat, base: int, maximum: int, random: real, hint: Option<real>)
    requires attempt >= 1 && ValidTiming(base, maximum) && 0.0 <= random <= 1.0
    ensures var backoff := CalculateProcessingRetryDelay(attempt, base, maximum, random).milliseconds;
            hint == None || hint.value <= backoff as real ==> RetryDelay(attempt, base, maximum, random, hint) == backoff
  {
    hide Capped, Jitter, Round;
  }

  /**
   * At least half the capped exponential and the provider's hint, never above the maximum, and no longer than the capped
   * exponential or the hint rounded up.
   */
  lemma RetryDelayBounds(attempt: nat, base: int, maximum: int, random: real, hint: Option<real>)
    requires attempt >= 1 && ValidTiming(base, maximum) && 0.0 <= random <= 1.0
    ensures var d := RetryDelay(attempt, base, maximum, random, hint);
            && Capped(attempt, base, maximum) <= 2 * d
            && 0 < d <= maximum
            && (hint.Some? ==> d as real >= hint.value || d == maximum)
            && (d <= Capped(attempt, base, maximum) || (hint.Some? && (d as real) < hint.value + 1.0))
  {
    hide Capped, Jitter, Round, Ceil, RespectProviderRetryAfter;
    JitteredIsBounded(attempt, base, maximum, random);
    var backoff := CalculateProcessingRetryDelay(attempt, base, maximum, random).milliseconds;
    assert backoff == Round(Jittered(attempt, base, maximum, random));
    HintBounds(backoff, hint, maximum);
  }

  /** For the same jitter and hint, a later attempt never waits less. */
  lemma RetryDelayIsMonotone(early: nat, late: nat, base: int, maximum: int, random: real, hint: Option<real>)
    requires 1 <= early <= late && ValidTiming(base, maximum) && 0.0 <= random <= 1.0
    ensures RetryDelay(early, base, maximum, random, hint) <= RetryDelay(late, base, maximum, random, hint)
  {
    hide Capped, Jitter, Round, Ceil, RespectProviderRetryAfter;
    JitteredIsBounded(early, base, maximum, random);
    JitteredIsBounded(late, base, maximum, random);
    JitteredGrows(early, late, base, maximum, random);
    HintMonotone(Round(Jittered(early, base, maximum, random)), Round(Jittered(late, base, maximum, random)), hint, maximum);
  }

  /** The outbox delay has the same bounds and order. */
  lemma OutboxDelayBounds(early: nat, late: nat, base: int, maximum: int, random: real)
    requires 1 <= early <= late && ValidTiming(base, maximum) && 0.0 <= random <= 1.0
    ensures var d := CalculateProcessingOutboxRetryDelay(early, base, maximum, random);
            var e := CalculateProcessingOutboxRetryDelay(late, base, maximum, random);
            && d.Delay? && e.Delay?
            && Capped(early, base, maximum) <= 2 * d.milliseconds && 0 < d.milliseconds <= e.milliseconds <= maximum
  {
    hide Capped, Jitter, Round, Ceil;
    JitteredIsBounded(early, base, maximum, random);
    JitteredIsBounded(late, base, maximum, random);
    JitteredGrows(early, late, base, maximum, random);
    assert CalculateProcessingOutboxRetryDelay(early, base, maximum, random) == Delay(Ceil(Jittered(early, base, maximum, random)));
    assert CalculateProcessingOutboxRetryDelay(late, base, maximum, random) == Delay(Ceil(Jittered(late, base, maximum, random)));
  }

  /** A job retry is refused exactly for an attempt, timing or jitter out of range; an outbox retry for an attempt or jitter. */
  lemma RetryDelayErrors(attempt: int, base: int, maximum: int, random: real)
    ensures CalculateProcessingRetryDelay(attempt, base, maximum, random) == RangeError <==>
              attempt < 1 || !(100 <= base <= maximum <= 3_600_000) || random < 0.0 || random > 1.0
    ensures CalculateProcessingOutboxRetryDelay(attempt, base, maximum, random) == RangeError <==>
              attempt < 1 || random < 0.0 || random > 1.0
  {
  }
}
