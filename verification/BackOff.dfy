/** The retry delay shared by the relay and the worker: a doubling from the base, capped. */
module BackOff {

  const FACTOR := 2
  const MAX_DELAY_MS := 60_000

  /** `baseDelay * FACTOR ** exponent`, computed by doubling. */
  function Doubled(baseDelay: nat, exponent: nat): nat {
    if exponent == 0 then baseDelay else FACTOR * Doubled(baseDelay, exponent - 1)
  }

  function Delay(attempt: nat, baseDelay: nat): (delay: nat)
    requires attempt >= 1
    ensures delay <= MAX_DELAY_MS
  {
    var doubled := Doubled(baseDelay, attempt - 1);
    if doubled <= MAX_DELAY_MS then doubled else MAX_DELAY_MS
  }

  function Power(exponent: nat): nat {
    if exponent == 0 then 1 else FACTOR * Power(exponent - 1)
  }

  lemma {:induction false} DoubledIsPower(baseDelay: nat, exponent: nat)
    ensures Doubled(baseDelay, exponent) == baseDelay * Power(exponent)
  {
    if exponent > 0 {
      DoubledIsPower(baseDelay, exponent - 1);
      assert baseDelay * (2 * Power(exponent - 1)) == 2 * (baseDelay * Power(exponent - 1));
    }
  }

  lemma {:induction false} DoubledExceeds(baseDelay: nat, k: nat)
    requires baseDelay >= 1
    ensures Doubled(baseDelay, k) > k
  {
    if k > 0 {
      DoubledExceeds(baseDelay, k - 1);
    }
  }

  lemma {:induction false} DoubledGrows(baseDelay: nat, j: nat, k: nat)
    requires j <= k
    ensures Doubled(baseDelay, j) <= Doubled(baseDelay, k)
    decreases k
  {
    if j < k {
      DoubledGrows(baseDelay, j, k - 1);
    }
  }

  /** The first number of doublings, from `from` on, that takes the base to the cap. */
  function DoublingsToCap(baseDelay: nat, from: nat): (k: nat)
    requires baseDelay >= 1
    requires from > 0 ==> Doubled(baseDelay, from - 1) < MAX_DELAY_MS
    ensures Doubled(baseDelay, k) >= MAX_DELAY_MS
    ensures k > 0 ==> Doubled(baseDelay, k - 1) < MAX_DELAY_MS
    decreases MAX_DELAY_MS - from
  {
    if Doubled(baseDelay, from) >= MAX_DELAY_MS then from else
    DoubledExceeds(baseDelay, from);
    DoublingsToCap(baseDelay, from + 1)
  }

  /** Until the cap the delay doubles with each attempt; from the cap on it stays there. */
  lemma DelayDoublesUntilCap(attempt: nat, baseDelay: nat)
    requires attempt >= 1 && baseDelay >= 1
    ensures attempt <= DoublingsToCap(baseDelay, 0) ==> Delay(attempt, baseDelay) == Doubled(baseDelay, attempt - 1)
    ensures attempt > DoublingsToCap(baseDelay, 0) ==> Delay(attempt, baseDelay) == MAX_DELAY_MS
  {
    var k := DoublingsToCap(baseDelay, 0);
    if attempt <= k {
      DoubledGrows(baseDelay, attempt - 1, k - 1);
    } else {
      DoubledGrows(baseDelay, k, attempt - 1);
    }
  }

  /** The first delay is the base, each next one twice the one before, and none is more than a minute. */
  lemma DelayInFull(attempt: nat, baseDelay: nat)
    requires attempt >= 1
    ensures Delay(1, baseDelay) == if baseDelay <= 60_000 then baseDelay else 60_000
    ensures Delay(attempt + 1, baseDelay)
         == if 2 * Delay(attempt, baseDelay) <= 60_000 then 2 * Delay(attempt, baseDelay) else 60_000
  {
    assert Doubled(baseDelay, 0) == baseDelay;
    assert Doubled(baseDelay, attempt) == 2 * Doubled(baseDelay, attempt - 1);
  }

  /** The delays of the first `n` attempts together. */
  function TotalDelay(n: nat, baseDelay: nat): nat {
    if n == 0 then 0 else TotalDelay(n - 1, baseDelay) + Delay(n, baseDelay)
  }

  lemma {:induction false} TotalDelayDoubles(n: nat, baseDelay: nat)
    requires baseDelay >= 1
    ensures var k := DoublingsToCap(baseDelay, 0);
      var m := if n <= k then n else k;
      TotalDelay(n, baseDelay) == Doubled(baseDelay, m) - baseDelay + MAX_DELAY_MS * (n - m)
  {
    if n > 0 {
      TotalDelayDoubles(n - 1, baseDelay);
      DelayDoublesUntilCap(n, baseDelay);
      var k := DoublingsToCap(baseDelay, 0);
      if n > k {
        assert MAX_DELAY_MS * (n - k) == MAX_DELAY_MS * (n - 1 - k) + MAX_DELAY_MS;
      }
    }
  }

  /**
   The delays of `n` attempts add up to the doublings before the cap, as a geometric sum, and the cap
   for every attempt after it.
   */
  lemma TotalDelayInFull(n: nat, baseDelay: nat)
    requires baseDelay >= 1
    ensures var k := DoublingsToCap(baseDelay, 0);
      var m := if n <= k then n else k;
      TotalDelay(n, baseDelay) == baseDelay * (Power(m) - 1) + MAX_DELAY_MS * (n - m)
  {
    var k := DoublingsToCap(baseDelay, 0);
    var m := if n <= k then n else k;
    TotalDelayDoubles(n, baseDelay);
    DoubledIsPower(baseDelay, m);
    assert baseDelay * (Power(m) - 1) == baseDelay * Power(m) - baseDelay;
  }
}
