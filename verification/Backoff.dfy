/**
 The waiting times between retries (client/client.go, GetExponentialBackoffTime).
 Durations are integers; None is "Tried maximum amount of times".
 */
module Backoff {
  import opened Wrappers

  const PER_INTERVAL := 3
  const MAX_DURATION := 0x7FFF_FFFF_FFFF_FFFF

  /** ExponentialBackoffSmallestUnit; the agent uses a minute. */
  type Unit = u: int | 0 < u <= MAX_DURATION / 2 witness 1

  function Pow2(n: nat): (p: int)
    ensures p >= 1
  {
    if n == 0 then 1 else 2 * Pow2(n - 1)
  }

  /** How often the smallest unit is doubled before it reaches the maximum. */
  function Doublings(unit: int, maxInterval: int): (n: nat)
    requires unit > 0
    decreases maxInterval - unit
  {
    if unit >= maxInterval then 0 else 1 + Doublings(2 * unit, maxInterval)
  }

  /** Doublings is the least exponent that reaches the maximum. */
  lemma {:induction false} DoublingsIsLeast(unit: int, maxInterval: int)
    requires unit > 0
    ensures unit * Pow2(Doublings(unit, maxInterval)) >= maxInterval
    ensures forall m: nat :: m < Doublings(unit, maxInterval) ==> unit * Pow2(m) < maxInterval
    decreases maxInterval - unit
  {
    if unit < maxInterval {
      DoublingsIsLeast(2 * unit, maxInterval);
      DoubledUnit(unit, Doublings(2 * unit, maxInterval));
      forall m: nat | m < Doublings(unit, maxInterval) ensures unit * Pow2(m) < maxInterval {
        if m > 0 { DoubledUnit(unit, m - 1); }
      }
    }
  }

  lemma DoubledUnit(unit: int, n: nat)
    ensures unit * Pow2(n + 1) == (2 * unit) * Pow2(n)
  {
  }

  function Max(a: int, b: int): int { if a < b then b else a }

  /** The waiting time in closed form. */
  function Time(tried: int, maxInterval: int, maxAttempts: int, unit: int): Option<int>
    requires unit > 0
  {
    var n := Doublings(unit, maxInterval);
    if maxAttempts > 0 && tried >= maxAttempts then None
    else if tried < 0 then Some(unit)
    else if tried / PER_INTERVAL < n then Some(unit * Pow2(tried / PER_INTERVAL))
    else if maxAttempts <= 0 && tried >= PER_INTERVAL * (n + 1) then None
    else Some(Max(maxInterval, unit))
  }

  /** The number of tries after which Time gives up. */
  function Budget(maxInterval: int, maxAttempts: int, unit: int): (b: nat)
    requires unit > 0
  {
    if maxAttempts > 0 then maxAttempts else PER_INTERVAL * (Doublings(unit, maxInterval) + 1)
  }

  lemma GivesUpExactlyAtBudget(tried: int, maxInterval: int, maxAttempts: int, unit: int)
    requires unit > 0
    ensures Time(tried, maxInterval, maxAttempts, unit).None? <==> tried >= Budget(maxInterval, maxAttempts, unit)
  {
  }

  /**
   Without a limit on attempts: three waits of the unit, three of twice the unit, and so on
   as long as that is below the maximum, then three of the maximum, and then it gives up.
   */
  lemma ThreeWaitsOfEach(k: nat, j: nat, maxInterval: int, unit: int)
    requires 0 < unit < maxInterval && j < 3
    ensures Time(3 * k + j, maxInterval, 0, unit) ==
              if unit * Pow2(k) < maxInterval then Some(unit * Pow2(k))
              else if k == 0 || unit * Pow2(k - 1) < maxInterval then Some(maxInterval)
              else None
  {
    DoublingsIsLeast(unit, maxInterval);
    var n := Doublings(unit, maxInterval);
    assert (3 * k + j) / 3 == k;
    if n <= k { UnitGrows(n, k, unit); }
    if n < k { UnitGrows(n, k - 1, unit); }
  }

  /** With one, it gives up once that many have been made, and never later than without. */
  lemma LimitedAttempts(tried: nat, maxInterval: int, maxAttempts: int, unit: int)
    requires unit > 0 && maxAttempts > 0
    ensures Time(tried, maxInterval, maxAttempts, unit).None? <==> tried >= maxAttempts
    ensures tried < maxAttempts && Time(tried, maxInterval, 0, unit).Some? ==>
              Time(tried, maxInterval, maxAttempts, unit) == Time(tried, maxInterval, 0, unit)
  {
  }

  /** A longer wait never follows a shorter budget: waits only grow, and stay within the two bounds. */
  lemma {:induction false} WaitsGrow(a: int, b: int, maxInterval: int, maxAttempts: int, unit: int)
    requires unit > 0 && a <= b
    requires Time(b, maxInterval, maxAttempts, unit).Some?
    ensures Time(a, maxInterval, maxAttempts, unit).Some?
    ensures unit <= Time(a, maxInterval, maxAttempts, unit).value
                 <= Time(b, maxInterval, maxAttempts, unit).value <= Max(maxInterval, unit)
  {
    DoublingsIsLeast(unit, maxInterval);
    if 0 <= b {
      var k := b / PER_INTERVAL;
      UnitGrows(0, k, unit);
      if 0 <= a {
        UnitGrows(0, a / PER_INTERVAL, unit);
        UnitGrows(a / PER_INTERVAL, k, unit);
      }
    }
  }

  lemma UnitGrows(a: nat, b: nat, unit: int)
    requires a <= b && unit > 0
    ensures unit * Pow2(a) <= unit * Pow2(b)
    ensures a == 0 ==> unit * Pow2(a) == unit
  {
    Pow2Grows(a, b);
  }

  lemma {:induction false} Pow2Grows(a: nat, b: nat)
    requires a <= b
    ensures Pow2(a) <= Pow2(b)
  {
    if a < b { Pow2Grows(a, b - 1); }
  }

  lemma OnceUnit(unit: int)
    ensures unit * Pow2(0) == unit
  {
  }

  lemma TwiceAsLong(unit: int, k: nat)
    ensures unit * Pow2(k + 1) == 2 * (unit * Pow2(k))
  {
  }

  /** The loop as the agent runs it. While the maximum stays below half of the 64-bit range no product overflows. */
  method GetExponentialBackoffTime(tried: int, maxInterval: int, maxAttempts: int, unit: int)
    returns (wait: Option<int>)
    requires 0 < unit <= MAX_DURATION / 2 && maxInterval <= MAX_DURATION / 2
    ensures wait == Time(tried, maxInterval, maxAttempts, unit)
  {
    hide Pow2, Doublings;
    var interval := unit;
    var nextInterval := interval;
    if maxAttempts > 0 && tried >= maxAttempts {
      return None;
    }
    DoublingsIsLeast(unit, maxInterval);
    ghost var n := Doublings(unit, maxInterval);
    ghost var k: nat := 0;
    OnceUnit(unit);
    var c := 0;
    while c <= tried
      invariant c == PER_INTERVAL * k && c <= Max(tried, 0) + PER_INTERVAL
      invariant nextInterval == unit * Pow2(k) && k <= n
      invariant interval == if k == 0 then unit else unit * Pow2(k - 1)
      invariant nextInterval <= MAX_DURATION
      invariant c > tried && tried >= 0 ==> k == tried / PER_INTERVAL + 1
      decreases tried - c
    {
      interval := nextInterval;
      nextInterval := nextInterval * 2;
      if interval >= maxInterval {
        assert k == n;
        if maxAttempts <= 0 && tried - c >= PER_INTERVAL {
          return None;
        }
        if maxInterval < unit {
          return Some(unit);
        }
        return Some(maxInterval);
      }
      TwiceAsLong(unit, k);
      c := c + PER_INTERVAL;
      k := k + 1;
    }
    return Some(interval);
  }
}
