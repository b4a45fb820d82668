/** Retry limits and backoff: src/domain/retry/retry-manager.ts. Delays are exact reals, in seconds. */
module Retry {
  import opened Prelude

  datatype FailureClass = RetryableTransient | RetryableCapacity | NonRetryablePolicy | NonRetryableLogic

  datatype Policy = Policy(maxRetries: int, baseSeconds: real, maxSeconds: real, jitterEnabled: bool)

  predicate ShouldRetry(failure: FailureClass, retryCount: int, maxRetries: int) {
    !failure.NonRetryablePolicy? && !failure.NonRetryableLogic? && retryCount < maxRetries
  }

  function Min(a: real, b: real): real {
    if a <= b then a else b
  }

  function Power(base: real, n: nat): real {
    if n == 0 then 1.0 else base * Power(base, n - 1)
  }

  /** The capped delay before jitter. A reported retry count may be negative; a zero base with a
      negative exponent overflows, so the cap applies. */
  function Ceiling(retryCount: int, p: Policy): real {
    var e := retryCount + 1;
    if e >= 0 then Min(Power(p.baseSeconds, e), p.maxSeconds)
    else if Power(p.baseSeconds, -e) == 0.0 then p.maxSeconds
    else Min(1.0 / Power(p.baseSeconds, -e), p.maxSeconds)
  }

  /** `random` is the number drawn for this call, from zero up to but not including one. */
  function CalculateBackoff(retryCount: int, p: Policy, random: real): real {
    if p.jitterEnabled then random * Ceiling(retryCount, p) else Ceiling(retryCount, p)
  }

  lemma {:induction false} PowerGrows(base: real, n: nat)
    requires base >= 1.0
    ensures Power(base, n) >= 1.0 && Power(base, n + 1) >= Power(base, n)
    ensures Power(base, n) >= 1.0 + n as real * (base - 1.0)
  {
    if n > 0 {
      PowerGrows(base, n - 1);
      Expand(base, n - 1, Power(base, n - 1));
    }
    Expand(base, n, Power(base, n));
  }

  lemma Product(a: real, b: real)
    requires a >= 0.0 && b >= 0.0
    ensures a * b >= 0.0
  {}

  lemma Distribute(a: real, b: real, c: real)
    ensures (a + b) * c == a * c + b * c
  {}

  lemma Expand(base: real, n: nat, p: real)
    requires base >= 1.0 && p >= 1.0 && p >= 1.0 + n as real * (base - 1.0)
    ensures base * p >= p && base * p >= 1.0 + (n + 1) as real * (base - 1.0)
  {
    var d, m := base - 1.0, n as real;
    Distribute(1.0, d, p);
    Distribute(1.0, p - 1.0, d);
    Product(d, p - 1.0);
    assert (n + 1) as real == m + 1.0;
    Distribute(m, 1.0, d);
  }

  lemma {:induction false} PowerNonNegative(base: real, n: nat)
    requires base >= 0.0
    ensures Power(base, n) >= 0.0
  {
    if n > 0 {
      PowerNonNegative(base, n - 1);
    }
  }

  /** Without jitter the delay never shrinks from one retry to the next, and sticks to the cap once
      there; a base above one does get there. */
  lemma DelaysGrowToTheCap(p: Policy, random: real, k: nat)
    requires p.baseSeconds >= 1.0 && !p.jitterEnabled
    ensures CalculateBackoff(k, p, random) <= CalculateBackoff(k + 1, p, random) <= p.maxSeconds
    ensures CalculateBackoff(k, p, random) == p.maxSeconds ==> CalculateBackoff(k + 1, p, random) == p.maxSeconds
    ensures (k + 1) as real * (p.baseSeconds - 1.0) >= p.maxSeconds - 1.0
            ==> CalculateBackoff(k, p, random) == p.maxSeconds
  {
    PowerGrows(p.baseSeconds, k + 1);
  }

  /** Without jitter the first retry waits one base, and every further one the base times as long as the one
      before, both up to the cap. */
  lemma DelaysMultiply(p: Policy, random: real, k: nat)
    requires p.baseSeconds >= 1.0 && p.maxSeconds >= 0.0 && !p.jitterEnabled
    ensures CalculateBackoff(0, p, random) == if p.baseSeconds <= p.maxSeconds then p.baseSeconds else p.maxSeconds
    ensures var next := p.baseSeconds * CalculateBackoff(k, p, random);
      CalculateBackoff(k + 1, p, random) == if next <= p.maxSeconds then next else p.maxSeconds
  {
    var power := Power(p.baseSeconds, k + 1);
    assert Power(p.baseSeconds, 1) == p.baseSeconds * 1.0;
    PowerGrows(p.baseSeconds, k + 1);
    if power > p.maxSeconds {
      Product(p.baseSeconds - 1.0, p.maxSeconds);
      Product(p.baseSeconds, power - p.maxSeconds);
      Distribute(p.baseSeconds - 1.0, 1.0, p.maxSeconds);
    }
  }

  /** A count below zero divides instead, down to no limit; where there is nothing to divide by, the cap
      applies. */
  lemma DelaysBelowZero(p: Policy, random: real, n: nat)
    requires p.baseSeconds >= 0.0 && !p.jitterEnabled
    ensures CalculateBackoff(-1, p, random) == if 1.0 <= p.maxSeconds then 1.0 else p.maxSeconds
    ensures p.baseSeconds == 0.0 && n > 0 ==> CalculateBackoff(-1 - n, p, random) == p.maxSeconds
    ensures p.baseSeconds > 0.0 && n > 0 ==>
      var d := CalculateBackoff(-1 - n, p, random);
      d <= p.maxSeconds && if d < p.maxSeconds then d * Power(p.baseSeconds, n) == 1.0 else d * Power(p.baseSeconds, n) <= 1.0
  {
    PowerOf(p.baseSeconds, n);
    if p.baseSeconds > 0.0 && n > 0 {
      var power, m := Power(p.baseSeconds, n), p.maxSeconds;
      assert 1.0 / power * power == 1.0;
      if m <= 1.0 / power {
        Product(1.0 / power - m, power);
        Distribute(1.0 / power, -m, power);
      }
    }
  }

  lemma {:induction false} PowerOf(base: real, n: nat)
    requires base >= 0.0
    ensures base == 0.0 && n > 0 ==> Power(base, n) == 0.0
    ensures base > 0.0 ==> Power(base, n) > 0.0
  {
    if n > 0 {
      PowerOf(base, n - 1);
    }
  }

  /** With jitter the delay is the random share of the delay without. */
  lemma JitterScales(p: Policy, random: real, k: int)
    requires p.jitterEnabled
    ensures CalculateBackoff(k, p, random) == random * CalculateBackoff(k, p.(jitterEnabled := false), random)
  {}

  /** With jitter the delay lies between zero and the delay without. */
  lemma JitterOnlyShortens(p: Policy, random: real, k: int)
    requires 0.0 <= random < 1.0 && p.baseSeconds >= 0.0 && p.maxSeconds >= 0.0
    ensures 0.0 <= CalculateBackoff(k, p, random) <= Ceiling(k, p)
  {
    if k + 1 >= 0 {
      PowerNonNegative(p.baseSeconds, k + 1);
    } else {
      PowerNonNegative(p.baseSeconds, -(k + 1));
    }
    var c := Ceiling(k, p);
    Product(random, c);
    Product(1.0 - random, c);
    Distribute(random, 1.0 - random, c);
  }

  /** The longest the retries numbered `from` up to the limit can take together. */
  function Budget(p: Policy, from: int): real
    decreases p.maxRetries - from
  {
    if from >= p.maxRetries then 0.0 else Ceiling(from, p) + Budget(p, from + 1)
  }
}
