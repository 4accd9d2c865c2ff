/** Retry with capped exponential backoff, after crates/chudbot-api/src/retry.rs. */
module Retry {
  import opened Prelude

  datatype ErrorClass = ServerTransient | Network | Permanent

  const U32_MAX: nat := 0xFFFF_FFFF

  /** The largest std::time::Duration, in nanoseconds. */
  const DURATION_MAX: nat := 0x1_0000_0000_0000_0000 * 1_000_000_000 - 1

  const MILLI: nat := 1_000_000

  function Pow2(n: nat): (p: nat)
    ensures p >= 1
  {
    if n == 0 then 1 else 2 * Pow2(n - 1)
  }

  /** Durations are whole nanoseconds. */
  datatype RetryPolicy = RetryPolicy(maxAttempts: nat, baseDelay: nat, maxDelay: nat, retryNetwork: bool)
  {
    predicate Valid() { maxAttempts <= U32_MAX && baseDelay <= DURATION_MAX && maxDelay <= DURATION_MAX }

    predicate ShouldRetry(class_: ErrorClass) {
      class_ == ServerTransient || (class_ == Network && retryNetwork)
    }

    /** 2u32.saturating_pow, then Duration::saturating_mul, then the cap. */
    function Backoff(retry: nat): nat {
      var exponent := if retry == 0 then 0 else retry - 1;
      var factor := Min(Pow2(exponent), U32_MAX);
      Min(Min(baseDelay * factor, DURATION_MAX), maxDelay)
    }

    /** All delays, by retry. */
    function Delays(): (delay: nat -> nat)
      ensures forall retry :: delay(retry) == Backoff(retry)
    {
      (retry: nat) => Backoff(retry)
    }

    /** The delay without any saturation. */
    function ExactBackoff(retry: nat): nat
      requires retry >= 1
    {
      Min(baseDelay * Pow2(retry - 1), maxDelay)
    }
  }

  const DEFAULT_POLICY := RetryPolicy(3, 500 * MILLI, 4000 * MILLI, true)

  // ---------------------------------------------------------------------------
  // Backoff
  // ---------------------------------------------------------------------------

  lemma {:induction false} Pow2Monotone(a: nat, b: nat)
    requires a <= b
    ensures Pow2(a) <= Pow2(b)
    decreases b
  {
    if a < b {
      Pow2Monotone(a, b - 1);
    }
  }

  lemma Pow2At31And32()
    ensures Pow2(31) == 0x8000_0000 && Pow2(32) == 0x1_0000_0000
  {
    assert Pow2(8) == 256;
    assert Pow2(16) == 256 * 256 by {
      assert Pow2(12) == 4096;
    }
    assert Pow2(20) == 0x10_0000;
    assert Pow2(24) == 0x100_0000;
    assert Pow2(28) == 0x1000_0000;
  }

  lemma MulMonotone(k: nat, a: nat, b: nat)
    requires a <= b
    ensures k * a <= k * b
  {}

  lemma BackoffMonotone(policy: RetryPolicy, a: nat, b: nat)
    requires a <= b
    ensures policy.Backoff(a) <= policy.Backoff(b) <= policy.maxDelay
  {
    var x, y := if a == 0 then 0 else a - 1, if b == 0 then 0 else b - 1;
    Pow2Monotone(x, y);
    MulMonotone(policy.baseDelay, Min(Pow2(x), U32_MAX), Min(Pow2(y), U32_MAX));
  }

  lemma MulStrict(k: nat, a: nat, b: nat)
    requires a < b
    ensures k > 0 ==> k * a < k * b
    ensures k == 0 ==> k * a == k * b == 0
  {
    if k > 0 {
      assert k * b == k * a + k * (b - a);
      assert k * (b - a) > 0;
    }
  }

  /** Beyond the largest factor, the products compare as the factors do. */
  lemma CappedIff(small: nat, large: nat, cap: nat)
    requires small < large && cap <= DURATION_MAX
    ensures Min(Min(small, DURATION_MAX), cap) == Min(large, cap) <==> small >= cap
  {}

  lemma FactorAt(retry: nat)
    requires retry >= 1
    ensures Pow2(retry - 1) <= U32_MAX <==> retry <= 32
  {
    Pow2At31And32();
    if retry <= 32 {
      Pow2Monotone(retry - 1, 31);
    } else {
      Pow2Monotone(32, retry - 1);
    }
  }

  /** Saturation is invisible for retries 1 to 32, and beyond them exactly when the cap (or a
      zero base) hides it. */
  lemma BackoffExactIff(policy: RetryPolicy, retry: nat)
    requires policy.Valid() && retry >= 1
    ensures policy.Backoff(retry) == policy.ExactBackoff(retry) <==>
              retry <= 32 || policy.baseDelay == 0 || policy.baseDelay * U32_MAX >= policy.maxDelay
  {
    var p := Pow2(retry - 1);
    FactorAt(retry);
    if retry > 32 {
      MulStrict(policy.baseDelay, U32_MAX, p);
      if policy.baseDelay > 0 {
        CappedIff(policy.baseDelay * U32_MAX, policy.baseDelay * p, policy.maxDelay);
      }
    }
  }

  /** One nanosecond doubled 32 times is more than the largest factor, and a cap of ten seconds does
      not hide it. */
  lemma BackoffSaturates()
    ensures var policy := RetryPolicy(34, 1, 10_000 * MILLI, true);
            policy.Valid() && policy.Backoff(33) == U32_MAX && policy.ExactBackoff(33) == U32_MAX + 1
  {
    Pow2At31And32();
  }

  // ---------------------------------------------------------------------------
  // The retry loop
  // ---------------------------------------------------------------------------

  /** retry_after_error: whether attempt number `attempt`, having failed, is followed by another. */
  predicate RetriesAfter(policy: RetryPolicy, attempt: nat, class_: ErrorClass) {
    attempt < policy.maxAttempts && policy.ShouldRetry(class_)
  }

  method RetryAfterError(policy: RetryPolicy, attempt: nat, class_: ErrorClass)
    returns (again: bool, next: nat, slept: nat)
    ensures again <==> RetriesAfter(policy, attempt, class_)
    ensures next == if again then attempt + 1 else attempt
    ensures slept == if again then policy.Backoff(attempt) else 0
  {
    if attempt >= policy.maxAttempts || !policy.ShouldRetry(class_) {
      return false, attempt, 0;
    }
    return true, attempt + 1, policy.Backoff(attempt);
  }

  /** What the first retries sleep. */
  function Total(delay: nat -> nat, retries: nat): nat {
    if retries == 0 then 0 else Total(delay, retries - 1) + delay(retries)
  }

  lemma {:induction false} TotalBound(delay: nat -> nat, cap: nat, retries: nat)
    requires forall retry :: delay(retry) <= cap
    ensures Total(delay, retries) <= retries * cap
  {
    if retries > 0 {
      TotalBound(delay, cap, retries - 1);
      assert retries * cap == (retries - 1) * cap + cap;
    }
  }

  /** More retries sleep longer. */
  lemma {:induction false} TotalMonotone(delay: nat -> nat, a: nat, b: nat)
    requires a <= b
    ensures Total(delay, a) <= Total(delay, b)
    decreases b
  {
    if a < b {
      TotalMonotone(delay, a, b - 1);
    }
  }

  /** An operation as the world answers it: the outcome of its n-th call, counting from 1. */
  type Operation<!T, !E> = nat -> Result<T, E>

  /** Call number `n` ends the loop: it succeeds, may not be retried, or is the last allowed. */
  predicate Ends<T, E>(policy: RetryPolicy, op: Operation<T, E>, classOf: E -> ErrorClass, n: nat) {
    op(n).Ok? || !policy.ShouldRetry(classOf(op(n).error)) || n >= policy.maxAttempts
  }

  /** The first call from `n` on that ends the loop. */
  function CallsFrom<T, E>(policy: RetryPolicy, op: Operation<T, E>, classOf: E -> ErrorClass, n: nat): (calls: nat)
    ensures calls >= n && Ends(policy, op, classOf, calls)
    ensures forall m :: n <= m < calls ==> !Ends(policy, op, classOf, m)
    decreases policy.maxAttempts - n
  {
    if Ends(policy, op, classOf, n) then n else CallsFrom(policy, op, classOf, n + 1)
  }

  /** with_retry: the calls go up to the first that ends the loop, its outcome is returned
      unchanged, and the sleeps between calls are the backoffs in order. */
  method WithRetry<T, E>(policy: RetryPolicy, op: Operation<T, E>, classOf: E -> ErrorClass)
    returns (r: Result<T, E>, calls: nat, slept: nat)
    ensures 1 <= calls <= Max(1, policy.maxAttempts)
    ensures calls == CallsFrom(policy, op, classOf, 1)
    ensures r == op(calls)
    ensures slept == Total(policy.Delays(), calls - 1) <= (calls - 1) * policy.maxDelay
  {
    calls, slept := 1, 0;
    while true
      invariant 1 <= calls <= Max(1, policy.maxAttempts)
      invariant CallsFrom(policy, op, classOf, calls) == CallsFrom(policy, op, classOf, 1)
      invariant slept == Total(policy.Delays(), calls - 1)
      decreases policy.maxAttempts - calls
    {
      r := op(calls);
      TotalBound(policy.Delays(), policy.maxDelay, calls - 1);
      if r.Ok? {
        return;
      }
      var again, next, delay := RetryAfterError(policy, calls, classOf(r.error));
      if !again {
        return;
      }
      calls, slept := next, slept + delay;
    }
  }
}
