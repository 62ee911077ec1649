/**
 The retry policies of internal/scheduler/domain/retry_policy.go.

 Attempts and delays keep the widths of the source, so that the verifier checks
 every doubling for overflow of a signed 64-bit duration.
 */
module RetryPolicy {
  import opened Outcomes

  newtype int64 = x: int | -0x8000_0000_0000_0000 <= x < 0x8000_0000_0000_0000
  newtype uint64 = x: int | 0 <= x < 0x1_0000_0000_0000_0000

  datatype Decision = Decision(retryAfter: int64, retry: bool)

  datatype PolicyError = InvalidAttempt | InvalidMaxAttempts | InvalidRetryDelay | InvalidMaxDelay

  datatype Policy =
    | NoRetry
    | FixedDelay(maxAttempts: uint64, delay: int64)
    | ExponentialBackoff(maxAttempts: uint64, initial: int64, maxDelay: int64)

  function NewFixedDelay(maxAttempts: uint64, delay: int64): Result<Policy, PolicyError> {
    if maxAttempts == 0 then Err(InvalidMaxAttempts)
    else if delay <= 0 then Err(InvalidRetryDelay)
    else Ok(FixedDelay(maxAttempts, delay))
  }

  function NewExponentialBackoff(maxAttempts: uint64, initial: int64, maxDelay: int64): Result<Policy, PolicyError> {
    if maxAttempts == 0 then Err(InvalidMaxAttempts)
    else if initial <= 0 then Err(InvalidRetryDelay)
    else if maxDelay < initial then Err(InvalidMaxDelay)
    else Ok(ExponentialBackoff(maxAttempts, initial, maxDelay))
  }

  /** The policies that the constructors can return. */
  predicate Constructed(p: Policy) {
    match p
    case NoRetry => true
    case FixedDelay(m, d) => NewFixedDelay(m, d) == Ok(p)
    case ExponentialBackoff(m, i, d) => NewExponentialBackoff(m, i, d) == Ok(p)
  }

  /** The number of attempts that a policy allows in all. */
  function Budget(p: Policy): uint64 {
    if p.NoRetry? then 1 else p.maxAttempts
  }

  function Pow2(n: nat): nat {
    if n == 0 then 1 else 2 * Pow2(n - 1)
  }

  function Min(a: int, b: int): int {
    if a <= b then a else b
  }

  /** The capped backoff delay in closed form, over unbounded integers. */
  function Backoff(initial: int, maxDelay: int, attempt: nat): int
    requires attempt >= 1
  {
    Min(maxDelay, initial * Pow2(attempt - 1))
  }

  lemma {:induction false} Pow2Positive(n: nat)
    ensures Pow2(n) >= n + 1
  {
    if n > 0 {
      Pow2Positive(n - 1);
    }
  }

  lemma {:induction false} Pow2Monotone(m: nat, n: nat)
    requires m <= n
    ensures Pow2(m) <= Pow2(n)
  {
    if m < n {
      Pow2Monotone(m, n - 1);
    }
  }

  lemma ScaleMonotone(k: int, a: int, b: int)
    requires k >= 0 && a <= b
    ensures k * a <= k * b
  {
  }

  /** Exceeding the cap once means exceeding it at every later attempt. */
  lemma CappedForever(initial: int, maxDelay: int, k: nat, attempt: nat)
    requires initial > 0 && k < attempt
    requires initial * Pow2(k) > maxDelay
    ensures Backoff(initial, maxDelay, attempt) == maxDelay
  {
    Pow2Monotone(k, attempt - 1);
    ScaleMonotone(initial, Pow2(k), Pow2(attempt - 1));
  }

  /** `Decide` as a function: no retry from the budget on, the policy's delay before. */
  function Decide(p: Policy, attempt: uint64): (r: Result<Decision, PolicyError>)
    requires Constructed(p)
  {
    if attempt == 0 then Err(InvalidAttempt)
    else if attempt >= Budget(p) then Ok(Decision(0, false))
    else Ok(Decision(Delay(p, attempt), true))
  }

  function Delay(p: Policy, attempt: uint64): (d: int64)
    requires Constructed(p) && 1 <= attempt < Budget(p)
  {
    match p
    case FixedDelay(_, delay) => delay
    case ExponentialBackoff(_, initial, maxDelay) =>
      Pow2Positive(attempt as nat - 1);
      assert initial as int * Pow2(attempt as nat - 1) >= 0;
      Backoff(initial as int, maxDelay as int, attempt as nat) as int64
  }

  /** The doubling loop computes the closed form, and never doubles more than 62 times. */
  method DecideExponential(p: Policy, attempt: uint64) returns (r: Result<Decision, PolicyError>, ghost doublings: nat)
    requires p.ExponentialBackoff? && Constructed(p)
    ensures r == Decide(p, attempt)
    ensures doublings <= 62
  {
    doublings := 0;
    if attempt == 0 {
      return Err(InvalidAttempt), 0;
    }
    if attempt >= p.maxAttempts {
      return Ok(Decision(0, false)), 0;
    }
    var delay := p.initial;
    var retryNumber: uint64 := 1;
    while retryNumber < attempt
      invariant 1 <= retryNumber <= attempt
      invariant doublings == retryNumber as nat - 1
      invariant delay as int == p.initial as int * Pow2(doublings)
      invariant 0 < delay <= p.maxDelay
    {
      if delay > p.maxDelay / 2 {
        CappedForever(p.initial as int, p.maxDelay as int, doublings + 1, attempt as nat);
        AtMost62(p.initial as int, doublings);
        return Ok(Decision(p.maxDelay, true)), doublings;
      }
      delay := delay * 2;
      doublings := doublings + 1;
      retryNumber := retryNumber + 1;
    }
    AtMost62(p.initial as int, doublings);
    return Ok(Decision(delay, true)), doublings;
  }

  lemma AtMost62(initial: int, doublings: nat)
    requires initial > 0 && initial * Pow2(doublings) < 0x8000_0000_0000_0000
    ensures doublings <= 62
  {
    Pow2At63();
    ScaleMonotone(Pow2(doublings), 1, initial);
    if doublings >= 63 {
      Pow2Monotone(63, doublings);
    }
  }

  lemma Pow2At63()
    ensures Pow2(63) == 0x8000_0000_0000_0000
  {
    assert Pow2(8) == 256;
    assert Pow2(16) == 0x1_0000;
    assert Pow2(24) == 0x100_0000;
    assert Pow2(32) == 0x1_0000_0000;
    assert Pow2(40) == 0x100_0000_0000;
    assert Pow2(48) == 0x1_0000_0000_0000;
    assert Pow2(56) == 0x100_0000_0000_0000;
  }

  /** Below the budget a later attempt never waits less, and no delay leaves [initial, maxDelay]. */
  lemma BackoffMonotone(p: Policy, earlier: uint64, later: uint64)
    requires p.ExponentialBackoff? && Constructed(p)
    requires 1 <= earlier <= later < Budget(p)
    ensures p.initial <= Delay(p, earlier) <= Delay(p, later) <= p.maxDelay
  {
    var a, b := Pow2(earlier as nat - 1), Pow2(later as nat - 1);
    Pow2Positive(earlier as nat - 1);
    Pow2Monotone(earlier as nat - 1, later as nat - 1);
    ScaleMonotone(p.initial as int, 1, a);
    ScaleMonotone(p.initial as int, a, b);
  }

  /** The delays of each policy, one from the other: the initial one, then twice the last up to the largest. */
  lemma DelaysDouble(p: Policy, attempt: uint64)
    requires Constructed(p) && 1 <= attempt < Budget(p)
    ensures p.FixedDelay? ==> Delay(p, attempt) == p.delay
    ensures p.ExponentialBackoff? && attempt == 1 ==> Delay(p, attempt) == p.initial
    ensures p.ExponentialBackoff? && attempt > 1 ==>
              var last := Delay(p, attempt - 1) as int;
              Delay(p, attempt) as int == if 2 * last < p.maxDelay as int then 2 * last else p.maxDelay as int
  {
    if p.ExponentialBackoff? && attempt > 1 {
      var power := Pow2(attempt as nat - 2);
      assert Pow2(attempt as nat - 1) == 2 * power;
      assert p.initial as int * (2 * power) == 2 * (p.initial as int * power);
    }
  }

  /** A policy asks for another attempt exactly while its budget is not used up, and then after a positive delay. */
  lemma RetryIffBudgetLeft(p: Policy, attempt: uint64)
    requires Constructed(p) && attempt > 0
    ensures Decide(p, attempt).Ok?
    ensures Decide(p, attempt).value.retry <==> attempt < Budget(p)
    ensures Decide(p, attempt).value.retry ==> Decide(p, attempt).value.retryAfter > 0
  {
    if p.ExponentialBackoff? && attempt < Budget(p) {
      BackoffMonotone(p, attempt, attempt);
    }
  }
}
