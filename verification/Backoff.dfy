/** The consumer's retry backoff: doubling per attempt, capped at thirty seconds. */
module Backoff {
  import opened Domain

  newtype Int64 = x: int | -0x8000_0000_0000_0000 <= x < 0x8000_0000_0000_0000

  const MAX_DELAY: Time := 30 * SECOND

  function Pow2(n: nat): nat {
    if n == 0 then 1 else 2 * Pow2(n - 1)
  }

  /** The closed form: base doubled once per attempt after the first, at most MAX_DELAY. */
  function RetryDelay(base: Time, attempt: int): Time {
    var uncapped := base * Pow2(if attempt < 1 then 0 else attempt - 1);
    if uncapped > MAX_DELAY then MAX_DELAY else uncapped
  }

  /** The doubling loop, in 64-bit nanoseconds: it computes the closed form for every positive
      base, and the type shows that no intermediate delay overflows. */
  method ComputeRetryDelay(base: Int64, attempt: int) returns (delay: Int64)
    requires base > 0
    ensures delay as int == RetryDelay(base as int, attempt)
  {
    delay := base;
    var i := 1;
    while i < attempt
      invariant 1 <= i && (i <= attempt || attempt < 1 == i)
      invariant delay as int == base as int * Pow2(i - 1)
    {
      if delay >= 30_000_000_000 {
        DoublingIsMonotone(base as int, i - 1, attempt - 1);
        return 30_000_000_000;
      }
      delay := delay * 2;
      i := i + 1;
    }
    if delay > 30_000_000_000 {
      return 30_000_000_000;
    }
  }

  lemma {:induction false} DoublingIsMonotone(base: Time, n: nat, m: nat)
    requires base >= 0 && n <= m
    ensures base * Pow2(n) <= base * Pow2(m)
  {
    if n < m {
      DoublingIsMonotone(base, n, m - 1);
      assert base * Pow2(m) == 2 * (base * Pow2(m - 1));
      assert base * Pow2(m - 1) >= 0;
    }
  }

  /** A later attempt never waits less, and every wait is positive and at most MAX_DELAY. */
  lemma RetryDelayIsMonotoneAndBounded(base: Time, attempt: int, later: int)
    requires base > 0 && attempt <= later
    ensures 0 < RetryDelay(base, attempt) <= RetryDelay(base, later) <= MAX_DELAY
  {
    var n, m := if attempt < 1 then 0 else attempt - 1, if later < 1 then 0 else later - 1;
    DoublingIsMonotone(base, 0, n);
    DoublingIsMonotone(base, n, m);
  }

  /** The first wait is the base, each further one twice the one before, and none over thirty seconds. */
  lemma RetryDelayDoubles(base: Time, attempt: int)
    requires base > 0
    ensures attempt <= 1 ==> RetryDelay(base, attempt) == if base < 30_000_000_000 then base else 30_000_000_000
    ensures attempt >= 1 ==>
              var delay := RetryDelay(base, attempt);
              RetryDelay(base, attempt + 1) == if 2 * delay < 30_000_000_000 then 2 * delay else 30_000_000_000
  {
    if attempt >= 1 {
      assert base * Pow2(attempt) == 2 * (base * Pow2(attempt - 1));
    }
  }
}
