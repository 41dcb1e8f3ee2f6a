/** The doubling delay shared by the workers and the queue consumer, in int64 nanoseconds. */
module Backoffs {
  import opened Moneys

  /** What is left of the loop when `n` doublings remain. */
  function Doubling(delay: Int64, maximum: Int64, n: nat): Int64
    decreases n
  {
    if n == 0 then (if delay > maximum then maximum else delay)
    else
      var doubled := Wrap(delay * 2);
      if doubled >= maximum then maximum else Doubling(doubled, maximum, n - 1)
  }

  function Backoff(base: Int64, maximum: Int64, exponent: int): Int64 {
    Doubling(base, maximum, if exponent > 0 then exponent else 0)
  }

  method ComputeBackoff(base: Int64, maximum: Int64, exponent: int) returns (r: Int64)
    ensures r == Backoff(base, maximum, exponent)
  {
    var rounds := if exponent > 0 then exponent else 0;
    var delay: Int64 := base;
    for i := 0 to rounds
      invariant Doubling(delay, maximum, rounds - i) == Doubling(base, maximum, rounds)
    {
      delay := Wrap(delay * 2);
      if delay >= maximum {
        return maximum;
      }
    }
    if delay > maximum {
      return maximum;
    }
    return delay;
  }

  function Pow2(n: nat): nat {
    if n == 0 then 1 else 2 * Pow2(n - 1)
  }

  function Capped(base: int, maximum: int, n: nat): int {
    if base * Pow2(n) < maximum then base * Pow2(n) else maximum
  }

  /** Half of the int64 range: below it a doubling cannot wrap. */
  const DOUBLING_LIMIT: int := 0x4000_0000_0000_0000

  lemma TimesPow(d: int, n: nat)
    requires n > 0
    ensures (d * 2) * Pow2(n - 1) == d * Pow2(n)
  {
    var p := Pow2(n - 1);
    assert (d * 2) * p == d * (2 * p);
  }

  lemma {:induction false} PowGrows(d: int, n: nat)
    requires d > 0
    ensures d * Pow2(n) >= d
    decreases n
  {
    if n > 0 {
      PowGrows(d * 2, n - 1);
      TimesPow(d, n);
    }
  }

  lemma {:induction false} DoublingIsCapped(delay: Int64, maximum: Int64, n: nat)
    requires 0 < delay <= maximum < DOUBLING_LIMIT
    ensures Doubling(delay, maximum, n) == Capped(delay, maximum, n)
    decreases n
  {
    if n > 0 {
      var doubled := delay * 2;
      assert Wrap(doubled) == doubled;
      TimesPow(delay, n);
      if doubled < maximum {
        DoublingIsCapped(doubled, maximum, n - 1);
      } else {
        PowGrows(doubled, n - 1);
      }
    }
  }

  /** With the ordering the configuration demands and no doubling that can wrap,
      the delay is min(maximum, base * 2^n) and never shorter than the base. */
  lemma BackoffIsCappedDoubling(base: Int64, maximum: Int64, exponent: nat)
    requires 0 < base <= maximum < DOUBLING_LIMIT
    ensures Backoff(base, maximum, exponent) == Capped(base, maximum, exponent)
    ensures base <= Backoff(base, maximum, exponent) <= maximum
  {
    DoublingIsCapped(base, maximum, exponent);
    PowGrows(base, exponent);
  }

  /** Without that bound the loop can wrap: two doublings of 2^62 give a delay of zero. */
  lemma BackoffCanWrap()
    ensures Backoff(DOUBLING_LIMIT, DOUBLING_LIMIT, 2) == 0
  {
    assert Wrap(DOUBLING_LIMIT * 2) == MIN_INT64;
    assert Wrap(MIN_INT64 * 2) == 0;
    assert Doubling(0, DOUBLING_LIMIT, 0) == 0;
    assert Doubling(MIN_INT64, DOUBLING_LIMIT, 1) == 0;
  }
}
