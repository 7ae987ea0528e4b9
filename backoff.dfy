/**
 * Reconnect backoff of index.js: `computeDelay` (lines 59-63), that is
 * `min(BASE_DELAY * 2^reconnectAttempt, MAX_DELAY) + floor(random * jitterMs)`,
 * computed in whole milliseconds on unbounded integers.
 */
module Backoff {
  import Rand

  /** `Math.pow(2, n)`. */
  function Pow2(n: nat): (p: nat)
    ensures p >= 1
    ensures n > 0 ==> p >= 2
  {
    if n == 0 then 1 else 2 * Pow2(n - 1)
  }

  /** The exponential part, `Math.min(base * Math.pow(2, attempt), cap)`. */
  function Exponential(base: nat, cap: nat, attempt: nat): (e: nat)
    ensures e <= cap && e <= base * Pow2(attempt)
    ensures e == cap || e == base * Pow2(attempt)
  {
    if base * Pow2(attempt) < cap then base * Pow2(attempt) else cap
  }

  /**
   * `computeDelay()`: the exponential part plus a jitter drawn from
   * [0, jitterMs), where `u` stands for the `Math.random()` draw.
   */
  function ComputeDelay(base: nat, cap: nat, jitterMs: nat, attempt: nat, u: real): (d: nat)
    requires 0.0 <= u < 1.0
    ensures Exponential(base, cap, attempt) <= d
    ensures jitterMs > 0 ==> d < Exponential(base, cap, attempt) + jitterMs
    ensures jitterMs > 0 ==> d < cap + jitterMs
    ensures jitterMs == 0 ==> d == Exponential(base, cap, attempt)
  {
    Exponential(base, cap, attempt) + Rand.ScaledFloor(u, jitterMs)
  }

  lemma {:induction false} Pow2Monotone(a: nat, b: nat)
    requires a <= b
    ensures Pow2(a) <= Pow2(b)
    decreases b - a
  {
    if a < b {
      Pow2Monotone(a, b - 1);
    }
  }

  /** The exponential part never shrinks as the attempt count grows. */
  lemma {:induction false} ExponentialMonotone(base: nat, cap: nat, a: nat, b: nat)
    requires a <= b
    ensures Exponential(base, cap, a) <= Exponential(base, cap, b)
  {
    Pow2Monotone(a, b);
    MulMonotone(base, Pow2(a), Pow2(b));
  }

  lemma MulMonotone(k: nat, x: nat, y: nat)
    requires x <= y
    ensures k * x <= k * y
  {
  }

  /** Once the exponential part reaches the cap it stays there. */
  lemma {:induction false} ExponentialSaturates(base: nat, cap: nat, a: nat, b: nat)
    requires a <= b
    requires Exponential(base, cap, a) == cap
    ensures Exponential(base, cap, b) == cap
  {
    ExponentialMonotone(base, cap, a, b);
  }

  /** Below the cap, each further attempt doubles the exponential part. */
  lemma {:induction false} ExponentialDoubles(base: nat, cap: nat, a: nat)
    requires base * Pow2(a + 1) < cap
    ensures Exponential(base, cap, a + 1) == 2 * Exponential(base, cap, a)
  {
    assert Pow2(a + 1) == 2 * Pow2(a);
    assert base * Pow2(a + 1) == 2 * (base * Pow2(a));
  }

  /**
   * Delays of consecutive attempts, with independent jitter draws: the later
   * one is never below the earlier one's exponential part, and no delay
   * exceeds the cap by the jitter bound or more.
   */
  lemma DelayBounds(base: nat, cap: nat, jitterMs: nat, a: nat, b: nat, u: real, v: real)
    requires a <= b && 0.0 <= u < 1.0 && 0.0 <= v < 1.0 && jitterMs > 0
    ensures Exponential(base, cap, a) <= ComputeDelay(base, cap, jitterMs, b, v)
    ensures ComputeDelay(base, cap, jitterMs, a, u) < cap + jitterMs
  {
    ExponentialMonotone(base, cap, a, b);
  }
}
