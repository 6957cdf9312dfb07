/** Real-number helpers for the backoff formulas. */
module Numeric {

  function Min(a: real, b: real): (r: real)
    ensures r <= a && r <= b && (r == a || r == b)
  {
    if a <= b then a else b
  }

  function Max(a: real, b: real): (r: real)
    ensures r >= a && r >= b && (r == a || r == b)
  {
    if a >= b then a else b
  }

  /** `b ** n` for a natural exponent. */
  function Pow(b: real, n: nat): real
  {
    if n == 0 then 1.0 else b * Pow(b, n - 1)
  }

  lemma {:induction false} PowNonNegative(b: real, n: nat)
    requires b >= 0.0
    ensures Pow(b, n) >= 0.0
  {
    if n > 0 {
      PowNonNegative(b, n - 1);
    }
  }

  lemma {:induction false} PowAtLeastOne(b: real, n: nat)
    requires b >= 1.0
    ensures Pow(b, n) >= 1.0
  {
    if n > 0 {
      PowAtLeastOne(b, n - 1);
    }
  }

  /** With a base of at least 1 the power grows with the exponent. */
  lemma {:induction false} PowMonotone(b: real, m: nat, n: nat)
    requires b >= 1.0 && m <= n
    ensures Pow(b, m) <= Pow(b, n)
    decreases n
  {
    if m < n {
      PowMonotone(b, m, n - 1);
      PowAtLeastOne(b, n - 1);
      assert Pow(b, n) == b * Pow(b, n - 1);
    }
  }

  /** `min(scale * base ** n, cap)`: the capped exponential backoff of both retry helpers. */
  function CappedPow(scale: real, b: real, cap: real, n: nat): (r: real)
    ensures r <= cap
  {
    Min(scale * Pow(b, n), cap)
  }

  /** The capped backoff grows with `n` when `scale >= 0` and `base >= 1`. */
  lemma {:induction false} CappedPowMonotone(scale: real, b: real, cap: real, m: nat, n: nat)
    requires scale >= 0.0 && b >= 1.0 && m <= n
    ensures CappedPow(scale, b, cap, m) <= CappedPow(scale, b, cap, n)
  {
    ScaledPowMonotone(scale, b, m, n);
    MinMonotone(scale * Pow(b, m), scale * Pow(b, n), cap);
  }

  lemma {:induction false} ScaledPowMonotone(scale: real, b: real, m: nat, n: nat)
    requires scale >= 0.0 && b >= 1.0 && m <= n
    ensures scale * Pow(b, m) <= scale * Pow(b, n)
  {
    PowMonotone(b, m, n);
    ScaleMonotone(scale, Pow(b, m), Pow(b, n));
  }

  lemma MinMonotone(x: real, y: real, cap: real)
    requires x <= y
    ensures Min(x, cap) <= Min(y, cap)
  {
  }

  lemma ScaleMonotone(k: real, x: real, y: real)
    requires k >= 0.0 && x <= y
    ensures k * x <= k * y
  {
    assert k * y - k * x == k * (y - x);
  }
}
