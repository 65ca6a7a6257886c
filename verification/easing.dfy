/**
 The ease-out law used by the two reveal phases of an animation:
 `easeOut(x, n) = 1 - (1 - x)^n`, with `n = 3` at every call site.
 Arithmetic is exact over `real`; the power is a recursive product.
 */
module Easing {

  /** `b` raised to the natural power `n`, with `Pow(b, 0) == 1` (as `Math.pow(0, 0)` is 1). */
  function Pow(b: real, n: nat): real
  {
    if n == 0 then 1.0 else b * Pow(b, n - 1)
  }

  /** The general ease-out curve with exponent `n`: it starts at 0 and, for a positive
      exponent, reaches 1 at the end of the unit interval. */
  function EaseOutN(x: real, n: nat): (y: real)
    ensures x == 0.0 ==> y == 0.0
    ensures n >= 1 && x == 1.0 ==> y == 1.0
  {
    PowOfOne(n);
    1.0 - Pow(1.0 - x, n)
  }

  /** The exponent every caller uses: the default `n = 3` of `easeOut`. */
  const Exponent: nat := 3

  /** The ease-out curve as the reveal phases call it: from 0 to 1 over the unit interval,
      staying inside it, and ahead of linear progress strictly inside it. */
  function EaseOut(x: real): (y: real)
    ensures x == 0.0 ==> y == 0.0
    ensures x == 1.0 ==> y == 1.0
    ensures 0.0 <= x <= 1.0 ==> 0.0 <= y <= 1.0
    ensures 0.0 < x < 1.0 ==> x < y < 1.0
  {
    if 0.0 < x < 1.0 then
      EaseOutNUnitInterval(x, Exponent);
      EaseOutNStrictlyIncreasing(x, 1.0, Exponent);
      EaseOutN(x, Exponent)
    else if 0.0 <= x <= 1.0 then
      EaseOutNUnitInterval(x, Exponent);
      EaseOutN(x, Exponent)
    else
      EaseOutN(x, Exponent)
  }

  lemma {:induction false} PowOfOne(n: nat)
    ensures Pow(1.0, n) == 1.0
  {
    if n > 0 {
      PowOfOne(n - 1);
    }
  }

  lemma {:induction false} PowNonNegative(a: real, n: nat)
    requires 0.0 <= a
    ensures 0.0 <= Pow(a, n)
  {
    if n > 0 {
      PowNonNegative(a, n - 1);
    }
  }

  /** On the unit interval a power stays in the interval and never exceeds its base. */
  lemma {:induction false} PowUnitBounds(a: real, n: nat)
    requires 0.0 <= a <= 1.0
    ensures 0.0 <= Pow(a, n) <= 1.0
    ensures n >= 1 ==> Pow(a, n) <= a
    ensures n >= 2 && 0.0 < a < 1.0 ==> Pow(a, n) < a
  {
    if n > 0 {
      PowUnitBounds(a, n - 1);
      var p := Pow(a, n - 1);
      assert Pow(a, n) == a * p;
      assert a * p <= a * 1.0;
      if n >= 2 && 0.0 < a < 1.0 {
        assert p < 1.0;
        var q := a * p;
        assert q < a by {
          assert a * (1.0 - p) > 0.0;
        }
        assert Pow(a, n) == q;
      }
    }
  }

  /** Powers with a positive exponent are strictly increasing on the non-negative reals. */
  lemma {:induction false} PowStrictlyIncreasing(a: real, b: real, n: nat)
    requires 0.0 <= a < b
    requires n >= 1
    ensures Pow(a, n) < Pow(b, n)
  {
    if n > 1 {
      PowStrictlyIncreasing(a, b, n - 1);
      PowNonNegative(a, n - 1);
      var pa, pb := Pow(a, n - 1), Pow(b, n - 1);
      assert a * pa <= b * pa;
      assert b * pa < b * pb;
    }
  }

  /** Endpoints of the curve: it starts at 0 for every exponent and ends at 1 for every
      positive exponent; with exponent 0 the curve is constantly 0, so it ends at 0. */
  lemma EaseOutNEndpoints(n: nat)
    ensures EaseOutN(0.0, n) == 0.0
    ensures n >= 1 ==> EaseOutN(1.0, n) == 1.0
    ensures n == 0 ==> EaseOutN(1.0, n) == 0.0
  {
    PowOfOne(n);
  }

  /** The curve is strictly increasing on the unit interval for every positive exponent. */
  lemma EaseOutNStrictlyIncreasing(x: real, y: real, n: nat)
    requires 0.0 <= x < y <= 1.0
    requires n >= 1
    ensures EaseOutN(x, n) < EaseOutN(y, n)
  {
    PowStrictlyIncreasing(1.0 - y, 1.0 - x, n);
  }

  /** The curve maps the unit interval into itself and never lies below the identity there;
      from exponent 2 on it lies strictly above the identity inside the interval
      (it front-loads progress and decelerates towards the end). */
  lemma EaseOutNUnitInterval(x: real, n: nat)
    requires 0.0 <= x <= 1.0
    ensures 0.0 <= EaseOutN(x, n) <= 1.0
    ensures n >= 1 ==> x <= EaseOutN(x, n)
    ensures n >= 2 && 0.0 < x < 1.0 ==> x < EaseOutN(x, n)
  {
    PowUnitBounds(1.0 - x, n);
  }

  /** The facts the reveal phases rely on, for the exponent they use. */
  lemma EaseOutShape(x: real, y: real)
    ensures EaseOut(0.0) == 0.0 && EaseOut(1.0) == 1.0
    ensures 0.0 <= x < y <= 1.0 ==> EaseOut(x) < EaseOut(y)
    ensures 0.0 <= x <= 1.0 ==> 0.0 <= EaseOut(x) <= 1.0
    ensures 0.0 < x < 1.0 ==> x < EaseOut(x) < 1.0
  {
    EaseOutNEndpoints(Exponent);
    if 0.0 <= x < y <= 1.0 {
      EaseOutNStrictlyIncreasing(x, y, Exponent);
    }
    if 0.0 <= x <= 1.0 {
      EaseOutNUnitInterval(x, Exponent);
    }
    if 0.0 < x < 1.0 {
      EaseOutNStrictlyIncreasing(x, 1.0, Exponent);
    }
  }
}
