/**
 * Real-number helpers shared by the models: JavaScript's `Math.min`,
 * `Math.max` and `Math.abs`, clamping, and the cubic ease-out used by the
 * vibe commit animation and the warp ramp.
 */
module Reals {

  function Min(a: real, b: real): real {
    if a <= b then a else b
  }

  function Max(a: real, b: real): real {
    if a >= b then a else b
  }

  function Abs(x: real): real {
    if x < 0.0 then -x else x
  }

  /** `Math.max(lo, Math.min(hi, x))`. */
  function Clamp(x: real, lo: real, hi: real): (y: real)
    requires lo <= hi
    ensures lo <= y <= hi
    ensures lo <= x <= hi ==> y == x
    ensures x < lo ==> y == lo
    ensures hi < x ==> y == hi
  {
    Max(lo, Min(hi, x))
  }

  /** `x` lies between `a` and `b`, in whichever order they come. */
  predicate Within(a: real, b: real, x: real) {
    (a <= x <= b) || (b <= x <= a)
  }

  /** Scaling a non-negative amount by a factor in [0, 1] keeps it in [0, d]. */
  lemma ScaledWithin(d: real, w: real)
    requires 0.0 <= d && 0.0 <= w <= 1.0
    ensures 0.0 <= d * w <= d
  {
    assert d * (1.0 - w) >= 0.0;
  }

  /** A step of `w` in [0, 1] times the gap `d` from `a` stays between `a` and `a + d`. */
  lemma StepBy(a: real, d: real, w: real, x: real)
    requires 0.0 <= w <= 1.0 && x == a + d * w
    ensures Within(a, a + d, x)
  {
    if 0.0 <= d {
      ScaledWithin(d, w);
    } else {
      ScaledWithin(-d, w);
      assert (-d) * w == -(d * w);
    }
  }

  /** Moving from `a` toward `b` by a fraction in [0, 1] of the gap stays between them. */
  lemma StepWithin(a: real, b: real, w: real)
    requires 0.0 <= w <= 1.0
    ensures Within(a, b, a + (b - a) * w)
  {
    StepBy(a, b - a, w, a + (b - a) * w);
  }

  /** `1 - Math.pow(1 - t, 3)`. */
  function EaseOutCubic(t: real): (e: real)
    ensures t == 0.0 ==> e == 0.0
    ensures t == 1.0 ==> e == 1.0
  {
    1.0 - (1.0 - t) * (1.0 - t) * (1.0 - t)
  }

  /** On [0, 1] the ease-out stays in [0, 1]. */
  lemma EaseOutCubicRange(t: real)
    requires 0.0 <= t <= 1.0
    ensures 0.0 <= EaseOutCubic(t) <= 1.0
  {
    var u := 1.0 - t;
    ScaledWithin(u, u);
    ScaledWithin(u * u, u);
    assert EaseOutCubic(t) == 1.0 - u * u * u;
  }

  lemma SquareMonotone(a: real, b: real)
    requires 0.0 <= b <= a
    ensures b * b <= a * a
  {
    assert a * a - b * b == (a - b) * (a + b);
    assert (a - b) * (a + b) >= 0.0;
  }

  /** On [0, 1] the ease-out never decreases. */
  lemma EaseOutCubicMonotone(s: real, t: real)
    requires 0.0 <= s <= t <= 1.0
    ensures EaseOutCubic(s) <= EaseOutCubic(t)
  {
    var a, b := 1.0 - s, 1.0 - t;
    SquareMonotone(a, b);
    assert b * b * b <= a * a * b by {
      assert a * a * b - b * b * b == (a * a - b * b) * b;
      assert (a * a - b * b) * b >= 0.0;
    }
    assert a * a * b <= a * a * a by {
      assert a * a * a - a * a * b == (a * a) * (a - b);
      assert (a * a) * (a - b) >= 0.0;
    }
  }
}
