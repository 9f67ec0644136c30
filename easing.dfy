/** Exponential smoothing toward a target: `s += (t - s) * k`, as written by
    hand in the webcam demos and performed by the rendering library's
    `Vector3.lerp(target, k)` (component by component) in the v2 jump demo. */
module Easing {

  /** One smoothing step from s toward t with factor k. The gap to the
      target is multiplied by 1 - k; for a factor in [0, 1] the result lies
      between the old value and the target, so it never overshoots, and a
      value already at the target stays there. */
  function Lerp(s: real, t: real, k: real): (r: real)
    ensures r - t == (1.0 - k) * (s - t)
    ensures 0.0 <= k <= 1.0 && s <= t ==> s <= r <= t
    ensures 0.0 <= k <= 1.0 && t <= s ==> t <= r <= s
    ensures s == t ==> r == t
  {
    var r := s + (t - s) * k;
    LerpFacts(s, t, k, r);
    r
  }

  /** The facts `Lerp` promises, stated on its expression. */
  lemma LerpFacts(s: real, t: real, k: real, r: real)
    requires r == s + (t - s) * k
    ensures r - t == (1.0 - k) * (s - t)
    ensures 0.0 <= k <= 1.0 && s <= t ==> s <= r <= t
    ensures 0.0 <= k <= 1.0 && t <= s ==> t <= r <= s
  {
    assert (t - s) * k - (t - s) == (1.0 - k) * (s - t);
    if 0.0 <= k <= 1.0 {
      if s <= t {
        MulNonNegative(t - s, k);
        MulNonNegative(t - s, 1.0 - k);
        assert (t - s) * (1.0 - k) == (t - s) - (t - s) * k;
      } else {
        MulNonNegative(s - t, k);
        MulNonNegative(s - t, 1.0 - k);
        assert (s - t) * k == -((t - s) * k);
        assert (s - t) * (1.0 - k) == (s - t) - (s - t) * k;
      }
    }
  }

  /** One more frame multiplies the remaining gap by 1 - k. */
  lemma EaseStep(s: real, t: real, k: real, n: nat)
    requires n > 0
    ensures Ease(s, t, k, n) - t == (1.0 - k) * (Ease(s, t, k, n - 1) - t)
  {
  }

  lemma MulAssociates(a: real, p: real, g: real, d: real)
    requires d == p * g
    ensures a * d == (a * p) * g
  {
  }

  lemma MulNonNegative(a: real, b: real)
    requires 0.0 <= a && 0.0 <= b
    ensures 0.0 <= a * b
  {
  }

  /** Smoothing keeps a value inside any interval that also holds the target. */
  lemma LerpStaysInRange(s: real, t: real, k: real, lo: real, hi: real)
    requires 0.0 <= k <= 1.0
    requires lo <= s <= hi && lo <= t <= hi
    ensures lo <= Lerp(s, t, k) <= hi
  {
    if s <= t {
      assert s <= Lerp(s, t, k) <= t;
    } else {
      assert t <= Lerp(s, t, k) <= s;
    }
  }

  /** x to the power n. */
  function Pow(x: real, n: nat): real
  {
    if n == 0 then 1.0 else x * Pow(x, n - 1)
  }

  /** n smoothing steps toward a constant target. */
  function Ease(s: real, t: real, k: real, n: nat): real
  {
    if n == 0 then s else Lerp(Ease(s, t, k, n - 1), t, k)
  }

  /** Closed form of repeated smoothing: after n frames toward a constant
      target t the value is t - (t - s) * (1 - k)^n. */
  lemma {:induction false} EaseClosedForm(s: real, t: real, k: real, n: nat)
    ensures Ease(s, t, k, n) - t == Pow(1.0 - k, n) * (s - t)
  {
    if n > 0 {
      EaseClosedForm(s, t, k, n - 1);
      EaseStep(s, t, k, n);
      MulAssociates(1.0 - k, Pow(1.0 - k, n - 1), s - t, Ease(s, t, k, n - 1) - t);
    }
  }

  lemma {:induction false} PowAdd(x: real, m: nat, n: nat)
    ensures Pow(x, m + n) == Pow(x, m) * Pow(x, n)
  {
    if m > 0 {
      PowAdd(x, m - 1, n);
      assert Pow(x, m + n) == x * Pow(x, m - 1 + n);
    }
  }

  /** A power of a base in [0, 1] stays in [0, 1]. */
  lemma {:induction false} PowUnit(x: real, n: nat)
    requires 0.0 <= x <= 1.0
    ensures 0.0 <= Pow(x, n) <= 1.0
  {
    if n > 0 {
      PowUnit(x, n - 1);
      var p := Pow(x, n - 1);
      MulNonNegative(x, p);
      MulNonNegative(1.0 - x, p);
      assert p - x * p == (1.0 - x) * p;
    }
  }

  /** For a base in [0, 1], higher powers are no larger. */
  lemma {:induction false} PowAntitone(x: real, m: nat, n: nat)
    requires 0.0 <= x <= 1.0
    requires m <= n
    ensures Pow(x, n) <= Pow(x, m)
  {
    if m < n {
      PowAntitone(x, m, n - 1);
      PowUnit(x, n - 1);
      var p := Pow(x, n - 1);
      assert Pow(x, n) == x * p;
      assert x * p <= 1.0 * p;
    }
  }

  /** 0.9^44 is below one hundredth. */
  lemma NinetyPercentPow44()
    ensures Pow(0.9, 44) < 0.01
  {
    assert Pow(0.9, 1) == 0.9;
    PowAdd(0.9, 1, 1);
    assert Pow(0.9, 2) == 0.81;
    PowAdd(0.9, 2, 2);
    assert Pow(0.9, 4) == 0.6561;
    PowAdd(0.9, 4, 4);
    assert Pow(0.9, 8) <= 0.4305;
    PowAdd(0.9, 8, 8);
    assert Pow(0.9, 16) <= 0.4305 * 0.4305;
    PowAdd(0.9, 16, 4);
    PowAdd(0.9, 20, 2);
    assert Pow(0.9, 22) <= 0.4305 * 0.4305 * 0.6561 * 0.81;
    assert Pow(0.9, 22) < 0.1;
    PowAdd(0.9, 22, 22);
  }

  /** With the factor 0.1 used by the v2 jump demo, the value is within 1%
      of its starting gap to a constant target after 44 frames, and stays
      there. */
  lemma ConvergesWithinOnePercent(s: real, t: real, n: nat)
    requires n >= 44
    ensures -0.01 * Abs(s - t) <= Ease(s, t, 0.1, n) - t <= 0.01 * Abs(s - t)
  {
    EaseClosedForm(s, t, 0.1, n);
    assert 1.0 - 0.1 == 0.9;
    PowAntitone(0.9, 44, n);
    PowUnit(0.9, n);
    NinetyPercentPow44();
    SmallFactorBound(Pow(0.9, n), s - t);
  }

  /** Multiplying a gap by a factor in [0, 0.01] leaves at most 1% of it. */
  lemma SmallFactorBound(p: real, g: real)
    requires 0.0 <= p <= 0.01
    ensures -0.01 * Abs(g) <= p * g <= 0.01 * Abs(g)
  {
    if g < 0.0 {
      assert p * (-g) <= 0.01 * (-g);
    } else {
      assert p * g <= 0.01 * g;
    }
  }

  function Abs(x: real): real
  {
    if x < 0.0 then -x else x
  }
}
