/** The exponential smoother of main/utils/exponential_smoother.hpp. */
module Smoother {

  datatype Smoother = Smoother(alpha: real, value: real, initialized: bool)

  function Max(a: real, b: real): real { if a < b then b else a }
  function Min(a: real, b: real): real { if a < b then a else b }

  /** The alpha the constructor and setAlpha store, as written: the result of
      min(alpha, 1) is overwritten by max(alpha, 0), so only the lower bound
      takes effect. */
  function StoredAlphaAsWritten(alpha: real): (a: real)
    ensures a >= 0.0
    ensures alpha >= 0.0 ==> a == alpha
    ensures alpha < 0.0 ==> a == 0.0
  {
    Max(alpha, 0.0)
  }

  /** The clamp the two assignments evidently intend: alpha within [0, 1]. */
  function ClampAlpha(alpha: real): (a: real)
    ensures 0.0 <= a <= 1.0
    ensures 0.0 <= alpha <= 1.0 ==> a == alpha
    ensures alpha > 1.0 ==> a == 1.0
    ensures alpha < 0.0 ==> a == 0.0
  {
    Max(Min(alpha, 1.0), 0.0)
  }

  /** The constructor as written. */
  function NewAsWritten(alpha: real): (s: Smoother)
    ensures s.alpha == StoredAlphaAsWritten(alpha) && !s.initialized && s.value == 0.0
  {
    Smoother(StoredAlphaAsWritten(alpha), 0.0, false)
  }

  /** The constructor with the intended clamp; the rest of the model uses it. */
  function New(alpha: real): (s: Smoother)
    ensures 0.0 <= s.alpha <= 1.0 && !s.initialized && s.value == 0.0
    ensures 0.0 <= alpha <= 1.0 ==> s.alpha == alpha
  {
    Smoother(ClampAlpha(alpha), 0.0, false)
  }

  /** setAlpha as written: the same overwritten clamp as the constructor,
      so only a negative alpha is corrected; nothing but alpha changes. */
  function SetAlphaAsWritten(s: Smoother, alpha: real): (t: Smoother)
    ensures t.alpha >= 0.0
    ensures alpha >= 0.0 ==> t.alpha == alpha
    ensures t.value == s.value && t.initialized == s.initialized
  {
    s.(alpha := StoredAlphaAsWritten(alpha))
  }

  /** setAlpha with the intended clamp. */
  function SetAlpha(s: Smoother, alpha: real): (t: Smoother)
    ensures 0.0 <= t.alpha <= 1.0
    ensures t.alpha == ClampAlpha(alpha)
    ensures t.value == s.value && t.initialized == s.initialized
  {
    s.(alpha := ClampAlpha(alpha))
  }

  /** setAlpha and the constructor store the same alpha, in either form:
      setting it on a fresh smoother gives the smoother built with it, and
      a later setAlpha wins over an earlier one. */
  lemma SetAlphaAgreesWithConstructor(s: Smoother, a: real, b: real)
    ensures SetAlphaAsWritten(NewAsWritten(a), b) == NewAsWritten(b)
    ensures SetAlpha(New(a), b) == New(b)
    ensures SetAlphaAsWritten(SetAlphaAsWritten(s, a), b) == SetAlphaAsWritten(s, b)
    ensures SetAlpha(SetAlpha(s, a), b) == SetAlpha(s, b)
  {
  }

  predicate Between(lo: real, hi: real, x: real) {
    (lo <= x <= hi) || (hi <= x <= lo)
  }

  /** smooth: the first value after construction or reset passes through;
      later values move the output the fraction alpha of the way from the
      previous output towards the input. */
  function Smooth(s: Smoother, x: real): (t: Smoother)
    ensures t.initialized && t.alpha == s.alpha
    ensures !s.initialized ==> t.value == x
    ensures s.initialized ==> t.value - s.value == s.alpha * (x - s.value)
    ensures s.initialized && 0.0 <= s.alpha <= 1.0 ==> Between(s.value, x, t.value)
  {
    if !s.initialized then
      s.(value := x, initialized := true)
    else
      var v := s.alpha * x + (1.0 - s.alpha) * s.value;
      Blend(s.alpha, x, s.value);
      FractionOfGap(s.alpha, x - s.value);
      s.(value := v)
  }

  /** The blend written as a step from y toward x. */
  lemma Blend(a: real, x: real, y: real)
    ensures a * x + (1.0 - a) * y - y == a * (x - y)
  {
    assert (1.0 - a) * y == y - a * y;
    assert a * (x - y) == a * x - a * y;
  }

  /** A fraction in [0, 1] of a gap lies between zero and the gap. */
  lemma FractionOfGap(a: real, d: real)
    ensures 0.0 <= a <= 1.0 && d >= 0.0 ==> 0.0 <= a * d <= d
    ensures 0.0 <= a <= 1.0 && d <= 0.0 ==> d <= a * d <= 0.0
  {
    assert (1.0 - a) * d == d - a * d;
    if 0.0 <= a <= 1.0 && d >= 0.0 {
      NonNegativeProduct(1.0 - a, d);
      NonNegativeProduct(a, d);
    }
    if 0.0 <= a <= 1.0 && d <= 0.0 {
      NonNegativeProduct(1.0 - a, -d);
      NonNegativeProduct(a, -d);
    }
  }

  lemma NonNegativeProduct(p: real, q: real)
    requires p >= 0.0 && q >= 0.0
    ensures p * q >= 0.0
  {
  }

  function Reset(s: Smoother): (t: Smoother)
    ensures !t.initialized && t.value == 0.0 && t.alpha == s.alpha
  {
    s.(value := 0.0, initialized := false)
  }

  /** After reset the next output equals the next input. */
  lemma ResetPassesThrough(s: Smoother, x: real)
    ensures Smooth(Reset(s), x).value == x
  {
  }

  /** Smooths a whole sequence, returning the last smoother. */
  function SmoothAll(s: Smoother, xs: seq<real>): (t: Smoother)
    ensures t.alpha == s.alpha
    ensures |xs| > 0 ==> t.initialized
    ensures |xs| == 0 ==> t == s
    decreases |xs|
  {
    if |xs| == 0 then s else SmoothAll(Smooth(s, xs[0]), xs[1..])
  }

  function Pow(b: real, n: nat): real {
    if n == 0 then 1.0 else b * Pow(b, n - 1)
  }

  function Constant(x: real, n: nat): (xs: seq<real>)
    ensures |xs| == n && forall i :: 0 <= i < n ==> xs[i] == x
  {
    seq(n, _ => x)
  }

  /** Holding the input at x shrinks the distance to x by the factor
      (1 - alpha) per sample. */
  lemma {:induction false} ConstantInputConverges(s: Smoother, x: real, n: nat)
    requires s.initialized
    ensures SmoothAll(s, Constant(x, n)).value - x == Pow(1.0 - s.alpha, n) * (s.value - x)
    decreases n
  {
    if n > 0 {
      var t := Smooth(s, x);
      var b, c := 1.0 - s.alpha, s.value - x;
      assert t.value - x == b * c;
      assert Constant(x, n)[0] == x;
      assert Constant(x, n)[1..] == Constant(x, n - 1);
      assert SmoothAll(s, Constant(x, n)) == SmoothAll(t, Constant(x, n - 1));
      ConstantInputConverges(t, x, n - 1);
      var p := Pow(b, n - 1);
      assert Pow(b, n) == b * p;
      Regroup(p, b, c);
    }
  }

  lemma Regroup(p: real, b: real, c: real)
    ensures p * (b * c) == (b * p) * c
  {
  }

  /** With alpha in [0, 1], every output stays within the range of the inputs
      seen since the last reset. */
  lemma {:induction false} OutputWithinInputs(s: Smoother, xs: seq<real>, lo: real, hi: real)
    requires 0.0 <= s.alpha <= 1.0
    requires s.initialized ==> lo <= s.value <= hi
    requires forall i :: 0 <= i < |xs| ==> lo <= xs[i] <= hi
    ensures SmoothAll(s, xs).initialized ==> lo <= SmoothAll(s, xs).value <= hi
    decreases |xs|
  {
    if |xs| > 0 {
      OutputWithinInputs(Smooth(s, xs[0]), xs[1..], lo, hi);
    }
  }

  /** The as-written clamp keeps alpha = 2, and the smoother then overshoots:
      after the inputs 0 and 1 it answers 2, outside the range of its inputs. */
  lemma AlphaAboveOneOvershoots()
    ensures StoredAlphaAsWritten(2.0) == 2.0
    ensures Smooth(Smooth(NewAsWritten(2.0), 0.0), 1.0).value == 2.0
  {
  }

  /** With the intended clamp the same inputs give 1, the newest input. */
  lemma ClampedAlphaStaysWithin()
    ensures Smooth(Smooth(New(2.0), 0.0), 1.0).value == 1.0
  {
  }
}
