/**
 * The differential-to-probability transform `1 / (1 + 10^(-diff/400))` of the
 * Elo model and the pick rule built on it.
 *
 * Dafny's reals have no exponential, so `Pow10` is a concrete stand-in for
 * `10 ** x`: it is exactly `10^n` at every integer `n`, rises linearly inside
 * each decade for non-negative exponents, and is the reciprocal of its mirror
 * image for negative ones. Everything proved about probabilities below uses
 * only the four properties `10 ** x` shares with it: it is positive, strictly
 * increasing, `Pow10(0) == 1` and `Pow10(-x) == 1 / Pow10(x)`.
 */
module Probability {

  /** 10^n for a natural exponent. */
  function Pow10Nat(n: nat): (r: real)
    ensures r >= 1.0
  {
    if n == 0 then 1.0 else 10.0 * Pow10Nat(n - 1)
  }

  /**
   * The stand-in for `10 ** x` on non-negative exponents: linear from 1 to 10
   * on the first decade, and ten times the value one decade down above it.
   */
  function Pow10Up(x: real): (r: real)
    requires x >= 0.0
    ensures r >= 1.0
    decreases x.Floor
  {
    if x >= 1.0 then 10.0 * Pow10Up(x - 1.0) else 1.0 + 9.0 * x
  }

  /** The stand-in for `10 ** x`. */
  function Pow10(x: real): (r: real)
    ensures r > 0.0
  {
    if x >= 0.0 then Pow10Up(x) else 1.0 / Pow10Up(-x)
  }

  lemma Pow10Zero()
    ensures Pow10(0.0) == 1.0
  {
  }

  lemma {:induction false} Pow10UpAtNat(n: nat)
    ensures Pow10Up(n as real) == Pow10Nat(n)
  {
    if n > 0 {
      Pow10UpAtNat(n - 1);
      assert n as real - 1.0 == (n - 1) as real;
    }
  }

  /** `Pow10` agrees with `10 ** n` at every integer exponent. */
  lemma Pow10AtIntegers(n: nat)
    ensures Pow10(n as real) == Pow10Nat(n)
    ensures Pow10(-(n as real)) == 1.0 / Pow10Nat(n)
  {
    Pow10UpAtNat(n);
  }

  /** For non-negative `x`, `Pow10(x)` lies in the same decade as `10 ** x`. */
  lemma {:induction false} Pow10WithinDecade(x: real)
    requires x >= 0.0
    ensures Pow10Nat(x.Floor) <= Pow10(x) < Pow10Nat(x.Floor + 1)
    decreases x.Floor
  {
    if x >= 1.0 {
      Pow10WithinDecade(x - 1.0);
      assert (x - 1.0).Floor == x.Floor - 1;
    } else {
      assert x.Floor == 0;
    }
  }

  lemma Pow10Reciprocal(x: real)
    ensures Pow10(-x) == 1.0 / Pow10(x)
  {
  }

  lemma {:induction false} Pow10UpIncreasing(x: real, y: real)
    requires 0.0 <= x < y
    ensures Pow10Up(x) < Pow10Up(y)
    decreases y.Floor
  {
    if x >= 1.0 {
      Pow10UpIncreasing(x - 1.0, y - 1.0);
    }
  }

  lemma Pow10StrictlyIncreasing(x: real, y: real)
    requires x < y
    ensures Pow10(x) < Pow10(y)
  {
    if 0.0 <= x {
      Pow10UpIncreasing(x, y);
    } else if y < 0.0 {
      Pow10UpIncreasing(-y, -x);
      ReciprocalDecreasing(Pow10Up(-y), Pow10Up(-x));
    } else {
      Pow10UpIncreasing(0.0, -x);
      assert Pow10Up(0.0) == 1.0 by { assert (0.0).Floor == 0; }
      ReciprocalDecreasing(1.0, Pow10Up(-x));
    }
  }

  lemma ReciprocalDecreasing(a: real, b: real)
    requires 0.0 < a < b
    ensures 1.0 / b < 1.0 / a
  {
    assert (1.0 / b) * a < (1.0 / b) * b;
    assert (1.0 / a) * a == 1.0;
  }

  /** The home (or first competitor's) win probability for an adjusted differential. */
  function WinProb(diff: real): (p: real)
    ensures 0.0 < p < 1.0
  {
    1.0 / (1.0 + Pow10(-diff / 400.0))
  }

  /** An even differential gives an even chance, and only an even one. */
  lemma WinProbHalfIffEven(diff: real)
    ensures WinProb(diff) == 0.5 <==> diff == 0.0
  {
    Pow10Zero();
    if diff > 0.0 {
      Pow10StrictlyIncreasing(-diff / 400.0, 0.0);
    } else if diff < 0.0 {
      Pow10StrictlyIncreasing(0.0, -diff / 400.0);
    }
  }

  lemma WinProbStrictlyIncreasing(d1: real, d2: real)
    requires d1 < d2
    ensures WinProb(d1) < WinProb(d2)
  {
    Pow10StrictlyIncreasing(-d2 / 400.0, -d1 / 400.0);
    ReciprocalDecreasing(1.0 + Pow10(-d2 / 400.0), 1.0 + Pow10(-d1 / 400.0));
  }

  /** The chances of the two sides of one differential add up to one. */
  lemma WinProbComplement(diff: real)
    ensures WinProb(diff) + WinProb(-diff) == 1.0
  {
    var e := -diff / 400.0;
    Pow10Reciprocal(e);
    assert -(-diff) / 400.0 == -e;
    ReciprocalPairSum(Pow10(e), Pow10(-e));
  }

  lemma ReciprocalPairSum(p: real, q: real)
    requires p > 0.0 && q == 1.0 / p
    ensures 1.0 / (1.0 + p) + 1.0 / (1.0 + q) == 1.0
  {
    assert 1.0 + q == (p + 1.0) / p;
    assert 1.0 / (1.0 + q) == p / (p + 1.0);
  }

  /** The pick rule: the home side (or first fighter) is picked iff its chance is at least one half. */
  predicate PicksFirst(p: real)
  {
    p >= 0.5
  }

  /** Picking by probability is picking by the sign of the adjusted differential. */
  lemma PickBySign(diff: real)
    ensures PicksFirst(WinProb(diff)) <==> diff >= 0.0
  {
    WinProbHalfIffEven(0.0);
    if diff > 0.0 {
      WinProbStrictlyIncreasing(0.0, diff);
    } else if diff < 0.0 {
      WinProbStrictlyIncreasing(diff, 0.0);
    }
  }
}
