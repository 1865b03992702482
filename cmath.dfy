/**
 * The two pieces of C arithmetic the firmware relies on and that Dafny's
 * `int` does not have: integer division that truncates toward zero (C99 `/`)
 * and the conversion of a `float`/`double` value to an integer (also a
 * truncation toward zero). Floating-point values are modelled as exact
 * reals; rounding of the float arithmetic itself is not modelled.
 */
module CMath {

  function Abs(x: int): (r: int)
    ensures 0 <= r && (r == x || r == -x)
  {
    if x < 0 then -x else x
  }

  /** C99 integer division: the quotient rounded toward zero. */
  function CDiv(a: int, b: int): (q: int)
    requires b != 0
    ensures 0 <= a && 0 < b ==> q == a / b && 0 <= q
    ensures a < 0 && 0 < b ==> q <= 0
  {
    if 0 <= a then a / b else -((-a) / b)
  }

  /**
   * What makes CDiv the C quotient: the remainder `a - q * b` is smaller
   * than the divisor in magnitude and takes the sign of the dividend.
   */
  lemma CDivRemainder(a: int, b: int)
    requires b != 0
    ensures 0 <= a ==> 0 <= a - CDiv(a, b) * b < Abs(b)
    ensures a < 0 ==> 0 <= CDiv(a, b) * b - a < Abs(b)
  {
    if a < 0 {
      var q := (-a) / b;
      assert (-a) == q * b + (-a) % b;
    }
  }

  /** The C conversion of a floating value to an integer: drop the fraction. */
  function Trunc(x: real): int
  {
    if 0.0 <= x then x.Floor else -((-x).Floor)
  }

  /** What makes Trunc the C conversion: it moves toward zero by less than one. */
  lemma TruncBounds(x: real)
    ensures 0.0 <= x ==> 0 <= Trunc(x) && Trunc(x) as real <= x < Trunc(x) as real + 1.0
    ensures x < 0.0 ==> Trunc(x) <= 0 && Trunc(x) as real - 1.0 < x <= Trunc(x) as real
  {
  }

  /** Truncation toward zero is symmetric: negating the dividend negates the quotient. */
  lemma CDivNegate(a: int, b: int)
    requires b != 0
    ensures CDiv(-a, b) == -CDiv(a, b)
  {
  }

  /** Dafny's division by a positive divisor is monotone on non-negative dividends. */
  lemma DivMonotone(a1: int, a2: int, b: int)
    requires 0 <= a1 <= a2 && 0 < b
    ensures a1 / b <= a2 / b
  {
    var q1, q2 := a1 / b, a2 / b;
    assert a1 == q1 * b + a1 % b;
    assert a2 == q2 * b + a2 % b;
    assert (q1 - q2) * b < b;
    FactorBelowOne(q1 - q2, b);
  }

  lemma FactorBelowOne(k: int, b: int)
    requires 0 < b && k * b < b
    ensures k < 1
  {
  }

  /** C division by a positive divisor is monotone in the dividend. */
  lemma CDivMonotone(a1: int, a2: int, b: int)
    requires a1 <= a2 && 0 < b
    ensures CDiv(a1, b) <= CDiv(a2, b)
  {
    if 0 <= a1 {
      DivMonotone(a1, a2, b);
    } else if a2 < 0 {
      DivMonotone(-a2, -a1, b);
    }
  }

  /** The float-to-int conversion is monotone. */
  lemma TruncMonotone(x: real, y: real)
    requires x <= y
    ensures Trunc(x) <= Trunc(y)
  {
    TruncBounds(x);
    TruncBounds(y);
  }

  /** Truncation toward zero is symmetric about zero (flooring is not). */
  lemma TruncNegate(x: real)
    ensures Trunc(-x) == -Trunc(x)
  {
    TruncBounds(x);
    TruncBounds(-x);
  }

  /** A whole number converts back to itself. */
  lemma TruncOfInt(n: int)
    ensures Trunc(n as real) == n
  {
    TruncBounds(n as real);
  }

  /** The sum of a sequence of whole numbers, added up from the front. */
  function Sum(s: seq<int>): int
  {
    if s == [] then 0 else Sum(s[..|s| - 1]) + s[|s| - 1]
  }

  /** Bounding every term bounds the sum. */
  lemma {:induction false} SumBounds(s: seq<int>, lo: int, hi: int)
    requires forall i :: 0 <= i < |s| ==> lo <= s[i] <= hi
    ensures |s| * lo <= Sum(s) <= |s| * hi
  {
    if s != [] {
      var front := s[..|s| - 1];
      assert forall i :: 0 <= i < |front| ==> front[i] == s[i];
      SumBounds(front, lo, hi);
      assert |s| * lo == |front| * lo + lo && |s| * hi == |front| * hi + hi;
    }
  }

  /** Terms bounded below give a sum bounded below. */
  lemma {:induction false} SumAtLeast(s: seq<int>, lo: int)
    requires forall i :: 0 <= i < |s| ==> lo <= s[i]
    ensures |s| * lo <= Sum(s)
  {
    if s != [] {
      var front := s[..|s| - 1];
      assert forall i :: 0 <= i < |front| ==> front[i] == s[i];
      SumAtLeast(front, lo);
      assert |s| * lo == |front| * lo + lo;
    }
  }
}
