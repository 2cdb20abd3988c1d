/**
 * Python's numeric conversions over exact reals: `int(x)` truncates toward
 * zero and `round(x)` rounds half to even ("banker's rounding").
 */
module Numeric {

  function Abs(x: real): (r: real)
    ensures r >= 0.0 && (r == x || r == -x)
  {
    if x < 0.0 then -x else x
  }

  /** `int(x)`: the integer part, dropping the fraction toward zero. */
  function Trunc(x: real): (r: int)
    ensures x >= 0.0 ==> 0 <= r && r as real <= x < r as real + 1.0
    ensures x < 0.0 ==> r <= 0 && r as real - 1.0 < x <= r as real
  {
    if x >= 0.0 then x.Floor else -((-x).Floor)
  }

  /** `round(x)`: the nearest integer, a tie going to the even neighbour. */
  function RoundHalfEven(x: real): (r: int)
    ensures x - 0.5 <= r as real <= x + 0.5
    ensures x - 0.5 == r as real || r as real == x + 0.5 ==> r % 2 == 0
  {
    var f := x.Floor;
    var d := x - f as real;
    if d < 0.5 then f
    else if d > 0.5 then f + 1
    else if f % 2 == 0 then f
    else f + 1
  }

  /** A number between two integers rounds to a number between them. */
  lemma RoundBetween(x: real, lo: int, hi: int)
    requires lo as real <= x <= hi as real
    ensures lo <= RoundHalfEven(x) <= hi
  {
    var f := x.Floor;
    assert lo <= f <= hi;
    if f == hi {
      assert x == hi as real;
    }
  }

  /** An integer-valued real rounds to itself. */
  lemma RoundInteger(n: int)
    ensures RoundHalfEven(n as real) == n
  {
  }

  /** Rounding never reverses the order of two numbers. */
  lemma RoundMonotone(x: real, y: real)
    requires x <= y
    ensures RoundHalfEven(x) <= RoundHalfEven(y)
  {
    var fx, fy := x.Floor, y.Floor;
    if fx < fy {
      assert RoundHalfEven(x) <= fx + 1 <= fy <= RoundHalfEven(y);
    }
  }

  /**
   * `int((part / whole) * 100)` for a positive whole: the percentage,
   * truncated. It reaches 100 exactly when the part reaches the whole.
   */
  function Percent(part: int, whole: int): (p: int)
    requires whole > 0
    ensures part >= 0 ==> p >= 0 && p * whole <= 100 * part < (p + 1) * whole
    ensures 0 <= part <= whole ==> p <= 100
    ensures p >= 100 <==> part >= whole
  {
    var x := part as real / whole as real * 100.0;
    PercentFacts(part, whole);
    Trunc(x)
  }

  lemma PercentFacts(part: int, whole: int)
    requires whole > 0
    ensures var x := part as real / whole as real * 100.0;
      && (part >= 0 ==> x >= 0.0 && Trunc(x) * whole <= 100 * part < (Trunc(x) + 1) * whole)
      && (Trunc(x) >= 100 <==> part >= whole)
  {
    var w := whole as real;
    var q := part as real / w;
    var x := q * 100.0;
    assert q * w == part as real;
    QuotientSign(part as real, w, q);
    QuotientSign(part as real - w, w, q - 1.0);
    assert x >= 100.0 <==> part >= whole;
    assert x >= 0.0 <==> part >= 0;
    if part >= 0 {
      TruncScaled(x, w, Trunc(x), 100 * part, whole);
    }
  }

  lemma TruncScaled(x: real, w: real, t: int, a: int, b: int)
    requires x >= 0.0 && w > 0.0 && t as real <= x < t as real + 1.0
    requires x * w == a as real && w == b as real
    ensures t * b <= a < (t + 1) * b
  {
    var lo, hi := t as real, (t + 1) as real;
    assert hi == lo + 1.0;
    ScaleLe(lo, x, w);
    ScaleLt(x, hi, w);
    MulAsReal(t, b);
    MulAsReal(t + 1, b);
    assert x * w < hi * w;
    assert a as real < hi * w;
    assert hi * w == ((t + 1) * b) as real;
    assert (t * b) as real == lo * w <= a as real;
  }

  lemma QuotientSign(a: real, w: real, q: real)
    requires w > 0.0 && q * w == a
    ensures q >= 0.0 <==> a >= 0.0
  {
    if q < 0.0 {
      ScaleLt(q, 0.0, w);
    } else {
      ScaleLe(0.0, q, w);
    }
  }

  /** A share of a positive whole, as a ratio, lies between 0 and 1. */
  lemma UnitRatio(a: real, w: real)
    requires w > 0.0 && 0.0 <= a <= w
    ensures 0.0 <= a / w <= 1.0
  {
    var q := a / w;
    assert q * w == a;
    QuotientSign(a, w, q);
    QuotientSign(a - w, w, q - 1.0);
  }

  lemma MulAsReal(a: int, b: int)
    ensures (a * b) as real == a as real * b as real
  {
  }

  lemma ScaleLe(a: real, b: real, w: real)
    requires a <= b && w > 0.0
    ensures a * w <= b * w
  {
  }

  lemma ScaleLt(a: real, b: real, w: real)
    requires a < b && w > 0.0
    ensures a * w < b * w
  {
  }
}
