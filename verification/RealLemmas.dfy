/** Signs and order of products and quotients of reals, one fact at a time. */
module RealLemmas {

  function Times(x: real, y: real): real { x * y }

  lemma TimesSign(x: real, y: real)
    ensures (x > 0.0 && y > 0.0) || (x < 0.0 && y < 0.0) ==> Times(x, y) > 0.0
    ensures x == 0.0 || y == 0.0 ==> Times(x, y) == 0.0
  {
  }

  function Sq(x: real): (r: real)
    ensures r >= 0.0
    ensures x != 0.0 ==> r > 0.0
  {
    TimesSign(x, x);
    Times(x, x)
  }

  lemma QuotientIs(a: real, c: real, z: real)
    requires c != 0.0 && z * c == a
    ensures a / c == z
  {
  }

  lemma QuotientSign(a: real, b: real)
    requires b > 0.0
    ensures a > 0.0 <==> a / b > 0.0
    ensures a < 0.0 <==> a / b < 0.0
  {
  }

  lemma ProductSign(a: real, b: real)
    requires a > 0.0
    ensures b > 0.0 <==> a * b > 0.0
    ensures b < 0.0 <==> a * b < 0.0
  {
  }

  lemma QuotientMonotone(a: real, b: real, c: real)
    requires c > 0.0 && a < b
    ensures a / c < b / c
  {
    assert (b - a) / c == b / c - a / c;
    QuotientSign(b - a, c);
  }

  lemma ProductMonotone(a: real, b: real, x: real, y: real)
    requires 0.0 <= a <= b && 0.0 <= x <= y
    ensures a * x <= b * y
  {
    assert a * x <= a * y;
    assert a * y <= b * y;
  }

  /** The square is monotone on the non-negative numbers, and back. */
  lemma SqOrder(x: real, y: real)
    requires 0.0 <= x && 0.0 <= y
    ensures x < y <==> Sq(x) < Sq(y)
  {
    SqStrict(x, y);
    SqStrict(y, x);
  }

  lemma SqStrict(x: real, y: real)
    requires 0.0 <= x && 0.0 <= y
    ensures x < y ==> Sq(x) < Sq(y)
    ensures x == y ==> Sq(x) == Sq(y)
  {
    if x < y {
      SqGap(x, y - x);
      TimesSign(y - x, y - x);
    }
  }

  lemma SqGap(x: real, gap: real)
    requires 0.0 <= x && 0.0 <= gap
    ensures Sq(x + gap) >= Sq(x) + Sq(gap)
  {
    assert x * gap >= 0.0;
    assert (x + gap) * (x + gap) == x * x + gap * gap + 2.0 * (x * gap);
  }

  /** `1/a + 1/b` is above either reciprocal. */
  lemma ReciprocalSum(p: real, a: real, b: real)
    requires p > 0.0 && a > 0.0 && b > 0.0 && p * (1.0 / a + 1.0 / b) == 1.0
    ensures p < a
  {
    var x, y := 1.0 / a, 1.0 / b;
    assert x * a == 1.0 && y * b == 1.0;
    QuotientSign(1.0, b);
    ProductSign(p, y);
    assert p * (x + y) == p * x + p * y;
    ProductSign(a, 1.0 - p * x);
    assert a * (1.0 - p * x) == a - p * (x * a);
  }
}
