/** Small facts about real multiplication that the solver does not find
    on its own. */
module RealFacts {

  function Abs(v: real): (r: real)
    ensures r >= 0.0 && (r == v || r == -v)
  {
    if v < 0.0 then -v else v
  }

  lemma MulNonNegative(a: real, b: real)
    requires a >= 0.0 && b >= 0.0
    ensures a * b >= 0.0
  {
  }

  lemma MulStrict(a: real, b: real, d: real)
    requires a > b && d > 0.0
    ensures a * d > b * d
  {
    MulNonNegative(a - b, d);
    assert (a - b) * d != 0.0;
  }

  /** Scaling by a factor in [-1, 1] keeps a non-negative value within +-a. */
  lemma ScaledBetween(a: real, s: real)
    requires -1.0 <= s <= 1.0
    ensures a >= 0.0 ==> -a <= a * s <= a
  {
    if a >= 0.0 {
      MulNonNegative(a, 1.0 - s);
      MulNonNegative(a, 1.0 + s);
    }
  }

  lemma ProductInUnitRange(a: real, b: real)
    requires -1.0 <= a <= 1.0 && -1.0 <= b <= 1.0
    ensures -1.0 <= a * b <= 1.0
  {
    if a >= 0.0 {
      ScaledBetween(a, b);
    } else {
      ScaledBetween(-a, b);
      assert (-a) * b == -(a * b);
    }
  }

  /** A positive factor keeps the sign. */
  lemma SignOfProduct(a: real, d: real)
    requires d > 0.0
    ensures (a * d > 0.0 <==> a > 0.0) && (a * d < 0.0 <==> a < 0.0)
  {
    if a > 0.0 {
      MulStrict(a, 0.0, d);
    } else if a < 0.0 {
      MulStrict(0.0, a, d);
    }
  }

  /** Scaling a non-negative value by a factor within [lo, hi] keeps the
      product `m` between its scalings by lo and hi. */
  lemma ScaledWithin(a: real, f: real, lo: real, hi: real, m: real)
    requires lo <= f <= hi && m == a * f
    ensures a >= 0.0 ==> lo * a <= m <= hi * a
    ensures a == 0.0 ==> m == 0.0
  {
    if a >= 0.0 {
      MulNonNegative(a, f - lo);
      MulNonNegative(a, hi - f);
      assert a * (f - lo) == m - lo * a;
      assert a * (hi - f) == hi * a - m;
    }
  }
}
