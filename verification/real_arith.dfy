/** Facts about real multiplication and division that the model's normalisations
    (cutoff / Nyquist, mean = sum / n, sample / peak) rely on, proved once here in a
    small context. */
module RealArith {

  lemma DivMul(a: real, b: real)
    requires b != 0.0
    ensures (a / b) * b == a
  {
  }

  lemma ProductSign(x: real, y: real)
    requires y > 0.0
    ensures x > 0.0 ==> x * y > 0.0
    ensures x < 0.0 ==> x * y < 0.0
    ensures x == 0.0 ==> x * y == 0.0
  {
  }

  /** For q * b == a with b > 0, q and a have the same sign. */
  lemma ProductCompareZero(q: real, b: real, a: real)
    requires b > 0.0
    requires q * b == a
    ensures 0.0 < q <==> 0.0 < a
    ensures 0.0 <= q <==> 0.0 <= a
  {
    ProductSign(q, b);
  }

  /** For q * b == a with b > 0, comparing q with 1 is comparing a with b. */
  lemma ProductCompareOne(q: real, b: real, a: real)
    requires b > 0.0
    requires q * b == a
    ensures q < 1.0 <==> a < b
    ensures q <= 1.0 <==> a <= b
    ensures q == 1.0 <==> a == b
  {
    var d := q - 1.0;
    ProductSign(d, b);
    assert d * b == a - b;
  }

  /** For q * b == a with b > 0, comparing q with -1 is comparing a with -b. */
  lemma ProductCompareMinusOne(q: real, b: real, a: real)
    requires b > 0.0
    requires q * b == a
    ensures -1.0 <= q <==> -b <= a
    ensures q == -1.0 <==> a == -b
  {
    var d := q + 1.0;
    ProductSign(d, b);
    assert d * b == a + b;
  }

  /** Comparing a / b with 0, 1 and -1 is comparing a with 0, b and -b. */
  lemma QuotientBounds(a: real, b: real)
    requires b > 0.0
    ensures 0.0 < a / b <==> 0.0 < a
    ensures 0.0 <= a / b <==> 0.0 <= a
    ensures a / b < 1.0 <==> a < b
    ensures a / b <= 1.0 <==> a <= b
    ensures -1.0 <= a / b <==> -b <= a
    ensures a / b == 1.0 <==> a == b
    ensures a / b == -1.0 <==> a == -b
  {
    DivMul(a, b);
    ProductCompareZero(a / b, b, a);
    ProductCompareOne(a / b, b, a);
    ProductCompareMinusOne(a / b, b, a);
  }

  /** Division by a negative number turns a positive numerator negative. */
  lemma QuotientByNegative(a: real, b: real)
    requires b < 0.0
    requires a > 0.0
    ensures a / b < 0.0
  {
    var q := a / b;
    DivMul(a, b);
    ProductSign(q, -b);
    assert q * -b == -(q * b);
  }

  /** Division by a positive number preserves order. */
  lemma QuotientMonotone(a: real, c: real, b: real)
    requires b > 0.0
    ensures a < c <==> a / b < c / b
  {
    DivMul(a, b);
    DivMul(c, b);
    ProductSign(c / b - a / b, b);
    ProductSign(a / b - c / b, b);
    assert (c / b - a / b) * b == (c / b) * b - (a / b) * b;
    assert (a / b - c / b) * b == (a / b) * b - (c / b) * b;
  }

  /** Bounds on a sum of n terms bound the quotient by n. */
  lemma QuotientWithin(s: real, n: real, lo: real, hi: real)
    requires n > 0.0
    requires lo * n <= s <= hi * n
    ensures lo <= s / n <= hi
  {
    var q := s / n;
    DivMul(s, n);
    ProductSign(q - lo, n);
    ProductSign(hi - q, n);
    assert (q - lo) * n == q * n - lo * n;
    assert (hi - q) * n == hi * n - q * n;
  }
}
