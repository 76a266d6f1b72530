/** The few facts about products and quotients of reals the other modules lean on. */
module RealArithmetic {

  /** Multiplying by a positive number keeps and reflects strict order. */
  lemma MulLt(s: real, a: real, b: real)
    requires s > 0.0
    ensures a < b <==> s * a < s * b
  {
    var d := b - a;
    assert s * b == s * a + s * d;
    assert d > 0.0 ==> s * d > 0.0;
    assert d < 0.0 ==> s * d < 0.0;
    assert d == 0.0 ==> s * d == 0.0;
  }

  function Product(x: real, y: real): real {
    x * y
  }

  lemma Distribute(s: real, a: real, b: real)
    ensures Product(s, a + b) == Product(s, a) + Product(s, b)
  {
  }

  lemma MulLe(s: real, a: real, b: real)
    requires s >= 0.0 && a <= b
    ensures s * a <= s * b
  {
    if s > 0.0 { MulLt(s, b, a); }
  }

  lemma DivMul(x: real, y: real)
    requires y > 0.0
    ensures y * (x / y) == x
  {
  }

  lemma QuotientCompare(x: real, y: real, c: real)
    requires y > 0.0
    ensures x / y < c <==> x < c * y
    ensures x / y > c <==> x > c * y
  {
    DivMul(x, y);
    MulLt(y, x / y, c);
    MulLt(y, c, x / y);
  }

  /** A larger divisor gives a smaller quotient, and one no smaller than the dividend gives at most 1. */
  lemma DivLe(x: real, a: real, b: real)
    requires x >= 0.0 && a >= b > 0.0
    ensures 0.0 <= x / a <= x / b
    ensures a >= x ==> x / a <= 1.0
  {
    var p, q := x / a, x / b;
    DivMul(x, a);
    DivMul(x, b);
    MulLt(b, q, 0.0);
    MulLt(a, p, 0.0);
    MulLt(a, 1.0, p);
    MulLe(q, b, a);
    MulLt(a, q, p);
  }
}
