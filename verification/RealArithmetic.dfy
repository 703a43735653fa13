/** The real arithmetic behind the benefit of a compaction: quotients, products and their order. */
module RealArithmetic {

  lemma DivideDifference(a: real, b: real, m: real)
    requires m > 0.0
    ensures a / m - b / m == (a - b) / m
  {
    var x, y := a / m, b / m;
    assert x * m == a && y * m == b;
    assert (x - y) * m == a - b;
  }

  lemma DivideProduct(a: real, b: real, m: real)
    requires m > 0.0
    ensures a * b / m == a * (b / m)
  {
    var y := b / m;
    assert y * m == b;
    assert (a * y) * m == a * b;
  }

  lemma DivideTwice(c: real, m: real, n: real)
    requires m > 0.0 && n > 0.0
    ensures c / (m * n) == c / m / n
  {
    var z := c / m / n;
    assert z * n == c / m;
    assert z * (m * n) == (z * n) * m == c;
  }

  lemma Distribute(d: real, a: real, b: real, m: real)
    requires m > 0.0
    ensures d * a / m + d * b / m == d * (a + b) / m
  {
    DivideDifference(d * (a + b), d * b, m);
    assert d * (a + b) - d * b == d * a;
  }

  lemma SquareDifference(q: real, v: real, t: real, x1: real, x2: real)
    ensures q * (t * t - (v + x1) * (v + x1)) - q * (t * t - (v + x2) * (v + x2))
         == (x2 - x1) * (q * (2.0 * v + x1 + x2))
  {
    assert (v + x2) * (v + x2) - (v + x1) * (v + x1) == (x2 - x1) * (2.0 * v + x1 + x2);
  }

  lemma ProductSign(d: real, slope: real, m: real)
    requires d > 0.0 && m > 0.0
    ensures d * slope / m >= 0.0 <==> slope >= 0.0
  {
    var z := d * slope / m;
    assert z * m == d * slope;
    SameSign(z, m);
    SameSign(slope, d);
  }

  lemma SameSign(x: real, y: real)
    requires y > 0.0
    ensures x * y >= 0.0 <==> x >= 0.0
  {
  }

  lemma ScaleOrder(q: real, a: real, b: real)
    requires q >= 0.0 && a <= b
    ensures q * a <= q * b
  {
    NonNegativeProduct(q, b - a);
    assert q * (b - a) == q * b - q * a;
  }

  lemma NonNegativeProduct(x: real, y: real)
    requires x >= 0.0 && y >= 0.0
    ensures x * y >= 0.0
  {
  }

  lemma AtLeastTwo(x: real, y: real)
    requires x >= 2.0 && y >= 1.0
    ensures x * y >= 2.0
  {
    NonNegativeProduct(x - 2.0, y);
    assert (x - 2.0) * y == x * y - 2.0 * y;
  }

  lemma DivideOrder(a: real, b: real, m: real)
    requires m > 0.0 && a <= b
    ensures a / m <= b / m
  {
    DivideDifference(b, a, m);
    var z := (b - a) / m;
    assert z * m == b - a;
  }
}
