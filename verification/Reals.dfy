/** Elementary facts about products and quotients of reals that the solver needs spelled out. */
module Reals {

  lemma ProductNonNegative(x: real, y: real)
    requires x >= 0.0 && y >= 0.0
    ensures x * y >= 0.0
  {
  }

  lemma ProductPositive(x: real, y: real)
    requires x > 0.0 && y > 0.0
    ensures x * y > 0.0
  {
  }

  lemma ProductOrder(x: real, y: real, z: real)
    requires x <= y && z >= 0.0
    ensures x * z <= y * z
  {
    ProductNonNegative(y - x, z);
    assert (y - x) * z == y * z - x * z;
  }

  lemma ZeroProduct(x: real, d: real)
    requires d != 0.0 && x * d == 0.0
    ensures x == 0.0
  {
  }

  lemma Cancel(x: real, y: real, d: real)
    requires d != 0.0 && x * d == y * d
    ensures x == y
  {
    ZeroProduct(x - y, d);
  }

  lemma QuotientTimes(x: real, d: real)
    requires d != 0.0
    ensures x / d * d == x
  {
  }

  lemma QuotientNonNegative(x: real, d: real)
    requires x >= 0.0 && d > 0.0
    ensures x / d >= 0.0
  {
    var q := x / d;
    QuotientTimes(x, d);
    assert (-q) * d == -(q * d);
    if q < 0.0 {
      ProductPositive(-q, d);
    }
  }

  lemma QuotientOrder(x: real, y: real, d: real)
    requires d > 0.0 && x <= y
    ensures x / d <= y / d
  {
    QuotientNonNegative(y - x, d);
    QuotientDifference(y, x, d);
  }

  lemma QuotientDifference(x: real, y: real, d: real)
    requires d != 0.0
    ensures (x - y) / d == x / d - y / d
  {
    QuotientTimes(x, d);
    QuotientTimes(y, d);
    QuotientTimes(x - y, d);
    assert (x / d - y / d) * d == x / d * d - y / d * d;
    Cancel((x - y) / d, x / d - y / d, d);
  }

  lemma QuotientSum(x: real, y: real, d: real)
    requires d != 0.0
    ensures (x + y) / d == x / d + y / d
  {
    QuotientDifference(x + y, y, d);
  }

  lemma QuotientOfQuotient(x: real, n: real, k: real)
    requires n > 0.0 && k > 0.0
    ensures k * n != 0.0 && x / (k * n) == x / n / k
  {
    ProductPositive(k, n);
    QuotientTimes(x, k * n);
    QuotientTimes(x / n, k);
    QuotientTimes(x, n);
    assert x / n / k * (k * n) == x / n / k * k * n;
    Cancel(x / (k * n), x / n / k, k * n);
  }

  lemma SquareNonNegative(x: real)
    ensures x * x >= 0.0
  {
  }

  lemma SquareOrder(x: real, w: real)
    requires w >= 0.0 && x * x <= w * w
    ensures -w <= x <= w
  {
    assert (x - w) * (x + w) == x * x - w * w;
    assert (-x - w) * (-x + w) == x * x - w * w;
    if x > w {
      ProductPositive(x - w, x + w);
    } else if -x > w {
      ProductPositive(-x - w, -x + w);
    }
  }
}
