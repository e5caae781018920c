/** Rounding half to even, as Python's `round` and `ROUND_HALF_EVEN` do it. */
module Rounding {
  import opened Reals

  /** The nearest integer, and the even one of the two nearest when `x` lies half-way. */
  function HalfEven(x: real): int {
    var low := x.Floor;
    var excess := x - low as real;
    if excess < 0.5 then low
    else if excess > 0.5 then low + 1
    else if low % 2 == 0 then low
    else low + 1
  }

  predicate IsHalfEven(x: real, k: int) {
    || x - 0.5 < k as real < x + 0.5
    || (k % 2 == 0 && (k as real == x - 0.5 || k as real == x + 0.5))
  }

  lemma HalfEvenExact(x: real, k: int)
    ensures IsHalfEven(x, k) <==> k == HalfEven(x)
  {
    var low := x.Floor;
    assert low as real <= x < low as real + 1.0;
    if IsHalfEven(x, k) {
      assert low as real - 1.0 < k as real < low as real + 2.0;
      assert k == low || k == low + 1;
    }
  }

  /** The nearest quotient of two whole numbers, and the even one of two. */
  function Nearest(c: nat, d: nat): nat
    requires d > 0
  {
    var low, rest := c / d, c % d;
    if 2 * rest < d then low
    else if 2 * rest > d then low + 1
    else if low % 2 == 0 then low
    else low + 1
  }

  lemma HalfEvenOfInteger(k: int)
    ensures HalfEven(k as real) == k
  {
    HalfEvenExact(k as real, k);
  }

  lemma HalfEvenMonotone(x: real, y: real)
    requires x <= y
    ensures HalfEven(x) <= HalfEven(y)
  {
    HalfEvenExact(x, HalfEven(x));
    HalfEvenExact(y, HalfEven(y));
  }

  lemma NearestIsHalfEven(c: nat, d: nat)
    requires d > 0
    ensures Nearest(c, d) == HalfEven(c as real / d as real)
  {
    var low, rest := c / d, c % d;
    Quotient(c, d, low, rest);
    HalfOf(rest as real, d as real);
    assert (c as real / d as real).Floor == low;
  }

  lemma Quotient(c: nat, d: nat, low: nat, rest: nat)
    requires d > 0 && low == c / d && rest == c % d
    ensures c as real / d as real == low as real + rest as real / d as real
    ensures 0.0 <= rest as real / d as real < 1.0
  {
    assert c == low * d + rest;
    assert c as real == low as real * d as real + rest as real;
  }

  lemma HalfOf(x: real, d: real)
    requires d > 0.0
    ensures (2.0 * x < d <==> x / d < 0.5) && (2.0 * x > d <==> x / d > 0.5)
  {
    var part := x / d;
    QuotientTimes(x, d);
    if part < 0.5 {
      ProductPositive(0.5 - part, d);
    } else if part > 0.5 {
      ProductPositive(part - 0.5, d);
    }
    assert (0.5 - part) * d == 0.5 * d - x;
  }

  lemma NearestMonotone(c: nat, more: nat, d: nat)
    requires d > 0 && c <= more
    ensures Nearest(c, d) <= Nearest(more, d)
  {
    NearestIsHalfEven(c, d);
    NearestIsHalfEven(more, d);
    QuotientOrder(c as real, more as real, d as real);
    HalfEvenMonotone(c as real / d as real, more as real / d as real);
  }

  lemma NearestOfMultiple(n: nat, d: nat)
    requires d > 0
    ensures Nearest(n * d, d) == n
  {
    Divided(n * d, d, n, 0);
  }

  lemma Divided(c: nat, d: nat, low: nat, rest: nat)
    requires rest < d && c == low * d + rest
    ensures c / d == low && c % d == rest
  {
    var other := c / d;
    if other > low {
      TimesOrder(low + 1, other, d);
    } else if other < low {
      TimesOrder(other + 1, low, d);
    }
  }

  lemma TimesOrder(x: nat, y: nat, z: nat)
    requires x <= y
    ensures x * z <= y * z && (x + 1) * z == x * z + z
  {
  }

  lemma NearestAtMost(c: nat, d: nat, bound: nat)
    requires d > 0 && c <= bound * d
    ensures Nearest(c, d) <= bound
  {
    NearestOfMultiple(bound, d);
    NearestMonotone(c, bound * d, d);
  }

  lemma NearestAtLeast(c: nat, d: nat, bound: nat)
    requires d > 0 && c >= bound * d
    ensures Nearest(c, d) >= bound
  {
    NearestOfMultiple(bound, d);
    NearestMonotone(bound * d, c, d);
  }

  /** Rounding moves by at most one half. */
  lemma NearestError(c: nat, d: nat)
    requires d > 0
    ensures 2 * c - d <= 2 * (Nearest(c, d) * d) <= 2 * c + d
  {
    var low, rest := c / d, c % d;
    assert c == low * d + rest;
    assert (low + 1) * d == low * d + d;
  }

  /** An even number is reached from half below it on. */
  lemma NearestReaches(c: nat, d: nat, even: nat)
    requires d > 0 && even > 0 && even % 2 == 0
    ensures Nearest(c, d) >= even <==> 2 * c >= 2 * (even * d) - d
  {
    var low, rest := c / d, c % d;
    assert c == low * d + rest;
    if low >= even {
      TimesOrder(even, low, d);
    } else {
      TimesOrder(low, even - 1, d);
      TimesOrder(even - 1, even, d);
      if low < even - 1 {
        TimesOrder(low + 1, even - 1, d);
        TimesOrder(low, low, d);
      }
    }
  }

  /** The quotient and the remainder decide. */
  lemma NearestIs(c: nat, d: nat, low: nat, rest: nat)
    requires rest < d && c == low * d + rest
    ensures 2 * rest < d ==> Nearest(c, d) == low
    ensures 2 * rest > d ==> Nearest(c, d) == low + 1
    ensures 2 * rest == d ==> Nearest(c, d) == if low % 2 == 0 then low else low + 1
  {
    Divided(c, d, low, rest);
  }
}
