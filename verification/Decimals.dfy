/**
 Non-negative decimals in the default context of Python's `decimal` module: 28 significant digits,
 rounding half to even.

 A decimal is a coefficient times a power of ten.  Results are rounded to 28 digits but keep their
 exponent, so a rounded coefficient may end in zeros; the value is the same.
 */
module Decimals {
  import opened Options
  import opened Powers
  import opened Reals
  import opened Rounding

  /** One more than the largest coefficient of 28 digits, and a tenth of it. */
  const LIMIT: nat := 10_000_000_000_000_000_000_000_000_000
  const TENTH: nat := 1_000_000_000_000_000_000_000_000_000

  datatype Decimal = Decimal(coefficient: nat, exponent: int)

  function Value(c: nat, exponent: int): (v: real)
    ensures v >= 0.0
    decreases if exponent >= 0 then exponent else -exponent
  {
    if exponent == 0 then c as real
    else if exponent > 0 then 10.0 * Value(c, exponent - 1)
    else Value(c, exponent + 1) / 10.0
  }

  lemma {:induction false} WholeValue(c: nat, e: nat)
    ensures Value(c, e) == (c * Ten(e)) as real
  {
    if e > 0 {
      WholeValue(c, e - 1);
      assert c * Ten(e) == 10 * (c * Ten(e - 1));
    }
  }

  lemma {:induction false} PartValue(c: nat, e: int)
    requires e <= 0
    ensures Value(c, e) == c as real / Ten(-e) as real
    decreases -e
  {
    if e < 0 {
      PartValue(c, e + 1);
      assert Ten(-e) as real == 10.0 * Ten(-e - 1) as real;
    }
  }

  /** The digits in excess of 28. */
  function Excess(c: nat): nat {
    if c < LIMIT then 0 else 1 + Excess(c / 10)
  }

  /** Round to 28 digits. */
  function Fit(c: nat): nat {
    Nearest(c, Ten(Excess(c))) * Ten(Excess(c))
  }

  /** `quantize` of a result of that value, in quanta; None when more than 28 digits would be needed. */
  function Quantized(c: nat, exponent: int): Option<nat> {
    var n := if exponent >= 0 then Fit(c) * Ten(exponent) else Nearest(Fit(c), Ten(-exponent));
    if n < LIMIT then Some(n) else None
  }

  /** At least the limit, but for half a quantum. */
  predicate TooLarge(c: nat, exponent: int) {
    if exponent >= 0 then c * Ten(exponent) >= LIMIT else 2 * c >= 2 * (LIMIT * Ten(-exponent)) - Ten(-exponent)
  }

  lemma {:induction false} ExcessBounds(c: nat)
    ensures c < LIMIT * Ten(Excess(c))
    ensures c >= LIMIT ==> Excess(c) >= 1 && TENTH * Ten(Excess(c)) <= c
  {
    if c >= LIMIT {
      ExcessBounds(c / 10);
    }
  }

  lemma TenOrder(a: nat, b: nat)
    requires a < b
    ensures 10 * Ten(a) <= Ten(b) && Ten(b) == Ten(b - a) * Ten(a) && Ten(b - a) >= 10
  {
    TenAdd(b - a, a);
    TenAdd(b - a - 1, a);
    assert Ten(b - a) == 10 * Ten(b - a - 1);
    TimesOrder(10, Ten(b - a), Ten(a));
  }

  lemma DecadeOrder(c: nat, j: nat, k: nat)
    requires TENTH * Ten(k) <= c < LIMIT * Ten(j)
    ensures k <= j
  {
    if j < k {
      TenOrder(j, k);
    }
  }

  /** There is only one number of excess digits. */
  lemma ExcessIs(c: nat, k: nat)
    requires k >= 1 && TENTH * Ten(k) <= c < LIMIT * Ten(k)
    ensures Excess(c) == k
  {
    ExcessBounds(c);
    assert Ten(k) == 10 * Ten(k - 1);
    TimesOrder(1, Ten(k - 1), LIMIT);
    assert TENTH * Ten(k) == LIMIT * Ten(k - 1);
    DecadeOrder(c, k, Excess(c));
    DecadeOrder(c, Excess(c), k);
  }

  lemma ExcessMonotone(c: nat, more: nat)
    requires c <= more
    ensures Excess(c) <= Excess(more)
  {
    ExcessBounds(c);
    ExcessBounds(more);
    if c >= LIMIT {
      TimesOrder(TENTH, TENTH, Ten(Excess(c)));
      DecadeOrder(c, Excess(more), Excess(c));
    }
  }

  /** The first 28 digits, rounded. */
  lemma LeadingDigits(c: nat)
    requires c >= LIMIT
    ensures TENTH <= Nearest(c, Ten(Excess(c))) <= LIMIT
  {
    var d := Ten(Excess(c));
    ExcessBounds(c);
    NearestAtLeast(c, d, TENTH);
    NearestAtMost(c, d, LIMIT);
  }

  lemma ShortFits(c: nat)
    requires c < LIMIT
    ensures Fit(c) == c
  {
    NearestOfMultiple(c, 1);
    assert Ten(0) == 1;
  }

  lemma MultipleFits(c: nat, q: nat)
    requires c == q * Ten(Excess(c))
    ensures Fit(c) == c
  {
    NearestOfMultiple(q, Ten(Excess(c)));
  }

  /** A number with at most 28 digits before its trailing zeros is not rounded. */
  lemma RoundNumbersFit(q: nat, j: nat)
    requires q <= LIMIT
    ensures Fit(q * Ten(j)) == q * Ten(j)
  {
    var c := q * Ten(j);
    TimesOrder(q, LIMIT, Ten(j));
    FitsBefore(c, q, j);
  }

  lemma FitsBefore(c: nat, q: nat, j: nat)
    requires c == q * Ten(j) <= LIMIT * Ten(j)
    ensures Fit(c) == c
  {
    var k := Excess(c);
    if k <= j {
      TenAdd(j - k, k);
      Regroup(q, Ten(j - k), Ten(k), Ten(j));
      MultipleFits(c, q * Ten(j - k));
    } else {
      ExcessBounds(c);
      TenOrder(j, k);
      assert TENTH * Ten(k) >= LIMIT * Ten(j);
      MultipleFits(c, TENTH);
    }
  }

  lemma Regroup(q: nat, x: nat, y: nat, z: nat)
    requires z == x * y
    ensures q * z == q * x * y
  {
  }

  lemma FitMonotone(c: nat, more: nat)
    requires c <= more
    ensures Fit(c) <= Fit(more)
  {
    var j, k := Excess(c), Excess(more);
    ExcessMonotone(c, more);
    if j == k {
      NearestMonotone(c, more, Ten(k));
      TimesOrder(Nearest(c, Ten(k)), Nearest(more, Ten(k)), Ten(k));
    } else {
      ExcessBounds(c);
      NearestAtMost(c, Ten(j), LIMIT);
      TimesOrder(Nearest(c, Ten(j)), LIMIT, Ten(j));
      TenOrder(j, k);
      LeadingDigits(more);
      TimesOrder(TENTH, Nearest(more, Ten(k)), Ten(k));
      assert LIMIT * Ten(j) <= TENTH * Ten(k);
    }
  }

  lemma FitError(c: nat)
    ensures 2 * c - Ten(Excess(c)) <= 2 * Fit(c) <= 2 * c + Ten(Excess(c))
  {
    NearestError(c, Ten(Excess(c)));
  }

  // ----- amounts

  /** A long coefficient in quanta: rounded to `q` digits first. */
  lemma LongQuantum(c: nat, m: nat) returns (q: nat)
    requires c >= LIMIT && m >= 1
    ensures q == Nearest(c, Ten(Excess(c))) && TENTH <= q <= LIMIT
    ensures Excess(c) < m ==> Nearest(Fit(c), Ten(m)) <= TENTH && 10 * c < LIMIT * Ten(m)
    ensures Excess(c) == m ==> Nearest(Fit(c), Ten(m)) == q
    ensures Excess(c) > m ==> Nearest(Fit(c), Ten(m)) >= LIMIT && c >= LIMIT * Ten(m)
  {
    var k := Excess(c);
    LeadingDigits(c);
    ExcessBounds(c);
    q := Nearest(c, Ten(k));
    if k < m {
      TenOrder(k, m);
      TimesOrder(q, LIMIT, Ten(k));
      assert q * Ten(k) <= LIMIT * Ten(k) <= TENTH * Ten(m);
      NearestAtMost(q * Ten(k), Ten(m), TENTH);
    } else if k == m {
      NearestOfMultiple(q, Ten(m));
    } else {
      TenOrder(m, k);
      TimesOrder(TENTH, q, Ten(k));
      assert q * Ten(k) >= TENTH * Ten(k) >= LIMIT * Ten(m);
      NearestAtLeast(q * Ten(k), Ten(m), LIMIT);
    }
  }

  /** `quantize` raises exactly when the exact value, rounded, has more than 28 digits. */
  lemma RefusedIffTooLarge(c: nat, exponent: int)
    ensures Quantized(c, exponent).None? <==> TooLarge(c, exponent)
  {
    if exponent >= 0 {
      if c < LIMIT {
        ShortFits(c);
      } else {
        FitMonotone(LIMIT, c);
        RoundNumbersFit(LIMIT, 0);
        TimesOrder(1, Ten(exponent), Fit(c));
        TimesOrder(1, Ten(exponent), c);
      }
    } else {
      var m := -exponent;
      if c < LIMIT {
        ShortFits(c);
        ShortQuantum(c, m);
      } else {
        var q := LongQuantum(c, m);
        NearestReaches(c, Ten(m), LIMIT);
      }
    }
  }

  lemma ShortQuantum(c: nat, m: nat)
    requires c < LIMIT && m >= 1
    ensures Nearest(c, Ten(m)) <= TENTH && 2 * c < 2 * (LIMIT * Ten(m)) - Ten(m)
  {
    assert Ten(m) == 10 * Ten(m - 1);
    TimesOrder(1, Ten(m - 1), LIMIT);
    NearestAtMost(c, Ten(m), TENTH);
  }

  lemma {:induction false} QuantizedMonotone(c: nat, more: nat, exponent: int)
    requires c <= more && Quantized(more, exponent).Some?
    ensures Quantized(c, exponent).Some? && Quantized(c, exponent).value <= Quantized(more, exponent).value
  {
    FitMonotone(c, more);
    if exponent >= 0 {
      TimesOrder(Fit(c), Fit(more), Ten(exponent));
    } else {
      NearestMonotone(Fit(c), Fit(more), Ten(-exponent));
    }
  }

  /** A coefficient of at most 28 digits is rounded only once. */
  lemma ShortIsExact(c: nat, exponent: int)
    requires c < LIMIT && Quantized(c, exponent).Some?
    ensures Quantized(c, exponent).value == HalfEven(Value(c, exponent))
  {
    ShortFits(c);
    if exponent >= 0 {
      WholeValue(c, exponent);
      HalfEvenOfInteger(c * Ten(exponent));
    } else {
      PartValue(c, exponent);
      NearestIsHalfEven(c, Ten(-exponent));
    }
  }

  /** Rounding twice moves by at most eleven twentieths of a quantum. */
  lemma QuantizedError(c: nat, exponent: int)
    requires Quantized(c, exponent).Some?
    ensures var n := Quantized(c, exponent).value as real;
            Value(c, exponent) - 0.55 <= n <= Value(c, exponent) + 0.55
  {
    if exponent >= 0 {
      RefusedIffTooLarge(c, exponent);
      TimesOrder(1, Ten(exponent), c);
      ShortFits(c);
      WholeValue(c, exponent);
    } else {
      PartValue(c, exponent);
      var d, n := Ten(-exponent), Quantized(c, exponent).value;
      NearestError(Fit(c), d);
      TwiceRounded(c, -exponent, n);
      ErrorInReals(c, d, n);
    }
  }

  lemma TwiceRounded(c: nat, m: nat, n: nat)
    requires m >= 1 && n == Nearest(Fit(c), Ten(m)) < LIMIT
    ensures 20 * c - 11 * Ten(m) <= 20 * (n * Ten(m)) <= 20 * c + 11 * Ten(m)
  {
    NearestError(Fit(c), Ten(m));
    FitError(c);
    if c < LIMIT {
      ShortFits(c);
    } else {
      var q := LongQuantum(c, m);
      if Excess(c) < m {
        TenOrder(Excess(c), m);
      } else {
        NearestError(c, Ten(m));
      }
    }
  }

  lemma ErrorInReals(c: nat, d: nat, n: nat)
    requires d > 0 && 20 * c - 11 * d <= 20 * (n * d) <= 20 * c + 11 * d
    ensures c as real / d as real - 0.55 <= n as real <= c as real / d as real + 0.55
  {
    var x, r := c as real / d as real, d as real;
    QuotientTimes(c as real, r);
    WholeError(n * d, c, d);
    Between(n as real, x, r, (n * d) as real, c as real);
  }

  lemma WholeError(p: nat, c: nat, d: nat)
    requires 20 * c - 11 * d <= 20 * p <= 20 * c + 11 * d
    ensures -0.55 * d as real <= p as real - c as real <= 0.55 * d as real
  {
    assert (20 * (p - c)) as real == 20.0 * (p as real - c as real);
    assert (11 * d) as real == 11.0 * d as real;
  }

  lemma Between(n: real, x: real, r: real, p: real, c: real)
    requires r > 0.0 && p == n * r && c == x * r && -0.55 * r <= p - c <= 0.55 * r
    ensures x - 0.55 <= n <= x + 0.55
  {
    var over, under := n - x - 0.55, x - 0.55 - n;
    assert over * r == p - c - 0.55 * r && under * r == c - p - 0.55 * r;
    if over > 0.0 {
      ProductPositive(over, r);
    } else if under > 0.0 {
      ProductPositive(under, r);
    }
  }

  /** A decimal times an exact number. */
  function Part(x: real, c: nat, exponent: int): real
    decreases if exponent >= 0 then exponent else -exponent
  {
    if exponent == 0 then x * c as real
    else if exponent > 0 then 10.0 * Part(x, c, exponent - 1)
    else Part(x, c, exponent + 1) / 10.0
  }

  lemma {:induction false} PartIsProduct(x: real, c: nat, exponent: int)
    ensures Part(x, c, exponent) == x * Value(c, exponent)
    decreases if exponent >= 0 then exponent else -exponent
  {
    if exponent > 0 {
      PartIsProduct(x, c, exponent - 1);
    } else if exponent < 0 {
      PartIsProduct(x, c, exponent + 1);
    }
  }

  lemma {:induction false} PartOfWhole(n: nat, c: nat, exponent: int)
    ensures Part(n as real, c, exponent) == Value(n * c, exponent)
    decreases if exponent >= 0 then exponent else -exponent
  {
    if exponent > 0 {
      PartOfWhole(n, c, exponent - 1);
    } else if exponent < 0 {
      PartOfWhole(n, c, exponent + 1);
    } else {
      assert (n * c) as real == n as real * c as real;
    }
  }

  // ----- fractions

  predicate AtMostOne(d: Decimal) {
    if d.exponent >= 0 then d.coefficient * Ten(d.exponent) <= 1 else d.coefficient <= Ten(-d.exponent)
  }

  /** `Decimal(1) - d`. */
  function Remainder(d: Decimal): Decimal
    requires AtMostOne(d)
  {
    if d.exponent >= 0 then Decimal(1 - d.coefficient * Ten(d.exponent), 0)
    else Decimal(Fit(Ten(-d.exponent) - d.coefficient), d.exponent)
  }

  function Product(a: Decimal, b: Decimal): Decimal {
    Decimal(Fit(a.coefficient * b.coefficient), a.exponent + b.exponent)
  }

  lemma FitTwice(c: nat)
    ensures Fit(Fit(c)) == Fit(c)
  {
    ExcessBounds(c);
    NearestAtMost(c, Ten(Excess(c)), LIMIT);
    RoundNumbersFit(Nearest(c, Ten(Excess(c))), Excess(c));
  }

  /** A fraction of a rounded amount is at most that amount, and can be quantized if the amount could. */
  lemma FractionWithin(n: nat, q: nat, j: nat, d: Decimal)
    requires AtMostOne(d) && n == q * Ten(j) && q <= LIMIT
    requires Quantized(n * d.coefficient, d.exponent).Some?
    ensures Quantized(n * d.coefficient, d.exponent).value <= n
  {
    if d.exponent >= 0 {
      WholeFraction(d.coefficient, Ten(d.exponent));
      RoundNumbersFit(q, j);
      ShortFits(0);
      assert n * 0 == 0 && n * 1 == n;
    } else {
      FactorOrder(n, d.coefficient, Ten(-d.exponent));
      WholeFits(n, q, j, -d.exponent);
      FitWithin(n * d.coefficient, n, Ten(-d.exponent));
    }
  }

  lemma WholeFraction(c: nat, ten: nat)
    requires ten >= 1 && c * ten <= 1
    ensures c == 0 || (c == 1 && ten == 1)
  {
  }

  lemma WholeFits(n: nat, q: nat, j: nat, m: nat)
    requires n == q * Ten(j) && q <= LIMIT
    ensures Fit(n * Ten(m)) == n * Ten(m)
  {
    TenAdd(j, m);
    Regroup(q, Ten(j), Ten(m), Ten(j + m));
    var whole := n * Ten(m);
    assert whole == q * Ten(j + m);
    RoundNumbersFit(q, j + m);
  }

  lemma FitWithin(c: nat, n: nat, d: nat)
    requires d > 0 && c <= n * d && Fit(n * d) == n * d
    ensures Nearest(Fit(c), d) <= n
  {
    FitMonotone(c, n * d);
    NearestAtMost(Fit(c), d, n);
  }

  lemma FactorOrder(n: nat, x: nat, y: nat)
    requires x <= y
    ensures n * x <= n * y
  {
  }

  // ----- values of products and remainders

  /** `x` is `y` after rounding to 28 digits: off by at most 5 parts in 10^28 ... */
  predicate Once(x: real, y: real) {
    && 2_000_000_000_000_000_000_000_000_000.0 * x <= 2_000_000_000_000_000_000_000_000_000.0 * y + y
    && 2_000_000_000_000_000_000_000_000_000.0 * x >= 2_000_000_000_000_000_000_000_000_000.0 * y - y
  }

  /** ... and after two such roundings, by at most three times that. */
  predicate Twice(x: real, y: real) {
    && 2_000_000_000_000_000_000_000_000_000.0 * x <= 2_000_000_000_000_000_000_000_000_000.0 * y + 3.0 * y
    && 2_000_000_000_000_000_000_000_000_000.0 * x >= 2_000_000_000_000_000_000_000_000_000.0 * y - 3.0 * y
  }

  lemma OnceOnce(x: real, y: real, z: real)
    requires Once(x, y) && Once(y, z) && z >= 0.0
    ensures Twice(x, z)
  {
  }

  lemma FitRelative(c: nat)
    ensures 2 * TENTH * c - c <= 2 * TENTH * Fit(c) <= 2 * TENTH * c + c
  {
    if c < LIMIT {
      ShortFits(c);
    } else {
      FitError(c);
      ExcessBounds(c);
      var ten := Ten(Excess(c));
      assert 2 * Fit(c) <= 2 * c + ten && 2 * c - ten <= 2 * Fit(c) && TENTH * ten <= c;
    }
  }

  lemma {:induction false} ScaledOnce(c: nat, f: nat, exponent: int)
    requires 2 * TENTH * c - c <= 2 * TENTH * f <= 2 * TENTH * c + c
    ensures Once(Value(f, exponent), Value(c, exponent))
    decreases if exponent >= 0 then exponent else -exponent
  {
    if exponent > 0 {
      ScaledOnce(c, f, exponent - 1);
    } else if exponent < 0 {
      ScaledOnce(c, f, exponent + 1);
    } else {
      assert (2 * TENTH * c - c) as real <= (2 * TENTH * f) as real <= (2 * TENTH * c + c) as real;
    }
  }

  lemma FitIsOnce(c: nat, exponent: int)
    ensures Once(Value(Fit(c), exponent), Value(c, exponent))
  {
    FitRelative(c);
    ScaledOnce(c, Fit(c), exponent);
  }

  lemma ValueShift(c: nat, exponent: int)
    ensures Value(c, exponent + 1) == 10.0 * Value(c, exponent)
  {
  }

  lemma PartShift(x: real, c: nat, exponent: int)
    ensures Part(x, c, exponent + 1) == 10.0 * Part(x, c, exponent)
  {
  }

  lemma WholeProduct(a: nat, b: nat, f: int)
    ensures Value(a * b, f) == Part(Value(b, f), a, 0)
  {
    PartOfWhole(a, b, f);
    PartIsProduct(a as real, b, f);
  }

  /** The value of a product, whose coefficient is `c`. */
  lemma {:induction false} ProductValue(c: nat, a: nat, b: nat, e: int, f: int)
    requires c == a * b
    ensures Value(c, e + f) == Part(Value(b, f), a, e)
    decreases if e >= 0 then e else -e
  {
    if e > 0 {
      ProductValue(c, a, b, e - 1, f);
      ValueShift(c, e - 1 + f);
    } else if e < 0 {
      ProductValue(c, a, b, e + 1, f);
      ValueShift(c, e + f);
      PartShift(Value(b, f), a, e);
    } else {
      WholeProduct(a, b, f);
    }
  }

  lemma {:induction false} PartOnce(x: real, y: real, c: nat, exponent: int)
    requires Once(x, y)
    ensures Once(Part(x, c, exponent), Part(y, c, exponent))
    decreases if exponent >= 0 then exponent else -exponent
  {
    if exponent > 0 {
      PartOnce(x, y, c, exponent - 1);
    } else if exponent < 0 {
      PartOnce(x, y, c, exponent + 1);
    } else {
      TimesOnce(x, y, c as real);
    }
  }

  lemma TimesOnce(x: real, y: real, z: real)
    requires Once(x, y) && z >= 0.0
    ensures Once(x * z, y * z)
  {
    var k := 2_000_000_000_000_000_000_000_000_000.0;
    ProductOrder(k * x, k * y + y, z);
    ProductOrder(k * y - y, k * x, z);
    assert (k * x) * z == k * (x * z);
    assert (k * y + y) * z == k * (y * z) + y * z && (k * y - y) * z == k * (y * z) - y * z;
  }

  lemma TimesTwice(x: real, y: real, z: real)
    requires Twice(x, y) && z >= 0.0
    ensures Twice(x * z, y * z)
  {
    var k := 2_000_000_000_000_000_000_000_000_000.0;
    ProductOrder(k * x, k * y + 3.0 * y, z);
    ProductOrder(k * y - 3.0 * y, k * x, z);
    assert (k * x) * z == k * (x * z);
    assert (k * y + 3.0 * y) * z == k * (y * z) + 3.0 * (y * z) && (k * y - 3.0 * y) * z == k * (y * z) - 3.0 * (y * z);
  }

  lemma PartTwice(x: real, y: real, n: nat)
    requires Twice(x, y)
    ensures Twice(Part(x, n, 0), Part(y, n, 0))
  {
    TimesTwice(x, y, n as real);
  }

  lemma {:induction false} PartNonNegative(x: real, c: nat, exponent: int)
    requires x >= 0.0
    ensures Part(x, c, exponent) >= 0.0
    decreases if exponent >= 0 then exponent else -exponent
  {
    if exponent > 0 {
      PartNonNegative(x, c, exponent - 1);
    } else if exponent < 0 {
      PartNonNegative(x, c, exponent + 1);
    } else {
      ProductNonNegative(x, c as real);
    }
  }

  /** What is left of one, before it is rounded. */
  function Complement(d: Decimal): Decimal
    requires AtMostOne(d)
  {
    if d.exponent >= 0 then Decimal(1 - d.coefficient * Ten(d.exponent), 0)
    else Decimal(Ten(-d.exponent) - d.coefficient, d.exponent)
  }

  lemma ComplementValue(d: Decimal)
    requires AtMostOne(d)
    ensures Value(Complement(d).coefficient, Complement(d).exponent) == 1.0 - Value(d.coefficient, d.exponent)
  {
    if d.exponent >= 0 {
      WholeValue(d.coefficient, d.exponent);
    } else {
      var ten := Ten(-d.exponent);
      PartValue(ten - d.coefficient, d.exponent);
      PartValue(d.coefficient, d.exponent);
      PartOfOne(d.coefficient, ten);
    }
  }

  lemma PartOfOne(c: nat, ten: nat)
    requires c <= ten && ten > 0
    ensures (ten - c) as real / ten as real == 1.0 - c as real / ten as real
  {
    var x, y := c as real, ten as real;
    assert (ten - c) as real == y - x && y > 0.0;
    QuotientDifference(y, x, y);
    assert y / y == 1.0;
  }

  /** The remainder is one minus the fraction, rounded if that needs more than 28 digits. */
  lemma RemainderValue(d: Decimal)
    requires AtMostOne(d)
    ensures Once(Value(Remainder(d).coefficient, Remainder(d).exponent), 1.0 - Value(d.coefficient, d.exponent))
    ensures Complement(d).coefficient < LIMIT ==>
              Value(Remainder(d).coefficient, Remainder(d).exponent) == 1.0 - Value(d.coefficient, d.exponent)
  {
    ComplementValue(d);
    var left := Complement(d);
    FitIsOnce(left.coefficient, left.exponent);
    if left.coefficient < LIMIT {
      ShortFits(left.coefficient);
    }
  }
}
