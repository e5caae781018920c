/**
 The row arithmetic of the invoice export (kairyu/pricing.py), in the decimal context of the source.

 A displayed amount is an integer number of money quanta (0.000001 of the currency unit), because every
 amount is quantized before it is added or shown.
 */
module Invoice {
  import opened Decimals
  import opened Options
  import opened Powers
  import opened Reals
  import opened Rounding

  datatype Rates = Rates(uncachedInput: Decimal, cachedDiscount: Decimal, output: Decimal) {
    predicate Valid() {
      AtMostOne(cachedDiscount)
    }

    /** `cached_input_per_million`. */
    function CachedInput(): Decimal
      requires Valid()
    {
      Product(uncachedInput, Remainder(cachedDiscount))
    }
  }

  datatype Usage = Usage(requests: nat, uncached: nat, cached: nat, output: nat) {
    function Plus(other: Usage): Usage {
      Usage(requests + other.requests, uncached + other.uncached, cached + other.cached, output + other.output)
    }

    predicate AtMost(other: Usage) {
      uncached <= other.uncached && cached <= other.cached && output <= other.output
    }
  }

  const NO_USAGE := Usage(0, 0, 0, 0)

  datatype Charges = Charges(uncached: nat, cached: nat, output: nat, subtotal: nat, discount: nat, total: nat)

  // ----- the amounts of a row

  /** `_money`, in quanta: the rate is per million tokens and a unit has a million quanta.  The discount of a
      subtotal is computed the same way. */
  function Charge(n: nat, rate: Decimal): Option<nat> {
    Quantized(n * rate.coefficient, rate.exponent)
  }

  function Subtotal(uncached: nat, cached: nat, output: nat): nat {
    Fit(Fit(uncached + cached) + output)
  }

  /** The amounts of one invoice row: each kind of token is priced and rounded by itself, then the
      discount is taken off the subtotal and rounded again.  None when an amount needs too many digits. */
  function ChargesFor(usage: Usage, rates: Rates, discount: Decimal): Option<Charges>
    requires rates.Valid() && AtMostOne(discount)
  {
    var uncached := Charge(usage.uncached, rates.uncachedInput);
    var cached := Charge(usage.cached, rates.CachedInput());
    var output := Charge(usage.output, rates.output);
    if uncached.None? || cached.None? || output.None? then None
    else Discounted(uncached.value, cached.value, output.value, discount)
  }

  function Discounted(uncached: nat, cached: nat, output: nat, discount: Decimal): Option<Charges>
    requires AtMostOne(discount)
  {
    var subtotal := Subtotal(uncached, cached, output);
    var amount := Charge(subtotal, discount);
    if amount.None? then None
    else
      DiscountWithin(uncached, cached, output, discount);
      Some(Charges(uncached, cached, output, subtotal, amount.value, Fit(subtotal - amount.value)))
  }

  /** The discount of a subtotal is itself between nothing and all of it. */
  lemma DiscountWithin(uncached: nat, cached: nat, output: nat, discount: Decimal)
    requires AtMostOne(discount) && Charge(Subtotal(uncached, cached, output), discount).Some?
    ensures Charge(Subtotal(uncached, cached, output), discount).value <= Subtotal(uncached, cached, output)
  {
    var sum := Fit(uncached + cached) + output;
    var k := Excess(sum);
    ExcessBounds(sum);
    NearestAtMost(sum, Ten(k), LIMIT);
    FractionWithin(Fit(sum), Nearest(sum, Ten(k)), k, discount);
  }

  predicate Chargeable(n: nat, rate: Decimal) {
    !TooLarge(n * rate.coefficient, rate.exponent)
  }

  lemma ChargedIff(n: nat, rate: Decimal)
    ensures Charge(n, rate).Some? <==> Chargeable(n, rate)
  {
    RefusedIffTooLarge(n * rate.coefficient, rate.exponent);
  }

  /** A row can be written exactly when none of its four rounded products reaches 10^28 quanta. */
  lemma WritableIff(usage: Usage, rates: Rates, discount: Decimal)
    requires rates.Valid() && AtMostOne(discount)
    ensures ChargesFor(usage, rates, discount).Some? <==>
              && Chargeable(usage.uncached, rates.uncachedInput) && Chargeable(usage.cached, rates.CachedInput())
              && Chargeable(usage.output, rates.output)
              && Chargeable(Subtotal(Charge(usage.uncached, rates.uncachedInput).GetOr(0),
                                     Charge(usage.cached, rates.CachedInput()).GetOr(0),
                                     Charge(usage.output, rates.output).GetOr(0)), discount)
  {
    var uncached, cached, output :=
      Charge(usage.uncached, rates.uncachedInput), Charge(usage.cached, rates.CachedInput()),
        Charge(usage.output, rates.output);
    ChargedIff(usage.uncached, rates.uncachedInput);
    ChargedIff(usage.cached, rates.CachedInput());
    ChargedIff(usage.output, rates.output);
    ChargedIff(Subtotal(uncached.GetOr(0), cached.GetOr(0), output.GetOr(0)), discount);
  }

  // ----- sums of amounts

  /** A sum of amounts has at most 29 digits, so its last digit is all that can be lost. */
  lemma SumFits(n: nat)
    requires n < 10 * LIMIT
    ensures n < LIMIT ==> Fit(n) == n
    ensures n <= Fit(n) + 5 && Fit(n) <= n + 5
  {
    if n < LIMIT {
      ShortFits(n);
    } else {
      assert Ten(1) == 10 by {
        assert Ten(0) == 1;
      }
      ExcessIs(n, 1);
      FitError(n);
    }
  }

  /** Whether the sum of the three charges still has 28 digits. */
  predicate Adds(c: Charges) {
    c.uncached + c.cached + c.output < LIMIT
  }

  predicate Consistent(c: Charges) {
    && c.discount <= c.subtotal && c.total <= c.subtotal
    && c.subtotal - 10 <= c.uncached + c.cached + c.output <= c.subtotal + 10
    && c.subtotal - c.discount - 5 <= c.total <= c.subtotal - c.discount + 5
    && (Adds(c) ==> c.uncached + c.cached + c.output == c.subtotal == c.discount + c.total)
  }

  /** The components of a row add up, as long as their sum has 28 digits; otherwise the subtotal is off by at
      most ten quanta.  The total never exceeds the subtotal, and the discount is what lies between them. */
  lemma RowIsConsistent(usage: Usage, rates: Rates, discount: Decimal)
    requires rates.Valid() && AtMostOne(discount) && ChargesFor(usage, rates, discount).Some?
    ensures Consistent(ChargesFor(usage, rates, discount).value)
  {
    var c := ChargesFor(usage, rates, discount).value;
    ChargesAreLimited(usage, rates, discount);
    DiscountWithin(c.uncached, c.cached, c.output, discount);
    SumFits(c.uncached + c.cached);
    var sum := Fit(c.uncached + c.cached) + c.output;
    SumFits(sum);
    SumFits(c.subtotal - c.discount);
    FitMonotone(c.subtotal - c.discount, c.subtotal);
    FitTwice(sum);
  }

  lemma ChargesAreLimited(usage: Usage, rates: Rates, discount: Decimal)
    requires rates.Valid() && AtMostOne(discount) && ChargesFor(usage, rates, discount).Some?
    ensures var c := ChargesFor(usage, rates, discount).value;
            c.uncached < LIMIT && c.cached < LIMIT && c.output < LIMIT
  {
  }

  // ----- against exact prices

  /** The prices of the three kinds of tokens in quanta, before rounding. */
  datatype Exact = Exact(uncached: real, cached: real, output: real) {
    function Sum(): real {
      uncached + cached + output
    }
  }

  function ExactCharge(n: nat, rate: Decimal): real {
    Value(n * rate.coefficient, rate.exponent)
  }

  /** The exact prices at the rates the row displays. */
  function ExactFor(usage: Usage, rates: Rates): Exact
    requires rates.Valid()
  {
    Exact(ExactCharge(usage.uncached, rates.uncachedInput), ExactCharge(usage.cached, rates.CachedInput()),
          ExactCharge(usage.output, rates.output))
  }

  /** What is left of a price after the discount. */
  function Left(price: real, discount: Decimal): real {
    price - Part(price, discount.coefficient, discount.exponent)
  }

  lemma FractionValue(d: Decimal)
    requires AtMostOne(d)
    ensures 0.0 <= Value(d.coefficient, d.exponent) <= 1.0
  {
    if d.exponent >= 0 {
      WholeValue(d.coefficient, d.exponent);
    } else {
      PartValue(d.coefficient, d.exponent);
      QuotientAtMostOne(d.coefficient as real, Ten(-d.exponent) as real);
    }
  }

  lemma QuotientAtMostOne(x: real, y: real)
    requires x <= y && y > 0.0
    ensures x / y <= 1.0
  {
    QuotientOrder(x, y, y);
  }

  /** A discount does not enlarge an error. */
  lemma LeftIsClose(price: real, other: real, discount: Decimal, bound: real)
    requires AtMostOne(discount) && -bound <= price - other <= bound
    ensures -bound <= Left(price, discount) - Left(other, discount) <= bound
  {
    FractionValue(discount);
    PartsShrink(price, other, discount.coefficient, discount.exponent, bound);
  }

  lemma PartsShrink(price: real, other: real, c: nat, exponent: int, bound: real)
    requires 0.0 <= Value(c, exponent) <= 1.0 && -bound <= price - other <= bound
    ensures -bound <= price - Part(price, c, exponent) - (other - Part(other, c, exponent)) <= bound
  {
    PartIsProduct(price, c, exponent);
    PartIsProduct(other, c, exponent);
    ErrorShrinks(price, other, Part(price, c, exponent), Part(other, c, exponent), bound, Value(c, exponent));
  }

  lemma ErrorShrinks(price: real, other: real, p: real, q: real, bound: real, f: real)
    requires -bound <= price - other <= bound && 0.0 <= f <= 1.0 && p == price * f && q == other * f
    ensures -bound <= price - p - (other - q) <= bound
  {
    var error, rest := price - other, 1.0 - f;
    ProductOrder(-bound, error, rest);
    ProductOrder(error, bound, rest);
    ProductOrder(0.0, bound, f);
    assert error * rest == price - p - (other - q);
    var most := bound * rest;
    assert most == bound - bound * f;
    assert (-bound) * rest == -most;
  }

  /** A larger price is left larger. */
  lemma LeftGrows(price: real, more: real, discount: Decimal)
    requires AtMostOne(discount) && price <= more
    ensures Left(price, discount) <= Left(more, discount)
  {
    var f := Value(discount.coefficient, discount.exponent);
    FractionValue(discount);
    PartIsProduct(price, discount.coefficient, discount.exponent);
    PartIsProduct(more, discount.coefficient, discount.exponent);
    RestGrows(price, more, f);
  }

  lemma RestGrows(price: real, more: real, f: real)
    requires price <= more && 0.0 <= f <= 1.0
    ensures price - price * f <= more - more * f
  {
    ProductOrder(price, more, 1.0 - f);
    assert price * (1.0 - f) == price - price * f && more * (1.0 - f) == more - more * f;
  }

  /** Each amount is within `step` of what it rounds. */
  predicate Close(c: Charges, x: Exact, discount: Decimal, step: real) {
    && x.uncached - step <= c.uncached as real <= x.uncached + step
    && x.cached - step <= c.cached as real <= x.cached + step
    && x.output - step <= c.output as real <= x.output + step
    && Part(c.subtotal as real, discount.coefficient, discount.exponent) - step <= c.discount as real
    && c.discount as real <= Part(c.subtotal as real, discount.coefficient, discount.exponent) + step
  }

  lemma RowIsClose(usage: Usage, rates: Rates, discount: Decimal)
    requires rates.Valid() && AtMostOne(discount) && ChargesFor(usage, rates, discount).Some?
    ensures Close(ChargesFor(usage, rates, discount).value, ExactFor(usage, rates), discount, 0.55)
  {
    var subtotal := ChargesFor(usage, rates, discount).value.subtotal;
    QuantizedError(usage.uncached * rates.uncachedInput.coefficient, rates.uncachedInput.exponent);
    QuantizedError(usage.cached * rates.CachedInput().coefficient, rates.CachedInput().exponent);
    QuantizedError(usage.output * rates.output.coefficient, rates.output.exponent);
    QuantizedError(subtotal * discount.coefficient, discount.exponent);
    PartOfWhole(subtotal, discount.coefficient, discount.exponent);
  }

  /** How far rounding errors of at most `step` move the total. */
  function Tolerance(c: Charges, step: real): real {
    4.0 * step + if Adds(c) then 0.0 else 15.0
  }

  lemma CloseTotal(c: Charges, x: Exact, discount: Decimal, step: real)
    requires AtMostOne(discount) && Close(c, x, discount, step) && Consistent(c)
    ensures Left(x.Sum(), discount) - Tolerance(c, step) <= c.total as real <= Left(x.Sum(), discount) + Tolerance(c,
                                                                                                                   step)
  {
    LeftIsClose(c.subtotal as real, x.Sum(), discount, 3.0 * step + if Adds(c) then 0.0 else 10.0);
  }

  lemma TotalNearDisplayed(usage: Usage, rates: Rates, discount: Decimal)
    requires rates.Valid() && AtMostOne(discount) && ChargesFor(usage, rates, discount).Some?
    ensures var c, price := ChargesFor(usage, rates, discount).value, Left(ExactFor(usage, rates).Sum(), discount);
            price - Tolerance(c, 0.55) <= c.total as real <= price + Tolerance(c, 0.55)
  {
    RowIsClose(usage, rates, discount);
    RowIsConsistent(usage, rates, discount);
    CloseTotal(ChargesFor(usage, rates, discount).value, ExactFor(usage, rates), discount, 0.55);
  }

  // ----- the price of cached tokens

  /** The price of uncached tokens times what the discount for cached ones leaves, without rounding. */
  function CachedPrice(rates: Rates): real {
    Part(1.0 - Value(rates.cachedDiscount.coefficient, rates.cachedDiscount.exponent),
         rates.uncachedInput.coefficient, rates.uncachedInput.exponent)
  }

  lemma CachedPriceIs(rates: Rates)
    ensures CachedPrice(rates) == (1.0 - Value(rates.cachedDiscount.coefficient, rates.cachedDiscount.exponent))
                                  * Value(rates.uncachedInput.coefficient, rates.uncachedInput.exponent)
  {
    PartIsProduct(1.0 - Value(rates.cachedDiscount.coefficient, rates.cachedDiscount.exponent),
                  rates.uncachedInput.coefficient, rates.uncachedInput.exponent);
  }

  /** Neither the remainder of the discount nor the product has more than 28 digits. */
  predicate ShortRate(rates: Rates)
    requires rates.Valid()
  {
    && Complement(rates.cachedDiscount).coefficient < LIMIT
    && rates.uncachedInput.coefficient * Complement(rates.cachedDiscount).coefficient < LIMIT
  }

  /** The displayed cached rate is that price after two roundings, or exactly that price. */
  lemma CachedRateIsPrice(rates: Rates)
    requires rates.Valid()
    ensures var rate := rates.CachedInput();
            && Twice(Value(rate.coefficient, rate.exponent), CachedPrice(rates)) && CachedPrice(rates) >= 0.0
            && (ShortRate(rates) ==> Value(rate.coefficient, rate.exponent) == CachedPrice(rates))
  {
    var u, rest := rates.uncachedInput, Remainder(rates.cachedDiscount);
    var left := 1.0 - Value(rates.cachedDiscount.coefficient, rates.cachedDiscount.exponent);
    var c := u.coefficient * rest.coefficient;
    RemainderValue(rates.cachedDiscount);
    FractionValue(rates.cachedDiscount);
    ProductValue(c, u.coefficient, rest.coefficient, u.exponent, rest.exponent);
    FitIsOnce(c, u.exponent + rest.exponent);
    PartOnce(Value(rest.coefficient, rest.exponent), left, u.coefficient, u.exponent);
    PartNonNegative(left, u.coefficient, u.exponent);
    OnceOnce(Value(Fit(c), u.exponent + rest.exponent), Value(c, u.exponent + rest.exponent), CachedPrice(rates));
    if ShortRate(rates) {
      ShortFits(Complement(rates.cachedDiscount).coefficient);
      assert rest == Complement(rates.cachedDiscount);
      ShortFits(c);
    }
  }

  /** The prices of the three kinds of tokens from the price sheet, without any rounding. */
  function PricesFor(usage: Usage, rates: Rates): Exact {
    Exact(ExactCharge(usage.uncached, rates.uncachedInput), Part(CachedPrice(rates), usage.cached, 0),
          ExactCharge(usage.output, rates.output))
  }

  /** The share of an exact price by which two roundings of a rate can move it. */
  function RateError(price: real): real {
    3.0 * price / 2_000_000_000_000_000_000_000_000_000.0
  }

  lemma CachedChargeIsPrice(n: nat, rate: Decimal, price: real)
    requires Twice(Value(rate.coefficient, rate.exponent), price)
    ensures Twice(ExactCharge(n, rate), Part(price, n, 0))
    ensures Value(rate.coefficient, rate.exponent) == price ==> ExactCharge(n, rate) == Part(price, n, 0)
  {
    WholeProduct(n, rate.coefficient, rate.exponent);
    PartTwice(Value(rate.coefficient, rate.exponent), price, n);
  }

  lemma SumsDiffer(x: Exact, y: Exact)
    requires x.uncached == y.uncached && x.output == y.output && Twice(x.cached, y.cached)
    ensures -RateError(y.cached) <= x.Sum() - y.Sum() <= RateError(y.cached)
  {
  }

  lemma DisplayedPrices(usage: Usage, rates: Rates)
    requires rates.Valid()
    ensures var error := RateError(PricesFor(usage, rates).cached);
            -error <= ExactFor(usage, rates).Sum() - PricesFor(usage, rates).Sum() <= error
    ensures ShortRate(rates) ==> ExactFor(usage, rates) == PricesFor(usage, rates)
  {
    CachedRateIsPrice(rates);
    CachedChargeIsPrice(usage.cached, rates.CachedInput(), CachedPrice(rates));
    SumsDiffer(ExactFor(usage, rates), PricesFor(usage, rates));
  }

  /** The total is within 2.2 quanta of the exact price of the usage, plus three parts in 2 * 10^27 of the price of
      the cached tokens, whose rate is itself rounded; or within 17.2 when the sum of the charges needs a 29th
      digit. */
  lemma TotalNearExact(usage: Usage, rates: Rates, discount: Decimal)
    requires rates.Valid() && AtMostOne(discount) && ChargesFor(usage, rates, discount).Some?
    ensures var c, prices := ChargesFor(usage, rates, discount).value, PricesFor(usage, rates);
            var price, tolerance := Left(prices.Sum(), discount),
                                    Tolerance(c, 0.55) + if ShortRate(rates) then 0.0 else RateError(prices.cached);
            price - tolerance <= c.total as real <= price + tolerance
  {
    TotalNearDisplayed(usage, rates, discount);
    DisplayedPrices(usage, rates);
    LeftIsClose(ExactFor(usage, rates).Sum(), PricesFor(usage, rates).Sum(), discount,
                RateError(PricesFor(usage, rates).cached));
  }

  // ----- rounding only once

  /** No product of this row has more than 28 digits, and neither has the sum of its charges. */
  predicate ShortProducts(usage: Usage, rates: Rates, discount: Decimal, c: Charges)
    requires rates.Valid()
  {
    && usage.uncached * rates.uncachedInput.coefficient < LIMIT
    && usage.cached * rates.CachedInput().coefficient < LIMIT
    && usage.output * rates.output.coefficient < LIMIT
    && c.subtotal * discount.coefficient < LIMIT && Adds(c)
  }

  /** Every amount is rounded exactly once. */
  predicate RoundedOnce(c: Charges, x: Exact, discount: Decimal) {
    && c.uncached == HalfEven(x.uncached) && c.cached == HalfEven(x.cached) && c.output == HalfEven(x.output)
    && c.subtotal == c.uncached + c.cached + c.output
    && c.discount == HalfEven(Part(c.subtotal as real, discount.coefficient, discount.exponent))
    && c.total == c.subtotal - c.discount
  }

  /** Then the amounts are those of exact arithmetic, rounded once each. */
  lemma ShortRowsAreExact(usage: Usage, rates: Rates, discount: Decimal)
    requires rates.Valid() && AtMostOne(discount) && ChargesFor(usage, rates, discount).Some?
    requires ShortProducts(usage, rates, discount, ChargesFor(usage, rates, discount).value)
    ensures RoundedOnce(ChargesFor(usage, rates, discount).value, ExactFor(usage, rates), discount)
    ensures ShortRate(rates) ==>
              RoundedOnce(ChargesFor(usage, rates, discount).value, PricesFor(usage, rates), discount)
  {
    DisplayedPrices(usage, rates);
    var subtotal := ChargesFor(usage, rates, discount).value.subtotal;
    RowIsConsistent(usage, rates, discount);
    ShortIsExact(usage.uncached * rates.uncachedInput.coefficient, rates.uncachedInput.exponent);
    ShortIsExact(usage.cached * rates.CachedInput().coefficient, rates.CachedInput().exponent);
    ShortIsExact(usage.output * rates.output.coefficient, rates.output.exponent);
    ShortIsExact(subtotal * discount.coefficient, discount.exponent);
    PartOfWhole(subtotal, discount.coefficient, discount.exponent);
  }

  // ----- more usage

  lemma ChargeGrows(n: nat, more: nat, rate: Decimal)
    requires n <= more && Charge(more, rate).Some?
    ensures Charge(n, rate).Some? && Charge(n, rate).value <= Charge(more, rate).value
  {
    TimesOrder(n, more, rate.coefficient);
    QuantizedMonotone(n * rate.coefficient, more * rate.coefficient, rate.exponent);
  }

  lemma SubtotalGrows(a: nat, b: nat, c: nat, a': nat, b': nat, c': nat)
    requires a <= a' && b <= b' && c <= c'
    ensures Subtotal(a, b, c) <= Subtotal(a', b', c')
  {
    FitMonotone(a + b, a' + b');
    FitMonotone(Fit(a + b) + c, Fit(a' + b') + c');
  }

  /** A row that can be written for more usage can be written for less, with smaller charges. */
  lemma SmallerRow(usage: Usage, more: Usage, rates: Rates, discount: Decimal)
    requires rates.Valid() && AtMostOne(discount) && usage.AtMost(more) && ChargesFor(more, rates, discount).Some?
    ensures ChargesFor(usage, rates, discount).Some?
    ensures var c, c' := ChargesFor(usage, rates, discount).value, ChargesFor(more, rates, discount).value;
            c.uncached <= c'.uncached && c.cached <= c'.cached && c.output <= c'.output && c.subtotal <= c'.subtotal
  {
    var c' := ChargesFor(more, rates, discount).value;
    ChargeGrows(usage.uncached, more.uncached, rates.uncachedInput);
    ChargeGrows(usage.cached, more.cached, rates.CachedInput());
    ChargeGrows(usage.output, more.output, rates.output);
    var uncached, cached, output :=
      Charge(usage.uncached, rates.uncachedInput).value, Charge(usage.cached, rates.CachedInput()).value,
      Charge(usage.output, rates.output).value;
    SubtotalGrows(uncached, cached, output, c'.uncached, c'.cached, c'.output);
    ChargeGrows(Subtotal(uncached, cached, output), c'.subtotal, discount);
  }

  /** By how much more usage may lower the total. */
  function Drop(c: Charges): nat {
    if Adds(c) then 1 else 11
  }

  lemma CloseGrowth(c: Charges, c': Charges, x: Exact, x': Exact, discount: Decimal)
    requires AtMostOne(discount) && Close(c, x, discount, 0.55) && Close(c', x', discount, 0.55)
    requires c.subtotal <= c'.subtotal
    ensures c.subtotal - c.discount - 1 <= c'.subtotal - c'.discount
  {
    LeftGrows(c.subtotal as real, c'.subtotal as real, discount);
    assert (c.subtotal - c.discount) as real - 1.1 <= (c'.subtotal - c'.discount) as real;
  }

  /** More tokens of every kind never lower the total by more than one quantum, or eleven when the sum of the
      charges needs a 29th digit. */
  lemma TotalHardlyDrops(usage: Usage, more: Usage, rates: Rates, discount: Decimal)
    requires rates.Valid() && AtMostOne(discount) && usage.AtMost(more) && ChargesFor(more, rates, discount).Some?
    ensures ChargesFor(usage, rates, discount).Some?
    ensures var c, c' := ChargesFor(usage, rates, discount).value, ChargesFor(more, rates, discount).value;
            c.total <= c'.total + Drop(c)
  {
    SmallerRow(usage, more, rates, discount);
    var c, c' := ChargesFor(usage, rates, discount).value, ChargesFor(more, rates, discount).value;
    RowIsClose(usage, rates, discount);
    RowIsClose(more, rates, discount);
    RowIsConsistent(usage, rates, discount);
    RowIsConsistent(more, rates, discount);
    CloseGrowth(c, c', ExactFor(usage, rates), ExactFor(more, rates), discount);
    ChargesAreLimited(usage, rates, discount);
    ChargesAreLimited(more, rates, discount);
    FitDrop(c.subtotal - c.discount, c'.subtotal - c'.discount);
  }

  lemma FitDrop(n: nat, more: nat)
    requires n <= more + 1 && n < 10 * LIMIT
    ensures Fit(n) <= Fit(more) + if n < LIMIT then 1 else 11
  {
    SumFits(n);
    if n > 0 {
      FitMonotone(n - 1, more);
      SumFits(n - 1);
    }
  }

  lemma GrowthIsStrict(s: nat, more: nat, p: real, q: real, f: real)
    requires s < more && 0.0 <= f <= 1.0 && p == s as real * f && q == more as real * f
    ensures f < 1.0 ==> q - p < (more - s) as real
    ensures f == 1.0 ==> p == s as real && q == more as real
  {
    if f < 1.0 {
      var growth, rest := (more - s) as real, 1.0 - f;
      ProductPositive(growth, rest);
      assert growth * rest == growth - (q - p);
    }
  }

  lemma RoundedGrowth(x: real, y: real, growth: int)
    requires y - x < growth as real
    ensures HalfEven(y) <= HalfEven(x) + growth
  {
    HalfEvenExact(x, HalfEven(x));
    HalfEvenExact(y, HalfEven(y));
    assert HalfEven(y) as real < (HalfEven(x) + growth + 1) as real;
  }

  lemma OnceGrows(s: nat, more: nat, c: nat, exponent: int)
    requires s <= more && 0.0 <= Value(c, exponent) <= 1.0
    ensures s - HalfEven(Part(s as real, c, exponent)) <= more - HalfEven(Part(more as real, c, exponent))
  {
    if s < more {
      PartIsProduct(s as real, c, exponent);
      PartIsProduct(more as real, c, exponent);
      var p, q, f := Part(s as real, c, exponent), Part(more as real, c, exponent), Value(c, exponent);
      GrowthIsStrict(s, more, p, q, f);
      if f < 1.0 {
        RoundedGrowth(p, q, more - s);
      } else {
        HalfEvenOfInteger(s);
        HalfEvenOfInteger(more);
      }
    }
  }

  /** While every amount is rounded once, more tokens of every kind never make the invoice cheaper. */
  lemma TotalMonotone(usage: Usage, more: Usage, rates: Rates, discount: Decimal)
    requires rates.Valid() && AtMostOne(discount) && usage.AtMost(more) && ChargesFor(more, rates, discount).Some?
    requires ShortProducts(more, rates, discount, ChargesFor(more, rates, discount).value)
    ensures ChargesFor(usage, rates, discount).Some?
    ensures ChargesFor(usage, rates, discount).value.total <= ChargesFor(more, rates, discount).value.total
  {
    SmallerRow(usage, more, rates, discount);
    var c, c' := ChargesFor(usage, rates, discount).value, ChargesFor(more, rates, discount).value;
    TimesOrder(usage.uncached, more.uncached, rates.uncachedInput.coefficient);
    TimesOrder(usage.cached, more.cached, rates.CachedInput().coefficient);
    TimesOrder(usage.output, more.output, rates.output.coefficient);
    TimesOrder(c.subtotal, c'.subtotal, discount.coefficient);
    ShortRowsAreExact(usage, rates, discount);
    ShortRowsAreExact(more, rates, discount);
    FractionValue(discount);
    OnceGrows(c.subtotal, c'.subtotal, discount.coefficient, discount.exponent);
  }

  // ----- a total that drops

  function Tokens(n: nat): Usage {
    Usage(1, n, 0, 0)
  }

  lemma TenIs(k: nat)
    requires k == 26
    ensures 100 * Ten(k) == LIMIT && Ten(k + 1) == TENTH && Ten(k + 2) == LIMIT
  {
    var four: nat := 4;
    assert Ten(four) == 10_000;
    TenAdd(four, four);
    TenAdd(2 * four, 2 * four);
    TenAdd(4 * four, 2 * four);
    assert Ten(k) == 10 * Ten(k - 1) && Ten(k - 1) == 10 * Ten(k - 2);
  }

  lemma NothingCharged(rate: Decimal)
    ensures Charge(0, rate) == Some(0)
  {
    ShortFits(0);
    assert 0 * rate.coefficient == 0;
    if rate.exponent < 0 {
      NearestOfMultiple(0, Ten(-rate.exponent));
    }
  }

  lemma PlainCharge(n: nat)
    requires n < LIMIT
    ensures Charge(n, Decimal(1, 0)) == Some(n)
  {
    ShortFits(n);
    assert n * 1 == n && Ten(0) == 1;
  }

  lemma PlainSubtotal(n: nat)
    requires n < LIMIT
    ensures Subtotal(n, 0, 0) == n
  {
    ShortFits(n);
  }

  /** The row of `n` tokens at one quantum each, from the discount of its subtotal. */
  lemma PlainRow(n: nat, rates: Rates, discount: Decimal, amount: nat)
    requires n < LIMIT && rates.Valid() && rates.uncachedInput == Decimal(1, 0)
    requires AtMostOne(discount) && Charge(n, discount) == Some(amount)
    ensures amount <= n
    ensures ChargesFor(Tokens(n), rates, discount) == Some(Charges(n, 0, 0, n, amount, n - amount))
  {
    PlainCharge(n);
    NothingCharged(rates.CachedInput());
    NothingCharged(rates.output);
    PlainSubtotal(n);
    DiscountWithin(n, 0, 0, discount);
    ShortFits(n - amount);
  }

  /** A discount computed in two roundings: to `q`, which is `j` digits shorter, and then to whole quanta. */
  lemma TwoRoundings(n: nat, d: Decimal, c: nat, j: nat, q: nat, amount: nat)
    requires d.exponent < 0 && c == n * d.coefficient && j >= 1 && TENTH * Ten(j) <= c < LIMIT * Ten(j)
    requires Nearest(c, Ten(j)) == q && Nearest(q * Ten(j), Ten(-d.exponent)) == amount < LIMIT
    ensures Charge(n, d) == Some(amount)
  {
    ExcessIs(c, j);
  }

  /** Both roundings below 10^26 quanta ... */
  lemma LowArithmetic(n: nat)
    requires n >= 1000 && n % 2 == 0
    ensures (n - 1) * (100 * n - 52) == (100 * n - 152) * n + 52
    ensures (100 * n - 152) * n == (n - 2) * (100 * n) + 48 * n
    ensures 10 * n * n <= (n - 1) * (100 * n - 52) < 100 * n * n
  {
  }

  /** ... and above. */
  lemma HighArithmetic(n: nat)
    requires n >= 1000 && n % 2 == 0
    ensures (n + 2) * (100 * n - 52) == (10 * n + 14) * (10 * n) + (8 * n - 104)
    ensures (10 * n + 15) * (10 * n) == (n + 1) * (100 * n) + 50 * n
    ensures 100 * n * n <= (n + 2) * (100 * n - 52) < 1000 * n * n
  {
  }

  /** All but 5.2 parts in 10^27. */
  predicate IsSteep(d: Decimal, k: nat) {
    k == 26 && d.coefficient == LIMIT - 52 && -d.exponent == k + 2
  }

  lemma LowRow(k: nat, n: nat, d: Decimal)
    requires IsSteep(d, k) && n == Ten(k)
    ensures n >= 2 && Charge(n - 1, d) == Some(n - 2)
  {
    TenIs(k);
    LowArithmetic(n);
    NearestIs((n - 1) * (LIMIT - 52), n, LIMIT - 152, 52);
    NearestIs((LIMIT - 152) * n, LIMIT, n - 2, 48 * n);
    TwoRoundings(n - 1, d, (n - 1) * (LIMIT - 52), k, LIMIT - 152, n - 2);
  }

  lemma HighRow(k: nat, n: nat, d: Decimal)
    requires IsSteep(d, k) && n == Ten(k)
    ensures Charge(n + 2, d) == Some(n + 2)
  {
    TenIs(k);
    HighArithmetic(n);
    NearestIs((n + 2) * (LIMIT - 52), TENTH, TENTH + 14, 8 * n - 104);
    NearestIs((TENTH + 15) * TENTH, LIMIT, n + 1, 50 * n);
    TwoRoundings(n + 2, d, (n + 2) * (LIMIT - 52), k + 1, TENTH + 15, n + 2);
  }

  lemma SteepIsFraction(k: nat, d: Decimal)
    requires IsSteep(d, k)
    ensures AtMostOne(d)
  {
    TenIs(k);
  }

  /** At one quantum a token and that discount, 10^26 - 1 tokens cost one quantum, and three tokens more cost
      nothing. */
  lemma TotalCanDrop(k: nat, rates: Rates, d: Decimal)
    requires IsSteep(d, k) && rates.Valid() && rates.uncachedInput == Decimal(1, 0)
    ensures AtMostOne(d) && Ten(k) >= 2
    ensures var c, c' := ChargesFor(Tokens(Ten(k) - 1), rates, d), ChargesFor(Tokens(Ten(k) + 2), rates, d);
            c.Some? && c'.Some? && c.value.total == 1 && c'.value.total == 0
  {
    TenIs(k);
    SteepIsFraction(k, d);
    var n := Ten(k);
    LowRow(k, n, d);
    HighRow(k, n, d);
    PlainRow(n - 1, rates, d, n - 2);
    PlainRow(n + 2, rates, d, n + 2);
  }

  /** No tokens cost nothing. */
  lemma NothingDue(usage: Usage, rates: Rates, discount: Decimal, n: nat)
    requires rates.Valid() && AtMostOne(discount) && usage.uncached == usage.cached == usage.output == n == 0
    ensures ChargesFor(usage, rates, discount).Some?
  {
    FreeOfCharge(n, rates.uncachedInput);
    FreeOfCharge(n, rates.CachedInput());
    FreeOfCharge(n, rates.output);
    FreeDiscount(n, discount);
    RowOf(usage, rates, discount, n, n, n);
  }

  /** A row from its three charges. */
  lemma RowOf(usage: Usage, rates: Rates, discount: Decimal, uncached: nat, cached: nat, output: nat)
    requires rates.Valid() && AtMostOne(discount) && Charge(usage.uncached, rates.uncachedInput) == Some(uncached)
    requires Charge(usage.cached, rates.CachedInput()) == Some(cached)
    requires Charge(usage.output, rates.output) == Some(output)
    ensures ChargesFor(usage, rates, discount) == Discounted(uncached, cached, output, discount)
  {
  }

  lemma FreeDiscount(n: nat, discount: Decimal)
    requires AtMostOne(discount) && n == 0
    ensures Discounted(n, n, n, discount).Some?
  {
    ShortFits(n);
    assert Subtotal(n, n, n) == n;
    FreeOfCharge(n, discount);
  }

  lemma FreeOfCharge(n: nat, rate: Decimal)
    requires n == 0
    ensures Charge(n, rate) == Some(n)
  {
    NothingCharged(rate);
  }

  /** 10^28 tokens at one quantum each cannot be charged. */
  lemma HugeUsageIsRefused(usage: Usage, rates: Rates, discount: Decimal)
    requires rates.Valid() && AtMostOne(discount) && rates.output == Decimal(1, 0) && usage.output == LIMIT
    ensures ChargesFor(usage, rates, discount) == None
  {
    ChargedIff(usage.output, rates.output);
    assert LIMIT * 1 == LIMIT && Ten(0) == 1;
  }
}
