/**
 Newcombe's method 10 for paired proportions, over the reals.

 A square root is a parameter: a non-negative number whose square is the radicand.  Every lemma holds
 for all counts with at least one trial and every non-negative critical value `z`.
 */
module Newcombe {
  import opened Reals

  datatype Bounds = Bounds(lower: real, upper: real)

  predicate IsRoot(root: real, x: real) {
    root >= 0.0 && root * root == x
  }

  function Max(x: real, y: real): real {
    if x >= y then x else y
  }

  function Min(x: real, y: real): real {
    if x <= y then x else y
  }

  // ----- Wilson

  function Proportion(successes: nat, trials: nat): real
    requires trials > 0
  {
    successes as real / trials as real
  }

  function WilsonRadicand(successes: nat, trials: nat, z: real): real
    requires trials > 0
  {
    UnderRoot(Proportion(successes, trials), trials as real, z)
  }

  function UnderRoot(p: real, n: real, z: real): real
    requires n > 0.0
  {
    p * (1.0 - p) / n + z * z / (4.0 * n * n)
  }

  function WilsonBounds(successes: nat, trials: nat, z: real, root: real): Bounds
    requires trials > 0 && IsRoot(root, WilsonRadicand(successes, trials, z))
  {
    var n, p := trials as real, Proportion(successes, trials);
    var denominator := WilsonDenominator(n, z);
    var center := (p + z * z / (2.0 * n)) / denominator;
    var margin := z * root / denominator;
    Bounds(Max(0.0, center - margin), Min(1.0, center + margin))
  }

  function WilsonDenominator(n: real, z: real): (d: real)
    requires n > 0.0
    ensures d >= 1.0
  {
    SquareNonNegative(z);
    QuotientNonNegative(z * z, n);
    1.0 + z * z / n
  }

  lemma ProportionRange(successes: nat, trials: nat)
    requires 0 < trials && successes <= trials
    ensures 0.0 <= Proportion(successes, trials) <= 1.0
  {
    var n := trials as real;
    QuotientOrder(0.0, successes as real, n);
    QuotientOrder(successes as real, n, n);
  }

  /** With u = z^2 / n, the squared margin is u p (1 - p) + u^2 / 4 (both scaled by the denominator). */
  lemma SquaredMargin(p: real, n: real, z: real, root: real)
    requires n > 0.0
    requires IsRoot(root, UnderRoot(p, n, z))
    ensures var u, w := z * z / n, z * root;
            w * w == u * (p * (1.0 - p)) + u * u / 4.0
  {
    var u, w, v := z * z / n, z * root, p * (1.0 - p);
    var m := 4.0 * n;
    ProductPositive(m, n);
    var q := m * n;
    assert q == 4.0 * n * n;
    var t := z * z / q;
    QuotientTimes(z * z, q);
    QuotientTimes(z * z, n);
    QuotientTimes(v, n);
    assert t * n == u / 4.0 by {
      assert t * n * (4.0 * n) == z * z;
      assert u / 4.0 * (4.0 * n) == u * n;
      Cancel(t * n, u / 4.0, 4.0 * n);
    }
    calc {
      w * w;
      (z * z) * (root * root);
      (u * n) * (v / n + t);
      u * (v / n * n) + u * (t * n);
      u * v + u * (u / 4.0);
    }
  }

  /** The centre's distance from the proportion never exceeds the margin (both scaled). */
  lemma WilsonOffset(p: real, n: real, z: real, root: real)
    requires n > 0.0 && z >= 0.0 && 0.0 <= p <= 1.0
    requires IsRoot(root, UnderRoot(p, n, z))
    ensures -(z * root) <= z * z / n * (p - 0.5) <= z * root
  {
    var u, w, v, e := z * z / n, z * root, p * (1.0 - p), p - 0.5;
    SquaredMargin(p, n, z, root);
    SquareNonNegative(z);
    QuotientNonNegative(z * z, n);
    ProductNonNegative(p, 1.0 - p);
    ProductNonNegative(z, root);
    ProductNonNegative(u, v);
    ProductNonNegative(u, u * v);
    assert e * e == 0.25 - v;
    calc {
      (u * e) * (u * e);
      (u * u) * (e * e);
      (u * u) * (0.25 - v);
      u * u / 4.0 - u * (u * v);
    }
    SquareOrder(u * e, w);
  }

  /** A Wilson interval contains its proportion and stays within [0, 1]. */
  lemma WilsonContains(successes: nat, trials: nat, z: real, root: real)
    requires 0 < trials && successes <= trials && z >= 0.0
    requires IsRoot(root, WilsonRadicand(successes, trials, z))
    ensures var b := WilsonBounds(successes, trials, z, root);
            0.0 <= b.lower <= Proportion(successes, trials) <= b.upper <= 1.0
  {
    var n, p := trials as real, Proportion(successes, trials);
    ProportionRange(successes, trials);
    WilsonOffset(p, n, z, root);
    var d, mid, w := WilsonDenominator(n, z), p + z * z / (2.0 * n), z * root;
    ScaledProportion(p, n, z, w, d, mid);
    Squeeze(p, d, mid, w);
  }

  lemma ScaledProportion(p: real, n: real, z: real, w: real, d: real, mid: real)
    requires n > 0.0 && -w <= z * z / n * (p - 0.5) <= w
    requires d == 1.0 + z * z / n && mid == p + z * z / (2.0 * n)
    ensures mid - w <= p * d <= mid + w
  {
    var u, h := z * z / n, z * z / (2.0 * n);
    QuotientTimes(z * z, n);
    QuotientTimes(z * z, 2.0 * n);
    assert h * (2.0 * n) == u / 2.0 * (2.0 * n);
    Cancel(h, u / 2.0, 2.0 * n);
    assert p * d == p + u * p;
    assert u * (p - 0.5) == u * p - u / 2.0;
  }

  lemma Squeeze(p: real, d: real, mid: real, w: real)
    requires d > 0.0 && mid - w <= p * d <= mid + w
    ensures mid / d - w / d <= p <= mid / d + w / d
  {
    var x := p * d;
    QuotientOrder(mid - w, x, d);
    QuotientOrder(x, mid + w, d);
    QuotientDifference(mid, w, d);
    QuotientSum(mid, w, d);
    QuotientTimes(x, d);
    Cancel(x / d, p, d);
  }

  // ----- Wilson's ends are where the score test is exactly critical

  /** `x` is a proportion at distance exactly z standard errors from `p`: n (p - x)^2 == z^2 x (1 - x). */
  predicate Critical(p: real, u: real, x: real) {
    (p - x) * (p - x) == u * (x * (1.0 - x))
  }

  lemma MarginSquares(p: real, u: real, w: real, d: real, mid: real)
    requires d == 1.0 + u && mid == p + u / 2.0 && w * w == u * (p * (1.0 - p)) + u * u / 4.0
    ensures w * w == mid * mid - d * (p * p)
    ensures w * w == (d - mid) * (d - mid) - d * ((1.0 - p) * (1.0 - p))
  {
    var pp, pu, uu := p * p, u * p, u * u;
    assert mid * mid == pp + pu + uu / 4.0;
    assert d * pp == pp + u * pp;
    assert u * (p * (1.0 - p)) == pu - u * pp;
    assert d - mid == 1.0 - p + u / 2.0;
    assert (d - mid) * (d - mid) == 1.0 - 2.0 * p + pp + u - pu + uu / 4.0;
    assert (1.0 - p) * (1.0 - p) == 1.0 - 2.0 * p + pp;
    assert d * (1.0 - 2.0 * p + pp) == 1.0 - 2.0 * p + pp + u - 2.0 * pu + u * pp;
  }

  lemma EndIsCritical(p: real, u: real, w: real, d: real, mid: real, x: real)
    requires d == 1.0 + u && mid == p + u / 2.0 && d > 0.0 && x * d == mid + w
    requires w * w == mid * mid - d * (p * p)
    ensures Critical(p, u, x)
  {
    var y, pp, xx := x * d, p * p, x * x;
    assert (y - mid) * (y - mid) == y * y - 2.0 * (mid * y) + mid * mid;
    assert y * y == d * (d * xx) && mid * y == d * (mid * x);
    var residue := d * xx - 2.0 * (mid * x) + pp;
    assert d * residue == d * (d * xx) - 2.0 * (d * (mid * x)) + d * pp;
    ZeroProduct(residue, d);
    assert d * xx == xx + u * xx;
    assert 2.0 * (mid * x) == 2.0 * (p * x) + u * x;
    assert (p - x) * (p - x) == pp - 2.0 * (p * x) + xx;
    assert u * (x * (1.0 - x)) == u * x - u * xx;
  }

  lemma HalfQuotient(zz: real, n: real)
    requires n > 0.0
    ensures zz / (2.0 * n) == zz / n / 2.0
  {
    QuotientTimes(zz, n);
    QuotientTimes(zz, 2.0 * n);
    assert zz / n / 2.0 * (2.0 * n) == zz / n * n;
    Cancel(zz / (2.0 * n), zz / n / 2.0, 2.0 * n);
  }

  lemma BelowRoots(w: real, a: real, rest: real)
    requires a >= 0.0 && rest >= 0.0 && w * w == a * a - rest
    ensures w <= a
  {
    SquareOrder(w, a);
  }

  lemma MarginWithin(p: real, w: real, d: real, mid: real)
    requires d > 0.0 && 0.0 <= mid <= d
    requires w * w == mid * mid - d * (p * p) && w * w == (d - mid) * (d - mid) - d * ((1.0 - p) * (1.0 - p))
    ensures w <= mid && w <= d - mid
  {
    SquareNonNegative(p);
    SquareNonNegative(1.0 - p);
    ProductNonNegative(d, p * p);
    ProductNonNegative(d, (1.0 - p) * (1.0 - p));
    BelowRoots(w, mid, d * (p * p));
    BelowRoots(w, d - mid, d * ((1.0 - p) * (1.0 - p)));
  }

  lemma EndsWithin(w: real, d: real, mid: real)
    requires d > 0.0 && 0.0 <= w <= mid && w <= d - mid
    ensures 0.0 <= (mid - w) / d <= (mid + w) / d <= 1.0
    ensures (mid - w) / d == mid / d - w / d && (mid + w) / d == mid / d + w / d
  {
    QuotientDifference(mid, w, d);
    QuotientSum(mid, w, d);
    QuotientNonNegative(mid - w, d);
    QuotientOrder(mid - w, mid + w, d);
    QuotientOrder(mid + w, d, d);
    Cancel(d / d, 1.0, d);
  }

  lemma ScaledEnds(p: real, u: real, w: real, d: real, mid: real)
    requires 0.0 <= p <= 1.0 && u >= 0.0 && w >= 0.0 && d == 1.0 + u && mid == p + u / 2.0
    requires w * w == u * (p * (1.0 - p)) + u * u / 4.0
    ensures 0.0 <= mid / d - w / d <= mid / d + w / d <= 1.0
    ensures Critical(p, u, mid / d - w / d) && Critical(p, u, mid / d + w / d)
  {
    MarginSquares(p, u, w, d, mid);
    MarginWithin(p, w, d, mid);
    EndsWithin(w, d, mid);
    QuotientTimes(mid - w, d);
    QuotientTimes(mid + w, d);
    EndIsCritical(p, u, -w, d, mid, (mid - w) / d);
    EndIsCritical(p, u, w, d, mid, (mid + w) / d);
  }

  lemma UnclampedEnds(p: real, n: real, z: real, root: real)
    requires n > 0.0 && z >= 0.0 && 0.0 <= p <= 1.0
    requires IsRoot(root, UnderRoot(p, n, z))
    ensures var d, mid := WilsonDenominator(n, z), p + z * z / (2.0 * n);
            && 0.0 <= mid / d - z * root / d <= mid / d + z * root / d <= 1.0
            && Critical(p, z * z / n, mid / d - z * root / d) && Critical(p, z * z / n, mid / d + z * root / d)
  {
    SquaredMargin(p, n, z, root);
    HalfQuotient(z * z, n);
    ProductNonNegative(z, root);
    SquareNonNegative(z);
    QuotientNonNegative(z * z, n);
    ScaledEnds(p, z * z / n, z * root, WilsonDenominator(n, z), p + z * z / (2.0 * n));
  }

  /** Neither end needs its clamp, and both ends are critical proportions of the score test. */
  lemma WilsonEnds(successes: nat, trials: nat, z: real, root: real)
    requires 0 < trials && successes <= trials && z >= 0.0
    requires IsRoot(root, WilsonRadicand(successes, trials, z))
    ensures var n, p, b := trials as real, Proportion(successes, trials), WilsonBounds(successes, trials, z, root);
            var d, mid := WilsonDenominator(n, z), p + z * z / (2.0 * n);
            && b == Bounds(mid / d - z * root / d, mid / d + z * root / d)
            && Critical(p, z * z / n, b.lower) && Critical(p, z * z / n, b.upper)
  {
    var n, p := trials as real, Proportion(successes, trials);
    ProportionRange(successes, trials);
    UnclampedEnds(p, n, z, root);
  }

  // ----- the paired interval

  datatype Counts = Counts(bothPass: nat, win: nat, loss: nat, bothFail: nat) {
    function Trials(): nat {
      bothPass + win + loss + bothFail
    }

    /** The same table with the arms exchanged. */
    function Swapped(): Counts {
      Counts(bothPass, loss, win, bothFail)
    }
  }

  /** The five square roots the method takes. */
  datatype Roots = Roots(candidate: real, baseline: real, correlation: real, lower: real, upper: real) {
    function Swapped(): Roots {
      Roots(baseline, candidate, correlation, upper, lower)
    }
  }

  function CorrelationRadicand(c: Counts): real {
    ((c.bothPass + c.win) * (c.loss + c.bothFail) * (c.bothPass + c.loss) * (c.win + c.bothFail)) as real
  }

  function CorrelationNumerator(c: Counts): int {
    c.bothPass * c.bothFail - c.win * c.loss
  }

  /** The phi correlation with its continuity correction, before clamping. */
  function Phi(c: Counts, root: real): real {
    var numerator := CorrelationNumerator(c) as real;
    if root == 0.0 then 0.0
    else if numerator > 0.0 then Max(numerator - c.Trials() as real / 2.0, 0.0) / root
    else numerator / root
  }

  /** The numerator of the correlation: a negative one as it is, a positive one lowered by half the number of
      trials, but not below zero. */
  predicate IsCorrected(numerator: real, c: Counts) {
    var agreements, disagreements := c.bothPass * c.bothFail, c.win * c.loss;
    var excess := agreements as real - disagreements as real;
    var half := (c.bothPass + c.win + c.loss + c.bothFail) as real / 2.0;
    && (excess <= 0.0 ==> numerator == excess)
    && (0.0 <= excess <= half ==> numerator == 0.0)
    && (half <= excess ==> numerator == excess - half)
  }

  /** Phi is that numerator over the root, and nothing without one. */
  lemma PhiIsCorrected(c: Counts, root: real)
    requires root >= 0.0
    ensures root > 0.0 ==> IsCorrected(Phi(c, root) * root, c)
    ensures root == 0.0 ==> Phi(c, root) == 0.0
  {
    if root > 0.0 {
      var numerator := CorrelationNumerator(c) as real;
      QuotientTimes(numerator, root);
      QuotientTimes(Max(numerator - c.Trials() as real / 2.0, 0.0), root);
    }
  }

  function Correlation(c: Counts, root: real): real {
    Max(-1.0, Min(1.0, Phi(c, root)))
  }

  predicate WilsonRoots(c: Counts, z: real, r: Roots) {
    && c.Trials() > 0
    && IsRoot(r.candidate, WilsonRadicand(c.bothPass + c.win, c.Trials(), z))
    && IsRoot(r.baseline, WilsonRadicand(c.bothPass + c.loss, c.Trials(), z))
    && IsRoot(r.correlation, CorrelationRadicand(c))
  }

  function CandidateBounds(c: Counts, z: real, r: Roots): Bounds
    requires WilsonRoots(c, z, r)
  {
    WilsonBounds(c.bothPass + c.win, c.Trials(), z, r.candidate)
  }

  function BaselineBounds(c: Counts, z: real, r: Roots): Bounds
    requires WilsonRoots(c, z, r)
  {
    WilsonBounds(c.bothPass + c.loss, c.Trials(), z, r.baseline)
  }

  function Candidate(c: Counts): real
    requires c.Trials() > 0
  {
    Proportion(c.bothPass + c.win, c.Trials())
  }

  function Baseline(c: Counts): real
    requires c.Trials() > 0
  {
    Proportion(c.bothPass + c.loss, c.Trials())
  }

  function Radicand(x: real, y: real, correlation: real): real {
    x * x - 2.0 * correlation * x * y + y * y
  }

  function LowerRadicand(c: Counts, z: real, r: Roots): real
    requires WilsonRoots(c, z, r)
  {
    Radicand(Candidate(c) - CandidateBounds(c, z, r).lower, BaselineBounds(c, z, r).upper - Baseline(c),
             Correlation(c, r.correlation))
  }

  function UpperRadicand(c: Counts, z: real, r: Roots): real
    requires WilsonRoots(c, z, r)
  {
    Radicand(CandidateBounds(c, z, r).upper - Candidate(c), Baseline(c) - BaselineBounds(c, z, r).lower,
             Correlation(c, r.correlation))
  }

  predicate ValidRoots(c: Counts, z: real, r: Roots) {
    && WilsonRoots(c, z, r)
    && IsRoot(r.lower, Max(0.0, LowerRadicand(c, z, r)))
    && IsRoot(r.upper, Max(0.0, UpperRadicand(c, z, r)))
  }

  /** `_newcombe_bounds`. */
  function NewcombeBounds(c: Counts, z: real, r: Roots): Bounds
    requires ValidRoots(c, z, r)
  {
    var delta := Candidate(c) - Baseline(c);
    Bounds(Max(-1.0, delta - r.lower), Min(1.0, delta + r.upper))
  }

  // ----- the correlation needs no clamping

  lemma SquareOfDifference(u: nat, v: nat)
    ensures (u - v) * (u - v) <= (u + v) * (u + v)
  {
    assert (u + v) * (u + v) - (u - v) * (u - v) == 4 * (u * v);
  }

  lemma ProductsAreOrdered(y: nat, p: int, q: int)
    requires y <= p && y <= q
    ensures y * y <= p * q
  {
    assert y * y <= p * y && p * y <= p * q;
  }

  lemma DeterminantBelowProduct(a: nat, b: nat, c: nat, d: nat)
    ensures var x := a * d - b * c;
            x * x <= (a + b) * (c + d) * (a + c) * (b + d)
  {
    var u, v := a * d, b * c;
    var p, q := (a + b) * (c + d), (a + c) * (b + d);
    assert p == u + v + (a * c + b * d) && q == u + v + (a * b + c * d);
    SquareOfDifference(u, v);
    ProductsAreOrdered(u + v, p, q);
    assert p * q == (a + b) * (c + d) * (a + c) * (b + d);
  }

  lemma QuotientInRange(top: real, root: real)
    requires root > 0.0 && -root <= top <= root
    ensures -1.0 <= top / root <= 1.0
  {
    QuotientOrder(-root, top, root);
    QuotientOrder(top, root, root);
    QuotientTimes(-root, root);
    Cancel(-root / root, -1.0, root);
  }

  lemma BelowRoot(k: int, product: int, root: real)
    requires k * k <= product && IsRoot(root, product as real)
    ensures -root <= k as real <= root
  {
    var x := k as real;
    assert x * x == (k * k) as real;
    SquareOrder(x, root);
  }

  lemma NumeratorBelowRoot(c: Counts, root: real)
    requires IsRoot(root, CorrelationRadicand(c))
    ensures -root <= CorrelationNumerator(c) as real <= root
  {
    DeterminantBelowProduct(c.bothPass, c.win, c.loss, c.bothFail);
    BelowRoot(CorrelationNumerator(c),
              (c.bothPass + c.win) * (c.loss + c.bothFail) * (c.bothPass + c.loss) * (c.win + c.bothFail), root);
  }

  /** Before clamping the correlation already lies in [-1, 1]. */
  lemma PhiInRange(c: Counts, root: real)
    requires IsRoot(root, CorrelationRadicand(c))
    ensures -1.0 <= Phi(c, root) <= 1.0 && Correlation(c, root) == Phi(c, root)
  {
    NumeratorBelowRoot(c, root);
    var numerator := CorrelationNumerator(c) as real;
    if root != 0.0 {
      QuotientInRange(if numerator > 0.0 then Max(numerator - c.Trials() as real / 2.0, 0.0) else numerator, root);
    }
  }

  /** The law of cosines: with a correlation in [-1, 1] the third side is at most the sum of two. */
  lemma RadicandRange(x: real, y: real, correlation: real, root: real)
    requires x >= 0.0 && y >= 0.0 && -1.0 <= correlation <= 1.0
    requires IsRoot(root, Max(0.0, Radicand(x, y, correlation)))
    ensures 0.0 <= Radicand(x, y, correlation) && 0.0 <= root <= x + y
  {
    ProductNonNegative(x, y);
    var xy := x * y;
    ProductOrder(correlation, 1.0, xy);
    ProductOrder(-1.0, correlation, xy);
    assert Radicand(x, y, correlation) == x * x + y * y - 2.0 * (correlation * xy);
    assert (x - y) * (x - y) == x * x + y * y - 2.0 * xy;
    SquareNonNegative(x - y);
    assert (x + y) * (x + y) == x * x + y * y + 2.0 * xy;
    SquareOrder(root, x + y);
  }

  lemma BoundsContain(c: Counts, z: real, r: Roots)
    requires z >= 0.0 && WilsonRoots(c, z, r)
    ensures 0.0 <= CandidateBounds(c, z, r).lower <= Candidate(c) <= CandidateBounds(c, z, r).upper <= 1.0
    ensures 0.0 <= BaselineBounds(c, z, r).lower <= Baseline(c) <= BaselineBounds(c, z, r).upper <= 1.0
  {
    WilsonContains(c.bothPass + c.win, c.Trials(), z, r.candidate);
    WilsonContains(c.bothPass + c.loss, c.Trials(), z, r.baseline);
  }

  /** The interval contains delta, lies between the extreme differences of the Wilson ends, and hence
      within [-1, 1]: over the reals neither the radicands nor the ends need their clamps. */
  lemma NewcombeContains(c: Counts, z: real, r: Roots)
    requires z >= 0.0 && ValidRoots(c, z, r)
    ensures var b, delta := NewcombeBounds(c, z, r), Candidate(c) - Baseline(c);
            && -1.0 <= CandidateBounds(c, z, r).lower - BaselineBounds(c, z, r).upper <= b.lower <= delta
            && delta <= b.upper <= CandidateBounds(c, z, r).upper - BaselineBounds(c, z, r).lower <= 1.0
            && b == Bounds(delta - r.lower, delta + r.upper)
            && LowerRadicand(c, z, r) >= 0.0 && UpperRadicand(c, z, r) >= 0.0
  {
    BoundsContain(c, z, r);
    PhiInRange(c, r.correlation);
    var rho := Correlation(c, r.correlation);
    RadicandRange(Candidate(c) - CandidateBounds(c, z, r).lower, BaselineBounds(c, z, r).upper - Baseline(c), rho,
                  r.lower);
    RadicandRange(CandidateBounds(c, z, r).upper - Candidate(c), Baseline(c) - BaselineBounds(c, z, r).lower, rho,
                  r.upper);
  }

  lemma CosineForm(x: real, y: real, rho: real)
    ensures Radicand(x, y, rho) == (x - y) * (x - y) + 2.0 * ((1.0 - rho) * (x * y))
  {
    assert (x - y) * (x - y) == x * x - 2.0 * (x * y) + y * y;
    assert rho * x * y == rho * (x * y);
  }

  /** A squared half-width: the squared difference of the distances of the two Wilson ends, plus twice their
      product times what the correlation is short of one. */
  predicate Spans(width: real, x: real, y: real, missing: real) {
    width * width == (x - y) * (x - y) + 2.0 * (missing * (x * y))
  }

  lemma RootSpans(width: real, x: real, y: real, rho: real)
    requires IsRoot(width, Max(0.0, Radicand(x, y, rho))) && Radicand(x, y, rho) >= 0.0
    ensures Spans(width, x, y, 1.0 - rho)
  {
    CosineForm(x, y, rho);
  }

  /** Full correlation leaves the difference of the two distances, and every bit it falls short widens the
      interval. */
  lemma WidthsFollowCorrelation(c: Counts, z: real, r: Roots)
    requires z >= 0.0 && ValidRoots(c, z, r)
    ensures var b, delta := NewcombeBounds(c, z, r), Candidate(c) - Baseline(c);
            var missing := 1.0 - Correlation(c, r.correlation);
            && Spans(delta - b.lower, Candidate(c) - CandidateBounds(c, z, r).lower,
                     BaselineBounds(c, z, r).upper - Baseline(c), missing)
            && Spans(b.upper - delta, CandidateBounds(c, z, r).upper - Candidate(c),
                     Baseline(c) - BaselineBounds(c, z, r).lower, missing)
  {
    NewcombeContains(c, z, r);
    var rho := Correlation(c, r.correlation);
    RootSpans(r.lower, Candidate(c) - CandidateBounds(c, z, r).lower, BaselineBounds(c, z, r).upper - Baseline(c), rho);
    RootSpans(r.upper, CandidateBounds(c, z, r).upper - Candidate(c), Baseline(c) - BaselineBounds(c, z, r).lower, rho);
  }

  /** The reported delta is the difference of the two proportions. */
  lemma DeltaIsDifference(c: Counts)
    requires c.Trials() > 0
    ensures Candidate(c) - Baseline(c) == (c.win - c.loss) as real / c.Trials() as real
  {
    QuotientDifference((c.bothPass + c.win) as real, (c.bothPass + c.loss) as real, c.Trials() as real);
  }

  lemma RadicandSymmetric(x: real, y: real, correlation: real)
    ensures Radicand(x, y, correlation) == Radicand(y, x, correlation)
  {
    assert correlation * x * y == correlation * y * x;
  }

  lemma CorrelationSymmetric(c: Counts)
    ensures CorrelationRadicand(c.Swapped()) == CorrelationRadicand(c)
    ensures CorrelationNumerator(c.Swapped()) == CorrelationNumerator(c)
  {
    var p, q, s, t := c.bothPass + c.win, c.loss + c.bothFail, c.bothPass + c.loss, c.win + c.bothFail;
    assert s * t * p * q == p * q * s * t;
  }

  /** Exchanging wins with losses maps (lower, upper) to (-upper, -lower). */
  lemma ArmsExchange(c: Counts, z: real, r: Roots)
    requires ValidRoots(c, z, r)
    ensures ValidRoots(c.Swapped(), z, r.Swapped())
    ensures var b := NewcombeBounds(c, z, r);
            NewcombeBounds(c.Swapped(), z, r.Swapped()) == Bounds(-b.upper, -b.lower)
  {
    var c', r' := c.Swapped(), r.Swapped();
    CorrelationSymmetric(c);
    assert c'.Trials() == c.Trials();
    assert Correlation(c', r.correlation) == Correlation(c, r.correlation);
    assert WilsonRoots(c', z, r');
    assert CandidateBounds(c', z, r') == BaselineBounds(c, z, r)
      && BaselineBounds(c', z, r') == CandidateBounds(c, z, r);
    var rho := Correlation(c, r.correlation);
    RadicandSymmetric(Candidate(c) - CandidateBounds(c, z, r).lower, BaselineBounds(c, z, r).upper - Baseline(c), rho);
    RadicandSymmetric(CandidateBounds(c, z, r).upper - Candidate(c), Baseline(c) - BaselineBounds(c, z, r).lower, rho);
  }

  lemma RootIsUnique(a: real, b: real, x: real)
    requires IsRoot(a, x) && IsRoot(b, x)
    ensures a == b
  {
    SquareOrder(a, b);
    SquareOrder(b, a);
  }

  /** A radicand has one root, so the bounds depend on nothing but the counts and `z`. */
  lemma RootsAreUnique(c: Counts, z: real, r: Roots, r': Roots)
    requires ValidRoots(c, z, r) && ValidRoots(c, z, r')
    ensures r == r'
  {
    RootIsUnique(r.candidate, r'.candidate, WilsonRadicand(c.bothPass + c.win, c.Trials(), z));
    RootIsUnique(r.baseline, r'.baseline, WilsonRadicand(c.bothPass + c.loss, c.Trials(), z));
    RootIsUnique(r.correlation, r'.correlation, CorrelationRadicand(c));
    RootIsUnique(r.lower, r'.lower, Max(0.0, LowerRadicand(c, z, r)));
    RootIsUnique(r.upper, r'.upper, Max(0.0, UpperRadicand(c, z, r)));
  }
}
