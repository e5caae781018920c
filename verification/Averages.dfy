/** Sums and means over the reals, and the exchange of row means with column means. */
module Averages {
  import opened Reals

  function Sum(s: seq<real>): real {
    if s == [] then 0.0 else s[0] + Sum(s[1..])
  }

  function Mean(s: seq<real>): real
    requires s != []
  {
    Sum(s) / |s| as real
  }

  /** The sum of squared deviations from `center`. */
  function Deviation(s: seq<real>, center: real): (r: real)
    ensures r >= 0.0
  {
    if s == [] then 0.0 else
      SquareNonNegative(s[0] - center);
      (s[0] - center) * (s[0] - center) + Deviation(s[1..], center)
  }

  /** The sample variance, with n - 1 in the denominator. */
  function Variance(s: seq<real>): (r: real)
    requires |s| >= 2
    ensures r >= 0.0
  {
    QuotientNonNegative(Deviation(s, Mean(s)), (|s| - 1) as real);
    Deviation(s, Mean(s)) / (|s| - 1) as real
  }

  function Least(s: seq<real>): (r: real)
    requires s != []
    ensures r in s && forall i :: 0 <= i < |s| ==> r <= s[i]
  {
    if |s| == 1 then s[0] else
      var rest := Least(s[1..]);
      if s[0] <= rest then s[0] else rest
  }

  function Greatest(s: seq<real>): (r: real)
    requires s != []
    ensures r in s && forall i :: 0 <= i < |s| ==> s[i] <= r
  {
    if |s| == 1 then s[0] else
      var rest := Greatest(s[1..]);
      if s[0] >= rest then s[0] else rest
  }

  lemma {:induction false} SumAppend(s: seq<real>, t: seq<real>)
    ensures Sum(s + t) == Sum(s) + Sum(t)
  {
    if s == [] {
      assert s + t == t;
    } else {
      assert (s + t)[1..] == s[1..] + t;
      SumAppend(s[1..], t);
    }
  }

  lemma SumSnoc(s: seq<real>, x: real)
    ensures Sum(s + [x]) == Sum(s) + x
  {
    SumAppend(s, [x]);
  }

  lemma {:induction false} SumRange(s: seq<real>, low: real, high: real)
    requires forall i :: 0 <= i < |s| ==> low <= s[i] <= high
    ensures low * |s| as real <= Sum(s) <= high * |s| as real
  {
    if s != [] {
      SumRange(s[1..], low, high);
      var n := (|s| - 1) as real;
      assert low * (n + 1.0) == low * n + low && high * (n + 1.0) == high * n + high;
    }
  }

  lemma MeanRange(s: seq<real>, low: real, high: real)
    requires s != [] && forall i :: 0 <= i < |s| ==> low <= s[i] <= high
    ensures low <= Mean(s) <= high
  {
    var n := |s| as real;
    SumRange(s, low, high);
    QuotientOrder(low * n, Sum(s), n);
    QuotientOrder(Sum(s), high * n, n);
    ProductQuotient(low, n);
    ProductQuotient(high, n);
  }

  lemma ProductQuotient(x: real, n: real)
    requires n != 0.0
    ensures x * n / n == x
  {
    QuotientTimes(x * n, n);
    Cancel(x * n / n, x, n);
  }

  lemma MeanTimes(s: seq<real>, n: real)
    requires s != [] && n == |s| as real
    ensures Mean(s) * n == Sum(s)
  {
    QuotientTimes(Sum(s), n);
  }

  /** The mean lies between the extremes. */
  lemma MeanBetween(s: seq<real>)
    requires s != []
    ensures Least(s) <= Mean(s) <= Greatest(s)
  {
    MeanRange(s, Least(s), Greatest(s));
  }

  // ----- termwise operations

  function Scaled(s: seq<real>, d: real): (r: seq<real>)
    requires d != 0.0
    ensures |r| == |s| && forall i :: 0 <= i < |s| ==> r[i] == s[i] / d
  {
    if s == [] then [] else [s[0] / d] + Scaled(s[1..], d)
  }

  lemma {:induction false} SumScaled(s: seq<real>, d: real)
    requires d != 0.0
    ensures Sum(Scaled(s, d)) == Sum(s) / d
  {
    if s != [] {
      SumScaled(s[1..], d);
      QuotientSum(s[0], Sum(s[1..]), d);
    }
  }

  function Minus(s: seq<real>, t: seq<real>): (r: seq<real>)
    requires |s| == |t|
    ensures |r| == |s| && forall i :: 0 <= i < |s| ==> r[i] == s[i] - t[i]
  {
    if s == [] then [] else [s[0] - t[0]] + Minus(s[1..], t[1..])
  }

  lemma {:induction false} SumMinus(s: seq<real>, t: seq<real>)
    requires |s| == |t|
    ensures Sum(Minus(s, t)) == Sum(s) - Sum(t)
  {
    if s != [] {
      SumMinus(s[1..], t[1..]);
    }
  }

  /** A mean of differences is the difference of the means. */
  lemma MeanMinus(s: seq<real>, t: seq<real>)
    requires |s| == |t| > 0
    ensures Mean(Minus(s, t)) == Mean(s) - Mean(t)
  {
    SumMinus(s, t);
    QuotientDifference(Sum(s), Sum(t), |s| as real);
  }

  // ----- matrices, row by row

  predicate Wide(m: seq<seq<real>>, width: nat) {
    forall i :: 0 <= i < |m| ==> |m[i]| == width
  }

  function Column(m: seq<seq<real>>, width: nat, j: nat): (r: seq<real>)
    requires Wide(m, width) && j < width
    ensures |r| == |m| && forall i :: 0 <= i < |m| ==> r[i] == m[i][j]
  {
    if m == [] then [] else [m[0][j]] + Column(m[1..], width, j)
  }

  function RowSums(m: seq<seq<real>>): (r: seq<real>)
    ensures |r| == |m| && forall i :: 0 <= i < |m| ==> r[i] == Sum(m[i])
  {
    if m == [] then [] else [Sum(m[0])] + RowSums(m[1..])
  }

  function ColumnSums(m: seq<seq<real>>, width: nat): (r: seq<real>)
    requires Wide(m, width)
    ensures |r| == width && forall j :: 0 <= j < width ==> r[j] == Sum(Column(m, width, j))
  {
    seq(width, j requires 0 <= j < width => Sum(Column(m, width, j)))
  }

  lemma {:induction false} ZeroSum(s: seq<real>)
    requires forall i :: 0 <= i < |s| ==> s[i] == 0.0
    ensures Sum(s) == 0.0
  {
    if s != [] {
      ZeroSum(s[1..]);
    }
  }

  /** Adding up by rows or by columns gives the same total. */
  lemma {:induction false} TotalsAgree(m: seq<seq<real>>, width: nat)
    requires Wide(m, width)
    ensures Sum(RowSums(m)) == Sum(ColumnSums(m, width))
  {
    if m == [] {
      ZeroSum(ColumnSums(m, width));
    } else {
      TotalsAgree(m[1..], width);
      assert Minus(ColumnSums(m, width), ColumnSums(m[1..], width)) == m[0];
      SumMinus(ColumnSums(m, width), ColumnSums(m[1..], width));
    }
  }

  function RowMeans(m: seq<seq<real>>, width: nat): (r: seq<real>)
    requires Wide(m, width) && width > 0
    ensures |r| == |m| && forall i :: 0 <= i < |m| ==> r[i] == Mean(m[i])
  {
    Scaled(RowSums(m), width as real)
  }

  function ColumnMeans(m: seq<seq<real>>, width: nat): (r: seq<real>)
    requires Wide(m, width) && m != []
    ensures |r| == width && forall j :: 0 <= j < width ==> r[j] == Mean(Column(m, width, j))
  {
    Scaled(ColumnSums(m, width), |m| as real)
  }

  lemma QuotientsCommute(x: real, n: real, k: real)
    requires n > 0.0 && k > 0.0
    ensures x / n / k == x / k / n
  {
    QuotientOfQuotient(x, n, k);
    QuotientOfQuotient(x, k, n);
  }

  /** The mean of the row means is the mean of the column means. */
  lemma MeansExchange(m: seq<seq<real>>, width: nat)
    requires Wide(m, width) && m != [] && width > 0
    ensures Mean(RowMeans(m, width)) == Mean(ColumnMeans(m, width))
  {
    TotalsAgree(m, width);
    SumScaled(RowSums(m), width as real);
    SumScaled(ColumnSums(m, width), |m| as real);
    QuotientsCommute(Sum(RowSums(m)), width as real, |m| as real);
  }

  lemma NestedQuotient(total: real, n: real, w: real, both: real)
    requires n > 0.0 && w > 0.0 && both == n * w
    ensures both > 0.0 && total / w / n == total / both
  {
    ProductPositive(n, w);
    QuotientOfQuotient(total, w, n);
  }

  lemma QuotientByCount(total: real, rows: nat, width: nat, count: nat)
    requires rows > 0 && width > 0 && count == rows * width
    ensures count > 0 && total / width as real / rows as real == total / count as real
  {
    assert count as real == rows as real * width as real;
    NestedQuotient(total, rows as real, width as real, count as real);
  }

  /** The mean of the row means is the mean of all entries. */
  lemma MeanOfRowMeans(m: seq<seq<real>>, width: nat, count: nat)
    requires Wide(m, width) && m != [] && width > 0 && count == |m| * width
    ensures count > 0 && Mean(RowMeans(m, width)) == Sum(RowSums(m)) / count as real
  {
    SumScaled(RowSums(m), width as real);
    QuotientByCount(Sum(RowSums(m)), |m|, width, count);
  }
}
