/** The unbiased pass@k estimator and the reported budgets (evals/sampling.py). */
module PassAtK {
  import opened Options
  import opened Powers
  import opened Reals

  // ----- binomial coefficients

  function Choose(n: nat, k: nat): nat {
    if k == 0 then 1
    else if n == 0 then 0
    else Choose(n - 1, k) + Choose(n - 1, k - 1)
  }

  lemma {:induction false} ChooseBeyond(n: nat, k: nat)
    requires k > n
    ensures Choose(n, k) == 0
  {
    if n > 0 {
      ChooseBeyond(n - 1, k);
      ChooseBeyond(n - 1, k - 1);
    }
  }

  lemma {:induction false} ChoosePositive(n: nat, k: nat)
    requires k <= n
    ensures Choose(n, k) > 0
  {
    if 0 < k {
      ChoosePositive(n - 1, k - 1);
    }
  }

  lemma {:induction false} ChooseGrows(m: nat, n: nat, k: nat)
    requires m <= n
    ensures Choose(m, k) <= Choose(n, k)
    decreases n
  {
    if m < n && k > 0 {
      ChooseGrows(m, n - 1, k);
    }
  }

  /** The ratio of neighbours in a row, which each factor of the product loop uses. */
  lemma {:induction false} ChooseNext(n: nat, k: nat)
    requires k <= n
    ensures (k + 1) * Choose(n, k + 1) == (n - k) * Choose(n, k)
  {
    if k == n {
      ChooseBeyond(n, k + 1);
    } else if k == 0 {
      ChooseNext(n - 1, 0);
    } else {
      ChooseNext(n - 1, k);
      ChooseNext(n - 1, k - 1);
      PascalStep(n, k, Choose(n - 1, k + 1), Choose(n - 1, k), Choose(n - 1, k - 1));
    }
  }

  lemma PascalStep(n: int, k: int, a: int, b: int, c: int)
    requires (k + 1) * a == (n - 1 - k) * b && k * b == (n - k) * c
    ensures (k + 1) * (a + b) == (n - k) * (b + c)
  {
    calc {
      (k + 1) * (a + b);
      (n - 1 - k) * b + k * b + b;
      (n - k) * b + k * b;
      (n - k) * (b + c);
    }
  }

  // ----- counting subsets

  function Subsets(s: set<nat>, k: nat): set<set<nat>> {
    set t | t <= s && |t| == k
  }

  function WithElement(x: nat, family: set<set<nat>>): set<set<nat>> {
    set t | t in family :: t + {x}
  }

  lemma {:induction false} WithElementCount(x: nat, family: set<set<nat>>)
    requires forall t :: t in family ==> x !in t
    ensures |WithElement(x, family)| == |family|
  {
    if family == {} {
      assert WithElement(x, family) == {};
    } else {
      var t :| t in family;
      var rest := family - {t};
      WithElementCount(x, rest);
      assert t + {x} !in WithElement(x, rest) by {
        forall u | u in rest
          ensures u + {x} != t + {x}
        {
          assert (u + {x}) - {x} == u && (t + {x}) - {x} == t;
        }
      }
      assert WithElement(x, family) == WithElement(x, rest) + {t + {x}};
    }
  }

  lemma SubsetsSplit(s: set<nat>, x: nat, k: nat)
    requires x in s && k > 0
    ensures Subsets(s, k) == Subsets(s - {x}, k) + WithElement(x, Subsets(s - {x}, k - 1))
  {
    forall t | t in Subsets(s, k)
      ensures t in Subsets(s - {x}, k) + WithElement(x, Subsets(s - {x}, k - 1))
    {
      if x in t {
        assert t - {x} in Subsets(s - {x}, k - 1);
        assert t == (t - {x}) + {x};
      }
    }
    forall u | u in Subsets(s - {x}, k - 1)
      ensures u + {x} in Subsets(s, k)
    {
    }
  }

  lemma DisjointCount(a: set<set<nat>>, b: set<set<nat>>)
    requires a !! b
    ensures |a + b| == |a| + |b|
  {
  }

  lemma SubsetsSplitCount(s: set<nat>, x: nat, k: nat)
    requires x in s && k > 0
    ensures |Subsets(s, k)| == |Subsets(s - {x}, k)| + |Subsets(s - {x}, k - 1)|
  {
    SubsetsSplit(s, x, k);
    WithElementCount(x, Subsets(s - {x}, k - 1));
    DisjointCount(Subsets(s - {x}, k), WithElement(x, Subsets(s - {x}, k - 1)));
  }

  lemma NoSubsets(k: nat)
    requires k > 0
    ensures Subsets({}, k) == {}
  {
    assert forall t: set<nat> :: t <= {} ==> t == {};
  }

  lemma OneSubset(s: set<nat>)
    ensures Subsets(s, 0) == {{}}
  {
  }

  /** `Choose` counts subsets. */
  lemma {:induction false} SubsetCount(s: set<nat>, k: nat)
    ensures |Subsets(s, k)| == Choose(|s|, k)
    decreases |s|
  {
    if k == 0 {
      OneSubset(s);
    } else if s == {} {
      NoSubsets(k);
    } else {
      var x :| x in s;
      SubsetCount(s - {x}, k);
      SubsetCount(s - {x}, k - 1);
      SubsetsSplitCount(s, x, k);
    }
  }

  // ----- the estimator

  predicate ValidDraw(successes: int, attempts: int, k: int) {
    attempts >= 1 && 0 <= successes <= attempts && 1 <= k <= attempts
  }

  /** The chance that `k` of `attempts` draws all fall among the failures: `C(f,k) / C(n,k)`. */
  function AllFail(failures: nat, attempts: nat, k: nat): real
    requires k <= attempts
  {
    ChoosePositive(attempts, k);
    Choose(failures, k) as real / Choose(attempts, k) as real
  }

  /** The closed form the product loop stands for. */
  function Estimate(successes: int, attempts: int, k: int): real
    requires ValidDraw(successes, attempts, k)
  {
    1.0 - AllFail(attempts - successes, attempts, k)
  }

  lemma RealProducts(i: int, x: int, j: int, y: int)
    requires i * x == j * y
    ensures i as real * x as real == j as real * y as real
  {
    assert i as real * x as real == (i * x) as real;
    assert j as real * y as real == (j * y) as real;
  }

  lemma QuotientStep(f: real, n: real, j: real, an: real, an': real, af: real, af': real)
    requires n > 0.0 && j > 0.0 && an > 0.0 && an' > 0.0
    requires j * an' == n * an && j * af' == f * af
    ensures af' / an' == af / an * (f / n)
  {
    var p, q := af / an, f / n;
    QuotientTimes(f, n);
    QuotientTimes(af, an);
    QuotientTimes(af', an');
    calc {
      p * q * an' * j;
      p * q * (j * an');
      p * q * (n * an);
      (q * n) * (p * an);
      f * af;
      af' * j;
    }
    Cancel(p * q * an', af', j);
    Cancel(af' / an', p * q, an');
  }

  /** Each factor of the product loop moves the quotient of binomials one place along its row. */
  lemma AllFailNext(failures: nat, attempts: nat, offset: nat)
    requires offset <= failures <= attempts && offset < attempts
    ensures AllFail(failures, attempts, offset + 1)
         == AllFail(failures, attempts, offset) * ((failures - offset) as real / (attempts - offset) as real)
  {
    ChooseNext(failures, offset);
    ChooseNext(attempts, offset);
    ChoosePositive(attempts, offset);
    ChoosePositive(attempts, offset + 1);
    CountsStep(failures - offset, attempts - offset, offset + 1,
               Choose(attempts, offset), Choose(attempts, offset + 1),
               Choose(failures, offset), Choose(failures, offset + 1));
  }

  lemma CountsStep(f: nat, n: nat, j: nat, an: nat, an': nat, af: nat, af': nat)
    requires n > 0 && j > 0 && an > 0 && an' > 0
    requires j * an' == n * an && j * af' == f * af
    ensures af' as real / an' as real == af as real / an as real * (f as real / n as real)
  {
    RealProducts(j, an', n, an);
    RealProducts(j, af', f, af);
    QuotientStep(f as real, n as real, j as real, an as real, an' as real, af as real, af' as real);
  }

  lemma EstimateRange(successes: int, attempts: int, k: int)
    requires ValidDraw(successes, attempts, k)
    ensures 0.0 <= Estimate(successes, attempts, k) <= 1.0
    ensures Estimate(successes, attempts, k) == 1.0 <==> attempts - successes < k
    ensures Estimate(successes, attempts, k) == 0.0 <==> successes == 0
  {
    var failures := attempts - successes;
    var f, n := Choose(failures, k) as real, Choose(attempts, k) as real;
    ChoosePositive(attempts, k);
    ChooseGrows(failures, attempts, k);
    if failures < k {
      ChooseBeyond(failures, k);
    } else {
      ChoosePositive(failures, k);
    }
    if successes > 0 {
      ChooseGrows(failures, attempts - 1, k);
      ChoosePositive(attempts - 1, k - 1);
    }
    RatioRange(f, n);
  }

  lemma RatioRange(f: real, n: real)
    requires 0.0 <= f <= n && n > 0.0
    ensures 0.0 <= f / n <= 1.0 && (f / n == 0.0 <==> f == 0.0) && (f / n == 1.0 <==> f == n)
  {
    QuotientNonNegative(f, n);
    QuotientOrder(f, n, n);
    QuotientTimes(f, n);
    QuotientTimes(n, n);
    Cancel(n / n, 1.0, n);
  }

  /** `pass_at_k`: the product form equals `1 - C(n-c,k) / C(n,k)`; arguments out of range are refused. */
  method PassAtK(successes: int, attempts: int, k: int) returns (r: Option<real>)
    ensures r.Some? <==> ValidDraw(successes, attempts, k)
    ensures r.Some? ==> r.value == Estimate(successes, attempts, k)
  {
    if attempts < 1 || !(0 <= successes <= attempts) || !(1 <= k <= attempts) {
      return None;
    }
    var failures := attempts - successes;
    if failures < k {
      EstimateRange(successes, attempts, k);
      return Some(1.0);
    }
    var allFail := 1.0;
    for offset := 0 to k
      invariant allFail == AllFail(failures, attempts, offset)
    {
      AllFailNext(failures, attempts, offset);
      allFail := allFail * ((failures - offset) as real / (attempts - offset) as real);
    }
    return Some(1.0 - allFail);
  }

  /** The draws of `k` attempts that contain a success. */
  function Hits(attempts: set<nat>, successes: set<nat>, k: nat): set<set<nat>> {
    set t | t in Subsets(attempts, k) && t * successes != {}
  }

  /** What the estimator means: the fraction of k-element draws that contain a success. */
  lemma EstimateIsHitRate(attempts: set<nat>, successes: set<nat>, k: nat)
    requires successes <= attempts && 1 <= k <= |attempts|
    ensures |successes| <= |attempts| && |Subsets(attempts, k)| > 0
    ensures Estimate(|successes|, |attempts|, k)
         == |Hits(attempts, successes, k)| as real / |Subsets(attempts, k)| as real
  {
    var misses := Subsets(attempts - successes, k);
    var hits, all := Hits(attempts, successes, k), Subsets(attempts, k);
    assert |attempts| == |attempts - successes| + |successes| by {
      assert attempts == (attempts - successes) + successes;
    }
    SubsetCount(attempts, k);
    SubsetCount(attempts - successes, k);
    ChoosePositive(|attempts|, k);
    assert all == hits + misses && hits !! misses by {
      forall t | t in all
        ensures t in hits || t in misses
      {
        if t * successes == {} {
          assert t <= attempts - successes;
        }
      }
      forall t | t in misses
        ensures t in all && t !in hits
      {
        assert t * successes == {};
      }
    }
    assert |all| == |hits| + |misses|;
    var a, h, m := |all| as real, |hits| as real, |misses| as real;
    Complement(a, h, m);
  }

  lemma Complement(a: real, h: real, m: real)
    requires a > 0.0 && a == h + m
    ensures 1.0 - m / a == h / a
  {
    QuotientSum(h, m, a);
    Cancel(a / a, 1.0, a);
  }

  lemma MonotoneInSuccesses(successes: int, more: int, attempts: int, k: int)
    requires ValidDraw(successes, attempts, k) && ValidDraw(more, attempts, k) && successes <= more
    ensures Estimate(successes, attempts, k) <= Estimate(more, attempts, k)
  {
    ChoosePositive(attempts, k);
    ChooseGrows(attempts - more, attempts - successes, k);
    QuotientOrder(Choose(attempts - more, k) as real, Choose(attempts - successes, k) as real,
                  Choose(attempts, k) as real);
  }

  lemma OneMoreDraw(successes: int, attempts: int, k: int)
    requires ValidDraw(successes, attempts, k) && k < attempts
    ensures Estimate(successes, attempts, k) <= Estimate(successes, attempts, k + 1)
  {
    var failures := attempts - successes;
    EstimateRange(successes, attempts, k);
    EstimateRange(successes, attempts, k + 1);
    if k < failures {
      AllFailNext(failures, attempts, k);
      RatioRange((failures - k) as real, (attempts - k) as real);
      ProductOrder((failures - k) as real / (attempts - k) as real, 1.0, AllFail(failures, attempts, k));
    }
  }

  lemma {:induction false} MonotoneInK(successes: int, attempts: int, k: int, more: int)
    requires ValidDraw(successes, attempts, k) && ValidDraw(successes, attempts, more) && k <= more
    ensures Estimate(successes, attempts, k) <= Estimate(successes, attempts, more)
    decreases more
  {
    if k < more {
      MonotoneInK(successes, attempts, k, more - 1);
      OneMoreDraw(successes, attempts, more - 1);
    }
  }

  lemma ChooseOne(n: nat)
    ensures Choose(n, 1) == n
  {
  }

  /** With one draw the estimate is the plain success rate. */
  lemma SingleDraw(successes: int, attempts: int)
    requires ValidDraw(successes, attempts, 1)
    ensures Estimate(successes, attempts, 1) == successes as real / attempts as real
  {
    ChooseOne(attempts);
    ChooseOne(attempts - successes);
    Complement(attempts as real, successes as real, (attempts - successes) as real);
  }

  // ----- the reported budgets

  ghost predicate IsPower(v: nat) {
    exists e: nat :: v == Pow2(e)
  }

  /** Strictly increasing from 1 to `attempts`, holding exactly `attempts` and the powers of two up to it. */
  ghost predicate IsReported(values: seq<nat>, attempts: nat) {
    && |values| > 0 && values[0] == 1 && values[|values| - 1] == attempts
    && (forall i, j :: 0 <= i < j < |values| ==> values[i] < values[j])
    && (forall v: nat :: v in values <==> v == attempts || (v <= attempts && IsPower(v)))
  }

  lemma {:induction false} PowerGrows(d: nat, e: nat)
    requires d < e
    ensures Pow2(d) < Pow2(e)
    decreases e
  {
    if d + 1 < e {
      PowerGrows(d, e - 1);
    }
  }

  /** `reported_k_values`. */
  method ReportedKValues(attempts: int) returns (r: Option<seq<nat>>)
    ensures r.Some? <==> attempts >= 1
    ensures r.Some? ==> IsReported(r.value, attempts)
  {
    if attempts < 1 {
      return None;
    }
    var values: seq<nat>, value, e: nat := [], 1, 0;
    while value <= attempts
      invariant value == Pow2(e) && |values| == e && (e == 0 ==> value == 1) && ArePowers(values, attempts)
      decreases 2 * attempts - value
    {
      values := values + [value];
      value := 2 * value;
      e := e + 1;
    }
    PowersAreAll(values, attempts);
    BudgetCloses(values, attempts);
    if values[|values| - 1] != attempts {
      values := values + [attempts];
    }
    return Some(values);
  }

  predicate ArePowers(values: seq<nat>, attempts: int) {
    forall i :: 0 <= i < |values| ==> values[i] == Pow2(i) && values[i] <= attempts
  }

  lemma BudgetCloses(values: seq<nat>, attempts: nat)
    requires |values| > 0 && values[0] == 1
    requires forall i, j :: 0 <= i < j < |values| ==> values[i] < values[j]
    requires forall v: nat :: v in values <==> v <= attempts && IsPower(v)
    ensures IsReported(if values[|values| - 1] != attempts then values + [attempts] else values, attempts)
  {
    forall i | 0 <= i < |values|
      ensures values[i] <= values[|values| - 1] <= attempts
    {
      assert values[|values| - 1] in values;
    }
    var closed := values + [attempts];
    assert forall v: nat :: v in closed <==> v in values || v == attempts;
  }

  lemma PowersAreAll(values: seq<nat>, attempts: nat)
    requires 1 <= attempts < Pow2(|values|)
    requires ArePowers(values, attempts)
    ensures |values| > 0 && values[0] == 1
    ensures forall i, j :: 0 <= i < j < |values| ==> values[i] < values[j]
    ensures forall v: nat :: v in values <==> v <= attempts && IsPower(v)
  {
    assert Pow2(0) == 1;
    forall i, j | 0 <= i < j < |values|
      ensures values[i] < values[j]
    {
      PowerGrows(i, j);
    }
    forall v: nat | v <= attempts && IsPower(v)
      ensures v in values
    {
      var e: nat :| v == Pow2(e);
      if e >= |values| {
        if e > |values| {
          PowerGrows(|values|, e);
        }
        assert false;
      }
      assert values[e] == v;
    }
  }

  /** The reported list is fixed by its description. */
  lemma ReportedIsUnique(a: seq<nat>, b: seq<nat>, attempts: nat)
    requires IsReported(a, attempts) && IsReported(b, attempts)
    ensures a == b
  {
    IncreasingIsUnique(a, b);
  }

  lemma {:induction false} IncreasingIsUnique(a: seq<nat>, b: seq<nat>)
    requires forall i, j :: 0 <= i < j < |a| ==> a[i] < a[j]
    requires forall i, j :: 0 <= i < j < |b| ==> b[i] < b[j]
    requires forall v: nat :: v in a <==> v in b
    ensures a == b
  {
    assert a != [] ==> a[0] in b;
    assert b != [] ==> b[0] in a;
    if a != [] {
      forall v: nat
        ensures v in a[1..] <==> v in b[1..]
      {
        assert v in a[1..] <==> v in a && v != a[0];
        assert v in b[1..] <==> v in b && v != b[0];
      }
      IncreasingIsUnique(a[1..], b[1..]);
      assert a == [a[0]] + a[1..] && b == [b[0]] + b[1..];
    }
  }
}
