/**
 The feasibility test for the row and column sums of a binary outcome matrix.

 A stored sampling claim publishes, for every source item, how many seeds solved it, and, for
 every seed, how many items it solved.  `Feasible` is the Gale-Ryser test the validator applies to
 those two lists.  The theorem of this module says the test is exact: it accepts precisely the
 margins of some 0/1 matrix.
 */
module BinaryMargins {

  function Sum(s: seq<nat>): nat {
    if s == [] then 0 else s[0] + Sum(s[1..])
  }

  function Min(a: nat, b: nat): nat {
    if a <= b then a else b
  }

  /** The sum over all columns of min(count, degree). */
  function CappedSum(count: nat, degrees: seq<nat>): nat {
    if degrees == [] then 0 else Min(count, degrees[0]) + CappedSum(count, degrees[1..])
  }

  predicate Descending(s: seq<nat>) {
    forall i, j :: 0 <= i < j < |s| ==> s[i] >= s[j]
  }

  function InsertDescending(x: nat, s: seq<nat>): (r: seq<nat>)
    requires Descending(s)
    ensures |r| == |s| + 1 && r[0] == (if s == [] || x >= s[0] then x else s[0])
    ensures Descending(r) && multiset(r) == multiset(s) + multiset{x}
  {
    if s == [] || x >= s[0] then
      [x] + s
    else
      assert s == [s[0]] + s[1..];
      [s[0]] + InsertDescending(x, s[1..])
  }

  /** `sorted(values, reverse=True)`. */
  function SortDescending(s: seq<nat>): (r: seq<nat>)
    ensures Descending(r) && multiset(r) == multiset(s) && |r| == |s|
  {
    if s == [] then [] else
      assert s == [s[0]] + s[1..];
      var r := InsertDescending(s[0], SortDescending(s[1..]));
      assert |multiset(r)| == |multiset(s)|;
      r
  }

  /** `_binary_margins_feasible`. */
  predicate Feasible(itemSuccesses: seq<nat>, seedSuccesses: seq<nat>) {
    && Sum(itemSuccesses) == Sum(seedSuccesses)
    && var rows := SortDescending(itemSuccesses);
       forall count :: 1 <= count <= |rows| ==> Sum(rows[..count]) <= CappedSum(count, seedSuccesses)
  }

  // ----- outcome matrices: one column of item outcomes for every seed

  type Column = seq<bool>

  function Bit(b: bool): nat {
    if b then 1 else 0
  }

  function Count(column: Column): nat {
    multiset(column)[true]
  }

  function RowCount(m: seq<Column>, item: nat): nat {
    if m == [] then 0 else Bit(item < |m[0]| && m[0][item]) + RowCount(m[1..], item)
  }

  predicate Height(m: seq<Column>, height: nat) {
    forall j :: 0 <= j < |m| ==> |m[j]| == height
  }

  /** The matrix `m` has one row for every item and one column for every seed, with these margins. */
  ghost predicate Realizes(m: seq<Column>, rows: seq<nat>, cols: seq<nat>) {
    && |m| == |cols|
    && Height(m, |rows|)
    && (forall j :: 0 <= j < |m| ==> Count(m[j]) == cols[j])
    && (forall i :: 0 <= i < |rows| ==> RowCount(m, i) == rows[i])
  }

  ghost predicate Realizable(rows: seq<nat>, cols: seq<nat>) {
    exists m :: Realizes(m, rows, cols)
  }

  // ----- counting

  lemma CountCons(b: bool, column: Column)
    ensures Count([b] + column) == Bit(b) + Count(column)
  {
  }

  lemma {:induction false} SumAppend(s: seq<nat>, t: seq<nat>)
    ensures Sum(s + t) == Sum(s) + Sum(t)
  {
    if s == [] {
      assert s + t == t;
    } else {
      assert (s + t)[1..] == s[1..] + t;
      SumAppend(s[1..], t);
    }
  }

  lemma SumSnoc(s: seq<nat>, k: nat)
    requires k < |s|
    ensures Sum(s[..k + 1]) == Sum(s[..k]) + s[k]
  {
    assert s[..k + 1] == s[..k] + [s[k]];
    SumAppend(s[..k], [s[k]]);
  }

  lemma {:induction false} SumOfMultiset(s: seq<nat>, t: seq<nat>)
    requires multiset(s) == multiset(t)
    ensures Sum(s) == Sum(t)
  {
    if s != [] {
      assert s == [s[0]] + s[1..];
      assert s[0] in multiset(t);
      var k :| 0 <= k < |t| && t[k] == s[0];
      assert t == t[..k] + ([t[k]] + t[k + 1..]);
      assert multiset(t[..k] + t[k + 1..]) == multiset(t) - multiset{t[k]};
      SumOfMultiset(s[1..], t[..k] + t[k + 1..]);
      SumAppend(t[..k], t[k + 1..]);
      SumAppend(t[..k], [t[k]] + t[k + 1..]);
    } else {
      assert |multiset(t)| == 0;
    }
  }

  /** The ones in the first `k` rows, counted column by column. */
  ghost function TopCount(m: seq<Column>, k: nat): nat
    requires forall j :: 0 <= j < |m| ==> k <= |m[j]|
  {
    if m == [] then 0 else Count(m[0][..k]) + TopCount(m[1..], k)
  }

  lemma {:induction false} TopCountStep(m: seq<Column>, k: nat)
    requires forall j :: 0 <= j < |m| ==> k < |m[j]|
    ensures TopCount(m, k + 1) == TopCount(m, k) + RowCount(m, k)
  {
    if m != [] {
      assert m[0][..k + 1] == m[0][..k] + [m[0][k]];
      TopCountStep(m[1..], k);
    }
  }

  lemma {:induction false} TopCountZero(m: seq<Column>)
    ensures TopCount(m, 0) == 0
  {
    if m != [] {
      TopCountZero(m[1..]);
    }
  }

  /** Double counting: adding rows and adding column prefixes give the same number. */
  lemma {:induction false} TopCountIsRowSum(m: seq<Column>, rows: seq<nat>, k: nat)
    requires Height(m, |rows|)
    requires forall i :: 0 <= i < |rows| ==> RowCount(m, i) == rows[i]
    requires k <= |rows|
    ensures TopCount(m, k) == Sum(rows[..k])
  {
    if k == 0 {
      TopCountZero(m);
    } else {
      TopCountIsRowSum(m, rows, k - 1);
      TopCountStep(m, k - 1);
      SumSnoc(rows, k - 1);
    }
  }

  lemma {:induction false} CountAtMost(column: Column)
    ensures Count(column) <= |column|
  {
    if column != [] {
      CountAtMost(column[1..]);
      CountCons(column[0], column[1..]);
      assert column == [column[0]] + column[1..];
    }
  }

  lemma PrefixCount(column: Column, k: nat)
    requires k <= |column|
    ensures Count(column[..k]) <= Min(k, Count(column))
  {
    assert column == column[..k] + column[k..];
    CountAtMost(column[..k]);
  }

  lemma {:induction false} TopCountBounds(m: seq<Column>, cols: seq<nat>, k: nat, height: nat)
    requires |m| == |cols| && k <= height
    requires Height(m, height)
    requires forall j :: 0 <= j < |m| ==> Count(m[j]) == cols[j]
    ensures TopCount(m, k) <= CappedSum(k, cols)
    ensures k == height ==> TopCount(m, k) == Sum(cols)
  {
    if m != [] {
      PrefixCount(m[0], k);
      assert k == height ==> m[0][..k] == m[0];
      TopCountBounds(m[1..], cols[1..], k, height);
    }
  }

  // ----- necessity

  lemma MatrixMeetsCondition(m: seq<Column>, rows: seq<nat>, cols: seq<nat>)
    requires Realizes(m, rows, cols)
    ensures Sum(rows) == Sum(cols)
    ensures forall count :: 0 <= count <= |rows| ==> Sum(rows[..count]) <= CappedSum(count, cols)
  {
    forall count | 0 <= count <= |rows|
      ensures Sum(rows[..count]) <= CappedSum(count, cols)
    {
      TopCountIsRowSum(m, rows, count);
      TopCountBounds(m, cols, count, |rows|);
    }
    TopCountIsRowSum(m, rows, |rows|);
    TopCountBounds(m, cols, |rows|, |rows|);
    assert rows[..|rows|] == rows;
  }

  // ----- the order of the rows is immaterial

  /** Moves the element at `k` in front of the element at `p`. */
  function Rotate<T>(s: seq<T>, p: nat, k: nat): (r: seq<T>)
    requires p <= k < |s|
    ensures |r| == |s|
    ensures forall i :: 0 <= i < |s| ==> r[i] == s[RotatedFrom(p, k, i)]
  {
    s[..p] + [s[k]] + s[p..k] + s[k + 1..]
  }

  function RotatedFrom(p: nat, k: nat, i: nat): nat {
    if i < p || k < i then i else if i == p then k else i - 1
  }

  lemma RotateMultiset<T>(s: seq<T>, p: nat, k: nat)
    requires p <= k < |s|
    ensures multiset(Rotate(s, p, k)) == multiset(s)
  {
    assert s == s[..p] + s[p..k] + [s[k]] + s[k + 1..];
  }

  ghost function RotateRows(m: seq<Column>, p: nat, k: nat): (r: seq<Column>)
    requires p <= k && forall j :: 0 <= j < |m| ==> k < |m[j]|
    ensures |r| == |m| && forall j :: 0 <= j < |m| ==> r[j] == Rotate(m[j], p, k)
  {
    if m == [] then [] else [Rotate(m[0], p, k)] + RotateRows(m[1..], p, k)
  }

  lemma {:induction false} RotateRowCount(m: seq<Column>, p: nat, k: nat, i: nat, height: nat)
    requires p <= k < height && i < height && Height(m, height)
    ensures RowCount(RotateRows(m, p, k), i) == RowCount(m, RotatedFrom(p, k, i))
  {
    if m != [] {
      RotateRowCount(m[1..], p, k, i, height);
      assert RotateRows(m, p, k)[1..] == RotateRows(m[1..], p, k);
    }
  }

  lemma RotateRealizes(m: seq<Column>, rows: seq<nat>, cols: seq<nat>, p: nat, k: nat)
    requires Realizes(m, rows, cols) && p <= k < |rows|
    ensures Realizes(RotateRows(m, p, k), Rotate(rows, p, k), cols)
  {
    forall j | 0 <= j < |m|
      ensures Count(RotateRows(m, p, k)[j]) == cols[j]
    {
      RotateMultiset(m[j], p, k);
    }
    forall i | 0 <= i < |rows|
      ensures RowCount(RotateRows(m, p, k), i) == Rotate(rows, p, k)[i]
    {
      RotateRowCount(m, p, k, i, |rows|);
    }
  }

  lemma RotateRealizable(rows: seq<nat>, cols: seq<nat>, p: nat, k: nat)
    requires Realizable(rows, cols) && p <= k < |rows|
    ensures Realizable(Rotate(rows, p, k), cols)
  {
    var m :| Realizes(m, rows, cols);
    RotateRealizes(m, rows, cols, p, k);
  }

  lemma FindLater(rows: seq<nat>, rows': seq<nat>, p: nat) returns (k: nat)
    requires multiset(rows) == multiset(rows')
    requires p < |rows| == |rows'| && rows[..p] == rows'[..p]
    ensures p <= k < |rows| && rows[k] == rows'[p]
  {
    assert rows == rows[..p] + rows[p..] && rows' == rows'[..p] + rows'[p..];
    assert multiset(rows[p..]) == multiset(rows) - multiset(rows[..p]);
    assert multiset(rows'[p..]) == multiset(rows') - multiset(rows'[..p]);
    assert rows'[p..][0] in multiset(rows[p..]);
    var d :| 0 <= d < |rows[p..]| && rows[p..][d] == rows'[p];
    k := p + d;
  }

  lemma PermuteStep(rows: seq<nat>, rows': seq<nat>, p: nat) returns (k: nat)
    requires multiset(rows) == multiset(rows')
    requires p < |rows| == |rows'| && rows[..p] == rows'[..p]
    ensures p <= k < |rows|
    ensures multiset(Rotate(rows, p, k)) == multiset(rows')
    ensures Rotate(rows, p, k)[..p + 1] == rows'[..p + 1]
  {
    k := FindLater(rows, rows', p);
    RotateMultiset(rows, p, k);
    assert Rotate(rows, p, k)[..p + 1] == rows[..p] + [rows[k]];
    assert rows'[..p + 1] == rows'[..p] + [rows'[p]];
  }

  lemma {:induction false} PermuteFrom(rows: seq<nat>, rows': seq<nat>, cols: seq<nat>, p: nat)
    requires Realizable(rows, cols) && multiset(rows) == multiset(rows')
    requires p <= |rows| == |rows'| && rows[..p] == rows'[..p]
    ensures Realizable(rows', cols)
    decreases |rows| - p
  {
    if p == |rows| {
      assert rows == rows[..p] == rows'[..p] == rows';
    } else {
      var k := PermuteStep(rows, rows', p);
      RotateRealizable(rows, cols, p, k);
      PermuteFrom(Rotate(rows, p, k), rows', cols, p + 1);
    }
  }

  /** Reordering the items neither creates nor destroys a matrix. */
  lemma RowOrderIsImmaterial(rows: seq<nat>, rows': seq<nat>, cols: seq<nat>)
    requires multiset(rows) == multiset(rows')
    ensures Realizable(rows, cols) <==> Realizable(rows', cols)
  {
    assert |multiset(rows)| == |rows| && |multiset(rows')| == |rows'|;
    if Realizable(rows, cols) {
      PermuteFrom(rows, rows', cols, 0);
    }
    if Realizable(rows', cols) {
      PermuteFrom(rows', rows, cols, 0);
    }
  }

  // ----- sufficiency: start from left-justified columns and move ones downwards

  /** `have` dominates `want`: every prefix of `have` is at least as heavy, and the totals agree. */
  ghost predicate Dominates(have: seq<nat>, want: seq<nat>) {
    && |have| == |want|
    && Sum(have) == Sum(want)
    && forall k :: 0 <= k <= |want| ==> Sum(want[..k]) <= Sum(have[..k])
  }

  ghost function Distance(have: seq<nat>, want: seq<nat>): nat
    requires |have| == |want|
  {
    if have == [] then 0
    else (if have[0] >= want[0] then have[0] - want[0] else want[0] - have[0]) + Distance(have[1..], want[1..])
  }

  function TopColumn(height: nat, ones: nat): (c: Column)
    requires ones <= height
    ensures |c| == height && forall i :: 0 <= i < height ==> c[i] == (i < ones)
  {
    seq(height, i => i < ones)
  }

  lemma {:induction false} TopColumnPrefix(height: nat, ones: nat, k: nat)
    requires ones <= height && k <= height
    ensures Count(TopColumn(height, ones)[..k]) == Min(k, ones)
  {
    var c := TopColumn(height, ones);
    if k == 0 {
      assert c[..0] == [];
    } else {
      TopColumnPrefix(height, ones, k - 1);
      assert c[..k] == c[..k - 1] + [c[k - 1]];
    }
  }

  /** The greedy matrix: every column puts its ones in the topmost rows. */
  ghost function Greedy(height: nat, cols: seq<nat>): (m: seq<Column>)
    requires forall j :: 0 <= j < |cols| ==> cols[j] <= height
    ensures |m| == |cols| && forall j :: 0 <= j < |m| ==> m[j] == TopColumn(height, cols[j])
  {
    seq(|cols|, j requires 0 <= j < |cols| => TopColumn(height, cols[j]))
  }

  ghost function RowCounts(m: seq<Column>, height: nat): (r: seq<nat>)
    requires Height(m, height)
    ensures |r| == height && forall i :: 0 <= i < height ==> r[i] == RowCount(m, i)
  {
    seq(height, i requires 0 <= i < height => RowCount(m, i))
  }

  lemma {:induction false} GreedyTopCount(height: nat, cols: seq<nat>, k: nat)
    requires k <= height && forall j :: 0 <= j < |cols| ==> cols[j] <= height
    ensures TopCount(Greedy(height, cols), k) == CappedSum(k, cols)
  {
    if cols != [] {
      GreedyTopCount(height, cols[1..], k);
      TopColumnPrefix(height, cols[0], k);
      assert Greedy(height, cols)[1..] == Greedy(height, cols[1..]);
    }
  }

  lemma {:induction false} CappedSumLarge(height: nat, cols: seq<nat>)
    requires Sum(cols) <= CappedSum(height, cols)
    ensures forall j :: 0 <= j < |cols| ==> cols[j] <= height
    ensures CappedSum(height, cols) == Sum(cols)
  {
    if cols != [] {
      CappedSumAtMost(height, cols[1..]);
      CappedSumLarge(height, cols[1..]);
      assert cols == [cols[0]] + cols[1..];
    }
  }

  lemma {:induction false} CappedSumAtMost(height: nat, cols: seq<nat>)
    ensures CappedSum(height, cols) <= Sum(cols)
  {
    if cols != [] {
      CappedSumAtMost(height, cols[1..]);
    }
  }

  lemma GreedyStart(want: seq<nat>, cols: seq<nat>) returns (m: seq<Column>, have: seq<nat>)
    requires Sum(want) == Sum(cols)
    requires forall k :: 0 <= k <= |want| ==> Sum(want[..k]) <= CappedSum(k, cols)
    ensures Realizes(m, have, cols) && Dominates(have, want)
  {
    var height := |want|;
    assert want[..height] == want;
    CappedSumLarge(height, cols);
    m := Greedy(height, cols);
    have := RowCounts(m, height);
    forall j | 0 <= j < |m|
      ensures Count(m[j]) == cols[j]
    {
      TopColumnPrefix(height, cols[j], height);
      assert m[j][..height] == m[j];
    }
    forall k | 0 <= k <= height
      ensures Sum(want[..k]) <= Sum(have[..k]) == CappedSum(k, cols)
    {
      TopCountIsRowSum(m, have, k);
      GreedyTopCount(height, cols, k);
    }
    assert have[..height] == have;
  }

  // One exchange: a one moves from a row with a surplus to a lower row with a deficit.

  ghost function Move(column: Column, from: nat, to: nat): (c: Column)
    requires from < |column| && to < |column|
  {
    column[from := false][to := true]
  }

  lemma MoveCount(column: Column, from: nat, to: nat)
    requires from < |column| && to < |column| && column[from] && !column[to]
    ensures Count(Move(column, from, to)) == Count(column)
  {
  }

  lemma {:induction false} RowCountUpdate(m: seq<Column>, j: nat, c: Column, i: nat)
    requires j < |m| && i < |c| == |m[j]|
    ensures RowCount(m[j := c], i) + Bit(m[j][i]) == RowCount(m, i) + Bit(c[i])
  {
    if j == 0 {
      assert m[j := c][1..] == m[1..];
    } else {
      RowCountUpdate(m[1..], j - 1, c, i);
      assert m[j := c][1..] == m[1..][j - 1 := c];
    }
  }

  /** Pigeonhole: a heavier row has a one in some column where the lighter row has none. */
  lemma {:induction false} FindColumn(m: seq<Column>, from: nat, to: nat) returns (j: nat)
    requires forall j :: 0 <= j < |m| ==> from < |m[j]| && to < |m[j]|
    requires RowCount(m, from) > RowCount(m, to)
    ensures j < |m| && m[j][from] && !m[j][to]
  {
    if m[0][from] && !m[0][to] {
      j := 0;
    } else {
      j := FindColumn(m[1..], from, to);
      j := j + 1;
    }
  }

  lemma Exchange(m: seq<Column>, have: seq<nat>, cols: seq<nat>, from: nat, to: nat) returns (m': seq<Column>)
    requires Realizes(m, have, cols)
    requires from < |have| && to < |have| && have[from] > have[to]
    ensures Realizes(m', have[from := have[from] - 1][to := have[to] + 1], cols)
  {
    var j := FindColumn(m, from, to);
    var c := Move(m[j], from, to);
    m' := m[j := c];
    MoveCount(m[j], from, to);
    var have' := have[from := have[from] - 1][to := have[to] + 1];
    forall i | 0 <= i < |have|
      ensures RowCount(m', i) == have'[i]
    {
      RowCountUpdate(m, j, c, i);
    }
  }

  lemma {:induction false} SumUpdate(s: seq<nat>, i: nat, v: nat)
    requires i < |s|
    ensures Sum(s[i := v]) + s[i] == Sum(s) + v
  {
    if i == 0 {
      assert s[i := v][1..] == s[1..];
    } else {
      SumUpdate(s[1..], i - 1, v);
      assert s[i := v][1..] == s[1..][i - 1 := v];
    }
  }

  lemma {:induction false} DistanceUpdate(have: seq<nat>, want: seq<nat>, i: nat, v: nat)
    requires |have| == |want| && i < |have|
    requires v + 1 == have[i] > want[i] || v == have[i] + 1 <= want[i]
    ensures Distance(have[i := v], want) == Distance(have, want) - 1
  {
    if i == 0 {
      assert have[i := v][1..] == have[1..];
    } else {
      DistanceUpdate(have[1..], want[1..], i - 1, v);
      assert have[i := v][1..] == have[1..][i - 1 := v];
    }
  }

  lemma {:induction false} EqualSums(have: seq<nat>, want: seq<nat>)
    requires |have| == |want|
    requires forall i :: 0 <= i < |have| ==> have[i] >= want[i]
    ensures Sum(have) >= Sum(want)
    ensures Sum(have) == Sum(want) ==> have == want
  {
    if have != [] {
      EqualSums(have[1..], want[1..]);
      assert have == [have[0]] + have[1..] && want == [want[0]] + want[1..];
    }
  }

  /** The first row in deficit, and the last row in surplus above it. */
  lemma FindRows(have: seq<nat>, want: seq<nat>) returns (from: nat, to: nat)
    requires Dominates(have, want) && Descending(want) && have != want
    ensures from < to < |have| && have[from] > want[from] && have[to] < want[to]
    ensures forall i :: 0 <= i < to ==> have[i] >= want[i]
    ensures have[from] > have[to]
  {
    if forall i :: 0 <= i < |have| ==> have[i] >= want[i] {
      EqualSums(have, want);
      assert false;
    }
    to := 0;
    while have[to] >= want[to]
      invariant to < |have|
      invariant forall i :: 0 <= i < to ==> have[i] >= want[i]
      invariant exists i :: to <= i < |have| && have[i] < want[i]
      decreases |have| - to
    {
      to := to + 1;
    }
    if forall i :: 0 <= i < to ==> have[i] <= want[i] {
      assert have[..to] == want[..to];
      SumSnoc(have, to);
      SumSnoc(want, to);
      assert false;
    }
    from :| from < to && have[from] > want[from];
  }

  /** An exchange keeps domination. */
  lemma ExchangeDominates(have: seq<nat>, want: seq<nat>, from: nat, to: nat)
    requires Dominates(have, want) && from < to < |have|
    requires have[from] > want[from] && forall i :: 0 <= i < to ==> have[i] >= want[i]
    ensures Dominates(have[from := have[from] - 1][to := have[to] + 1], want)
  {
    var mid := have[from := have[from] - 1];
    var next := mid[to := have[to] + 1];
    SumUpdate(have, from, have[from] - 1);
    SumUpdate(mid, to, have[to] + 1);
    forall k | 0 <= k <= |want|
      ensures Sum(want[..k]) <= Sum(next[..k])
    {
      if k <= to {
        assert next[..k] == mid[..k];
        EqualSums(next[..k], want[..k]);
      } else {
        assert next[..k] == have[..k][from := have[from] - 1][to := have[to] + 1];
        SumUpdate(have[..k], from, have[from] - 1);
        SumUpdate(have[..k][from := have[from] - 1], to, have[to] + 1);
      }
    }
  }

  lemma {:induction false} Settle(m: seq<Column>, have: seq<nat>, want: seq<nat>, cols: seq<nat>)
    requires Realizes(m, have, cols) && Dominates(have, want) && Descending(want)
    ensures Realizable(want, cols)
    decreases Distance(have, want)
  {
    if have != want {
      var from, to := FindRows(have, want);
      var m' := Exchange(m, have, cols, from, to);
      ExchangeDominates(have, want, from, to);
      DistanceUpdate(have, want, from, have[from] - 1);
      DistanceUpdate(have[from := have[from] - 1], want, to, have[to] + 1);
      Settle(m', have[from := have[from] - 1][to := have[to] + 1], want, cols);
    }
  }

  /** The Gale-Ryser theorem: the test accepts exactly the margins of binary outcome matrices. */
  lemma FeasibleIffRealizable(itemSuccesses: seq<nat>, seedSuccesses: seq<nat>)
    ensures Feasible(itemSuccesses, seedSuccesses) <==> Realizable(itemSuccesses, seedSuccesses)
  {
    var rows := SortDescending(itemSuccesses);
    SumOfMultiset(rows, itemSuccesses);
    RowOrderIsImmaterial(rows, itemSuccesses, seedSuccesses);
    if Feasible(itemSuccesses, seedSuccesses) {
      var m, have := GreedyStart(rows, seedSuccesses);
      Settle(m, have, rows, seedSuccesses);
    }
    if Realizable(rows, seedSuccesses) {
      var m :| Realizes(m, rows, seedSuccesses);
      MatrixMeetsCondition(m, rows, seedSuccesses);
    }
  }
}
