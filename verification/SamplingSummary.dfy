/**
 The seed matrix summary (evals/sampling.py) and the validator of its stored form
 (evals/aggregate.py).
 */
module SamplingSummary {
  import opened Averages
  import opened Options
  import opened Reals
  import opened Sampling
  import BinaryMargins
  import PassAtK
  import Rounding

  const JSON_SAFE_INTEGER_MAX: int := 9007199254740991

  datatype SeedScore = SeedScore(seed: int, score: real)

  datatype PassEntry = PassEntry(k: nat, estimate: real)

  datatype Summary = Summary(
    attempts: nat, seeds: seq<int>, nItems: nat, seedScores: seq<SeedScore>,
    mean: real, sampleSd: real, least: real, greatest: real,
    passAtK: Option<seq<PassEntry>>, itemSuccesses: Option<seq<nat>>)

  datatype Stored = Stored(summary: Summary, mode: string, wireOmitted: seq<string>, attested: bool)

  type Sqrt = real -> real

  ghost predicate IsSqrt(sqrt: Sqrt) {
    forall x: real :: x >= 0.0 ==> sqrt(x) >= 0.0 && sqrt(x) * sqrt(x) == x
  }

  predicate Distinct(seeds: seq<int>) {
    forall i, j :: 0 <= i < j < |seeds| ==> seeds[i] != seeds[j]
  }

  // ----- what the producer demands

  predicate IsBinary(score: real) {
    score == 0.0 || score == 1.0
  }

  predicate ScoredAttempt(a: Attempt, index: nat, itemId: string, seed: int, binary: bool) {
    && a.seed == seed
    && a.attempt == index + 1
    && a.result.itemId == itemId
    && Scored(a.result)
    && 0.0 <= a.result.score.value <= 1.0
    && (binary ==> IsBinary(a.result.score.value))
  }

  predicate Retained(item: Item, seeds: seq<int>, binary: bool) {
    && item.status.Completed? && item.score.Some? && item.attempts.Some?
    && |item.attempts.value| == |seeds|
    && forall j :: 0 <= j < |seeds| ==> ScoredAttempt(item.attempts.value[j], j, item.itemId, seeds[j], binary)
  }

  function Row(item: Item, seeds: seq<int>, binary: bool): (r: seq<real>)
    requires Retained(item, seeds, binary)
    ensures |r| == |seeds|
    ensures forall j :: 0 <= j < |r| ==> r[j] == item.attempts.value[j].result.score.value
  {
    seq(|seeds|, j requires 0 <= j < |seeds| => item.attempts.value[j].result.score.value)
  }

  predicate CompleteItem(item: Item, seeds: seq<int>, binary: bool) {
    && seeds != []
    && Retained(item, seeds, binary)
    && item.score.value == Mean(Row(item, seeds, binary))
  }

  predicate ValidSeeds(seeds: seq<int>) {
    && |seeds| >= 2 && Distinct(seeds)
    && forall j :: 0 <= j < |seeds| ==> -JSON_SAFE_INTEGER_MAX <= seeds[j] <= JSON_SAFE_INTEGER_MAX
  }

  predicate CompleteItems(items: seq<Item>, seeds: seq<int>, binary: bool) {
    forall i :: 0 <= i < |items| ==> CompleteItem(items[i], seeds, binary)
  }

  predicate UniqueIds(items: seq<Item>) {
    forall i, j :: 0 <= i < j < |items| ==> items[i].itemId != items[j].itemId
  }

  predicate Complete(items: seq<Item>, seeds: seq<int>, binary: bool) {
    ValidSeeds(seeds) && items != [] && UniqueIds(items) && CompleteItems(items, seeds, binary)
  }

  /** One row of attempt scores for every source item. */
  function Matrix(items: seq<Item>, seeds: seq<int>, binary: bool): (m: seq<seq<real>>)
    requires CompleteItems(items, seeds, binary)
    ensures |m| == |items| && Wide(m, |seeds|)
    ensures forall i :: 0 <= i < |m| ==> m[i] == Row(items[i], seeds, binary)
  {
    seq(|items|, i requires 0 <= i < |items| => Row(items[i], seeds, binary))
  }

  // ----- what the producer computes

  function Ones(row: seq<real>): (n: nat)
    ensures n <= |row|
  {
    if row == [] then 0 else (if row[0] == 1.0 then 1 else 0) + Ones(row[1..])
  }

  function RowOnes(m: seq<seq<real>>): (r: seq<nat>)
    ensures |r| == |m| && forall i :: 0 <= i < |m| ==> r[i] == Ones(m[i])
  {
    seq(|m|, i requires 0 <= i < |m| => Ones(m[i]))
  }

  predicate AtMost(counts: seq<nat>, n: nat) {
    forall i :: 0 <= i < |counts| ==> counts[i] <= n
  }

  function Estimates(successes: seq<nat>, attempts: nat, k: nat): (r: seq<real>)
    requires AtMost(successes, attempts) && 1 <= k <= attempts
    ensures |r| == |successes|
    ensures forall i :: 0 <= i < |r| ==> r[i] == PassAtK.Estimate(successes[i], attempts, k)
  {
    seq(|successes|, i requires 0 <= i < |successes| => PassAtK.Estimate(successes[i], attempts, k))
  }

  predicate Budgets(ks: seq<nat>, attempts: nat) {
    forall t :: 0 <= t < |ks| ==> 1 <= ks[t] <= attempts
  }

  function Passes(ks: seq<nat>, successes: seq<nat>, attempts: nat): (r: seq<PassEntry>)
    requires successes != [] && AtMost(successes, attempts) && Budgets(ks, attempts)
    ensures |r| == |ks|
    ensures forall t :: 0 <= t < |ks| ==> r[t] == PassEntry(ks[t], Mean(Estimates(successes, attempts, ks[t])))
  {
    seq(|ks|, t requires 0 <= t < |ks| => PassEntry(ks[t], Mean(Estimates(successes, attempts, ks[t]))))
  }

  function SeedScores(seeds: seq<int>, scores: seq<real>): (r: seq<SeedScore>)
    requires |seeds| == |scores|
    ensures |r| == |seeds| && forall j :: 0 <= j < |r| ==> r[j] == SeedScore(seeds[j], scores[j])
  {
    seq(|seeds|, j requires 0 <= j < |seeds| => SeedScore(seeds[j], scores[j]))
  }

  function SummaryOf(m: seq<seq<real>>, seeds: seq<int>, binary: bool, ks: seq<nat>, sqrt: Sqrt): Summary
    requires m != [] && |seeds| >= 2 && Wide(m, |seeds|) && Budgets(ks, |seeds|)
  {
    var scores := ColumnMeans(m, |seeds|);
    Summary(|seeds|, seeds, |m|, SeedScores(seeds, scores),
            Mean(scores), sqrt(Variance(scores)), Least(scores), Greatest(scores),
            if binary then Some(Passes(ks, RowOnes(m), |seeds|)) else None,
            if binary then Some(RowOnes(m)) else None)
  }

  ghost predicate IsSummary(s: Summary, items: seq<Item>, seeds: seq<int>, binary: bool, sqrt: Sqrt)
    requires Complete(items, seeds, binary)
  {
    exists ks ::
      && PassAtK.IsReported(ks, |seeds|) && Budgets(ks, |seeds|)
      && s == SummaryOf(Matrix(items, seeds, binary), seeds, binary, ks, sqrt)
  }

  /** The body of the item loop: one parent's row of scores, or a refusal. */
  method ReadItem(item: Item, seeds: seq<int>, binary: bool) returns (r: Option<seq<real>>)
    requires seeds != []
    ensures r.Some? <==> CompleteItem(item, seeds, binary)
    ensures r.Some? ==> r.value == Row(item, seeds, binary)
  {
    if !item.status.Completed? || item.score.None? || item.attempts.None? {
      return None;
    }
    var retained := item.attempts.value;
    if |retained| != |seeds| {
      return None;
    }
    var scores: seq<real> := [];
    for index := 0 to |retained|
      invariant |scores| == index
      invariant forall j :: 0 <= j < index ==>
        ScoredAttempt(retained[j], j, item.itemId, seeds[j], binary) && scores[j] == retained[j].result.score.value
    {
      if !ScoredAttempt(retained[index], index, item.itemId, seeds[index], binary) {
        return None;
      }
      scores := scores + [retained[index].result.score.value];
    }
    assert scores == Row(item, seeds, binary);
    if item.score.value != Mean(scores) {
      return None;
    }
    return Some(scores);
  }

  /** `sampling_summary`. */
  method Summarize(items: seq<Item>, seeds: seq<int>, binary: bool, sqrt: Sqrt) returns (r: Option<Summary>)
    ensures r.Some? <==> Complete(items, seeds, binary)
    ensures r.Some? ==> IsSummary(r.value, items, seeds, binary, sqrt)
  {
    if !ValidSeeds(seeds) || items == [] || !UniqueIds(items) {
      return None;
    }
    var columns: seq<seq<real>> := seq(|seeds|, _ => []);
    var successes: seq<nat> := [];
    for i := 0 to |items|
      invariant CompleteItems(items[..i], seeds, binary)
      invariant |columns| == |seeds|
      invariant forall j :: 0 <= j < |seeds| ==> columns[j] == Column(Matrix(items[..i], seeds, binary), |seeds|, j)
      invariant binary ==> successes == RowOnes(Matrix(items[..i], seeds, binary))
    {
      var row := ReadItem(items[i], seeds, binary);
      if row.None? {
        return None;
      }
      CompleteGrows(items, i, seeds, binary);
      MatrixGrows(items, i, seeds, binary);
      RowAppended(Matrix(items[..i], seeds, binary), row.value, |seeds|);
      columns := seq(|seeds|, j requires 0 <= j < |seeds| => columns[j] + [row.value[j]]);
      if binary {
        successes := successes + [Ones(row.value)];
      }
    }
    assert items[..|items|] == items;
    var m := Matrix(items, seeds, binary);
    var scores := seq(|columns|, j requires 0 <= j < |columns| => Mean(columns[j]));
    assert scores == ColumnMeans(m, |seeds|);
    var ks := PassAtK.ReportedKValues(|seeds|);
    ReportedBudgets(ks.value, |seeds|);
    var passes, counts := None, None;
    if binary {
      counts := Some(successes);
      passes := Some(Passes(ks.value, successes, |seeds|));
    }
    r := Some(Summary(|seeds|, seeds, |items|, SeedScores(seeds, scores), Mean(scores), sqrt(Variance(scores)),
                              Least(scores), Greatest(scores), passes, counts));
    assert r.value == SummaryOf(m, seeds, binary, ks.value, sqrt);
  }

  lemma RowAppended(m: seq<seq<real>>, row: seq<real>, width: nat)
    requires Wide(m, width) && |row| == width
    ensures Wide(m + [row], width)
    ensures RowOnes(m + [row]) == RowOnes(m) + [Ones(row)]
    ensures forall j :: 0 <= j < width ==> Column(m + [row], width, j) == Column(m, width, j) + [row[j]]
  {
  }

  lemma CompleteGrows(items: seq<Item>, i: nat, seeds: seq<int>, binary: bool)
    requires i < |items| && CompleteItems(items[..i], seeds, binary) && CompleteItem(items[i], seeds, binary)
    ensures CompleteItems(items[..i + 1], seeds, binary)
  {
    forall k | 0 <= k < i + 1
      ensures CompleteItem(items[k], seeds, binary)
    {
      assert k < i ==> items[k] == items[..i][k];
    }
  }

  lemma MatrixGrows(items: seq<Item>, i: nat, seeds: seq<int>, binary: bool)
    requires i < |items| && CompleteItems(items[..i], seeds, binary) && CompleteItem(items[i], seeds, binary)
    requires CompleteItems(items[..i + 1], seeds, binary)
    ensures Matrix(items[..i + 1], seeds, binary) == Matrix(items[..i], seeds, binary) + [Row(items[i], seeds, binary)]
  {
    var m, m' := Matrix(items[..i], seeds, binary), Matrix(items[..i + 1], seeds, binary);
    forall k | 0 <= k < i
      ensures m'[k] == m[k]
    {
      assert items[..i + 1][k] == items[..i][k];
    }
    assert items[..i + 1][i] == items[i];
  }

  lemma ReportedBudgets(ks: seq<nat>, attempts: nat)
    requires PassAtK.IsReported(ks, attempts)
    ensures Budgets(ks, attempts)
  {
    forall t | 0 <= t < |ks|
      ensures 1 <= ks[t] <= attempts
    {
      assert t > 0 ==> ks[0] < ks[t];
      assert t < |ks| - 1 ==> ks[t] < ks[|ks| - 1];
    }
  }

  // ----- the stored form and its validator

  function Omissions(mode: string): seq<string> {
    if mode == "recommended" then ["temperature", "top_p", "top_k", "min_p", "repetition_penalty"] else []
  }

  /** What the scoreboard cell says about the pair the summary belongs to. */
  datatype Cell = Cell(score: Option<real>, total: nat, scored: nat, status: string)

  function Scores(entries: seq<SeedScore>): (r: seq<real>)
    ensures |r| == |entries| && forall j :: 0 <= j < |r| ==> r[j] == entries[j].score
  {
    seq(|entries|, j requires 0 <= j < |entries| => entries[j].score)
  }

  predicate AcceptedShape(s: Summary, cell: Cell) {
    && s.attempts >= 2 && s.nItems >= 1
    && |s.seeds| == s.attempts && Distinct(s.seeds)
    && |s.seedScores| == s.attempts
    && cell.score.Some? && cell.status == "completed"
    && cell.total == s.nItems && cell.scored == s.nItems
  }

  predicate AcceptedSeeds(s: Summary)
    requires |s.seedScores| == |s.seeds|
  {
    forall j :: 0 <= j < |s.seeds| ==> s.seedScores[j].seed == s.seeds[j] && 0.0 <= s.seedScores[j].score <= 1.0
  }

  predicate AcceptedMoments(s: Summary, score: real, sqrt: Sqrt)
    requires |s.seedScores| >= 2
  {
    var scores := Scores(s.seedScores);
    && s.sampleSd >= 0.0
    && 0.0 <= s.least <= s.mean <= s.greatest <= 1.0
    && s.mean == Mean(scores) && s.sampleSd == sqrt(Variance(scores))
    && s.least == Least(scores) && s.greatest == Greatest(scores)
    && score == s.mean
  }

  predicate AcceptedPass(entry: PassEntry, k: nat, successes: seq<nat>, attempts: nat)
    requires successes != [] && AtMost(successes, attempts) && 1 <= k <= attempts
  {
    entry.k == k && 0.0 <= entry.estimate <= 1.0 && entry.estimate == Mean(Estimates(successes, attempts, k))
  }

  ghost predicate AcceptedPasses(passes: seq<PassEntry>, successes: seq<nat>, attempts: nat)
    requires successes != [] && AtMost(successes, attempts)
  {
    exists ks ::
      && PassAtK.IsReported(ks, attempts) && Budgets(ks, attempts)
      && |passes| == |ks|
      && forall t :: 0 <= t < |ks| ==> AcceptedPass(passes[t], ks[t], successes, attempts)
  }

  /** `counts` are the whole numbers of items the seeds solved. */
  predicate SeedCounts(counts: seq<nat>, scores: seq<real>, nItems: nat) {
    |counts| == |scores| && forall j :: 0 <= j < |scores| ==> IsCount(counts[j], scores[j], nItems as real)
  }

  predicate IsCount(count: nat, score: real, nItems: real) {
    score * nItems == count as real
  }

  ghost predicate AcceptedMargins(s: Summary, successes: seq<nat>) {
    exists counts :: SeedCounts(counts, Scores(s.seedScores), s.nItems) && BinaryMargins.Feasible(successes, counts)
  }

  ghost predicate AcceptedOutcomes(s: Summary, binary: bool)
    requires s.nItems >= 1
  {
    if !binary then
      s.passAtK.None? && s.itemSuccesses.None?
    else
      && s.passAtK.Some? && s.itemSuccesses.Some?
      && |s.itemSuccesses.value| == s.nItems
      && AtMost(s.itemSuccesses.value, s.attempts)
      && AcceptedPasses(s.passAtK.value, s.itemSuccesses.value, s.attempts)
      && AcceptedMargins(s, s.itemSuccesses.value)
  }

  ghost predicate Accepted(v: Stored, cell: Cell, binary: bool, sqrt: Sqrt) {
    && AcceptedShape(v.summary, cell)
    && AcceptedSeeds(v.summary)
    && AcceptedMoments(v.summary, cell.score.value, sqrt)
    && AcceptedOutcomes(v.summary, binary)
    && (v.mode == "adapter" || v.mode == "recommended")
    && v.wireOmitted == Omissions(v.mode)
    && !v.attested
  }

  /** The loop over the stored pass@k entries. */
  method CheckPasses(passes: seq<PassEntry>, successes: seq<nat>, attempts: nat) returns (ok: bool)
    requires successes != [] && AtMost(successes, attempts) && attempts >= 1
    ensures ok <==> AcceptedPasses(passes, successes, attempts)
  {
    var reported := PassAtK.ReportedKValues(attempts);
    var ks := reported.value;
    ReportedBudgets(ks, attempts);
    OneBudgetList(passes, successes, attempts, ks);
    if |passes| != |ks| {
      return false;
    }
    for t := 0 to |ks|
      invariant forall u :: 0 <= u < t ==> AcceptedPass(passes[u], ks[u], successes, attempts)
    {
      if !AcceptedPass(passes[t], ks[t], successes, attempts) {
        return false;
      }
    }
    return true;
  }

  /** The loop that turns seed means back into whole counts. */
  method CountSolved(scores: seq<real>, nItems: nat) returns (r: Option<seq<nat>>)
    requires forall j :: 0 <= j < |scores| ==> 0.0 <= scores[j]
    ensures r.Some? ==> SeedCounts(r.value, scores, nItems)
    ensures r.None? ==> !exists counts :: SeedCounts(counts, scores, nItems)
  {
    CountsAreWhole(scores, nItems);
    var counts: seq<nat> := [];
    for j := 0 to |scores|
      invariant |counts| == j
      invariant forall u :: 0 <= u < j ==> IsCount(counts[u], scores[u], nItems as real)
    {
      var solved := Rounding.HalfEven(scores[j] * nItems as real);
      if scores[j] * nItems as real != solved as real {
        return None;
      }
      ProductNonNegative(scores[j], nItems as real);
      counts := counts + [solved];
    }
    return Some(counts);
  }

  /** The part of the validator that reads a binary claim. */
  method CheckOutcomes(s: Summary) returns (ok: bool)
    requires s.attempts >= 2 && s.nItems >= 1 && |s.seedScores| == s.attempts
    requires forall j :: 0 <= j < |s.seedScores| ==> 0.0 <= s.seedScores[j].score
    ensures ok <==> AcceptedOutcomes(s, true)
  {
    if s.passAtK.None? || s.itemSuccesses.None? || |s.itemSuccesses.value| != s.nItems
       || !AtMost(s.itemSuccesses.value, s.attempts) {
      return false;
    }
    ok := CheckPasses(s.passAtK.value, s.itemSuccesses.value, s.attempts);
    if !ok {
      return false;
    }
    var counts := CountSolved(Scores(s.seedScores), s.nItems);
    if counts.None? {
      return false;
    }
    OneCountList(counts.value, Scores(s.seedScores), s.nItems);
    ok := BinaryMargins.Feasible(s.itemSuccesses.value, counts.value);
  }

  predicate IsWhole(product: real) {
    product == Rounding.HalfEven(product) as real
  }

  lemma CountsAreWhole(scores: seq<real>, nItems: nat)
    ensures forall counts, j :: SeedCounts(counts, scores, nItems) && 0 <= j < |scores| ==>
              IsWhole(scores[j] * nItems as real)
  {
    forall counts, j | SeedCounts(counts, scores, nItems) && 0 <= j < |scores|
      ensures IsWhole(scores[j] * nItems as real)
    {
      assert IsCount(counts[j], scores[j], nItems as real);
      Rounding.HalfEvenOfInteger(counts[j]);
    }
  }

  lemma OneCountList(counts: seq<nat>, scores: seq<real>, nItems: nat)
    requires SeedCounts(counts, scores, nItems)
    ensures forall other :: SeedCounts(other, scores, nItems) ==> other == counts
  {
    forall other | SeedCounts(other, scores, nItems)
      ensures other == counts
    {
      forall j | 0 <= j < |scores|
        ensures other[j] == counts[j]
      {
        assert other[j] as real == counts[j] as real;
      }
    }
  }

  lemma OneBudgetList(passes: seq<PassEntry>, successes: seq<nat>, attempts: nat, ks: seq<nat>)
    requires successes != [] && AtMost(successes, attempts)
    requires PassAtK.IsReported(ks, attempts) && Budgets(ks, attempts)
    ensures AcceptedPasses(passes, successes, attempts)
       <==> |passes| == |ks| && forall t :: 0 <= t < |ks| ==> AcceptedPass(passes[t], ks[t], successes, attempts)
  {
    if AcceptedPasses(passes, successes, attempts) {
      var other :|
        && PassAtK.IsReported(other, attempts) && Budgets(other, attempts)
        && |passes| == |other|
        && forall t :: 0 <= t < |other| ==> AcceptedPass(passes[t], other[t], successes, attempts);
      PassAtK.ReportedIsUnique(ks, other, attempts);
    }
  }

  /** `_stored_sampling_sensitivity`. */
  method CheckStored(v: Stored, cell: Cell, binary: bool, sqrt: Sqrt) returns (ok: bool)
    ensures ok <==> Accepted(v, cell, binary, sqrt)
  {
    var s := v.summary;
    if !AcceptedShape(s, cell) {
      return false;
    }
    for j := 0 to |s.seeds|
      invariant forall u :: 0 <= u < j ==> s.seedScores[u].seed == s.seeds[u] && 0.0 <= s.seedScores[u].score <= 1.0
    {
      if s.seedScores[j].seed != s.seeds[j] || !(0.0 <= s.seedScores[j].score <= 1.0) {
        return false;
      }
    }
    if !AcceptedMoments(s, cell.score.value, sqrt) {
      return false;
    }
    if binary {
      ok := CheckOutcomes(s);
    } else {
      ok := s.passAtK.None? && s.itemSuccesses.None?;
    }
    ok := ok && (v.mode == "adapter" || v.mode == "recommended") && v.wireOmitted == Omissions(v.mode) && !v.attested;
  }

  // ----- producer and validator agree

  predicate Bounded(m: seq<seq<real>>) {
    forall i, j :: 0 <= i < |m| && 0 <= j < |m[i]| ==> 0.0 <= m[i][j] <= 1.0
  }

  predicate Binary(m: seq<seq<real>>) {
    forall i, j :: 0 <= i < |m| && 0 <= j < |m[i]| ==> m[i][j] == 0.0 || m[i][j] == 1.0
  }

  lemma MatrixEntries(items: seq<Item>, seeds: seq<int>, binary: bool)
    requires CompleteItems(items, seeds, binary)
    ensures Bounded(Matrix(items, seeds, binary))
    ensures binary ==> Binary(Matrix(items, seeds, binary))
  {
    var m := Matrix(items, seeds, binary);
    forall i, j | 0 <= i < |m| && 0 <= j < |m[i]|
      ensures 0.0 <= m[i][j] <= 1.0 && (binary ==> m[i][j] == 0.0 || m[i][j] == 1.0)
    {
      assert CompleteItem(items[i], seeds, binary);
      assert ScoredAttempt(items[i].attempts.value[j], j, items[i].itemId, seeds[j], binary);
    }
  }

  lemma SeedMeansInRange(m: seq<seq<real>>, width: nat)
    requires Wide(m, width) && m != [] && Bounded(m)
    ensures forall j :: 0 <= j < width ==> 0.0 <= ColumnMeans(m, width)[j] <= 1.0
  {
    forall j | 0 <= j < width
      ensures 0.0 <= ColumnMeans(m, width)[j] <= 1.0
    {
      MeanRange(Column(m, width, j), 0.0, 1.0);
    }
  }

  lemma EstimateMeanInRange(successes: seq<nat>, attempts: nat, k: nat)
    requires successes != [] && AtMost(successes, attempts) && 1 <= k <= attempts
    ensures 0.0 <= Mean(Estimates(successes, attempts, k)) <= 1.0
  {
    forall i | 0 <= i < |successes|
      ensures 0.0 <= PassAtK.Estimate(successes[i], attempts, k) <= 1.0
    {
      PassAtK.EstimateRange(successes[i], attempts, k);
    }
    MeanRange(Estimates(successes, attempts, k), 0.0, 1.0);
  }

  lemma PassesAccepted(ks: seq<nat>, successes: seq<nat>, attempts: nat)
    requires successes != [] && AtMost(successes, attempts)
    requires PassAtK.IsReported(ks, attempts) && Budgets(ks, attempts)
    ensures AcceptedPasses(Passes(ks, successes, attempts), successes, attempts)
  {
    forall t | 0 <= t < |ks|
      ensures AcceptedPass(Passes(ks, successes, attempts)[t], ks[t], successes, attempts)
    {
      EstimateMeanInRange(successes, attempts, ks[t]);
    }
  }

  // ----- the margins of a binary score matrix

  function Solved(column: seq<real>): (r: BinaryMargins.Column)
    ensures |r| == |column| && forall i :: 0 <= i < |r| ==> r[i] == (column[i] == 1.0)
  {
    if column == [] then [] else [column[0] == 1.0] + Solved(column[1..])
  }

  lemma {:induction false} SolvedCount(column: seq<real>)
    ensures BinaryMargins.Count(Solved(column)) == Ones(column)
  {
    if column != [] {
      SolvedCount(column[1..]);
      BinaryMargins.CountCons(column[0] == 1.0, Solved(column[1..]));
    }
  }

  lemma {:induction false} OnesIsSum(column: seq<real>)
    requires forall i :: 0 <= i < |column| ==> column[i] == 0.0 || column[i] == 1.0
    ensures Sum(column) == Ones(column) as real
  {
    if column != [] {
      OnesIsSum(column[1..]);
    }
  }

  /** The columns from `from` on, as outcomes. */
  function Outcomes(m: seq<seq<real>>, width: nat, from: nat): (r: seq<BinaryMargins.Column>)
    requires Wide(m, width) && from <= width
    ensures |r| == width - from && forall j :: 0 <= j < |r| ==> r[j] == Solved(Column(m, width, from + j))
  {
    seq(width - from, j requires 0 <= j < width - from => Solved(Column(m, width, from + j)))
  }

  lemma {:induction false} OutcomesRow(m: seq<seq<real>>, width: nat, from: nat, i: nat)
    requires Wide(m, width) && from <= width && i < |m|
    ensures BinaryMargins.RowCount(Outcomes(m, width, from), i) == Ones(m[i][from..])
    decreases width - from
  {
    if from < width {
      OutcomesRow(m, width, from + 1, i);
      assert m[i][from..][1..] == m[i][from + 1..];
      assert Outcomes(m, width, from)[1..] == Outcomes(m, width, from + 1);
      assert Outcomes(m, width, from)[0][i] == (m[i][from] == 1.0);
    }
  }

  function ColumnOnes(m: seq<seq<real>>, width: nat): (r: seq<nat>)
    requires Wide(m, width)
    ensures |r| == width && forall j :: 0 <= j < width ==> r[j] == Ones(Column(m, width, j))
  {
    seq(width, j requires 0 <= j < width => Ones(Column(m, width, j)))
  }

  lemma OutcomesRealize(m: seq<seq<real>>, width: nat)
    requires Wide(m, width)
    ensures BinaryMargins.Realizes(Outcomes(m, width, 0), RowOnes(m), ColumnOnes(m, width))
  {
    forall j | 0 <= j < width
      ensures BinaryMargins.Count(Outcomes(m, width, 0)[j]) == ColumnOnes(m, width)[j]
    {
      SolvedCount(Column(m, width, j));
    }
    forall i | 0 <= i < |m|
      ensures BinaryMargins.RowCount(Outcomes(m, width, 0), i) == RowOnes(m)[i]
    {
      OutcomesRow(m, width, 0, i);
      assert m[i][0..] == m[i];
    }
  }

  lemma MarginsAreFeasible(m: seq<seq<real>>, width: nat)
    requires Wide(m, width)
    ensures BinaryMargins.Feasible(RowOnes(m), ColumnOnes(m, width))
  {
    OutcomesRealize(m, width);
    BinaryMargins.FeasibleIffRealizable(RowOnes(m), ColumnOnes(m, width));
  }

  lemma MeanCountsOnes(column: seq<real>, n: real)
    requires column != [] && n == |column| as real
    requires forall i :: 0 <= i < |column| ==> column[i] == 0.0 || column[i] == 1.0
    ensures IsCount(Ones(column), Mean(column), n)
  {
    OnesIsSum(column);
    MeanTimes(column, n);
  }

  lemma ColumnCounts(m: seq<seq<real>>, width: nat)
    requires Wide(m, width) && m != [] && Binary(m)
    ensures SeedCounts(ColumnOnes(m, width), ColumnMeans(m, width), |m|)
  {
    forall j | 0 <= j < width
      ensures IsCount(ColumnOnes(m, width)[j], ColumnMeans(m, width)[j], |m| as real)
    {
      MeanCountsOnes(Column(m, width, j), |m| as real);
    }
  }

  // ----- the theorem

  function ItemScores(items: seq<Item>, seeds: seq<int>, binary: bool): (r: seq<real>)
    requires CompleteItems(items, seeds, binary)
    ensures |r| == |items| && forall i :: 0 <= i < |r| ==> r[i] == items[i].score.value
  {
    seq(|items|, i requires 0 <= i < |items| => assert CompleteItem(items[i], seeds, binary); items[i].score.value)
  }

  lemma PairScoreIsSeedMean(items: seq<Item>, seeds: seq<int>, binary: bool)
    requires CompleteItems(items, seeds, binary) && items != [] && seeds != []
    ensures Mean(ItemScores(items, seeds, binary)) == Mean(ColumnMeans(Matrix(items, seeds, binary), |seeds|))
  {
    var m := Matrix(items, seeds, binary);
    forall i | 0 <= i < |items|
      ensures ItemScores(items, seeds, binary)[i] == RowMeans(m, |seeds|)[i]
    {
      assert CompleteItem(items[i], seeds, binary);
    }
    assert ItemScores(items, seeds, binary) == RowMeans(m, |seeds|);
    MeansExchange(m, |seeds|);
  }

  lemma MomentsAccepted(s: Summary, scores: seq<real>, sqrt: Sqrt)
    requires IsSqrt(sqrt) && |scores| == |s.seeds| >= 2
    requires forall j :: 0 <= j < |scores| ==> 0.0 <= scores[j] <= 1.0
    requires s.seedScores == SeedScores(s.seeds, scores)
    requires s.mean == Mean(scores) && s.sampleSd == sqrt(Variance(scores))
    requires s.least == Least(scores) && s.greatest == Greatest(scores)
    ensures AcceptedSeeds(s) && AcceptedMoments(s, Mean(scores), sqrt)
  {
    assert Scores(s.seedScores) == scores;
    MeanBetween(scores);
  }

  lemma MarginsAccepted(s: Summary, m: seq<seq<real>>)
    requires m != [] && Wide(m, |s.seeds|) && Binary(m)
    requires s.nItems == |m| && s.seedScores == SeedScores(s.seeds, ColumnMeans(m, |s.seeds|))
    ensures AcceptedMargins(s, RowOnes(m))
  {
    ColumnCounts(m, |s.seeds|);
    MarginsAreFeasible(m, |s.seeds|);
    assert Scores(s.seedScores) == ColumnMeans(m, |s.seeds|);
  }

  lemma OutcomesAccepted(s: Summary, m: seq<seq<real>>, ks: seq<nat>)
    requires m != [] && Wide(m, |s.seeds|) && Binary(m)
    requires PassAtK.IsReported(ks, |s.seeds|) && Budgets(ks, |s.seeds|)
    requires s.attempts == |s.seeds| && s.nItems == |m|
    requires s.seedScores == SeedScores(s.seeds, ColumnMeans(m, |s.seeds|))
    requires s.itemSuccesses == Some(RowOnes(m))
    requires s.passAtK == Some(Passes(ks, RowOnes(m), |s.seeds|))
    ensures AcceptedOutcomes(s, true)
  {
    PassesAccepted(ks, RowOnes(m), |s.seeds|);
    MarginsAccepted(s, m);
  }

  lemma MatrixAccepted(m: seq<seq<real>>, seeds: seq<int>, binary: bool, ks: seq<nat>, sqrt: Sqrt)
    requires IsSqrt(sqrt) && |seeds| >= 2 && m != [] && Wide(m, |seeds|) && Bounded(m) && (binary ==> Binary(m))
    requires PassAtK.IsReported(ks, |seeds|) && Budgets(ks, |seeds|)
    ensures var s, score := SummaryOf(m, seeds, binary, ks, sqrt), Mean(ColumnMeans(m, |seeds|));
            AcceptedSeeds(s) && AcceptedMoments(s, score, sqrt) && AcceptedOutcomes(s, binary)
  {
    var s := SummaryOf(m, seeds, binary, ks, sqrt);
    SeedMeansInRange(m, |seeds|);
    MomentsAccepted(s, ColumnMeans(m, |seeds|), sqrt);
    if binary {
      OutcomesAccepted(s, m, ks);
    }
  }

  /** Every summary the producer returns is accepted in its stored form, beside a cell that carries the
      mean of the item scores. */
  lemma SummaryAccepted(items: seq<Item>, seeds: seq<int>, binary: bool, sqrt: Sqrt, s: Summary, mode: string)
    requires IsSqrt(sqrt) && Complete(items, seeds, binary) && IsSummary(s, items, seeds, binary, sqrt)
    requires mode == "adapter" || mode == "recommended"
    ensures Accepted(Stored(s, mode, Omissions(mode), false),
                     Cell(Some(Mean(ItemScores(items, seeds, binary))), |items|, |items|, "completed"),
                     binary, sqrt)
  {
    var m := Matrix(items, seeds, binary);
    var ks :|
      && PassAtK.IsReported(ks, |seeds|) && Budgets(ks, |seeds|)
      && s == SummaryOf(m, seeds, binary, ks, sqrt);
    MatrixEntries(items, seeds, binary);
    PairScoreIsSeedMean(items, seeds, binary);
    MatrixAccepted(m, seeds, binary, ks, sqrt);
  }

  /** A parent combined from a complete sweep over the seed schedule is what the summary asks for, of binary
      scores exactly when all of them are 0 or 1. */
  lemma CombinedIsComplete(itemId: string, attempts: seq<Attempt>, seeds: seq<int>, binary: bool)
    requires ValidAttempts(attempts) && AllScored(attempts) && ValidSeeds(seeds)
    requires |attempts| == |seeds| && Aligned(itemId, attempts)
    requires forall j :: 0 <= j < |seeds| ==> attempts[j].seed == seeds[j]
    ensures CombineAttempts(itemId, attempts).Some?
    ensures CompleteItem(CombineAttempts(itemId, attempts).value, seeds, binary)
       <==> (binary ==> forall j :: 0 <= j < |attempts| ==> IsBinary(attempts[j].result.score.value))
  {
    CombineMeetsValidator(itemId, attempts);
    var item := Combined(itemId, attempts);
    forall j | 0 <= j < |seeds|
      ensures ScoredAttempt(attempts[j], j, itemId, seeds[j], binary)
              <==> (binary ==> IsBinary(attempts[j].result.score.value))
    {
      assert ValidOutcome(attempts[j].result);
    }
    if Retained(item, seeds, binary) {
      assert Row(item, seeds, binary)
          == seq(|attempts|, i requires 0 <= i < |attempts| => attempts[i].result.score.value);
      assert forall j :: 0 <= j < |attempts| ==> ScoredAttempt(attempts[j], j, itemId, seeds[j], binary);
    }
  }
}
