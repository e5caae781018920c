/**
 The paired percentile bootstrap.

 Scores are exact reals and the digests are parameters.  The methods follow the source: pair, sort by
 item id, seed a generator, resample, sort and read off reflected ranks.  They are proved equal to
 `Report`, and the laws the report promises (reversal of the arms, independence of evidence order,
 nesting of the two intervals) are proved about `Report` for all inputs.
 */
module Bootstrap {
  import opened Options
  import opened Sorting
  import opened SplitMix64
  import opened Utf8
  import Averages

  const RESAMPLES: nat := 20_000

  /** SHA-256 based digests of canonical payloads: of the sorted item ids, of the seed payload (the two
      pair digests in ascending order and the id digest), and the integer value of a digest. */
  datatype Digests = Digests(
    itemIds: seq<Chars> -> string,
    seed: (string, string, string) -> string,
    number: string -> nat)

  datatype Entry = Entry(id: Chars, baseline: real, candidate: real)

  datatype Interval = Interval(lower: real, upper: real)

  datatype Summary = Summary(
    nPairs: nat,
    delta: real,
    twoSided: Interval,
    oneSided: Interval,
    seedSha256: string,
    itemIdsSha256: string)

  datatype Rejection = NoItems | LengthMismatch | EmptyId | DuplicateId | MalformedDigest | ScoreOutOfRange
                       | Unencodable | TooManyItems

  datatype Result = Ok(summary: Summary) | Rejected(reason: Rejection)

  predicate IsSha256(s: string) {
    |s| == 64 && forall i :: 0 <= i < |s| ==> '0' <= s[i] <= '9' || 'a' <= s[i] <= 'f'
  }

  predicate IsScore(x: real) {
    0.0 <= x <= 1.0
  }

  // ----- ordering

  predicate IdLeq(x: Entry, y: Entry) {
    CharsLeq(x.id, y.id)
  }

  predicate RealLeq(x: real, y: real) {
    x <= y
  }

  lemma IdLeqIsTotal()
    ensures TotalPreorder(IdLeq)
  {
    forall x, y
      ensures IdLeq(x, y) || IdLeq(y, x)
    {
      CharsBelowTrichotomy(x.id, y.id);
    }
    forall x, y, z | IdLeq(x, y) && IdLeq(y, z)
      ensures IdLeq(x, z)
    {
      CharsLeqTransitive(x.id, y.id, z.id);
    }
  }

  lemma RealLeqIsTotal()
    ensures TotalPreorder(RealLeq)
  {
  }

  // ----- resampling

  function Mean(total: real, count: nat): real
    requires count > 0
  {
    total / count as real
  }

  lemma MeanNegated(total: real, count: nat)
    requires count > 0
    ensures Mean(-total, count) == -Mean(total, count)
  {
    var n := count as real;
    assert (-total) / n * n == -total && total / n * n == total;
  }

  ghost function StateAfter(state: nat, bound: nat, n: nat): nat
    requires ValidBound(bound)
  {
    if n == 0 then state else RandState(StateAfter(state, bound, n - 1), bound)
  }

  /** The indices of `n` successive draws. */
  ghost function Indices(count: nat, state: nat, n: nat): (p: seq<nat>)
    requires ValidBound(count)
    ensures |p| == n && InRange(p, count)
  {
    if n == 0 then []
    else Indices(count, state, n - 1) + [RandValue(StateAfter(state, count, n - 1), count)]
  }

  predicate InRange(p: seq<nat>, count: nat) {
    forall i :: 0 <= i < |p| ==> p[i] < count
  }

  /** The state in which resample number `m` starts. */
  ghost function SampleState(count: nat, state: nat, m: nat): nat
    requires ValidBound(count)
  {
    if m == 0 then state else StateAfter(SampleState(count, state, m - 1), count, count)
  }

  /** The indices of `m` resamples, each of as many draws as there are items. */
  ghost function Resamples(count: nat, state: nat, m: nat): (r: seq<seq<nat>>)
    requires ValidBound(count)
    ensures |r| == m && forall j :: 0 <= j < m ==> InRange(r[j], count)
  {
    if m == 0 then []
    else Resamples(count, state, m - 1) + [Indices(count, SampleState(count, state, m - 1), count)]
  }

  function Picks(values: seq<real>, indices: seq<nat>): (p: seq<real>)
    requires InRange(indices, |values|)
    ensures |p| == |indices|
  {
    seq(|indices|, i requires 0 <= i < |indices| => values[indices[i]])
  }

  function Means(values: seq<real>, resamples: seq<seq<nat>>): (s: seq<real>)
    requires values != [] && forall j :: 0 <= j < |resamples| ==> InRange(resamples[j], |values|)
    ensures |s| == |resamples|
  {
    seq(|resamples|, j requires 0 <= j < |resamples| => Mean(Averages.Sum(Picks(values, resamples[j])), |values|))
  }

  // ----- ranks

  lemma QuotientBound(x: nat, d: nat, n: nat)
    requires d <= x < d * (n + 1)
    ensures 1 <= x / d <= n
  {
    assert x == d * (x / d) + x % d;
    var q := x / d;
    assert q >= n + 1 ==> d * q >= d * (n + 1);
  }

  /** The rank of the lower nearest-rank quantile numerator / denominator. */
  function Rank(numerator: nat, denominator: nat, n: nat): (r: nat)
    requires 0 < numerator < denominator && n > 0
    ensures 1 <= r <= n
  {
    assert 1 <= numerator * n <= denominator * n;
    QuotientBound(numerator * n + denominator - 1, denominator, n);
    (numerator * n + denominator - 1) / denominator
  }

  /** The order statistic at the rank, and the one at the reflected rank. */
  function RankInterval(sorted: seq<real>, numerator: nat, denominator: nat): Interval
    requires 0 < numerator < denominator && sorted != []
  {
    var rank := Rank(numerator, denominator, |sorted|);
    Interval(sorted[rank - 1], sorted[|sorted| - rank])
  }

  // ----- the report

  function Ids(entries: seq<Entry>): seq<Chars> {
    seq(|entries|, i requires 0 <= i < |entries| => entries[i].id)
  }

  /** Candidate minus baseline, item by item. */
  function Differences(entries: seq<Entry>): seq<real> {
    seq(|entries|, i requires 0 <= i < |entries| => entries[i].candidate - entries[i].baseline)
  }

  function Seed(h: Digests, baselineSha: string, candidateSha: string, ids: seq<Chars>): string {
    var lo := if StringLeq(baselineSha, candidateSha) then baselineSha else candidateSha;
    var hi := if StringLeq(baselineSha, candidateSha) then candidateSha else baselineSha;
    h.seed(lo, hi, h.itemIds(ids))
  }

  /** Everything that depends on the sorted evidence, its seed and the resampled indices. */
  function SummaryOf(h: Digests, paired: seq<Entry>, seed: string, resamples: seq<seq<nat>>): Summary
    requires paired != [] && resamples != []
    requires forall j :: 0 <= j < |resamples| ==> InRange(resamples[j], |paired|)
  {
    var differences := Differences(paired);
    var samples := SortBy(RealLeq, Means(differences, resamples));
    SortRealsKeepsLength(Means(differences, resamples));
    Summary(|paired|, Mean(Averages.Sum(differences), |paired|),
            RankInterval(samples, 1, 40), RankInterval(samples, 1, 20),
            seed, h.itemIds(Ids(paired)))
  }

  ghost function Summarize(h: Digests, entries: seq<Entry>, baselineSha: string, candidateSha: string): Summary
    requires ValidBound(|entries|)
  {
    var paired := SortBy(IdLeq, entries);
    SortIdsKeepsLength(entries);
    var seed := Seed(h, baselineSha, candidateSha, Ids(paired));
    SummaryOf(h, paired, seed, Resamples(|paired|, Mask(h.number(seed)), RESAMPLES))
  }

  lemma SortIdsKeepsLength(entries: seq<Entry>)
    ensures |SortBy(IdLeq, entries)| == |entries|
  {
    IdLeqIsTotal();
    SortBySorts(IdLeq, entries);
  }

  lemma SortRealsKeepsLength(s: seq<real>)
    ensures |SortBy(RealLeq, s)| == |s|
  {
    RealLeqIsTotal();
    SortBySorts(RealLeq, s);
  }

  function IdSet(ids: seq<Chars>): set<Chars> {
    set id | id in ids
  }

  function Zip(baseline: seq<real>, candidate: seq<real>, ids: seq<Chars>): (entries: seq<Entry>)
    requires |baseline| == |candidate| == |ids|
    ensures |entries| == |ids|
  {
    seq(|ids|, i requires 0 <= i < |ids| => Entry(ids[i], baseline[i], candidate[i]))
  }

  /** The ids can be digested. */
  predicate AllEncodable(ids: set<Chars>) {
    forall id :: id in ids ==> Encodable(id)
  }

  /** The checks in the order of the source, which raises on the first that fails; the digest refuses ids
      without an encoding, the generator bounds above 2^64. */
  function Check(baseline: seq<real>, candidate: seq<real>, ids: seq<Chars>, baselineSha: string, candidateSha: string)
    : (r: Option<Rejection>)
  {
    if baseline == [] then Some(NoItems)
    else if |baseline| != |candidate| || |baseline| != |ids| then Some(LengthMismatch)
    else if [] in ids then Some(EmptyId)
    else if |ids| != |IdSet(ids)| then Some(DuplicateId)
    else if !IsSha256(baselineSha) || !IsSha256(candidateSha) then Some(MalformedDigest)
    else if exists i :: 0 <= i < |ids| && !(IsScore(baseline[i]) && IsScore(candidate[i])) then Some(ScoreOutOfRange)
    else if !AllEncodable(IdSet(ids)) then Some(Unencodable)
    else if |ids| > RANGE then Some(TooManyItems)
    else None
  }

  /** What `paired_bounded_bootstrap` returns or raises. */
  ghost function Report(h: Digests, baseline: seq<real>, candidate: seq<real>, ids: seq<Chars>,
                        baselineSha: string, candidateSha: string): Result
  {
    var problem := Check(baseline, candidate, ids, baselineSha, candidateSha);
    if problem.Some? then Rejected(problem.value)
    else Ok(Summarize(h, Zip(baseline, candidate, ids), baselineSha, candidateSha))
  }

  // ----- reversing the arms

  function Negated(s: seq<real>): (r: seq<real>)
    ensures |r| == |s|
  {
    seq(|s|, i requires 0 <= i < |s| => -s[i])
  }

  /** Negated and read backwards: what negation does to a sorted sequence. */
  function Mirrored(s: seq<real>): (r: seq<real>)
    ensures |r| == |s|
  {
    seq(|s|, i requires 0 <= i < |s| => -s[|s| - 1 - i])
  }

  function MirroredInterval(i: Interval): Interval {
    Interval(-i.upper, -i.lower)
  }

  function Reversed(s: Summary): Summary {
    s.(delta := -s.delta, twoSided := MirroredInterval(s.twoSided), oneSided := MirroredInterval(s.oneSided))
  }

  lemma {:induction false} SumNegated(s: seq<real>)
    ensures Averages.Sum(Negated(s)) == -Averages.Sum(s)
  {
    if s != [] {
      SumNegated(s[1..]);
      assert Negated(s)[1..] == Negated(s[1..]);
    }
  }

  lemma MeansNegated(values: seq<real>, resamples: seq<seq<nat>>)
    requires values != [] && forall j :: 0 <= j < |resamples| ==> InRange(resamples[j], |values|)
    ensures Means(Negated(values), resamples) == Negated(Means(values, resamples))
  {
    forall j | 0 <= j < |resamples|
      ensures Means(Negated(values), resamples)[j] == -Means(values, resamples)[j]
    {
      assert Picks(Negated(values), resamples[j]) == Negated(Picks(values, resamples[j]));
      SumNegated(Picks(values, resamples[j]));
      MeanNegated(Averages.Sum(Picks(values, resamples[j])), |values|);
    }
  }

  lemma {:induction false} CountNegated(s: seq<real>, x: real)
    ensures multiset(Negated(s))[x] == multiset(s)[-x]
  {
    if s != [] {
      var front := s[..|s| - 1];
      CountNegated(front, x);
      assert s == front + [s[|s| - 1]];
      assert Negated(s) == Negated(front) + [-s[|s| - 1]];
    }
  }

  lemma {:induction false} CountMirrored(s: seq<real>, x: real)
    ensures multiset(Mirrored(s))[x] == multiset(s)[-x]
  {
    if s != [] {
      var front := s[..|s| - 1];
      CountMirrored(front, x);
      assert s == front + [s[|s| - 1]];
      assert Mirrored(s) == [-s[|s| - 1]] + Mirrored(front);
    }
  }

  lemma SortNegated(s: seq<real>)
    ensures SortBy(RealLeq, Negated(s)) == Mirrored(SortBy(RealLeq, s))
  {
    RealLeqIsTotal();
    SortBySorts(RealLeq, s);
    SortBySorts(RealLeq, Negated(s));
    var a, b := SortBy(RealLeq, Negated(s)), Mirrored(SortBy(RealLeq, s));
    forall x
      ensures multiset(a)[x] == multiset(b)[x]
    {
      CountNegated(s, x);
      CountMirrored(SortBy(RealLeq, s), x);
    }
    assert multiset(a) == multiset(b);
    assert SortedBy(RealLeq, b);
    SortedIsUnique(RealLeq, a, b);
  }

  lemma RankIntervalMirrored(sorted: seq<real>, numerator: nat, denominator: nat)
    requires 0 < numerator < denominator && sorted != []
    ensures RankInterval(Mirrored(sorted), numerator, denominator)
         == MirroredInterval(RankInterval(sorted, numerator, denominator))
  {
  }

  function SwapArms(e: Entry): Entry {
    Entry(e.id, e.candidate, e.baseline)
  }

  function SwapAll(s: seq<Entry>): (r: seq<Entry>)
    ensures |r| == |s|
  {
    seq(|s|, i requires 0 <= i < |s| => SwapArms(s[i]))
  }

  lemma {:induction false} InsertSwapped(x: Entry, s: seq<Entry>)
    ensures InsertBy(IdLeq, SwapArms(x), SwapAll(s)) == SwapAll(InsertBy(IdLeq, x, s))
  {
    if s == [] || IdLeq(x, s[0]) {
      assert SwapAll([x] + s) == [SwapArms(x)] + SwapAll(s);
    } else {
      InsertSwapped(x, s[1..]);
      assert SwapAll(s)[1..] == SwapAll(s[1..]);
      assert SwapAll([s[0]] + InsertBy(IdLeq, x, s[1..])) == [SwapArms(s[0])] + SwapAll(InsertBy(IdLeq, x, s[1..]));
    }
  }

  lemma {:induction false} SortSwapped(s: seq<Entry>)
    ensures SortBy(IdLeq, SwapAll(s)) == SwapAll(SortBy(IdLeq, s))
  {
    if s != [] {
      SortSwapped(s[1..]);
      assert SwapAll(s)[1..] == SwapAll(s[1..]);
      InsertSwapped(s[0], SortBy(IdLeq, s[1..]));
    }
  }

  lemma SeedSymmetric(h: Digests, a: string, b: string, ids: seq<Chars>)
    ensures Seed(h, a, b, ids) == Seed(h, b, a, ids)
  {
    StringBelowTrichotomy(a, b);
  }

  lemma SummaryReversed(h: Digests, paired: seq<Entry>, seed: string, resamples: seq<seq<nat>>)
    requires paired != [] && resamples != []
    requires forall j :: 0 <= j < |resamples| ==> InRange(resamples[j], |paired|)
    ensures SummaryOf(h, SwapAll(paired), seed, resamples) == Reversed(SummaryOf(h, paired, seed, resamples))
  {
    var differences := Differences(paired);
    assert Ids(SwapAll(paired)) == Ids(paired);
    assert Differences(SwapAll(paired)) == Negated(differences);
    var means := Means(differences, resamples);
    MeansNegated(differences, resamples);
    SortNegated(means);
    SumNegated(differences);
    MeanNegated(Averages.Sum(differences), |paired|);
    SortRealsKeepsLength(means);
    RankIntervalMirrored(SortBy(RealLeq, means), 1, 40);
    RankIntervalMirrored(SortBy(RealLeq, means), 1, 20);
  }

  lemma SummarizeReversed(h: Digests, entries: seq<Entry>, baselineSha: string, candidateSha: string)
    requires ValidBound(|entries|)
    ensures Summarize(h, SwapAll(entries), candidateSha, baselineSha)
         == Reversed(Summarize(h, entries, baselineSha, candidateSha))
  {
    var paired := SortBy(IdLeq, entries);
    SortIdsKeepsLength(entries);
    SortSwapped(entries);
    assert Ids(SwapAll(paired)) == Ids(paired);
    SeedSymmetric(h, baselineSha, candidateSha, Ids(paired));
    var seed := Seed(h, baselineSha, candidateSha, Ids(paired));
    SummaryReversed(h, paired, seed, Resamples(|paired|, Mask(h.number(seed)), RESAMPLES));
  }

  lemma CheckIsSymmetric(baseline: seq<real>, candidate: seq<real>, ids: seq<Chars>, baselineSha: string,
                         candidateSha: string)
    ensures var there := Check(baseline, candidate, ids, baselineSha, candidateSha);
            var back := Check(candidate, baseline, ids, candidateSha, baselineSha);
            if baseline == [] <==> candidate == [] then there == back else there.Some? && back.Some?
  {
  }

  function ReversedReport(r: Result): Result {
    if r.Ok? then Ok(Reversed(r.summary)) else r
  }

  /** Exchanging baseline and candidate gives exactly the negated delta and the negated, exchanged
      interval ends; refusals are the same, but for the reason when exactly one arm is empty. */
  lemma ArmReversal(h: Digests, baseline: seq<real>, candidate: seq<real>, ids: seq<Chars>,
                    baselineSha: string, candidateSha: string)
    ensures var there := Report(h, baseline, candidate, ids, baselineSha, candidateSha);
            var back := Report(h, candidate, baseline, ids, candidateSha, baselineSha);
            if baseline == [] <==> candidate == [] then back == ReversedReport(there)
            else there.Rejected? && back.Rejected?
  {
    CheckIsSymmetric(baseline, candidate, ids, baselineSha, candidateSha);
    if Check(baseline, candidate, ids, baselineSha, candidateSha).None? {
      AcceptedReversal(h, baseline, candidate, ids, baselineSha, candidateSha);
    } else {
      Refusal(h, baseline, candidate, ids, baselineSha, candidateSha);
      Refusal(h, candidate, baseline, ids, candidateSha, baselineSha);
    }
  }

  lemma Refusal(h: Digests, baseline: seq<real>, candidate: seq<real>, ids: seq<Chars>, baselineSha: string,
                candidateSha: string)
    requires Check(baseline, candidate, ids, baselineSha, candidateSha).Some?
    ensures Report(h, baseline, candidate, ids, baselineSha, candidateSha)
         == Rejected(Check(baseline, candidate, ids, baselineSha, candidateSha).value)
  {
  }

  lemma AcceptedReversal(h: Digests, baseline: seq<real>, candidate: seq<real>, ids: seq<Chars>,
                         baselineSha: string, candidateSha: string)
    requires Check(baseline, candidate, ids, baselineSha, candidateSha).None?
    requires Check(candidate, baseline, ids, candidateSha, baselineSha).None?
    ensures Report(h, candidate, baseline, ids, candidateSha, baselineSha)
         == ReversedReport(Report(h, baseline, candidate, ids, baselineSha, candidateSha))
  {
    ZipSwapped(baseline, candidate, ids);
    SummarizeReversed(h, Zip(baseline, candidate, ids), baselineSha, candidateSha);
  }

  lemma ZipSwapped(baseline: seq<real>, candidate: seq<real>, ids: seq<Chars>)
    requires |baseline| == |candidate| == |ids|
    ensures Zip(candidate, baseline, ids) == SwapAll(Zip(baseline, candidate, ids))
  {
  }

  // ----- the order of the evidence is immaterial

  lemma {:induction false} DistinctIds(ids: seq<Chars>)
    ensures |IdSet(ids)| <= |ids|
    ensures |IdSet(ids)| == |ids| ==> forall i, j :: 0 <= i < j < |ids| ==> ids[i] != ids[j]
  {
    if ids != [] {
      var front, last := ids[..|ids| - 1], ids[|ids| - 1];
      DistinctIds(front);
      assert ids == front + [last];
      assert IdSet(ids) == IdSet(front) + {last};
    }
  }

  predicate BadScore(e: Entry) {
    !(IsScore(e.baseline) && IsScore(e.candidate))
  }

  function EntryIds(entries: multiset<Entry>): set<Chars> {
    set e | e in entries :: e.id
  }

  /** The checks, seen from the multiset of entries. */
  lemma CheckByEntries(baseline: seq<real>, candidate: seq<real>, ids: seq<Chars>)
    requires |baseline| == |candidate| == |ids|
    ensures var all := multiset(Zip(baseline, candidate, ids));
            && |all| == |ids| && IdSet(ids) == EntryIds(all)
            && ((exists i :: 0 <= i < |ids| && !(IsScore(baseline[i]) && IsScore(candidate[i])))
                <==> exists e :: e in all && BadScore(e))
  {
    var entries := Zip(baseline, candidate, ids);
    var all := multiset(entries);
    forall id | id in ids
      ensures id in EntryIds(all)
    {
      var i :| 0 <= i < |ids| && ids[i] == id;
      assert entries[i] in all;
    }
    forall id | id in EntryIds(all)
      ensures id in ids
    {
      var e :| e in all && e.id == id;
      var i :| 0 <= i < |entries| && entries[i] == e;
    }
    if i :| 0 <= i < |ids| && !(IsScore(baseline[i]) && IsScore(candidate[i])) {
      assert entries[i] in all && BadScore(entries[i]);
    }
    if e :| e in all && BadScore(e) {
      var i :| 0 <= i < |entries| && entries[i] == e;
    }
  }

  lemma UniqueIdsMakeOrderStrict(entries: seq<Entry>, ids: seq<Chars>)
    requires |entries| == |ids| && forall i :: 0 <= i < |ids| ==> entries[i].id == ids[i]
    requires |IdSet(ids)| == |ids|
    ensures Antisymmetric(IdLeq, multiset(entries))
  {
    DistinctIds(ids);
    forall x, y | x in multiset(entries) && y in multiset(entries) && IdLeq(x, y) && IdLeq(y, x)
      ensures x == y
    {
      CharsBelowTrichotomy(x.id, y.id);
      var i :| 0 <= i < |entries| && entries[i] == x;
      var j :| 0 <= j < |entries| && entries[j] == y;
    }
  }

  lemma CheckPermuted(baseline: seq<real>, candidate: seq<real>, ids: seq<Chars>,
                      baseline': seq<real>, candidate': seq<real>, ids': seq<Chars>,
                      baselineSha: string, candidateSha: string)
    requires |baseline| == |candidate| == |ids| && |baseline'| == |candidate'| == |ids'|
    requires multiset(Zip(baseline, candidate, ids)) == multiset(Zip(baseline', candidate', ids'))
    ensures Check(baseline, candidate, ids, baselineSha, candidateSha)
         == Check(baseline', candidate', ids', baselineSha, candidateSha)
  {
    CheckByEntries(baseline, candidate, ids);
    CheckByEntries(baseline', candidate', ids');
    assert ([] in ids) == ([] in IdSet(ids)) && ([] in ids') == ([] in IdSet(ids'));
  }

  /** Listing the same paired evidence in another order changes nothing, refusals included. */
  lemma EvidenceOrderIsImmaterial(h: Digests, baseline: seq<real>, candidate: seq<real>, ids: seq<Chars>,
                                  baseline': seq<real>, candidate': seq<real>, ids': seq<Chars>,
                                  baselineSha: string, candidateSha: string)
    requires |baseline| == |candidate| == |ids| && |baseline'| == |candidate'| == |ids'|
    requires multiset(Zip(baseline, candidate, ids)) == multiset(Zip(baseline', candidate', ids'))
    ensures Report(h, baseline, candidate, ids, baselineSha, candidateSha)
         == Report(h, baseline', candidate', ids', baselineSha, candidateSha)
  {
    var entries, entries' := Zip(baseline, candidate, ids), Zip(baseline', candidate', ids');
    CheckPermuted(baseline, candidate, ids, baseline', candidate', ids', baselineSha, candidateSha);
    if Check(baseline, candidate, ids, baselineSha, candidateSha).None? {
      IdLeqIsTotal();
      SortBySorts(IdLeq, entries);
      SortBySorts(IdLeq, entries');
      UniqueIdsMakeOrderStrict(entries, ids);
      SortedIsUnique(IdLeq, SortBy(IdLeq, entries), SortBy(IdLeq, entries'));
    }
  }

  // ----- what the numbers say about the arguments

  lemma SumWithout(s: seq<real>, k: nat)
    requires k < |s|
    ensures Averages.Sum(s) == s[k] + Averages.Sum(s[..k] + s[k + 1..])
  {
    TakenApart(s, k);
    SumBetween(s[..k], s[k], s[k + 1..]);
  }

  lemma TakenApart(s: seq<real>, k: nat)
    requires k < |s|
    ensures s == s[..k] + ([s[k]] + s[k + 1..])
  {
  }

  lemma SumBetween(front: seq<real>, x: real, back: seq<real>)
    ensures Averages.Sum(front + ([x] + back)) == x + Averages.Sum(front + back)
  {
    Averages.SumAppend(front, [x] + back);
    assert ([x] + back)[1..] == back;
    Averages.SumAppend(front, back);
  }

  lemma {:induction false} SumPermuted(a: seq<real>, b: seq<real>)
    requires multiset(a) == multiset(b)
    ensures Averages.Sum(a) == Averages.Sum(b)
    decreases |a|
  {
    if a == [] {
      SameMultisetSameLength(a, b);
    } else {
      var k := Matched(a, b);
      SumPermuted(a[..0] + a[1..], b[..k] + b[k + 1..]);
      SumWithout(a, 0);
      SumWithout(b, k);
    }
  }

  function GainOf(e: Entry): real {
    e.candidate - e.baseline
  }

  lemma DifferencesPermuted(a: seq<Entry>, b: seq<Entry>)
    requires multiset(a) == multiset(b)
    ensures multiset(Differences(a)) == multiset(Differences(b))
  {
    MapPermuted(GainOf, a, b);
    DifferencesAreGains(a);
    DifferencesAreGains(b);
  }

  lemma DifferencesAreGains(a: seq<Entry>)
    ensures Differences(a) == Map(GainOf, a)
  {
  }

  /** Candidate minus baseline of the arguments, item by item. */
  function Gains(baseline: seq<real>, candidate: seq<real>): seq<real>
    requires |baseline| == |candidate|
  {
    Averages.Minus(candidate, baseline)
  }

  lemma SortedGains(baseline: seq<real>, candidate: seq<real>, ids: seq<Chars>)
    requires |baseline| == |candidate| == |ids|
    ensures multiset(Differences(SortBy(IdLeq, Zip(baseline, candidate, ids)))) == multiset(Gains(baseline, candidate))
  {
    var entries := Zip(baseline, candidate, ids);
    IdLeqIsTotal();
    SortBySorts(IdLeq, entries);
    DifferencesPermuted(SortBy(IdLeq, entries), entries);
    assert Differences(entries) == Gains(baseline, candidate);
  }

  predicate Within(s: seq<real>, low: real, high: real) {
    forall i :: 0 <= i < |s| ==> low <= s[i] <= high
  }

  predicate IntervalWithin(interval: Interval, low: real, high: real) {
    low <= interval.lower <= high && low <= interval.upper <= high
  }

  lemma WithinPermuted(a: seq<real>, b: seq<real>, low: real, high: real)
    requires multiset(a) == multiset(b) && Within(b, low, high)
    ensures Within(a, low, high)
  {
    forall i | 0 <= i < |a|
      ensures low <= a[i] <= high
    {
      assert a[i] in multiset(b);
    }
  }

  lemma MeansWithin(values: seq<real>, resamples: seq<seq<nat>>, low: real, high: real)
    requires values != [] && Within(values, low, high)
    requires Full(resamples, |values|)
    ensures Within(Means(values, resamples), low, high)
  {
    forall j | 0 <= j < |resamples|
      ensures low <= Means(values, resamples)[j] <= high
    {
      var picks := Picks(values, resamples[j]);
      assert Within(picks, low, high);
      Averages.MeanRange(picks, low, high);
    }
  }

  lemma RanksWithin(means: seq<real>, low: real, high: real)
    requires means != [] && Within(means, low, high)
    ensures |SortBy(RealLeq, means)| == |means|
    ensures IntervalWithin(RankInterval(SortBy(RealLeq, means), 1, 40), low, high)
    ensures IntervalWithin(RankInterval(SortBy(RealLeq, means), 1, 20), low, high)
  {
    RealLeqIsTotal();
    SortBySorts(RealLeq, means);
    WithinPermuted(SortBy(RealLeq, means), means, low, high);
  }

  /** Every resample draws as many items as there are. */
  predicate Full(resamples: seq<seq<nat>>, count: nat) {
    forall j :: 0 <= j < |resamples| ==> InRange(resamples[j], count) && |resamples[j]| == count
  }

  lemma {:induction false} ResamplesAreFull(count: nat, state: nat, m: nat)
    requires ValidBound(count)
    ensures Full(Resamples(count, state, m), count)
  {
    if m > 0 {
      ResamplesAreFull(count, state, m - 1);
    }
  }

  /** The numbers of a summary of these differences. */
  lemma SummaryNumbers(h: Digests, paired: seq<Entry>, seed: string, resamples: seq<seq<nat>>, low: real, high: real)
    requires paired != [] && resamples != [] && Within(Differences(paired), low, high)
    requires Full(resamples, |paired|)
    ensures var r := SummaryOf(h, paired, seed, resamples);
            && r.nPairs == |paired| && r.delta == Mean(Averages.Sum(Differences(paired)), |paired|)
            && low <= r.delta <= high && IntervalWithin(r.twoSided, low, high) && IntervalWithin(r.oneSided, low, high)
  {
    var values := Differences(paired);
    Averages.MeanRange(values, low, high);
    MeansWithin(values, resamples, low, high);
    RanksWithin(Means(values, resamples), low, high);
  }

  /** `mean` of `count` numbers that add up to `total`. */
  predicate Adds(mean: real, count: nat, total: real) {
    mean * count as real == total
  }

  lemma MeanAdds(mean: real, count: nat, total: real)
    requires count > 0 && mean == Mean(total, count)
    ensures Adds(mean, count, total)
  {
    QuotientTimesCount(total, count);
  }

  lemma SummarizeIs(h: Digests, entries: seq<Entry>, baselineSha: string, candidateSha: string)
    returns (seed: string, resamples: seq<seq<nat>>)
    requires ValidBound(|entries|)
    ensures |SortBy(IdLeq, entries)| == |entries| && |resamples| == RESAMPLES && Full(resamples, |entries|)
    ensures Summarize(h, entries, baselineSha, candidateSha) == SummaryOf(h, SortBy(IdLeq, entries), seed, resamples)
    ensures seed == Seed(h, baselineSha, candidateSha, Ids(SortBy(IdLeq, entries)))
  {
    var paired := SortBy(IdLeq, entries);
    SortIdsKeepsLength(entries);
    seed := Seed(h, baselineSha, candidateSha, Ids(paired));
    var state := Mask(h.number(seed));
    ResamplesAreFull(|paired|, state, RESAMPLES);
    resamples := Resamples(|paired|, state, RESAMPLES);
  }

  /** What accepted arguments satisfy. */
  lemma CheckPassed(baseline: seq<real>, candidate: seq<real>, ids: seq<Chars>, baselineSha: string,
                    candidateSha: string)
    requires Check(baseline, candidate, ids, baselineSha, candidateSha).None?
    ensures |baseline| == |candidate| == |ids| && ValidBound(|ids|)
    ensures forall i :: 0 <= i < |ids| ==> IsScore(baseline[i]) && IsScore(candidate[i])
  {
  }

  predicate DistinctNames(ids: seq<Chars>) {
    forall i, j :: 0 <= i < j < |ids| ==> ids[i] != ids[j]
  }

  predicate ProperNames(ids: seq<Chars>) {
    forall i :: 0 <= i < |ids| ==> ids[i] != [] && Encodable(ids[i])
  }

  predicate ProperScores(scores: seq<real>) {
    forall i :: 0 <= i < |scores| ==> 0.0 <= scores[i] <= 1.0
  }

  predicate HexDigest(sha: string) {
    |sha| == 64 && forall i :: 0 <= i < 64 ==> sha[i] in "0123456789abcdef"
  }

  lemma HexDigestIs(sha: string)
    ensures HexDigest(sha) <==> IsSha256(sha)
  {
  }

  lemma {:induction false} DistinctNamesIff(ids: seq<Chars>)
    ensures |IdSet(ids)| == |ids| <==> DistinctNames(ids)
  {
    DistinctIds(ids);
    if DistinctNames(ids) && ids != [] {
      var front, last := ids[..|ids| - 1], ids[|ids| - 1];
      DistinctNamesIff(front);
      assert ids == front + [last];
      assert IdSet(ids) == IdSet(front) + {last};
      assert last !in front;
    }
  }

  /** A call is accepted exactly when there are items, no more than 2^64, all four arguments fit together, ids are
      proper and distinct, both digests are hexadecimal and all scores lie in [0, 1]. */
  lemma AcceptedIff(h: Digests, baseline: seq<real>, candidate: seq<real>, ids: seq<Chars>,
                    baselineSha: string, candidateSha: string)
    ensures Report(h, baseline, candidate, ids, baselineSha, candidateSha).Ok? <==>
              && 0 < |ids| <= 0x1_0000_0000_0000_0000 && |baseline| == |candidate| == |ids|
              && ProperNames(ids) && DistinctNames(ids) && HexDigest(baselineSha) && HexDigest(candidateSha)
              && ProperScores(baseline) && ProperScores(candidate)
  {
    DistinctNamesIff(ids);
    HexDigestIs(baselineSha);
    HexDigestIs(candidateSha);
    ProperNamesIff(ids);
    if |baseline| == |candidate| == |ids| {
      ProperScoresIff(baseline, candidate);
    }
  }

  lemma ProperNamesIff(ids: seq<Chars>)
    ensures ProperNames(ids) <==> [] !in ids && AllEncodable(IdSet(ids))
  {
    if AllEncodable(IdSet(ids)) {
      forall i | 0 <= i < |ids|
        ensures Encodable(ids[i])
      {
        assert ids[i] in IdSet(ids);
      }
    }
  }

  lemma ProperScoresIff(baseline: seq<real>, candidate: seq<real>)
    requires |baseline| == |candidate|
    ensures ProperScores(baseline) && ProperScores(candidate) <==>
              !(exists i :: 0 <= i < |baseline| && !(IsScore(baseline[i]) && IsScore(candidate[i])))
  {
  }

  /** What an accepted call reports, in terms of its resamples. */
  lemma ReportIsSummary(h: Digests, baseline: seq<real>, candidate: seq<real>, ids: seq<Chars>,
                        baselineSha: string, candidateSha: string)
    returns (paired: seq<Entry>, seed: string, resamples: seq<seq<nat>>)
    requires Report(h, baseline, candidate, ids, baselineSha, candidateSha).Ok?
    ensures |baseline| == |candidate| == |ids| == |paired| > 0 && paired == SortBy(IdLeq, Zip(baseline, candidate, ids))
    ensures |resamples| == RESAMPLES && Full(resamples, |paired|)
    ensures Report(h, baseline, candidate, ids, baselineSha, candidateSha).summary ==
              SummaryOf(h, paired, seed, resamples)
    ensures seed == Seed(h, baselineSha, candidateSha, Ids(paired))
  {
    CheckPassed(baseline, candidate, ids, baselineSha, candidateSha);
    var entries := Zip(baseline, candidate, ids);
    paired := SortBy(IdLeq, entries);
    seed, resamples := SummarizeIs(h, entries, baselineSha, candidateSha);
  }

  /** Delta is the difference of the two mean scores, and delta and all interval ends lie between the
      smallest and the largest gain of an item. */
  lemma ReportedNumbers(h: Digests, baseline: seq<real>, candidate: seq<real>, ids: seq<Chars>,
                        baselineSha: string, candidateSha: string, low: real, high: real)
    requires Report(h, baseline, candidate, ids, baselineSha, candidateSha).Ok?
    requires |baseline| == |candidate| && Within(Gains(baseline, candidate), low, high)
    ensures var r := Report(h, baseline, candidate, ids, baselineSha, candidateSha).summary;
            && r.nPairs == |ids| > 0 && Adds(r.delta, |ids|, Averages.Sum(candidate) - Averages.Sum(baseline))
            && low <= r.delta <= high && IntervalWithin(r.twoSided, low, high) && IntervalWithin(r.oneSided, low, high)
  {
    var paired, seed, resamples := ReportIsSummary(h, baseline, candidate, ids, baselineSha, candidateSha);
    var gains, values := Gains(baseline, candidate), Differences(paired);
    SortedGains(baseline, candidate, ids);
    SumPermuted(values, gains);
    Averages.SumMinus(candidate, baseline);
    WithinPermuted(values, gains, low, high);
    SummaryNumbers(h, paired, seed, resamples, low, high);
    MeanAdds(SummaryOf(h, paired, seed, resamples).delta, |ids|, Averages.Sum(values));
  }

  lemma QuotientTimesCount(total: real, count: nat)
    requires count > 0
    ensures Mean(total, count) * count as real == total
  {
  }

  /** All numbers of a report lie in [-1, 1], and are not negative if no item got worse. */
  lemma ReportedRange(h: Digests, baseline: seq<real>, candidate: seq<real>, ids: seq<Chars>,
                      baselineSha: string, candidateSha: string)
    requires Report(h, baseline, candidate, ids, baselineSha, candidateSha).Ok?
    ensures |baseline| == |candidate|
    ensures var r := Report(h, baseline, candidate, ids, baselineSha, candidateSha).summary;
            var low := if forall i :: 0 <= i < |baseline| ==> baseline[i] <= candidate[i] then 0.0 else -1.0;
            low <= r.delta <= 1.0 && IntervalWithin(r.twoSided, low, 1.0) && IntervalWithin(r.oneSided, low, 1.0)
  {
    CheckPassed(baseline, candidate, ids, baselineSha, candidateSha);
    var low := if forall i :: 0 <= i < |baseline| ==> baseline[i] <= candidate[i] then 0.0 else -1.0;
    forall i | 0 <= i < |baseline|
      ensures low <= Gains(baseline, candidate)[i] <= 1.0
    {
      assert IsScore(baseline[i]) && IsScore(candidate[i]);
    }
    ReportedNumbers(h, baseline, candidate, ids, baselineSha, candidateSha, low, 1.0);
  }

  /** The report names the digest of the sorted ids, and the seed made from it and the two pair digests in
      ascending order. */
  lemma ReportedDigests(h: Digests, baseline: seq<real>, candidate: seq<real>, ids: seq<Chars>,
                        baselineSha: string, candidateSha: string)
    returns (sorted: seq<Chars>, low: string, high: string)
    requires Report(h, baseline, candidate, ids, baselineSha, candidateSha).Ok?
    ensures var r := Report(h, baseline, candidate, ids, baselineSha, candidateSha).summary;
            && r.itemIdsSha256 == h.itemIds(sorted) && r.seedSha256 == h.seed(low, high, r.itemIdsSha256)
            && (forall i, j :: 0 <= i < j < |sorted| ==> CharsLeq(sorted[i], sorted[j]))
            && |sorted| == |ids| && IdSet(sorted) == IdSet(ids)
            && StringLeq(low, high) && multiset{low, high} == multiset{baselineSha, candidateSha}
  {
    var entries := Zip(baseline, candidate, ids);
    var paired := SortBy(IdLeq, entries);
    IdLeqIsTotal();
    SortBySorts(IdLeq, entries);
    sorted := Ids(paired);
    forall i, j | 0 <= i < j < |sorted|
      ensures CharsLeq(sorted[i], sorted[j])
    {
      assert IdLeq(paired[i], paired[j]);
    }
    forall id
      ensures id in IdSet(sorted) <==> id in IdSet(ids)
    {
      SameIds(entries, paired, ids, id);
    }
    StringBelowTrichotomy(baselineSha, candidateSha);
    if StringLeq(baselineSha, candidateSha) {
      low, high := baselineSha, candidateSha;
    } else {
      low, high := candidateSha, baselineSha;
    }
  }

  lemma SameIds(entries: seq<Entry>, paired: seq<Entry>, ids: seq<Chars>, id: Chars)
    requires multiset(entries) == multiset(paired) && |entries| == |ids|
    requires forall i :: 0 <= i < |ids| ==> entries[i].id == ids[i]
    ensures id in Ids(paired) <==> id in ids
  {
    if id in ids {
      var i :| 0 <= i < |ids| && ids[i] == id;
      assert entries[i] in multiset(paired);
      var j :| 0 <= j < |paired| && paired[j] == entries[i];
      assert Ids(paired)[j] == id;
    }
    if id in Ids(paired) {
      var j :| 0 <= j < |paired| && Ids(paired)[j] == id;
      assert paired[j] in multiset(entries);
    }
  }

  // ----- how much of the resamples an interval leaves out

  function Count(s: seq<real>, p: real -> bool): nat {
    if s == [] then 0 else (if p(s[0]) then 1 else 0) + Count(s[1..], p)
  }

  lemma {:induction false} CountInserted(x: real, s: seq<real>, p: real -> bool)
    ensures Count(InsertBy(RealLeq, x, s), p) == (if p(x) then 1 else 0) + Count(s, p)
  {
    if s != [] && !RealLeq(x, s[0]) {
      CountInserted(x, s[1..], p);
      assert InsertBy(RealLeq, x, s)[1..] == InsertBy(RealLeq, x, s[1..]);
    } else {
      assert ([x] + s)[1..] == s;
    }
  }

  lemma {:induction false} CountSorted(s: seq<real>, p: real -> bool)
    ensures Count(SortBy(RealLeq, s), p) == Count(s, p)
  {
    if s != [] {
      CountSorted(s[1..], p);
      CountInserted(s[0], SortBy(RealLeq, s[1..]), p);
    }
  }

  lemma {:induction false} CountPrefix(s: seq<real>, p: real -> bool, k: nat)
    requires k <= |s|
    ensures (forall i :: k <= i < |s| ==> !p(s[i])) ==> Count(s, p) <= k
    ensures (forall i :: 0 <= i < k ==> p(s[i])) ==> Count(s, p) >= k
  {
    if s != [] {
      CountPrefix(s[1..], p, if k == 0 then 0 else k - 1);
    }
  }

  lemma {:induction false} CountSuffix(s: seq<real>, p: real -> bool, k: nat)
    requires k <= |s|
    ensures (forall i :: 0 <= i < |s| - k ==> !p(s[i])) ==> Count(s, p) <= k
    ensures (forall i :: |s| - k <= i < |s| ==> p(s[i])) ==> Count(s, p) >= k
  {
    if k < |s| {
      CountSuffix(s[1..], p, k);
    } else {
      CountPrefix(s, p, k);
    }
  }

  /** Fewer than `rank` values lie below the interval and fewer than `rank` above, and it could not be
      narrower: that many reach its ends. */
  predicate CutsTails(s: seq<real>, interval: Interval, rank: nat) {
    CutsBelow(s, interval.lower, rank) && CutsAbove(s, interval.upper, rank)
  }

  predicate CutsBelow(s: seq<real>, lower: real, rank: nat) {
    Count(s, x => x < lower) < rank <= Count(s, x => x <= lower)
  }

  predicate CutsAbove(s: seq<real>, upper: real, rank: nat) {
    Count(s, x => x > upper) < rank <= Count(s, x => x >= upper)
  }

  lemma SortedOrder(sorted: seq<real>, i: nat, j: nat)
    requires SortedBy(RealLeq, sorted) && i <= j < |sorted|
    ensures sorted[i] <= sorted[j]
  {
    assert i < j ==> RealLeq(sorted[i], sorted[j]);
  }

  lemma LowerTail(s: seq<real>, sorted: seq<real>, rank: nat)
    requires sorted == SortBy(RealLeq, s) && SortedBy(RealLeq, sorted) && 1 <= rank <= |sorted|
    ensures CutsBelow(s, sorted[rank - 1], rank)
  {
    var lower := sorted[rank - 1];
    var below, most := (x: real) => x < lower, (x: real) => x <= lower;
    forall i | 0 <= i < |sorted|
      ensures i < rank ==> most(sorted[i])
      ensures i >= rank - 1 ==> !below(sorted[i])
    {
      if i < rank {
        SortedOrder(sorted, i, rank - 1);
      }
      if i >= rank - 1 {
        SortedOrder(sorted, rank - 1, i);
      }
    }
    CountPrefix(sorted, below, rank - 1);
    CountPrefix(sorted, most, rank);
    CountSorted(s, below);
    CountSorted(s, most);
  }

  lemma UpperTail(s: seq<real>, sorted: seq<real>, rank: nat)
    requires sorted == SortBy(RealLeq, s) && SortedBy(RealLeq, sorted) && 1 <= rank <= |sorted|
    ensures CutsAbove(s, sorted[|sorted| - rank], rank)
  {
    var k := |sorted| - rank;
    var upper := sorted[k];
    var above, least := (x: real) => x > upper, (x: real) => x >= upper;
    forall i | 0 <= i < |sorted|
      ensures i >= k ==> least(sorted[i])
      ensures i <= k ==> !above(sorted[i])
    {
      if i >= k {
        SortedOrder(sorted, k, i);
      }
      if i <= k {
        SortedOrder(sorted, i, k);
      }
    }
    CountSuffix(sorted, above, rank - 1);
    CountSuffix(sorted, least, rank);
    CountSorted(s, above);
    CountSorted(s, least);
  }

  lemma RankCutsTails(s: seq<real>, numerator: nat, denominator: nat)
    requires s != [] && 0 < numerator < denominator
    ensures |SortBy(RealLeq, s)| == |s|
    ensures CutsTails(s, RankInterval(SortBy(RealLeq, s), numerator, denominator), Rank(numerator, denominator, |s|))
  {
    RealLeqIsTotal();
    SortBySorts(RealLeq, s);
    LowerTail(s, SortBy(RealLeq, s), Rank(numerator, denominator, |s|));
    UpperTail(s, SortBy(RealLeq, s), Rank(numerator, denominator, |s|));
  }

  lemma MeansCutTails(means: seq<real>)
    requires |means| == RESAMPLES
    ensures |SortBy(RealLeq, means)| == |means|
    ensures CutsTails(means, RankInterval(SortBy(RealLeq, means), 1, 40), 500)
    ensures CutsTails(means, RankInterval(SortBy(RealLeq, means), 1, 20), 1_000)
  {
    RankCutsTails(means, 1, 40);
    RankCutsTails(means, 1, 20);
  }

  /** Each of these is the mean of as many gains, drawn with replacement, as there are items. */
  ghost predicate ResampledMeans(means: seq<real>, gains: seq<real>) {
    forall j :: 0 <= j < |means| ==> ResampledMean(means[j], gains)
  }

  ghost predicate ResampledMean(mean: real, gains: seq<real>) {
    exists picks: seq<real> :: Drawn(picks, gains) && mean * |gains| as real == Averages.Sum(picks)
  }

  predicate Drawn(picks: seq<real>, gains: seq<real>) {
    |picks| == |gains| && forall i :: 0 <= i < |picks| ==> picks[i] in gains
  }

  lemma MeansAreResampled(values: seq<real>, resamples: seq<seq<nat>>, gains: seq<real>)
    requires values != [] && multiset(values) == multiset(gains)
    requires Full(resamples, |values|)
    ensures ResampledMeans(Means(values, resamples), gains)
  {
    SameMultisetSameLength(values, gains);
    forall j | 0 <= j < |resamples|
      ensures ResampledMean(Means(values, resamples)[j], gains)
    {
      var picks := Picks(values, resamples[j]);
      forall i | 0 <= i < |picks|
        ensures picks[i] in gains
      {
        assert picks[i] in multiset(values);
      }
      QuotientTimesCount(Averages.Sum(picks), |values|);
      assert Drawn(picks, gains);
    }
  }

  /** Of the 20000 means of resampled gains fewer than 500 lie on either side of the two-sided interval and
      fewer than 1000 on either side of the one-sided one. */
  lemma ReportedTails(h: Digests, baseline: seq<real>, candidate: seq<real>, ids: seq<Chars>,
                      baselineSha: string, candidateSha: string) returns (means: seq<real>)
    requires Report(h, baseline, candidate, ids, baselineSha, candidateSha).Ok?
    ensures |baseline| == |candidate|
    ensures |means| == 20_000 && ResampledMeans(means, Gains(baseline, candidate))
    ensures var r := Report(h, baseline, candidate, ids, baselineSha, candidateSha).summary;
            CutsTails(means, r.twoSided, 500) && CutsTails(means, r.oneSided, 1_000)
  {
    var paired, seed, resamples := ReportIsSummary(h, baseline, candidate, ids, baselineSha, candidateSha);
    means := Means(Differences(paired), resamples);
    SortedGains(baseline, candidate, ids);
    MeansAreResampled(Differences(paired), resamples, Gains(baseline, candidate));
    MeansCutTails(means);
  }

  // ----- nesting

  lemma RankIntervalsNest(sorted: seq<real>)
    requires |sorted| == RESAMPLES && SortedBy(RealLeq, sorted)
    ensures var two, one := RankInterval(sorted, 1, 40), RankInterval(sorted, 1, 20);
            two.lower <= one.lower <= one.upper <= two.upper
  {
    assert RealLeq(sorted[499], sorted[999]) && RealLeq(sorted[999], sorted[19000])
      && RealLeq(sorted[19000], sorted[19500]);
  }

  /** The one-sided interval always lies inside the two-sided one. */
  lemma IntervalsNest(h: Digests, baseline: seq<real>, candidate: seq<real>, ids: seq<Chars>,
                      baselineSha: string, candidateSha: string)
    ensures var r := Report(h, baseline, candidate, ids, baselineSha, candidateSha);
            r.Ok? ==> var two, one := r.summary.twoSided, r.summary.oneSided;
                      two.lower <= one.lower <= one.upper <= two.upper
  {
    if Check(baseline, candidate, ids, baselineSha, candidateSha).None? {
      var entries := Zip(baseline, candidate, ids);
      var paired := SortBy(IdLeq, entries);
      SortIdsKeepsLength(entries);
      var seed := Seed(h, baselineSha, candidateSha, Ids(paired));
      var means := Means(Differences(paired), Resamples(|paired|, Mask(h.number(seed)), RESAMPLES));
      RealLeqIsTotal();
      SortBySorts(RealLeq, means);
      RankIntervalsNest(SortBy(RealLeq, means));
    }
  }

  // ----- the methods

  /** One replicate: the mean of as many draws, with replacement, as there are differences. */
  method Replicate(rng: Generator, differences: seq<real>) returns (mean: real)
    requires ValidBound(|differences|)
    modifies rng
    ensures rng.state == StateAfter(old(rng.state), |differences|, |differences|)
    ensures mean == Mean(Averages.Sum(Picks(differences, Indices(|differences|, old(rng.state), |differences|))),
                         |differences|)
  {
    var count := |differences|;
    ghost var start := rng.state;
    var total := 0.0;
    for k := 0 to count
      invariant rng.state == StateAfter(start, count, k)
      invariant total == Averages.Sum(Picks(differences, Indices(count, start, k)))
    {
      var index := rng.RandBelow(count);
      total := total + differences[index.value];
      PicksSnoc(differences, Indices(count, start, k), index.value);
    }
    mean := Mean(total, count);
  }

  lemma PicksSnoc(values: seq<real>, indices: seq<nat>, index: nat)
    requires InRange(indices, |values|) && index < |values|
    ensures InRange(indices + [index], |values|)
    ensures Averages.Sum(Picks(values, indices + [index])) == Averages.Sum(Picks(values, indices)) + values[index]
  {
    assert Picks(values, indices + [index]) == Picks(values, indices) + [values[index]];
    Averages.SumSnoc(Picks(values, indices), values[index]);
  }

  /** All replicates, drawn one after the other from the same generator. */
  method Replicates(rng: Generator, differences: seq<real>) returns (samples: seq<real>)
    requires ValidBound(|differences|)
    modifies rng
    ensures samples == Means(differences, Resamples(|differences|, old(rng.state), RESAMPLES))
  {
    ghost var start := rng.state;
    samples := [];
    for m := 0 to RESAMPLES
      invariant rng.state == SampleState(|differences|, start, m)
      invariant samples == Means(differences, Resamples(|differences|, start, m))
    {
      var sample := Replicate(rng, differences);
      samples := samples + [sample];
    }
  }

  method Pair(baseline: seq<real>, candidate: seq<real>, ids: seq<Chars>) returns (paired: seq<Entry>)
    requires |baseline| == |candidate| == |ids|
    ensures paired == SortBy(IdLeq, Zip(baseline, candidate, ids)) && |paired| == |ids|
  {
    paired := [];
    for i := 0 to |ids|
      invariant paired == Zip(baseline, candidate, ids)[..i]
    {
      paired := paired + [Entry(ids[i], baseline[i], candidate[i])];
    }
    assert paired == Zip(baseline, candidate, ids);
    SortIdsKeepsLength(paired);
    paired := SortBy(IdLeq, paired);
  }

  method PairedBoundedBootstrap(h: Digests, baseline: seq<real>, candidate: seq<real>, ids: seq<Chars>,
                                baselineSha: string, candidateSha: string) returns (r: Result)
    ensures r == Report(h, baseline, candidate, ids, baselineSha, candidateSha)
  {
    var problem := Check(baseline, candidate, ids, baselineSha, candidateSha);
    if problem.Some? {
      return Rejected(problem.value);
    }
    var paired := Pair(baseline, candidate, ids);
    var differences := Differences(paired);
    var count := |differences|;
    var seed := Seed(h, baselineSha, candidateSha, Ids(paired));
    var rng := new Generator(h.number(seed));
    var samples := Replicates(rng, differences);
    SortRealsKeepsLength(samples);
    var sorted := SortBy(RealLeq, samples);
    r := Ok(Summary(count, Mean(Averages.Sum(differences), count), RankInterval(sorted, 1, 40),
                    RankInterval(sorted, 1, 20),
                    seed, h.itemIds(Ids(paired))));
  }
}
