/**
 The clustered variant of the paired bootstrap: clusters are drawn with replacement, and all items of a
 drawn cluster travel together.

 As in `Bootstrap`, the methods are proved equal to `ClusterReport`, and the laws are proved about it.
 */
module ClusterBootstrap {
  import opened Bootstrap
  import opened Options
  import opened Sorting
  import opened SplitMix64
  import opened Utf8
  import Averages
  import Reals
  import Sets

  /** Digests of the sorted item ids, of the sorted (item, cluster) pairs and of the seed payload, and the
      integer value of a digest. */
  datatype ClusterDigests = ClusterDigests(
    itemIds: seq<Chars> -> string,
    itemClusters: seq<(Chars, Chars)> -> string,
    seed: (string, string, string) -> string,
    number: string -> nat)

  datatype Item = Item(id: Chars, cluster: Chars, difference: real)

  /** The summed differences of a cluster and its number of items. */
  datatype Cluster = Cluster(total: real, size: nat)

  datatype ClusterSummary = ClusterSummary(
    nPairs: nat, nClusters: nat, delta: real, twoSided: Interval, oneSided: Interval,
    seedSha256: string, itemIdsSha256: string, itemClustersSha256: string)

  datatype ClusterRejection =
    | NoEvidence | LengthsDiffer | EmptyItemId | RepeatedId | EmptyClusterId | BadDigest | BadScores | OneCluster
    | UnencodableIds | TooManyClusters

  datatype ClusterResult = Summarized(summary: ClusterSummary) | Refused(reason: ClusterRejection)

  // ----- items and clusters

  predicate ById(x: Item, y: Item) {
    CharsLeq(x.id, y.id)
  }

  lemma ByIdIsTotal()
    ensures TotalPreorder(ById)
  {
    forall x, y
      ensures ById(x, y) || ById(y, x)
    {
      CharsBelowTrichotomy(x.id, y.id);
    }
    forall x, y, z | ById(x, y) && ById(y, z)
      ensures ById(x, z)
    {
      CharsLeqTransitive(x.id, y.id, z.id);
    }
  }

  function Of(items: seq<Item>, cluster: Chars): seq<real> {
    if items == [] then []
    else (if items[0].cluster == cluster then [items[0].difference] else []) + Of(items[1..], cluster)
  }

  function ClusterIds(items: seq<Item>): (r: set<Chars>)
    ensures forall c :: c in r <==> exists i :: 0 <= i < |items| && items[i].cluster == c
  {
    set i | 0 <= i < |items| :: items[i].cluster
  }

  /** The clusters with the given names, in that order. */
  function Clusters(items: seq<Item>, names: seq<Chars>): (r: seq<Cluster>)
    ensures |r| == |names|
    ensures forall k :: 0 <= k < |r| ==> r[k] == Cluster(Averages.Sum(Of(items, names[k])), |Of(items, names[k])|)
  {
    seq(|names|, k requires 0 <= k < |names| => Cluster(Averages.Sum(Of(items, names[k])), |Of(items, names[k])|))
  }

  function AllClusters(items: seq<Item>): seq<Cluster> {
    Clusters(items, SortedKeys(ClusterIds(items)))
  }

  predicate NonEmpty(clusters: seq<Cluster>) {
    forall k :: 0 <= k < |clusters| ==> clusters[k].size > 0
  }

  lemma {:induction false} OfAppend(a: seq<Item>, b: seq<Item>, cluster: Chars)
    ensures Of(a + b, cluster) == Of(a, cluster) + Of(b, cluster)
  {
    if a == [] {
      assert a + b == b;
    } else {
      var head := if a[0].cluster == cluster then [a[0].difference] else [];
      OfAppend(a[1..], b, cluster);
      assert (a + b)[1..] == a[1..] + b;
      assert head + (Of(a[1..], cluster) + Of(b, cluster)) == (head + Of(a[1..], cluster)) + Of(b, cluster);
    }
  }

  lemma OfSnoc(items: seq<Item>, item: Item, cluster: Chars)
    ensures Of(items + [item], cluster) == if item.cluster == cluster then Of(items, cluster) + [item.difference]
            else Of(items, cluster)
  {
    var one := [item];
    OfAppend(items, one, cluster);
    assert one[1..] == [];
    assert Of(one, cluster) == if item.cluster == cluster then [item.difference] else [];
  }

  lemma {:induction false} PresentIsNonEmpty(items: seq<Item>, cluster: Chars)
    ensures Of(items, cluster) != [] <==> cluster in ClusterIds(items)
  {
    if items != [] {
      PresentIsNonEmpty(items[1..], cluster);
      if cluster in ClusterIds(items[1..]) {
        var i :| 0 <= i < |items[1..]| && items[1..][i].cluster == cluster;
        assert items[i + 1].cluster == cluster;
      }
      if cluster in ClusterIds(items) && items[0].cluster != cluster {
        var i :| 0 <= i < |items| && items[i].cluster == cluster;
        assert items[1..][i - 1].cluster == cluster;
      }
    }
  }

  lemma ClustersNonEmpty(items: seq<Item>)
    ensures NonEmpty(AllClusters(items)) && |AllClusters(items)| == |SortedKeys(ClusterIds(items))|
  {
    var names := SortedKeys(ClusterIds(items));
    forall k | 0 <= k < |names|
      ensures Of(items, names[k]) != []
    {
      assert names[k] in names;
      PresentIsNonEmpty(items, names[k]);
    }
  }

  // ----- resampling clusters

  function TotalOf(clusters: seq<Cluster>): real {
    if clusters == [] then 0.0 else clusters[0].total + TotalOf(clusters[1..])
  }

  function SizeOf(clusters: seq<Cluster>): nat {
    if clusters == [] then 0 else clusters[0].size + SizeOf(clusters[1..])
  }

  function Chosen(clusters: seq<Cluster>, indices: seq<nat>): (r: seq<Cluster>)
    requires InRange(indices, |clusters|)
    ensures |r| == |indices| && forall k :: 0 <= k < |r| ==> r[k] == clusters[indices[k]]
  {
    seq(|indices|, k requires 0 <= k < |indices| => clusters[indices[k]])
  }

  lemma {:induction false} SizePositive(clusters: seq<Cluster>)
    requires NonEmpty(clusters) && clusters != []
    ensures SizeOf(clusters) > 0
  {
  }

  /** The item-weighted mean of a draw of clusters. */
  function WeightedMean(clusters: seq<Cluster>): real
    requires NonEmpty(clusters) && clusters != []
  {
    SizePositive(clusters);
    Mean(TotalOf(clusters), SizeOf(clusters))
  }

  predicate Draws(resamples: seq<seq<nat>>, count: nat) {
    forall j :: 0 <= j < |resamples| ==> InRange(resamples[j], count) && resamples[j] != []
  }

  function WeightedMeans(clusters: seq<Cluster>, resamples: seq<seq<nat>>): (s: seq<real>)
    requires NonEmpty(clusters) && Draws(resamples, |clusters|)
    ensures |s| == |resamples| && forall j :: 0 <= j < |s| ==> s[j] == WeightedMean(Chosen(clusters, resamples[j]))
  {
    seq(|resamples|, j requires 0 <= j < |resamples| => WeightedMean(Chosen(clusters, resamples[j])))
  }

  lemma {:induction false} ResamplesDraw(count: nat, state: nat, m: nat)
    requires ValidBound(count)
    ensures Draws(Resamples(count, state, m), count)
  {
    if m > 0 {
      ResamplesDraw(count, state, m - 1);
    }
  }

  // ----- the report

  function DifferencesOf(items: seq<Item>): (r: seq<real>)
    ensures |r| == |items| && forall i :: 0 <= i < |r| ==> r[i] == items[i].difference
  {
    seq(|items|, i requires 0 <= i < |items| => items[i].difference)
  }

  function ItemIds(items: seq<Item>): (r: seq<Chars>)
    ensures |r| == |items| && forall i :: 0 <= i < |r| ==> r[i] == items[i].id
  {
    seq(|items|, i requires 0 <= i < |items| => items[i].id)
  }

  function ItemClusters(items: seq<Item>): (r: seq<(Chars, Chars)>)
    ensures |r| == |items| && forall i :: 0 <= i < |r| ==> r[i] == (items[i].id, items[i].cluster)
  {
    seq(|items|, i requires 0 <= i < |items| => (items[i].id, items[i].cluster))
  }

  function ClusterSeed(h: ClusterDigests, baselineSha: string, candidateSha: string, items: seq<Item>): string {
    var lo := if StringLeq(baselineSha, candidateSha) then baselineSha else candidateSha;
    var hi := if StringLeq(baselineSha, candidateSha) then candidateSha else baselineSha;
    h.seed(lo, hi, h.itemClusters(ItemClusters(items)))
  }

  datatype Intervals = Intervals(twoSided: Interval, oneSided: Interval)

  function IntervalsOf(means: seq<real>): Intervals
    requires means != []
  {
    SortRealsKeepsLength(means);
    var samples := SortBy(RealLeq, means);
    Intervals(RankInterval(samples, 1, 40), RankInterval(samples, 1, 20))
  }

  function Delta(items: seq<Item>): real
    requires items != []
  {
    Mean(Averages.Sum(DifferencesOf(items)), |items|)
  }

  function SampleIntervals(clusters: seq<Cluster>, resamples: seq<seq<nat>>): Intervals
    requires NonEmpty(clusters) && resamples != [] && Draws(resamples, |clusters|)
  {
    IntervalsOf(WeightedMeans(clusters, resamples))
  }

  function Assemble(h: ClusterDigests, items: seq<Item>, count: nat, intervals: Intervals, seed: string): ClusterSummary
    requires items != []
  {
    ClusterSummary(|items|, count, Delta(items), intervals.twoSided, intervals.oneSided,
                   seed, h.itemIds(ItemIds(items)), h.itemClusters(ItemClusters(items)))
  }

  /** Everything that depends on the sorted items, their seed and the resampled indices. */
  function SummaryFor(h: ClusterDigests, items: seq<Item>, seed: string, resamples: seq<seq<nat>>): ClusterSummary
    requires items != [] && resamples != [] && Draws(resamples, |AllClusters(items)|)
  {
    ClustersNonEmpty(items);
    Assemble(h, items, |AllClusters(items)|, SampleIntervals(AllClusters(items), resamples), seed)
  }

  ghost function SummarizeItems(h: ClusterDigests, sorted: seq<Item>, baselineSha: string,
                                candidateSha: string): ClusterSummary
    requires sorted != [] && ValidBound(|AllClusters(sorted)|)
  {
    var seed := ClusterSeed(h, baselineSha, candidateSha, sorted);
    var count := |AllClusters(sorted)|;
    ResamplesDraw(count, Mask(h.number(seed)), RESAMPLES);
    SummaryFor(h, sorted, seed, Resamples(count, Mask(h.number(seed)), RESAMPLES))
  }

  function ZipItems(baseline: seq<real>, candidate: seq<real>, ids: seq<Chars>,
                    clusters: seq<Chars>): (items: seq<Item>)
    requires |baseline| == |candidate| == |ids| == |clusters|
    ensures |items| == |ids|
    ensures forall i :: 0 <= i < |items| ==> items[i] == Item(ids[i], clusters[i], candidate[i] - baseline[i])
  {
    seq(|ids|, i requires 0 <= i < |ids| => Item(ids[i], clusters[i], candidate[i] - baseline[i]))
  }

  /** The checks before grouping, in the order of the source. */
  function CheckEvidence(baseline: seq<real>, candidate: seq<real>, ids: seq<Chars>, clusters: seq<Chars>,
                         baselineSha: string, candidateSha: string): Option<ClusterRejection>
  {
    if baseline == [] then Some(NoEvidence)
    else if !(|baseline| == |candidate| == |ids| == |clusters|) then Some(LengthsDiffer)
    else if [] in ids then Some(EmptyItemId)
    else if |ids| != |IdSet(ids)| then Some(RepeatedId)
    else if [] in clusters then Some(EmptyClusterId)
    else if !IsSha256(baselineSha) || !IsSha256(candidateSha) then Some(BadDigest)
    else if exists i :: 0 <= i < |ids| && !(IsScore(baseline[i]) && IsScore(candidate[i])) then Some(BadScores)
    else None
  }

  /** The ids of items and clusters can be digested. */
  predicate Digestible(items: seq<Item>) {
    forall i :: 0 <= i < |items| ==> Encodable(items[i].id) && Encodable(items[i].cluster)
  }

  function SortedItems(items: seq<Item>): seq<Item> {
    SortBy(ById, items)
  }

  lemma SortedItemsFacts(items: seq<Item>)
    ensures multiset(SortedItems(items)) == multiset(items) && |SortedItems(items)| == |items|
    ensures SortedBy(ById, SortedItems(items))
  {
    ByIdIsTotal();
    SortBySorts(ById, items);
  }

  /** The report on accepted evidence, from the items alone. */
  ghost function ItemReport(h: ClusterDigests, items: seq<Item>, baselineSha: string,
                            candidateSha: string): ClusterResult
    requires items != []
  {
    var sorted := SortedItems(items);
    SortedItemsFacts(items);
    var count := |AllClusters(sorted)|;
    if count < 2 then Refused(OneCluster)
    else if !Digestible(sorted) then Refused(UnencodableIds)
    else if count > RANGE then Refused(TooManyClusters)
    else Summarized(SummarizeItems(h, sorted, baselineSha, candidateSha))
  }

  /** What `paired_clustered_bounded_bootstrap` returns or raises. */
  ghost function ClusterReport(h: ClusterDigests, baseline: seq<real>, candidate: seq<real>, ids: seq<Chars>,
                               clusters: seq<Chars>, baselineSha: string, candidateSha: string): ClusterResult
  {
    var problem := CheckEvidence(baseline, candidate, ids, clusters, baselineSha, candidateSha);
    if problem.Some? then Refused(problem.value)
    else ItemReport(h, ZipItems(baseline, candidate, ids, clusters), baselineSha, candidateSha)
  }

  // ----- reversing the arms

  function NegatedItem(x: Item): Item {
    Item(x.id, x.cluster, -x.difference)
  }

  function NegatedItems(items: seq<Item>): (r: seq<Item>)
    ensures |r| == |items| && forall i :: 0 <= i < |r| ==> r[i] == NegatedItem(items[i])
  {
    seq(|items|, i requires 0 <= i < |items| => NegatedItem(items[i]))
  }

  function NegatedClusters(clusters: seq<Cluster>): (r: seq<Cluster>)
    ensures |r| == |clusters| && forall k :: 0 <= k < |r| ==> r[k] == clusters[k].(total := -clusters[k].total)
  {
    seq(|clusters|, k requires 0 <= k < |clusters| => clusters[k].(total := -clusters[k].total))
  }

  lemma NegatedCons(x: Item, s: seq<Item>)
    ensures NegatedItems([x] + s) == [NegatedItem(x)] + NegatedItems(s)
  {
  }

  lemma {:induction false} InsertNegated(x: Item, s: seq<Item>)
    ensures InsertBy(ById, NegatedItem(x), NegatedItems(s)) == NegatedItems(InsertBy(ById, x, s))
  {
    if s == [] || ById(x, s[0]) {
      NegatedCons(x, s);
    } else {
      InsertNegated(x, s[1..]);
      NegatedCons(s[0], s[1..]);
      assert s == [s[0]] + s[1..];
      NegatedCons(s[0], InsertBy(ById, x, s[1..]));
    }
  }

  lemma {:induction false} SortNegatedItems(s: seq<Item>)
    ensures SortedItems(NegatedItems(s)) == NegatedItems(SortedItems(s))
  {
    if s != [] {
      SortNegatedItems(s[1..]);
      assert NegatedItems(s)[1..] == NegatedItems(s[1..]);
      InsertNegated(s[0], SortedItems(s[1..]));
    }
  }

  lemma {:induction false} OfNegated(items: seq<Item>, cluster: Chars)
    ensures Of(NegatedItems(items), cluster) == Negated(Of(items, cluster))
  {
    if items != [] {
      OfNegated(items[1..], cluster);
      assert NegatedItems(items)[1..] == NegatedItems(items[1..]);
    }
  }

  lemma ClustersNegated(items: seq<Item>)
    ensures AllClusters(NegatedItems(items)) == NegatedClusters(AllClusters(items))
  {
    assert ClusterIds(NegatedItems(items)) == ClusterIds(items);
    var names := SortedKeys(ClusterIds(items));
    forall k | 0 <= k < |names|
      ensures Clusters(NegatedItems(items), names)[k] == NegatedClusters(Clusters(items, names))[k]
    {
      OfNegated(items, names[k]);
      SumNegated(Of(items, names[k]));
    }
  }

  lemma {:induction false} TotalsNegated(clusters: seq<Cluster>)
    ensures TotalOf(NegatedClusters(clusters)) == -TotalOf(clusters)
    ensures SizeOf(NegatedClusters(clusters)) == SizeOf(clusters)
  {
    if clusters != [] {
      TotalsNegated(clusters[1..]);
      assert NegatedClusters(clusters)[1..] == NegatedClusters(clusters[1..]);
    }
  }

  lemma WeightedMeansNegated(clusters: seq<Cluster>, resamples: seq<seq<nat>>)
    requires NonEmpty(clusters) && Draws(resamples, |clusters|)
    ensures WeightedMeans(NegatedClusters(clusters), resamples) == Negated(WeightedMeans(clusters, resamples))
  {
    forall j | 0 <= j < |resamples|
      ensures WeightedMeans(NegatedClusters(clusters), resamples)[j] == -WeightedMeans(clusters, resamples)[j]
    {
      var chosen := Chosen(clusters, resamples[j]);
      assert Chosen(NegatedClusters(clusters), resamples[j]) == NegatedClusters(chosen);
      TotalsNegated(chosen);
      SizePositive(chosen);
      MeanNegated(TotalOf(chosen), SizeOf(chosen));
    }
  }

  function ReversedSummary(s: ClusterSummary): ClusterSummary {
    s.(delta := -s.delta, twoSided := MirroredInterval(s.twoSided), oneSided := MirroredInterval(s.oneSided))
  }

  lemma IntervalsNegated(means: seq<real>)
    requires means != []
    ensures IntervalsOf(Negated(means)) == MirroredIntervals(IntervalsOf(means))
  {
    SortNegated(means);
    SortRealsKeepsLength(means);
    RankIntervalMirrored(SortBy(RealLeq, means), 1, 40);
    RankIntervalMirrored(SortBy(RealLeq, means), 1, 20);
  }

  function MirroredIntervals(i: Intervals): Intervals {
    Intervals(MirroredInterval(i.twoSided), MirroredInterval(i.oneSided))
  }

  lemma SampleIntervalsNegated(clusters: seq<Cluster>, resamples: seq<seq<nat>>)
    requires NonEmpty(clusters) && resamples != [] && Draws(resamples, |clusters|)
    ensures SampleIntervals(NegatedClusters(clusters), resamples)
            == MirroredIntervals(SampleIntervals(clusters, resamples))
  {
    WeightedMeansNegated(clusters, resamples);
    IntervalsNegated(WeightedMeans(clusters, resamples));
  }

  lemma DeltaNegated(items: seq<Item>)
    requires items != []
    ensures Delta(NegatedItems(items)) == -Delta(items)
  {
    assert DifferencesOf(NegatedItems(items)) == Negated(DifferencesOf(items));
    SumNegated(DifferencesOf(items));
    MeanNegated(Averages.Sum(DifferencesOf(items)), |items|);
  }

  lemma NamesKept(items: seq<Item>)
    ensures ItemIds(NegatedItems(items)) == ItemIds(items) && ItemClusters(NegatedItems(items)) == ItemClusters(items)
  {
  }

  lemma AssembleNegated(h: ClusterDigests, items: seq<Item>, count: nat, intervals: Intervals, seed: string)
    requires items != []
    ensures Assemble(h, NegatedItems(items), count, MirroredIntervals(intervals), seed)
         == ReversedSummary(Assemble(h, items, count, intervals, seed))
  {
    DeltaNegated(items);
    NamesKept(items);
  }

  lemma SummaryForNegated(h: ClusterDigests, items: seq<Item>, seed: string, resamples: seq<seq<nat>>)
    requires items != [] && resamples != [] && Draws(resamples, |AllClusters(items)|)
    ensures Draws(resamples, |AllClusters(NegatedItems(items))|)
    ensures SummaryFor(h, NegatedItems(items), seed, resamples)
            == ReversedSummary(SummaryFor(h, items, seed, resamples))
  {
    ClustersNonEmpty(items);
    ClustersNegated(items);
    SampleIntervalsNegated(AllClusters(items), resamples);
    AssembleNegated(h, items, |AllClusters(items)|, SampleIntervals(AllClusters(items), resamples), seed);
  }

  lemma SummarizeNegated(h: ClusterDigests, sorted: seq<Item>, baselineSha: string, candidateSha: string)
    requires sorted != [] && ValidBound(|AllClusters(sorted)|)
    ensures ValidBound(|AllClusters(NegatedItems(sorted))|)
    ensures SummarizeItems(h, NegatedItems(sorted), candidateSha, baselineSha)
         == ReversedSummary(SummarizeItems(h, sorted, baselineSha, candidateSha))
  {
    ClustersNegated(sorted);
    NamesKept(sorted);
    StringBelowTrichotomy(baselineSha, candidateSha);
    var seed, count := ClusterSeed(h, baselineSha, candidateSha, sorted), |AllClusters(sorted)|;
    assert ClusterSeed(h, candidateSha, baselineSha, NegatedItems(sorted)) == seed;
    ResamplesDraw(count, Mask(h.number(seed)), RESAMPLES);
    SummaryForNegated(h, sorted, seed, Resamples(count, Mask(h.number(seed)), RESAMPLES));
  }

  lemma CheckIsSymmetric(baseline: seq<real>, candidate: seq<real>, ids: seq<Chars>, clusters: seq<Chars>,
                         baselineSha: string, candidateSha: string)
    requires baseline == [] <==> candidate == []
    ensures CheckEvidence(candidate, baseline, ids, clusters, candidateSha, baselineSha)
         == CheckEvidence(baseline, candidate, ids, clusters, baselineSha, candidateSha)
  {
  }

  function ReversedResult(r: ClusterResult): ClusterResult {
    if r.Summarized? then Summarized(ReversedSummary(r.summary)) else r
  }

  lemma DigestibleNegated(items: seq<Item>)
    ensures Digestible(NegatedItems(items)) <==> Digestible(items)
  {
    forall i | 0 <= i < |items|
      ensures NegatedItems(items)[i].id == items[i].id && NegatedItems(items)[i].cluster == items[i].cluster
    {
      assert NegatedItems(items)[i] == NegatedItem(items[i]);
    }
  }

  lemma ItemReportReversed(h: ClusterDigests, items: seq<Item>, baselineSha: string, candidateSha: string)
    requires items != []
    ensures ItemReport(h, NegatedItems(items), candidateSha, baselineSha)
         == ReversedResult(ItemReport(h, items, baselineSha, candidateSha))
  {
    var sorted := SortedItems(items);
    SortedItemsFacts(items);
    SortNegatedItems(items);
    ClustersNegated(sorted);
    DigestibleNegated(sorted);
    if 2 <= |AllClusters(sorted)| <= RANGE {
      SummarizeNegated(h, sorted, baselineSha, candidateSha);
    }
  }

  /** Exchanging the arms negates delta and mirrors both intervals; refusals are the same, but for the
      reason when exactly one arm is empty. */
  lemma ClusterArmReversal(h: ClusterDigests, baseline: seq<real>, candidate: seq<real>, ids: seq<Chars>,
                           clusters: seq<Chars>,
                           baselineSha: string, candidateSha: string)
    ensures var there := ClusterReport(h, baseline, candidate, ids, clusters, baselineSha, candidateSha);
            var back := ClusterReport(h, candidate, baseline, ids, clusters, candidateSha, baselineSha);
            if baseline == [] <==> candidate == [] then back == ReversedResult(there)
            else there.Refused? && back.Refused?
  {
    if baseline == [] <==> candidate == [] {
      CheckIsSymmetric(baseline, candidate, ids, clusters, baselineSha, candidateSha);
    }
    if CheckEvidence(baseline, candidate, ids, clusters, baselineSha, candidateSha).None? {
      var items := ZipItems(baseline, candidate, ids, clusters);
      assert ZipItems(candidate, baseline, ids, clusters) == NegatedItems(items);
      ItemReportReversed(h, items, baselineSha, candidateSha);
    }
  }

  // ----- what the numbers say about the arguments

  predicate Bounded(c: Cluster, low: real, high: real) {
    low * c.size as real <= c.total <= high * c.size as real
  }

  predicate AllBounded(clusters: seq<Cluster>, low: real, high: real) {
    forall k :: 0 <= k < |clusters| ==> Bounded(clusters[k], low, high)
  }

  lemma {:induction false} OfWithin(items: seq<Item>, cluster: Chars, low: real, high: real)
    requires Within(DifferencesOf(items), low, high)
    ensures Within(Of(items, cluster), low, high)
  {
    if items != [] {
      assert DifferencesOf(items)[1..] == DifferencesOf(items[1..]);
      OfWithin(items[1..], cluster, low, high);
    }
  }

  lemma ClustersBounded(items: seq<Item>, low: real, high: real)
    requires Within(DifferencesOf(items), low, high)
    ensures AllBounded(AllClusters(items), low, high)
  {
    var names := SortedKeys(ClusterIds(items));
    forall k | 0 <= k < |names|
      ensures Bounded(AllClusters(items)[k], low, high)
    {
      OfWithin(items, names[k], low, high);
      OneBounded(Of(items, names[k]), low, high);
    }
  }

  lemma OneBounded(values: seq<real>, low: real, high: real)
    requires Within(values, low, high)
    ensures Bounded(Cluster(Averages.Sum(values), |values|), low, high)
  {
    Averages.SumRange(values, low, high);
  }

  lemma {:induction false} TotalBounded(clusters: seq<Cluster>, low: real, high: real)
    requires AllBounded(clusters, low, high)
    ensures Bounded(Cluster(TotalOf(clusters), SizeOf(clusters)), low, high)
  {
    if clusters != [] {
      TotalBounded(clusters[1..], low, high);
      assert Bounded(clusters[0], low, high);
      BoundsAdd(clusters[0], Cluster(TotalOf(clusters[1..]), SizeOf(clusters[1..])), low, high);
    }
  }

  lemma BoundsAdd(a: Cluster, b: Cluster, low: real, high: real)
    requires Bounded(a, low, high) && Bounded(b, low, high)
    ensures Bounded(Cluster(a.total + b.total, a.size + b.size), low, high)
  {
    var x, y := a.size as real, b.size as real;
    assert (a.size + b.size) as real == x + y;
    assert low * (x + y) == low * x + low * y && high * (x + y) == high * x + high * y;
  }

  lemma BoundedMean(total: real, size: nat, low: real, high: real)
    requires size > 0 && Bounded(Cluster(total, size), low, high)
    ensures low <= Mean(total, size) <= high
  {
    var n := size as real;
    Reals.QuotientOrder(low * n, total, n);
    Reals.QuotientOrder(total, high * n, n);
    Averages.ProductQuotient(low, n);
    Averages.ProductQuotient(high, n);
  }

  lemma WeightedMeansWithin(clusters: seq<Cluster>, resamples: seq<seq<nat>>, low: real, high: real)
    requires NonEmpty(clusters) && Draws(resamples, |clusters|) && AllBounded(clusters, low, high)
    ensures Within(WeightedMeans(clusters, resamples), low, high)
  {
    forall j | 0 <= j < |resamples|
      ensures low <= WeightedMeans(clusters, resamples)[j] <= high
    {
      var chosen := Chosen(clusters, resamples[j]);
      SizePositive(chosen);
      TotalBounded(chosen, low, high);
      BoundedMean(TotalOf(chosen), SizeOf(chosen), low, high);
    }
  }

  function DifferenceOf(x: Item): real {
    x.difference
  }

  lemma SortedItemGains(baseline: seq<real>, candidate: seq<real>, ids: seq<Chars>, clusters: seq<Chars>)
    requires |baseline| == |candidate| == |ids| == |clusters|
    ensures multiset(DifferencesOf(SortedItems(ZipItems(baseline, candidate, ids, clusters))))
         == multiset(Gains(baseline, candidate))
  {
    var items := ZipItems(baseline, candidate, ids, clusters);
    SortedItemsFacts(items);
    ItemGainsPermuted(SortedItems(items), items);
    ZippedGains(baseline, candidate, ids, clusters);
  }

  lemma ZippedGains(baseline: seq<real>, candidate: seq<real>, ids: seq<Chars>, clusters: seq<Chars>)
    requires |baseline| == |candidate| == |ids| == |clusters|
    ensures DifferencesOf(ZipItems(baseline, candidate, ids, clusters)) == Gains(baseline, candidate)
  {
  }

  lemma ItemGainsPermuted(a: seq<Item>, b: seq<Item>)
    requires multiset(a) == multiset(b)
    ensures multiset(DifferencesOf(a)) == multiset(DifferencesOf(b))
  {
    MapPermuted(DifferenceOf, a, b);
    DifferencesAreMapped(a);
    DifferencesAreMapped(b);
  }

  lemma DifferencesAreMapped(items: seq<Item>)
    ensures DifferencesOf(items) == Map(DifferenceOf, items)
  {
  }

  lemma ItemsSummarizedAs(h: ClusterDigests, sorted: seq<Item>, baselineSha: string, candidateSha: string)
    returns (seed: string, means: seq<real>)
    requires sorted != [] && ValidBound(|AllClusters(sorted)|)
    ensures |means| == RESAMPLES
    ensures SummarizeItems(h, sorted, baselineSha, candidateSha)
         == Assemble(h, sorted, |AllClusters(sorted)|, IntervalsOf(means), seed)
    ensures forall low, high :: Within(DifferencesOf(sorted), low, high) ==> Within(means, low, high)
  {
    seed := ClusterSeed(h, baselineSha, candidateSha, sorted);
    var clusters := AllClusters(sorted);
    var state := Mask(h.number(seed));
    ResamplesDraw(|clusters|, state, RESAMPLES);
    ClustersNonEmpty(sorted);
    var resamples := Resamples(|clusters|, state, RESAMPLES);
    means := WeightedMeans(clusters, resamples);
    forall low, high | Within(DifferencesOf(sorted), low, high)
      ensures Within(means, low, high)
    {
      ClustersBounded(sorted, low, high);
      WeightedMeansWithin(clusters, resamples, low, high);
    }
  }

  lemma EvidencePassed(baseline: seq<real>, candidate: seq<real>, ids: seq<Chars>, clusters: seq<Chars>,
                       baselineSha: string, candidateSha: string)
    requires CheckEvidence(baseline, candidate, ids, clusters, baselineSha, candidateSha).None?
    ensures |baseline| == |candidate| == |ids| == |clusters| > 0
    ensures forall i :: 0 <= i < |ids| ==> IsScore(baseline[i]) && IsScore(candidate[i])
  {
  }

  predicate SeveralClusters(clusters: seq<Chars>) {
    exists i, j :: 0 <= i < j < |clusters| && clusters[i] != clusters[j]
  }

  lemma SameMembers(a: seq<Item>, b: seq<Item>)
    requires multiset(a) == multiset(b)
    ensures Digestible(a) ==> Digestible(b)
    ensures ClusterIds(b) <= ClusterIds(a)
  {
    forall i | 0 <= i < |b|
      ensures b[i].cluster in ClusterIds(a) && (Digestible(a) ==> Encodable(b[i].id) && Encodable(b[i].cluster))
    {
      assert b[i] in multiset(a);
      var j :| 0 <= j < |a| && a[j] == b[i];
      assert a[j].cluster in ClusterIds(a);
    }
  }

  /** Sorting loses no id and no cluster. */
  lemma SortedNames(items: seq<Item>)
    ensures Digestible(SortedItems(items)) <==> Digestible(items)
    ensures ClusterIds(SortedItems(items)) == ClusterIds(items)
  {
    SortedItemsFacts(items);
    SameMembers(items, SortedItems(items));
    SameMembers(SortedItems(items), items);
  }

  lemma KeyCount(keys: set<Chars>)
    ensures |SortedKeys(keys)| == |keys|
  {
    var r := SortedKeys(keys);
    forall i, j | 0 <= i < j < |r|
      ensures r[i] != r[j]
    {
      CharsBelowTrichotomy(r[i], r[j]);
    }
    DistinctNamesIff(r);
    assert IdSet(r) == keys;
  }

  lemma TwoOf(keys: set<Chars>, a: Chars, b: Chars)
    requires a in keys && b in keys && a != b
    ensures |keys| >= 2
  {
    Sets.SubsetSize({a, b}, keys);
  }

  lemma SeveralIff(items: seq<Item>, clusters: seq<Chars>)
    requires |items| == |clusters| > 0 && forall i :: 0 <= i < |items| ==> items[i].cluster == clusters[i]
    ensures |ClusterIds(items)| >= 2 <==> SeveralClusters(clusters)
  {
    var keys := ClusterIds(items);
    if i, j :| 0 <= i < j < |clusters| && clusters[i] != clusters[j] {
      assert items[i].cluster in keys && items[j].cluster in keys;
      TwoOf(keys, items[i].cluster, items[j].cluster);
    } else {
      forall key | key in keys
        ensures key == clusters[0]
      {
        var i :| 0 <= i < |items| && items[i].cluster == key;
        assert i > 0 ==> clusters[0] == clusters[i];
      }
      assert keys == {clusters[0]};
    }
  }

  /** A call is accepted exactly when the plain bootstrap's demands are met, cluster ids are proper, and there are
      at least two clusters and no more than 2^64. */
  lemma ClusterAcceptedIff(h: ClusterDigests, baseline: seq<real>, candidate: seq<real>, ids: seq<Chars>,
                           clusters: seq<Chars>, baselineSha: string, candidateSha: string)
    ensures ClusterReport(h, baseline, candidate, ids, clusters, baselineSha, candidateSha).Summarized? <==>
              && |ids| > 0 && |baseline| == |candidate| == |ids| == |clusters|
              && ProperNames(ids) && DistinctNames(ids) && ProperNames(clusters) && SeveralClusters(clusters)
              && |IdSet(clusters)| <= 0x1_0000_0000_0000_0000
              && HexDigest(baselineSha) && HexDigest(candidateSha) && ProperScores(baseline) && ProperScores(candidate)
  {
    DistinctNamesIff(ids);
    HexDigestIs(baselineSha);
    HexDigestIs(candidateSha);
    if |baseline| == |candidate| == |ids| == |clusters| && |ids| > 0 {
      ProperScoresIff(baseline, candidate);
      var items := ZipItems(baseline, candidate, ids, clusters);
      ItemsAcceptedIff(items, ids, clusters);
    }
  }

  lemma ItemsAcceptedIff(items: seq<Item>, ids: seq<Chars>, clusters: seq<Chars>)
    requires |items| == |ids| == |clusters| > 0
    requires forall i :: 0 <= i < |items| ==> items[i].id == ids[i] && items[i].cluster == clusters[i]
    ensures |AllClusters(SortedItems(items))| >= 2 <==> SeveralClusters(clusters)
    ensures |AllClusters(SortedItems(items))| == |IdSet(clusters)|
    ensures ProperNames(ids) && ProperNames(clusters) <==>
              [] !in ids && [] !in clusters && Digestible(SortedItems(items))
  {
    SortedNames(items);
    KeyCount(ClusterIds(items));
    SeveralIff(items, clusters);
    forall key
      ensures key in ClusterIds(items) <==> key in IdSet(clusters)
    {
      if key in clusters {
        var i :| 0 <= i < |clusters| && clusters[i] == key;
        assert items[i].cluster == key;
      }
    }
    assert ClusterIds(items) == IdSet(clusters);
    forall i | 0 <= i < |items|
      ensures Encodable(items[i].id) == Encodable(ids[i]) && Encodable(items[i].cluster) == Encodable(clusters[i])
    {
    }
  }

  /** The report on accepted evidence: delta is the difference of the two mean scores; delta and all ends lie
      between the smallest and the largest gain of an item; and the intervals leave out fewer than 500 and fewer
      than 1000 of the 20000 resample means on either side. */
  lemma ItemNumbers(h: ClusterDigests, items: seq<Item>, baselineSha: string, candidateSha: string, low: real,
                    high: real)
    returns (means: seq<real>)
    requires items != [] && ItemReport(h, items, baselineSha, candidateSha).Summarized?
    requires Within(DifferencesOf(SortedItems(items)), low, high)
    ensures var r := ItemReport(h, items, baselineSha, candidateSha).summary;
            && r.nPairs == |items| && low <= r.delta <= high
            && r.delta == Mean(Averages.Sum(DifferencesOf(SortedItems(items))), |items|)
            && IntervalWithin(r.twoSided, low, high) && IntervalWithin(r.oneSided, low, high)
            && |means| == 20_000 && CutsTails(means, r.twoSided, 500) && CutsTails(means, r.oneSided, 1_000)
  {
    var sorted := SortedItems(items);
    SortedItemsFacts(items);
    var seed;
    seed, means := ItemsSummarizedAs(h, sorted, baselineSha, candidateSha);
    RanksWithin(means, low, high);
    MeansCutTails(means);
    Averages.MeanRange(DifferencesOf(sorted), low, high);
  }

  lemma ClusterReportedNumbers(h: ClusterDigests, baseline: seq<real>, candidate: seq<real>, ids: seq<Chars>,
                               clusters: seq<Chars>, baselineSha: string, candidateSha: string, low: real, high: real)
    returns (means: seq<real>)
    requires ClusterReport(h, baseline, candidate, ids, clusters, baselineSha, candidateSha).Summarized?
    requires |baseline| == |candidate| && Within(Gains(baseline, candidate), low, high)
    ensures var r := ClusterReport(h, baseline, candidate, ids, clusters, baselineSha, candidateSha).summary;
            && r.nPairs == |ids| > 0 && Adds(r.delta, |ids|, Averages.Sum(candidate) - Averages.Sum(baseline))
            && low <= r.delta <= high && IntervalWithin(r.twoSided, low, high) && IntervalWithin(r.oneSided, low, high)
            && |means| == 20_000 && CutsTails(means, r.twoSided, 500) && CutsTails(means, r.oneSided, 1_000)
  {
    EvidencePassed(baseline, candidate, ids, clusters, baselineSha, candidateSha);
    var items := ZipItems(baseline, candidate, ids, clusters);
    var values := DifferencesOf(SortedItems(items));
    SortedItemGains(baseline, candidate, ids, clusters);
    SumPermuted(values, Gains(baseline, candidate));
    Averages.SumMinus(candidate, baseline);
    WithinPermuted(values, Gains(baseline, candidate), low, high);
    means := ItemNumbers(h, items, baselineSha, candidateSha, low, high);
    MeanAdds(ItemReport(h, items, baselineSha, candidateSha).summary.delta, |ids|, Averages.Sum(values));
  }

  /** All numbers of a report lie in [-1, 1], and are not negative if no item got worse. */
  lemma ClusterReportedRange(h: ClusterDigests, baseline: seq<real>, candidate: seq<real>, ids: seq<Chars>,
                             clusters: seq<Chars>, baselineSha: string, candidateSha: string)
    requires ClusterReport(h, baseline, candidate, ids, clusters, baselineSha, candidateSha).Summarized?
    ensures |baseline| == |candidate|
    ensures var r := ClusterReport(h, baseline, candidate, ids, clusters, baselineSha, candidateSha).summary;
            var low := if forall i :: 0 <= i < |baseline| ==> baseline[i] <= candidate[i] then 0.0 else -1.0;
            low <= r.delta <= 1.0 && IntervalWithin(r.twoSided, low, 1.0) && IntervalWithin(r.oneSided, low, 1.0)
  {
    EvidencePassed(baseline, candidate, ids, clusters, baselineSha, candidateSha);
    var low := if forall i :: 0 <= i < |baseline| ==> baseline[i] <= candidate[i] then 0.0 else -1.0;
    forall i | 0 <= i < |baseline|
      ensures low <= Gains(baseline, candidate)[i] <= 1.0
    {
      assert IsScore(baseline[i]) && IsScore(candidate[i]);
    }
    var _ := ClusterReportedNumbers(h, baseline, candidate, ids, clusters, baselineSha, candidateSha, low, 1.0);
  }

  // ----- nesting

  lemma ClusterIntervalsNest(h: ClusterDigests, baseline: seq<real>, candidate: seq<real>, ids: seq<Chars>,
                             clusters: seq<Chars>,
                             baselineSha: string, candidateSha: string)
    ensures var r := ClusterReport(h, baseline, candidate, ids, clusters, baselineSha, candidateSha);
            r.Summarized? ==> var two, one := r.summary.twoSided, r.summary.oneSided;
                              two.lower <= one.lower <= one.upper <= two.upper
  {
    if ClusterReport(h, baseline, candidate, ids, clusters, baselineSha, candidateSha).Summarized? {
      var items := SortedItems(ZipItems(baseline, candidate, ids, clusters));
      SortedItemsFacts(ZipItems(baseline, candidate, ids, clusters));
      ClustersNonEmpty(items);
      var seed, count := ClusterSeed(h, baselineSha, candidateSha, items), |AllClusters(items)|;
      ResamplesDraw(count, Mask(h.number(seed)), RESAMPLES);
      IntervalsOfNest(WeightedMeans(AllClusters(items), Resamples(count, Mask(h.number(seed)), RESAMPLES)));
    }
  }

  lemma IntervalsOfNest(means: seq<real>)
    requires |means| == RESAMPLES
    ensures var i := IntervalsOf(means);
            i.twoSided.lower <= i.oneSided.lower <= i.oneSided.upper <= i.twoSided.upper
  {
    RealLeqIsTotal();
    SortBySorts(RealLeq, means);
    RankIntervalsNest(SortBy(RealLeq, means));
  }

  // ----- the estimand is the item mean

  function TotalIn(items: seq<Item>, names: seq<Chars>): real {
    if items == [] then 0.0
    else (if items[0].cluster in names then items[0].difference else 0.0) + TotalIn(items[1..], names)
  }

  function CountIn(items: seq<Item>, names: seq<Chars>): nat {
    if items == [] then 0
    else (if items[0].cluster in names then 1 else 0) + CountIn(items[1..], names)
  }

  lemma {:induction false} SplitOff(items: seq<Item>, name: Chars, names: seq<Chars>, rest: seq<Chars>)
    requires names == [name] + rest && name !in rest
    ensures TotalIn(items, names) == Averages.Sum(Of(items, name)) + TotalIn(items, rest)
    ensures CountIn(items, names) == |Of(items, name)| + CountIn(items, rest)
  {
    if items != [] {
      SplitOff(items[1..], name, names, rest);
      Averages.SumAppend(if items[0].cluster == name then [items[0].difference] else [], Of(items[1..], name));
    }
  }

  lemma {:induction false} NothingIn(items: seq<Item>)
    ensures TotalIn(items, []) == 0.0 && CountIn(items, []) == 0
  {
    if items != [] {
      NothingIn(items[1..]);
    }
  }

  lemma {:induction false} ClustersAddUp(items: seq<Item>, names: seq<Chars>)
    requires forall i, j :: 0 <= i < j < |names| ==> names[i] != names[j]
    ensures TotalOf(Clusters(items, names)) == TotalIn(items, names)
    ensures SizeOf(Clusters(items, names)) == CountIn(items, names)
  {
    if names == [] {
      NothingIn(items);
    } else {
      ClustersAddUp(items, names[1..]);
      assert Clusters(items, names)[1..] == Clusters(items, names[1..]);
      SplitOff(items, names[0], names, names[1..]);
    }
  }

  lemma {:induction false} EverythingIn(items: seq<Item>, names: seq<Chars>)
    requires forall i :: 0 <= i < |items| ==> items[i].cluster in names
    ensures TotalIn(items, names) == Averages.Sum(DifferencesOf(items)) && CountIn(items, names) == |items|
  {
    if items != [] {
      EverythingIn(items[1..], names);
      assert DifferencesOf(items)[1..] == DifferencesOf(items[1..]);
    }
  }

  /** Whatever the clusters, the reported delta is the weighted mean of all of them. */
  lemma DeltaIsWeightedMean(items: seq<Item>)
    requires items != []
    ensures AllClusters(items) != [] && NonEmpty(AllClusters(items))
    ensures Delta(items) == WeightedMean(AllClusters(items))
  {
    var names := SortedKeys(ClusterIds(items));
    ClustersNonEmpty(items);
    assert items[0].cluster in names;
    forall i, j | 0 <= i < j < |names|
      ensures names[i] != names[j]
    {
      CharsBelowTrichotomy(names[i], names[j]);
    }
    ClustersAddUp(items, names);
    EverythingIn(items, names);
  }

  // ----- the order of the evidence is immaterial

  datatype Quad = Quad(id: Chars, cluster: Chars, baseline: real, candidate: real)

  function Quads(baseline: seq<real>, candidate: seq<real>, ids: seq<Chars>, clusters: seq<Chars>): (r: seq<Quad>)
    requires |baseline| == |candidate| == |ids| == |clusters|
    ensures |r| == |ids| && forall i :: 0 <= i < |r| ==> r[i] == Quad(ids[i], clusters[i], baseline[i], candidate[i])
  {
    seq(|ids|, i requires 0 <= i < |ids| => Quad(ids[i], clusters[i], baseline[i], candidate[i]))
  }

  function ItemOf(q: Quad): Item {
    Item(q.id, q.cluster, q.candidate - q.baseline)
  }

  function ItemsOf(quads: seq<Quad>): (r: seq<Item>)
    ensures |r| == |quads| && forall i :: 0 <= i < |r| ==> r[i] == ItemOf(quads[i])
  {
    seq(|quads|, i requires 0 <= i < |quads| => ItemOf(quads[i]))
  }

  lemma ItemsPermuted(a: seq<Quad>, b: seq<Quad>)
    requires multiset(a) == multiset(b)
    ensures multiset(ItemsOf(a)) == multiset(ItemsOf(b))
  {
    MapPermuted(ItemOf, a, b);
    assert ItemsOf(a) == Map(ItemOf, a) && ItemsOf(b) == Map(ItemOf, b);
  }

  predicate BadQuad(q: Quad) {
    !(IsScore(q.baseline) && IsScore(q.candidate))
  }

  function QuadIds(quads: multiset<Quad>): set<Chars> {
    set q | q in quads :: q.id
  }

  function QuadClusters(quads: multiset<Quad>): set<Chars> {
    set q | q in quads :: q.cluster
  }

  /** The checks, seen from the multiset of evidence. */
  lemma CheckByQuads(baseline: seq<real>, candidate: seq<real>, ids: seq<Chars>, clusters: seq<Chars>)
    requires |baseline| == |candidate| == |ids| == |clusters|
    ensures var all := multiset(Quads(baseline, candidate, ids, clusters));
            && |all| == |ids| && IdSet(ids) == QuadIds(all) && IdSet(clusters) == QuadClusters(all)
            && ((exists i :: 0 <= i < |ids| && !(IsScore(baseline[i]) && IsScore(candidate[i])))
                <==> exists q :: q in all && BadQuad(q))
  {
    var quads := Quads(baseline, candidate, ids, clusters);
    var all := multiset(quads);
    assert forall i :: 0 <= i < |quads| ==> quads[i] in all;
    assert forall q :: q in all ==> exists i :: 0 <= i < |quads| && quads[i] == q;
    assert forall id :: id in ids ==> exists i :: 0 <= i < |quads| && quads[i].id == id;
    assert forall c :: c in clusters ==> exists i :: 0 <= i < |quads| && quads[i].cluster == c;
    if i :| 0 <= i < |ids| && !(IsScore(baseline[i]) && IsScore(candidate[i])) {
      assert quads[i] in all && BadQuad(quads[i]);
    }
  }

  lemma CheckPermuted(baseline: seq<real>, candidate: seq<real>, ids: seq<Chars>, clusters: seq<Chars>,
                      baseline': seq<real>, candidate': seq<real>, ids': seq<Chars>, clusters': seq<Chars>,
                      baselineSha: string, candidateSha: string)
    requires |baseline| == |candidate| == |ids| == |clusters| && |baseline'| == |candidate'| == |ids'| == |clusters'|
    requires multiset(Quads(baseline, candidate, ids, clusters))
             == multiset(Quads(baseline', candidate', ids', clusters'))
    ensures CheckEvidence(baseline, candidate, ids, clusters, baselineSha, candidateSha)
         == CheckEvidence(baseline', candidate', ids', clusters', baselineSha, candidateSha)
  {
    CheckByQuads(baseline, candidate, ids, clusters);
    CheckByQuads(baseline', candidate', ids', clusters');
    assert ([] in ids) == ([] in IdSet(ids)) && ([] in ids') == ([] in IdSet(ids'));
    assert ([] in clusters) == ([] in IdSet(clusters)) && ([] in clusters') == ([] in IdSet(clusters'));
  }

  lemma UniqueItemsOrderStrict(items: seq<Item>, ids: seq<Chars>)
    requires |items| == |ids| && forall i :: 0 <= i < |ids| ==> items[i].id == ids[i]
    requires |IdSet(ids)| == |ids|
    ensures Antisymmetric(ById, multiset(items))
  {
    DistinctIds(ids);
    forall x, y | x in multiset(items) && y in multiset(items) && ById(x, y) && ById(y, x)
      ensures x == y
    {
      CharsBelowTrichotomy(x.id, y.id);
      var i :| 0 <= i < |items| && items[i] == x;
      var j :| 0 <= j < |items| && items[j] == y;
    }
  }

  lemma SortedTheSame(items: seq<Item>, items': seq<Item>, ids: seq<Chars>)
    requires |items| == |ids| && forall i :: 0 <= i < |ids| ==> items[i].id == ids[i]
    requires |IdSet(ids)| == |ids| && multiset(items) == multiset(items')
    ensures SortedItems(items) == SortedItems(items')
  {
    UniqueItemsOrderStrict(items, ids);
    SortedItemsFacts(items);
    SortedItemsFacts(items');
    SortedIsUnique(ById, SortedItems(items), SortedItems(items'));
  }

  /** Listing the same clustered evidence in another order changes nothing, refusals included. */
  lemma ClusterEvidenceOrderIsImmaterial(h: ClusterDigests,
      baseline: seq<real>, candidate: seq<real>, ids: seq<Chars>, clusters: seq<Chars>,
      baseline': seq<real>, candidate': seq<real>, ids': seq<Chars>, clusters': seq<Chars>,
      baselineSha: string, candidateSha: string)
    requires |baseline| == |candidate| == |ids| == |clusters| && |baseline'| == |candidate'| == |ids'| == |clusters'|
    requires multiset(Quads(baseline, candidate, ids, clusters))
             == multiset(Quads(baseline', candidate', ids', clusters'))
    ensures ClusterReport(h, baseline, candidate, ids, clusters, baselineSha, candidateSha)
         == ClusterReport(h, baseline', candidate', ids', clusters', baselineSha, candidateSha)
  {
    CheckPermuted(baseline, candidate, ids, clusters, baseline', candidate', ids', clusters', baselineSha,
                  candidateSha);
    if CheckEvidence(baseline, candidate, ids, clusters, baselineSha, candidateSha).None? {
      var items, items' := ZipItems(baseline, candidate, ids, clusters),
        ZipItems(baseline', candidate', ids', clusters');
      var quads, quads' := Quads(baseline, candidate, ids, clusters), Quads(baseline', candidate', ids', clusters');
      assert items == ItemsOf(quads) && items' == ItemsOf(quads');
      ItemsPermuted(quads, quads');
      SortedTheSame(items, items', ids);
    }
  }

  // ----- the methods

  lemma ClusterIdsSnoc(items: seq<Item>, item: Item)
    ensures ClusterIds(items + [item]) == ClusterIds(items) + {item.cluster}
  {
    var all := items + [item];
    forall c
      ensures c in ClusterIds(all) <==> c in ClusterIds(items) || c == item.cluster
    {
      if c in ClusterIds(items) {
        var i :| 0 <= i < |items| && items[i].cluster == c;
        assert all[i] == items[i];
      }
      assert all[|items|] == item;
    }
  }

  predicate Groups(grouped: map<Chars, seq<real>>, items: seq<Item>) {
    grouped.Keys == ClusterIds(items) && forall c :: c in grouped ==> grouped[c] == Of(items, c)
  }

  lemma GroupsSnoc(grouped: map<Chars, seq<real>>, items: seq<Item>, item: Item)
    requires Groups(grouped, items)
    ensures var before := if item.cluster in grouped then grouped[item.cluster] else [];
            Groups(grouped[item.cluster := before + [item.difference]], items + [item])
  {
    ClusterIdsSnoc(items, item);
    PresentIsNonEmpty(items, item.cluster);
    forall c
      ensures Of(items + [item], c) == if item.cluster == c then Of(items, c) + [item.difference] else Of(items, c)
    {
      OfSnoc(items, item, c);
    }
  }

  /** The grouping loop. */
  method Group(items: seq<Item>) returns (grouped: map<Chars, seq<real>>)
    ensures grouped.Keys == ClusterIds(items) && forall c :: c in grouped ==> grouped[c] == Of(items, c)
  {
    grouped := map[];
    for i := 0 to |items|
      invariant Groups(grouped, items[..i])
    {
      var item := items[i];
      assert items[..i + 1] == items[..i] + [item];
      GroupsSnoc(grouped, items[..i], item);
      var before := if item.cluster in grouped then grouped[item.cluster] else [];
      grouped := grouped[item.cluster := before + [item.difference]];
    }
    assert items[..|items|] == items;
  }

  lemma {:induction false} TotalsSnoc(clusters: seq<Cluster>, c: Cluster)
    ensures TotalOf(clusters + [c]) == TotalOf(clusters) + c.total
    ensures SizeOf(clusters + [c]) == SizeOf(clusters) + c.size
  {
    if clusters == [] {
      assert clusters + [c] == [c];
      assert [c][1..] == [];
    } else {
      assert (clusters + [c])[1..] == clusters[1..] + [c];
      TotalsSnoc(clusters[1..], c);
    }
  }

  /** One draw of as many clusters as there are, with replacement. */
  method DrawClusters(rng: Generator, clusters: seq<Cluster>) returns (mean: real)
    requires ValidBound(|clusters|) && NonEmpty(clusters)
    modifies rng
    ensures rng.state == StateAfter(old(rng.state), |clusters|, |clusters|)
    ensures mean == WeightedMean(Chosen(clusters, Indices(|clusters|, old(rng.state), |clusters|)))
  {
    var count := |clusters|;
    ghost var start := rng.state;
    var total, size: nat := 0.0, 0;
    for k := 0 to count
      invariant rng.state == StateAfter(start, count, k)
      invariant total == TotalOf(Chosen(clusters, Indices(count, start, k)))
      invariant size == SizeOf(Chosen(clusters, Indices(count, start, k)))
    {
      var index := rng.RandBelow(count);
      total, size := total + clusters[index.value].total, size + clusters[index.value].size;
      ghost var drawn := Chosen(clusters, Indices(count, start, k));
      assert Chosen(clusters, Indices(count, start, k + 1)) == drawn + [clusters[index.value]];
      TotalsSnoc(drawn, clusters[index.value]);
    }
    SizePositive(Chosen(clusters, Indices(count, start, count)));
    mean := Mean(total, size);
  }

  method DrawSamples(rng: Generator, clusters: seq<Cluster>) returns (samples: seq<real>)
    requires ValidBound(|clusters|) && NonEmpty(clusters)
    modifies rng
    ensures Draws(Resamples(|clusters|, old(rng.state), RESAMPLES), |clusters|)
    ensures samples == WeightedMeans(clusters, Resamples(|clusters|, old(rng.state), RESAMPLES))
  {
    ghost var start := rng.state;
    samples := [];
    for m := 0 to RESAMPLES
      invariant rng.state == SampleState(|clusters|, start, m)
      invariant Draws(Resamples(|clusters|, start, m), |clusters|)
      invariant samples == WeightedMeans(clusters, Resamples(|clusters|, start, m))
    {
      ResamplesDraw(|clusters|, start, m + 1);
      var sample := DrawClusters(rng, clusters);
      samples := samples + [sample];
    }
  }

  method PairedClusteredBoundedBootstrap(h: ClusterDigests, baseline: seq<real>, candidate: seq<real>, ids: seq<Chars>,
                                         clusterIds: seq<Chars>, baselineSha: string, candidateSha: string)
    returns (r: ClusterResult)
    ensures r == ClusterReport(h, baseline, candidate, ids, clusterIds, baselineSha, candidateSha)
  {
    var problem := CheckEvidence(baseline, candidate, ids, clusterIds, baselineSha, candidateSha);
    if problem.Some? {
      return Refused(problem.value);
    }
    var items := ZipItems(baseline, candidate, ids, clusterIds);
    SortedItemsFacts(items);
    r := ReportItems(h, SortedItems(items), baselineSha, candidateSha);
  }

  method ReportItems(h: ClusterDigests, sorted: seq<Item>, baselineSha: string,
                     candidateSha: string) returns (r: ClusterResult)
    requires sorted != []
    ensures r == if |AllClusters(sorted)| < 2 then Refused(OneCluster)
                 else if !Digestible(sorted) then Refused(UnencodableIds)
                 else if |AllClusters(sorted)| > RANGE then Refused(TooManyClusters)
                 else Summarized(SummarizeItems(h, sorted, baselineSha, candidateSha))
  {
    var grouped := Group(sorted);
    ClustersNonEmpty(sorted);
    var names := SortedKeys(grouped.Keys);
    if |names| < 2 {
      return Refused(OneCluster);
    }
    if !Digestible(sorted) {
      return Refused(UnencodableIds);
    }
    if |names| > RANGE {
      return Refused(TooManyClusters);
    }
    assert forall k :: 0 <= k < |names| ==> names[k] in names;
    var clusters := seq(|names|, k requires 0 <= k < |names| => Cluster(Averages.Sum(grouped[names[k]]),
                                                                        |grouped[names[k]]|));
    assert clusters == AllClusters(sorted);
    var seed := ClusterSeed(h, baselineSha, candidateSha, sorted);
    var rng := new Generator(h.number(seed));
    var samples := DrawSamples(rng, clusters);
    r := Summarized(Assemble(h, sorted, |clusters|, IntervalsOf(samples), seed));
  }
}
