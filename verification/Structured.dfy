/**
 The paired structured-output summary (evals/structured.py) and the validator of its detached form.

 The fixed corpus and JSON Schema validation are predicates; arithmetic is exact.  The validators of
 evals/types.py say which evidence can exist.
 */
module Structured {
  import opened Averages
  import opened Options
  import opened Reals

  const JSON_SAFE_INTEGER_MAX: int := 9007199254740991
  const CATEGORY_ORDER := ["nested", "recursive", "enum", "pattern", "union"]

  // ----- evidence

  datatype Outcome = Completed | SchemaRejected | Failed

  datatype Usage = Usage(prompt: nat, completion: nat, total: nat)

  datatype Arm = Arm(constrained: bool, outcome: Outcome, content: Option<string>, refusal: Option<string>,
                     auxiliary: Option<string>, usage: Option<Usage>, latency: real)

  datatype Evidence = Evidence(constrained: Arm, unconstrained: Arm)

  datatype Leaf = Leaf(itemId: string, completed: bool, score: Option<real>, evidence: Option<Evidence>)

  datatype Attempt = Attempt(seed: int, result: Leaf)

  /** A source item: one leaf, or the attempts of a seed sweep. */
  datatype Item = Direct(leaf: Leaf) | Sweep(itemId: string, score: Option<real>, attempts: seq<Attempt>) {
    function Id(): string {
      if Direct? then leaf.itemId else itemId
    }

    function Score(): Option<real> {
      if Direct? then leaf.score else score
    }
  }

  /** A pair result; `seeds` is the declared schedule, None when the claim is missing or malformed. */
  datatype Pair = Pair(completed: bool, items: seq<Item>, seeds: Option<seq<Option<int>>>, score: Option<real>)

  /** The corpus row of an item: its category, and which contents parse, conform and match. */
  datatype Row = Row(category: string, parses: string -> bool, conforms: string -> bool, matches: string -> bool)

  type Corpus = map<string, Row>

  predicate ValidUsage(u: Usage) {
    u.total == u.prompt + u.completion && u.total <= JSON_SAFE_INTEGER_MAX
  }

  /** The validator of an arm. */
  predicate ValidArm(a: Arm) {
    && a.latency >= 0.0
    && (a.usage.Some? ==> ValidUsage(a.usage.value))
    && (a.outcome.Completed? && a.refusal.Some? ==> a.content.None? && a.auxiliary.None?)
    && (a.outcome.SchemaRejected? ==> a.constrained)
    && (!a.outcome.Completed? ==> a.content.None? && a.refusal.None? && a.auxiliary.None? && a.usage.None?)
  }

  predicate ValidEvidence(e: Evidence) {
    ValidArm(e.constrained) && ValidArm(e.unconstrained) && e.constrained.constrained && !e.unconstrained.constrained
  }

  /** The validator of a leaf: a failed arm means a failed, unscored item. */
  predicate ValidLeaf(l: Leaf) {
    l.evidence.Some? ==>
      && ValidEvidence(l.evidence.value)
      && (l.completed <==>
            !l.evidence.value.constrained.outcome.Failed? && !l.evidence.value.unconstrained.outcome.Failed?)
      && (l.completed <==> l.score.Some?)
  }

  predicate ValidItem(i: Item) {
    match i
    case Direct(leaf) => ValidLeaf(leaf)
    case Sweep(_, _, attempts) => attempts != [] && forall k :: 0 <= k < |attempts| ==> ValidLeaf(attempts[k].result)
  }

  // ----- judging an arm

  datatype Verdict = Verdict(accepted: bool, rejected: bool, jsonValid: bool, schemaValid: bool, correct: bool,
                             malformed: bool)

  /** `evaluate_arm`. */
  function Evaluate(a: Arm, row: Row): Verdict {
    var completed := a.outcome.Completed?;
    var jsonValid := completed && a.refusal.None? && a.auxiliary.None? && a.content.Some?
      && row.parses(a.content.value);
    var schemaValid := jsonValid && row.conforms(a.content.value);
    var correct := schemaValid && row.matches(a.content.value);
    Verdict(completed, a.outcome.SchemaRejected?, jsonValid, schemaValid, correct, completed && !jsonValid)
  }

  /** The ways an arm can end, from the worst to the best. */
  datatype Grade = NoAnswer | TurnedDown | Unreadable | Nonconforming | Wrong | Right

  /** How an arm ended, by what is in it. */
  ghost predicate Graded(a: Arm, row: Row, grade: Grade) {
    match grade
    case NoAnswer => a.outcome == Failed
    case TurnedDown => a.outcome == SchemaRejected
    case Unreadable =>
      a.outcome == Completed &&
      (a.refusal != None || a.auxiliary != None || forall text :: a.content == Some(text) ==> !row.parses(text))
    case _ =>
      && a.outcome == Completed && a.refusal == None && a.auxiliary == None
      && (exists text ::
            && a.content == Some(text) && row.parses(text) && (grade.Nonconforming? <==> !row.conforms(text))
            && (grade.Wrong? <==> row.conforms(text) && !row.matches(text)))
  }

  /** Every arm has exactly one grade, and the verdict says which. */
  lemma VerdictIsGrade(a: Arm, row: Row) returns (grade: Grade)
    ensures Graded(a, row, grade) && forall other :: Graded(a, row, other) ==> other == grade
    ensures var v := Evaluate(a, row);
            && (v.rejected <==> grade.TurnedDown?) && (v.malformed <==> grade.Unreadable?)
            && (v.accepted <==> !grade.NoAnswer? && !grade.TurnedDown?)
            && (v.jsonValid <==> grade.Nonconforming? || grade.Wrong? || grade.Right?)
            && (v.schemaValid <==> grade.Wrong? || grade.Right?) && (v.correct <==> grade.Right?)
  {
    if a.outcome != Completed {
      grade := if a.outcome == Failed then NoAnswer else TurnedDown;
    } else if a.refusal != None || a.auxiliary != None || a.content.None? || !row.parses(a.content.value) {
      grade := Unreadable;
    } else {
      var text := a.content.value;
      grade := if !row.conforms(text) then Nonconforming else if !row.matches(text) then Wrong else Right;
      assert a.content == Some(text);
    }
  }

  datatype Observation = Observation(arm: Arm, verdict: Verdict)

  function CountIf(os: seq<Observation>, p: Observation -> bool): nat {
    if os == [] then 0 else (if p(os[0]) then 1 else 0) + CountIf(os[1..], p)
  }

  lemma {:induction false} CountSplits(os: seq<Observation>, p: Observation -> bool, q: Observation -> bool,
                                       r: Observation -> bool)
    requires forall i :: 0 <= i < |os| ==> (r(os[i]) <==> p(os[i]) || q(os[i])) && !(p(os[i]) && q(os[i]))
    ensures CountIf(os, p) + CountIf(os, q) == CountIf(os, r)
  {
    if os != [] {
      CountSplits(os[1..], p, q, r);
    }
  }

  lemma {:induction false} CountAtMost(os: seq<Observation>, p: Observation -> bool, q: Observation -> bool)
    requires forall i :: 0 <= i < |os| && p(os[i]) ==> q(os[i])
    ensures CountIf(os, p) <= CountIf(os, q)
  {
    if os != [] {
      CountAtMost(os[1..], p, q);
    }
  }

  lemma {:induction false} CountAll(os: seq<Observation>, p: Observation -> bool)
    requires forall i :: 0 <= i < |os| ==> p(os[i])
    ensures CountIf(os, p) == |os|
  {
    if os != [] {
      CountAll(os[1..], p);
    }
  }

  lemma {:induction false} CountNone(os: seq<Observation>, p: Observation -> bool)
    requires forall i :: 0 <= i < |os| ==> !p(os[i])
    ensures CountIf(os, p) == 0
  {
    if os != [] {
      CountNone(os[1..], p);
    }
  }

  // ----- arithmetic of the summary

  function IntSum(s: seq<int>): int {
    if s == [] then 0 else s[0] + IntSum(s[1..])
  }

  /** `_ratio`. */
  function Ratio(numerator: int, denominator: nat): Option<real> {
    if denominator == 0 then None else Some(numerator as real / denominator as real)
  }

  /** `mean(...) if values else None`. */
  function IntMean(s: seq<int>): Option<real> {
    Ratio(IntSum(s), |s|)
  }

  // ----- the summary of one arm

  datatype ArmSummary = ArmSummary(
    observations: int, accepted: int, rejected: int, jsonValid: int, schemaValid: int, correct: int, malformed: int,
    acceptanceRate: Option<real>, jsonValidRate: Option<real>, conformanceRate: Option<real>,
    accuracy: Option<real>, malformedRate: Option<real>,
    usageObservations: int, usageCoverage: Option<real>,
    promptTotal: int, completionTotal: int, tokenTotal: int,
    meanPrompt: Option<real>, meanCompletion: Option<real>, meanTotal: Option<real>,
    meanLatency: Option<real>)

  predicate Accepted(o: Observation) {
    o.verdict.accepted
  }

  predicate Rejected(o: Observation) {
    o.verdict.rejected
  }

  predicate JsonValid(o: Observation) {
    o.verdict.jsonValid
  }

  predicate SchemaValid(o: Observation) {
    o.verdict.schemaValid
  }

  predicate Correct(o: Observation) {
    o.verdict.correct
  }

  predicate Malformed(o: Observation) {
    o.verdict.malformed
  }

  predicate Metered(o: Observation) {
    o.verdict.accepted && o.arm.usage.Some?
  }

  function UsageOf(os: seq<Observation>): seq<Usage> {
    if os == [] then []
    else (if Metered(os[0]) then [os[0].arm.usage.value] else []) + UsageOf(os[1..])
  }

  function Prompts(us: seq<Usage>): (r: seq<int>)
    ensures |r| == |us|
  {
    if us == [] then [] else [us[0].prompt] + Prompts(us[1..])
  }

  function Completions(us: seq<Usage>): (r: seq<int>)
    ensures |r| == |us|
  {
    if us == [] then [] else [us[0].completion] + Completions(us[1..])
  }

  function TokenTotals(us: seq<Usage>): (r: seq<int>)
    ensures |r| == |us|
  {
    if us == [] then [] else [us[0].total] + TokenTotals(us[1..])
  }

  function Latencies(os: seq<Observation>): (r: seq<real>)
    ensures |r| == |os| && forall i :: 0 <= i < |r| ==> r[i] == os[i].arm.latency
  {
    seq(|os|, i requires 0 <= i < |os| => os[i].arm.latency)
  }

  /** `_arm_summary`. */
  function Summarize(os: seq<Observation>): ArmSummary {
    var accepted, jsonValid, schemaValid, correct, malformed :=
      CountIf(os, Accepted), CountIf(os, JsonValid), CountIf(os, SchemaValid), CountIf(os, Correct),
        CountIf(os, Malformed);
    var usage := UsageOf(os);
    ArmSummary(
      |os|, accepted, CountIf(os, Rejected), jsonValid, schemaValid, correct, malformed,
      Ratio(accepted, |os|), Ratio(jsonValid, accepted), Ratio(schemaValid, |os|),
      Ratio(correct, |os|), Ratio(malformed, accepted),
      |usage|, Ratio(|usage|, accepted),
      IntSum(Prompts(usage)), IntSum(Completions(usage)), IntSum(TokenTotals(usage)),
      IntMean(Prompts(usage)), IntMean(Completions(usage)), IntMean(TokenTotals(usage)),
      if os == [] then None else Some(Mean(Latencies(os))))
  }

  predicate SafeCount(n: int) {
    0 <= n <= JSON_SAFE_INTEGER_MAX
  }

  predicate SafeCounts(a: ArmSummary) {
    && SafeCount(a.observations) && SafeCount(a.accepted) && SafeCount(a.rejected) && SafeCount(a.jsonValid)
    && SafeCount(a.schemaValid) && SafeCount(a.correct) && SafeCount(a.malformed) && SafeCount(a.usageObservations)
    && SafeCount(a.promptTotal) && SafeCount(a.completionTotal) && SafeCount(a.tokenTotal)
  }

  predicate CountsImply(a: ArmSummary, constrained: bool, observations: int) {
    && a.observations == observations
    && a.accepted + a.rejected == observations
    && (!constrained ==> a.rejected == 0)
    && a.jsonValid + a.malformed == a.accepted
    && 0 <= a.correct <= a.schemaValid <= a.jsonValid <= a.accepted
    && a.usageObservations <= a.accepted
    && a.tokenTotal == a.promptTotal + a.completionTotal
  }

  predicate RatesAgree(a: ArmSummary)
    requires SafeCounts(a)
  {
    && a.acceptanceRate == Ratio(a.accepted, a.observations) && a.jsonValidRate == Ratio(a.jsonValid, a.accepted)
    && a.conformanceRate == Ratio(a.schemaValid, a.observations) && a.accuracy == Ratio(a.correct, a.observations)
    && a.malformedRate == Ratio(a.malformed, a.accepted) && a.usageCoverage == Ratio(a.usageObservations, a.accepted)
    && a.meanPrompt == Ratio(a.promptTotal, a.usageObservations)
    && a.meanCompletion == Ratio(a.completionTotal, a.usageObservations)
    && a.meanTotal == Ratio(a.tokenTotal, a.usageObservations)
    && a.meanLatency.Some? && a.meanLatency.value >= 0.0
  }

  /** The checks of the validator on one arm. */
  predicate ValidArmSummary(a: ArmSummary, constrained: bool, observations: int) {
    SafeCounts(a) && CountsImply(a, constrained, observations) && RatesAgree(a)
  }

  /** An observation that can exist in a completed leaf. */
  ghost predicate Possible(o: Observation, constrained: bool) {
    && ValidArm(o.arm) && o.arm.constrained == constrained && !o.arm.outcome.Failed?
    && exists row :: o.verdict == Evaluate(o.arm, row)
  }

  ghost predicate AllPossible(os: seq<Observation>, constrained: bool) {
    forall i :: 0 <= i < |os| ==> Possible(os[i], constrained)
  }

  lemma {:induction false} UsageCounted(os: seq<Observation>)
    ensures |UsageOf(os)| == CountIf(os, Metered)
  {
    if os != [] {
      UsageCounted(os[1..]);
    }
  }

  predicate AllValidUsage(us: seq<Usage>) {
    forall i :: 0 <= i < |us| ==> ValidUsage(us[i])
  }

  lemma {:induction false} UsageIsValid(os: seq<Observation>, constrained: bool)
    requires AllPossible(os, constrained)
    ensures AllValidUsage(UsageOf(os))
  {
    if os != [] {
      assert Possible(os[0], constrained);
      UsageIsValid(os[1..], constrained);
    }
  }

  lemma {:induction false} TokensAdd(us: seq<Usage>)
    requires AllValidUsage(us)
    ensures IntSum(TokenTotals(us)) == IntSum(Prompts(us)) + IntSum(Completions(us))
    ensures IntSum(Prompts(us)) >= 0 && IntSum(Completions(us)) >= 0
  {
    if us != [] {
      assert ValidUsage(us[0]);
      TokensAdd(us[1..]);
    }
  }

  lemma ArmCounts(os: seq<Observation>, constrained: bool)
    requires AllPossible(os, constrained)
    ensures CountsImply(Summarize(os), constrained, |os|)
  {
    CountSplits(os, Accepted, Rejected, _ => true);
    CountAll(os, _ => true);
    CountSplits(os, JsonValid, Malformed, Accepted);
    CountAtMost(os, Correct, SchemaValid);
    CountAtMost(os, SchemaValid, JsonValid);
    CountAtMost(os, JsonValid, Accepted);
    UsageCounted(os);
    CountAtMost(os, Metered, Accepted);
    UsageIsValid(os, constrained);
    TokensAdd(UsageOf(os));
    if !constrained {
      CountNone(os, Rejected);
    }
  }

  lemma ArmLatency(os: seq<Observation>, constrained: bool)
    requires AllPossible(os, constrained) && os != []
    ensures Mean(Latencies(os)) >= 0.0
  {
    forall i | 0 <= i < |os|
      ensures 0.0 <= Latencies(os)[i] <= Greatest(Latencies(os))
    {
      assert Possible(os[i], constrained);
    }
    MeanRange(Latencies(os), 0.0, Greatest(Latencies(os)));
  }

  lemma SafeIff(a: ArmSummary, constrained: bool, observations: int)
    requires CountsImply(a, constrained, observations)
    requires a.rejected >= 0 && a.malformed >= 0 && a.usageObservations >= 0 && a.promptTotal >= 0
    requires a.completionTotal >= 0
    ensures SafeCounts(a) <==> observations <= JSON_SAFE_INTEGER_MAX && a.tokenTotal <= JSON_SAFE_INTEGER_MAX
  {
  }

  lemma ArmRates(os: seq<Observation>)
    requires SafeCounts(Summarize(os)) && os != [] && Mean(Latencies(os)) >= 0.0
    ensures RatesAgree(Summarize(os))
  {
  }

  /** An arm summary is accepted exactly when its counts and token totals stay in the safe range. */
  lemma ArmAccepted(os: seq<Observation>, constrained: bool)
    requires AllPossible(os, constrained) && os != []
    ensures ValidArmSummary(Summarize(os), constrained, |os|)
       <==> |os| <= JSON_SAFE_INTEGER_MAX && Summarize(os).tokenTotal <= JSON_SAFE_INTEGER_MAX
  {
    ArmCounts(os, constrained);
    UsageIsValid(os, constrained);
    TokensAdd(UsageOf(os));
    SafeIff(Summarize(os), constrained, |os|);
    if SafeCounts(Summarize(os)) {
      ArmLatency(os, constrained);
      ArmRates(os);
    }
  }

  // ----- the leaf schedule

  /** `_claim_and_seeds`. */
  predicate ValidSeeds(seeds: seq<Option<int>>) {
    && seeds != []
    && (|seeds| > 1 ==>
          && (forall i :: 0 <= i < |seeds| ==> seeds[i].Some?)
          && (forall i, j :: 0 <= i < j < |seeds| ==> seeds[i] != seeds[j]))
  }

  predicate Scheduled(a: Attempt, seed: Option<int>, itemId: string) {
    seed == Some(a.seed) && a.result.itemId == itemId
  }

  function Results(attempts: seq<Attempt>): (r: seq<Leaf>)
    ensures |r| == |attempts| && forall i :: 0 <= i < |r| ==> r[i] == attempts[i].result
  {
    seq(|attempts|, i requires 0 <= i < |attempts| => attempts[i].result)
  }

  function ItemLeaves(item: Item, seeds: seq<Option<int>>): (r: Option<seq<Leaf>>)
    ensures r.Some? ==> |r.value| == |seeds|
  {
    match item
    case Direct(leaf) => if |seeds| == 1 then Some([leaf]) else None
    case Sweep(itemId, _, attempts) =>
      if |attempts| == |seeds| && forall k :: 0 <= k < |seeds| ==> Scheduled(attempts[k], seeds[k], itemId)
      then Some(Results(attempts)) else None
  }

  function AllLeaves(items: seq<Item>, seeds: seq<Option<int>>): Option<seq<Leaf>> {
    if items == [] then Some([]) else Join(ItemLeaves(items[0], seeds), AllLeaves(items[1..], seeds))
  }

  function Leaves(pair: Pair): Option<seq<Leaf>> {
    if pair.seeds.Some? && ValidSeeds(pair.seeds.value) then AllLeaves(pair.items, pair.seeds.value) else None
  }

  method ScheduleItem(item: Item, seeds: seq<Option<int>>) returns (r: Option<seq<Leaf>>)
    ensures r == ItemLeaves(item, seeds)
  {
    if item.Direct? {
      return if |seeds| != 1 then None else Some([item.leaf]);
    }
    if |item.attempts| != |seeds| {
      return None;
    }
    var scheduled: seq<Leaf> := [];
    for k := 0 to |seeds|
      invariant |scheduled| == k
      invariant forall i :: 0 <= i < k ==>
                  Scheduled(item.attempts[i], seeds[i], item.itemId) && scheduled[i] == item.attempts[i].result
    {
      if !Scheduled(item.attempts[k], seeds[k], item.itemId) {
        return None;
      }
      scheduled := scheduled + [item.attempts[k].result];
    }
    assert scheduled == Results(item.attempts);
    return Some(scheduled);
  }

  /** `_leaf_schedule`. */
  method LeafSchedule(pair: Pair) returns (r: Option<seq<Leaf>>)
    ensures r == Leaves(pair)
  {
    if pair.seeds.None? || !ValidSeeds(pair.seeds.value) {
      return None;
    }
    var seeds := pair.seeds.value;
    var scheduled: seq<Leaf> := [];
    JoinEmpty(AllLeaves(pair.items, seeds));
    for i := 0 to |pair.items|
      invariant AllLeaves(pair.items, seeds) == Join(Some(scheduled), AllLeaves(pair.items[i..], seeds))
    {
      var leaves := ScheduleItem(pair.items[i], seeds);
      assert pair.items[i..][1..] == pair.items[i + 1..];
      JoinAssociative(Some(scheduled), leaves, AllLeaves(pair.items[i + 1..], seeds));
      if leaves.None? {
        return None;
      }
      scheduled := scheduled + leaves.value;
    }
    JoinEmpty(Some(scheduled));
    return Some(scheduled);
  }

  lemma {:induction false} LeafCount(items: seq<Item>, seeds: seq<Option<int>>)
    requires AllLeaves(items, seeds).Some?
    ensures |AllLeaves(items, seeds).value| == |items| * |seeds|
  {
    if items != [] {
      LeafCount(items[1..], seeds);
      assert |items| * |seeds| == |seeds| + (|items| - 1) * |seeds|;
    }
  }

  // ----- the summary

  predicate Judgeable(corpus: Corpus, leaf: Leaf) {
    leaf.completed && leaf.itemId in corpus && leaf.evidence.Some?
  }

  predicate AllJudgeable(corpus: Corpus, leaves: seq<Leaf>) {
    forall i :: 0 <= i < |leaves| ==> Judgeable(corpus, leaves[i])
  }

  function ArmOf(leaf: Leaf, constrained: bool): Arm
    requires leaf.evidence.Some?
  {
    if constrained then leaf.evidence.value.constrained else leaf.evidence.value.unconstrained
  }

  function Observed(corpus: Corpus, leaves: seq<Leaf>, constrained: bool): (r: seq<Observation>)
    requires AllJudgeable(corpus, leaves)
    ensures |r| == |leaves|
    ensures forall i :: 0 <= i < |r| ==>
      r[i] == Observation(ArmOf(leaves[i], constrained), Evaluate(ArmOf(leaves[i], constrained),
                                                                  corpus[leaves[i].itemId]))
  {
    seq(|leaves|, i requires 0 <= i < |leaves| =>
      Observation(ArmOf(leaves[i], constrained), Evaluate(ArmOf(leaves[i], constrained), corpus[leaves[i].itemId])))
  }

  datatype UsagePair = UsagePair(left: Usage, right: Usage)

  function PairedUsage(leaves: seq<Leaf>): seq<UsagePair> {
    if leaves == [] then []
    else
      var e := leaves[0].evidence;
      (if e.Some? && e.value.constrained.usage.Some? && e.value.unconstrained.usage.Some?
       then [UsagePair(e.value.constrained.usage.value, e.value.unconstrained.usage.value)] else [])
      + PairedUsage(leaves[1..])
  }

  function PromptDeltas(us: seq<UsagePair>): (r: seq<int>)
    ensures |r| == |us|
  {
    if us == [] then [] else [us[0].left.prompt - us[0].right.prompt] + PromptDeltas(us[1..])
  }

  function CompletionDeltas(us: seq<UsagePair>): (r: seq<int>)
    ensures |r| == |us|
  {
    if us == [] then [] else [us[0].left.completion - us[0].right.completion] + CompletionDeltas(us[1..])
  }

  function TotalDeltas(us: seq<UsagePair>): (r: seq<int>)
    ensures |r| == |us|
  {
    if us == [] then [] else [us[0].left.total - us[0].right.total] + TotalDeltas(us[1..])
  }

  /** The names of `order` that occur in `names`, in that order. */
  function InOrder(order: seq<string>, names: seq<string>): seq<string> {
    if order == [] then []
    else (if order[0] in names then [order[0]] else []) + InOrder(order[1..], names)
  }

  function Categories(corpus: Corpus, items: seq<Item>): seq<string>
    requires forall i :: 0 <= i < |items| ==> items[i].Id() in corpus
  {
    seq(|items|, i requires 0 <= i < |items| => corpus[items[i].Id()].category)
  }

  datatype Summary = Summary(
    categories: seq<string>, sourceItems: int, attempts: int, observations: int,
    constrained: ArmSummary, unconstrained: ArmSummary,
    conformanceDelta: Option<real>, accuracyDelta: Option<real>,
    pairedUsage: int, pairedCoverage: Option<real>,
    promptDelta: Option<real>, completionDelta: Option<real>, totalDelta: Option<real>,
    latencyObservations: int, latencyDelta: Option<real>)

  function Minus(a: Option<real>, b: Option<real>): Option<real> {
    if a.Some? && b.Some? then Some(a.value - b.value) else None
  }

  /** The latency differences, one for every leaf. */
  function LatencyDeltas(c: seq<Observation>, u: seq<Observation>): seq<real>
    requires |c| == |u|
  {
    Averages.Minus(Latencies(c), Latencies(u))
  }

  /** The lists the loop over leaves builds. */
  datatype Lists = Lists(constrained: seq<Observation>, unconstrained: seq<Observation>, paired: seq<UsagePair>,
                         latency: seq<real>)

  function ListsOf(corpus: Corpus, leaves: seq<Leaf>): (r: Lists)
    requires AllJudgeable(corpus, leaves)
    ensures |r.constrained| == |r.unconstrained| == |r.latency| == |leaves|
  {
    var c, u := Observed(corpus, leaves, true), Observed(corpus, leaves, false);
    Lists(c, u, PairedUsage(leaves), LatencyDeltas(c, u))
  }

  function Assemble(categories: seq<string>, sourceItems: nat, attempts: nat, lists: Lists): Summary
    requires lists.latency != []
  {
    var c, u, observations := Summarize(lists.constrained), Summarize(lists.unconstrained), |lists.latency|;
    Summary(categories, sourceItems, attempts, observations, c, u,
            Minus(c.conformanceRate, u.conformanceRate), Minus(c.accuracy, u.accuracy),
            |lists.paired|, Ratio(|lists.paired|, observations),
            IntMean(PromptDeltas(lists.paired)), IntMean(CompletionDeltas(lists.paired)),
              IntMean(TotalDeltas(lists.paired)),
            observations, Some(Mean(lists.latency)))
  }

  lemma FirstKnown(corpus: Corpus, item: Item, seeds: seq<Option<int>>, rest: seq<Leaf>)
    requires seeds != [] && ItemLeaves(item, seeds).Some? && AllJudgeable(corpus, ItemLeaves(item, seeds).value + rest)
    ensures item.Id() in corpus && AllJudgeable(corpus, rest)
  {
    var first := ItemLeaves(item, seeds).value;
    var all := first + rest;
    assert all[0] == first[0] && first[0].itemId == item.Id();
    assert Judgeable(corpus, all[0]);
    assert forall i :: 0 <= i < |rest| ==> rest[i] == all[|first| + i];
  }

  lemma {:induction false} ItemsKnown(corpus: Corpus, items: seq<Item>, seeds: seq<Option<int>>)
    requires seeds != [] && AllLeaves(items, seeds).Some? && AllJudgeable(corpus, AllLeaves(items, seeds).value)
    ensures forall i :: 0 <= i < |items| ==> items[i].Id() in corpus
  {
    if items != [] {
      FirstKnown(corpus, items[0], seeds, AllLeaves(items[1..], seeds).value);
      ItemsKnown(corpus, items[1..], seeds);
    }
  }

  /** What `structured_summary` returns. */
  function SummaryOf(corpus: Corpus, pair: Pair): Option<Summary> {
    var leaves := Leaves(pair);
    if pair.completed && pair.items != [] && leaves.Some? && leaves.value != []
      && AllJudgeable(corpus, leaves.value) then
      ItemsKnown(corpus, pair.items, pair.seeds.value);
      Some(Assemble(InOrder(CATEGORY_ORDER, Categories(corpus, pair.items)), |pair.items|, |pair.seeds.value|,
                    ListsOf(corpus, leaves.value)))
    else None
  }

  /** The lists after one more leaf. */
  function Extended(lists: Lists, leaf: Leaf, row: Row): Lists
    requires leaf.evidence.Some?
  {
    var e := leaf.evidence.value;
    Lists(lists.constrained + [Observation(e.constrained, Evaluate(e.constrained, row))],
          lists.unconstrained + [Observation(e.unconstrained, Evaluate(e.unconstrained, row))],
          lists.paired + UsagePairOf(leaf),
          lists.latency + [e.constrained.latency - e.unconstrained.latency])
  }

  /** The loop of `structured_summary`. */
  method Judge(corpus: Corpus, leaves: seq<Leaf>) returns (r: Option<Lists>)
    ensures r == if AllJudgeable(corpus, leaves) then Some(ListsOf(corpus, leaves)) else None
  {
    var lists := Lists([], [], [], []);
    for i := 0 to |leaves|
      invariant AllJudgeable(corpus, leaves[..i]) && lists == ListsOf(corpus, leaves[..i])
    {
      if !Judgeable(corpus, leaves[i]) {
        return None;
      }
      LeafTaken(corpus, leaves, i);
      lists := Extended(lists, leaves[i], corpus[leaves[i].itemId]);
    }
    assert leaves[..|leaves|] == leaves;
    return Some(lists);
  }

  /** `structured_summary`. */
  method StructuredSummary(corpus: Corpus, pair: Pair) returns (r: Option<Summary>)
    ensures r == SummaryOf(corpus, pair)
  {
    if !pair.completed || pair.items == [] {
      return None;
    }
    var scheduled := LeafSchedule(pair);
    if scheduled.None? || scheduled.value == [] {
      return None;
    }
    var lists := Judge(corpus, scheduled.value);
    if lists.None? {
      return None;
    }
    ItemsKnown(corpus, pair.items, pair.seeds.value);
    return Some(Assemble(InOrder(CATEGORY_ORDER, Categories(corpus, pair.items)), |pair.items|, |pair.seeds.value|,
                         lists.value));
  }

  lemma {:induction false} PairedUsageAppend(a: seq<Leaf>, b: seq<Leaf>)
    ensures PairedUsage(a + b) == PairedUsage(a) + PairedUsage(b)
  {
    if a == [] {
      assert a + b == b;
    } else {
      assert (a + b)[1..] == a[1..] + b;
      PairedUsageAppend(a[1..], b);
    }
  }

  function UsagePairOf(leaf: Leaf): seq<UsagePair>
    requires leaf.evidence.Some?
  {
    var e := leaf.evidence.value;
    if e.constrained.usage.Some? && e.unconstrained.usage.Some?
    then [UsagePair(e.constrained.usage.value, e.unconstrained.usage.value)] else []
  }

  lemma PairedUsageSnoc(leaves: seq<Leaf>, leaf: Leaf)
    requires leaf.evidence.Some?
    ensures PairedUsage(leaves + [leaf]) == PairedUsage(leaves) + UsagePairOf(leaf)
  {
    var one := [leaf];
    PairedUsageAppend(leaves, one);
    assert one[1..] == [];
    assert PairedUsage(one) == UsagePairOf(leaf);
  }

  lemma ObservedSnoc(corpus: Corpus, leaves: seq<Leaf>, leaf: Leaf, constrained: bool)
    requires AllJudgeable(corpus, leaves) && Judgeable(corpus, leaf)
    ensures AllJudgeable(corpus, leaves + [leaf])
    ensures Observed(corpus, leaves + [leaf], constrained) == Observed(corpus, leaves, constrained)
              + [Observation(ArmOf(leaf, constrained), Evaluate(ArmOf(leaf, constrained), corpus[leaf.itemId]))]
  {
  }

  lemma LatencyDeltasSnoc(c: seq<Observation>, u: seq<Observation>, x: Observation, y: Observation)
    requires |c| == |u|
    ensures LatencyDeltas(c + [x], u + [y]) == LatencyDeltas(c, u) + [x.arm.latency - y.arm.latency]
  {
  }

  lemma LeafTaken(corpus: Corpus, leaves: seq<Leaf>, i: nat)
    requires i < |leaves| && AllJudgeable(corpus, leaves[..i]) && Judgeable(corpus, leaves[i])
    ensures AllJudgeable(corpus, leaves[..i + 1])
    ensures ListsOf(corpus, leaves[..i + 1]) == Extended(ListsOf(corpus, leaves[..i]), leaves[i],
                                                         corpus[leaves[i].itemId])
  {
    var leaf, row := leaves[i], corpus[leaves[i].itemId];
    assert leaves[..i + 1] == leaves[..i] + [leaf];
    ObservedSnoc(corpus, leaves[..i], leaf, true);
    ObservedSnoc(corpus, leaves[..i], leaf, false);
    PairedUsageSnoc(leaves[..i], leaf);
    LatencyDeltasSnoc(Observed(corpus, leaves[..i], true), Observed(corpus, leaves[..i], false),
                      Observation(ArmOf(leaf, true), Evaluate(ArmOf(leaf, true), row)),
                      Observation(ArmOf(leaf, false), Evaluate(ArmOf(leaf, false), row)));
  }

  // ----- the validator of the detached summary

  predicate Distinct(names: seq<string>) {
    forall i, j :: 0 <= i < j < |names| ==> names[i] != names[j]
  }

  predicate ValidCategories(v: Summary) {
    v.categories != [] && v.categories == InOrder(CATEGORY_ORDER, v.categories) && Distinct(v.categories)
  }

  predicate PositiveCount(n: int) {
    1 <= n <= JSON_SAFE_INTEGER_MAX
  }

  predicate ValidDimensions(v: Summary, total: int, completed: bool) {
    && completed && PositiveCount(total) && PositiveCount(v.sourceItems) && v.sourceItems == total
    && PositiveCount(v.attempts) && PositiveCount(v.observations)
    && v.observations == v.sourceItems * v.attempts
  }

  predicate ValidDeltas(v: Summary, score: Option<real>) {
    && v.conformanceDelta.Some? && v.conformanceDelta == Minus(v.constrained.conformanceRate,
                                                               v.unconstrained.conformanceRate)
    && v.accuracyDelta.Some? && v.accuracyDelta == Minus(v.constrained.accuracy, v.unconstrained.accuracy)
    && score.Some? && score == v.constrained.accuracy
  }

  predicate Present(delta: Option<real>, usage: int) {
    if usage == 0 then delta.None? else delta.Some?
  }

  predicate ValidPairedCost(v: Summary)
    requires v.observations >= 0
  {
    && 0 <= v.pairedUsage <= v.observations && v.pairedUsage <= JSON_SAFE_INTEGER_MAX
    && v.pairedCoverage == Ratio(v.pairedUsage, v.observations)
    && Present(v.promptDelta, v.pairedUsage) && Present(v.completionDelta, v.pairedUsage)
    && Present(v.totalDelta, v.pairedUsage)
    && (v.pairedUsage > 0 ==> v.totalDelta.value == v.promptDelta.value + v.completionDelta.value)
  }

  predicate ValidLatency(v: Summary) {
    && SafeCount(v.latencyObservations) && v.latencyObservations == v.observations
    && v.latencyDelta.Some? && v.latencyDelta == Minus(v.constrained.meanLatency, v.unconstrained.meanLatency)
  }

  /** `structured_summary_error` finds nothing. */
  predicate AcceptedSummary(v: Summary, score: Option<real>, total: int, completed: bool) {
    && ValidCategories(v)
    && ValidDimensions(v, total, completed)
    && ValidArmSummary(v.constrained, true, v.observations)
    && ValidArmSummary(v.unconstrained, false, v.observations)
    && ValidDeltas(v, score)
    && ValidPairedCost(v)
    && ValidLatency(v)
  }

  // ----- producer and validator agree

  lemma {:induction false} InOrderContents(order: seq<string>, names: seq<string>)
    ensures forall x :: x in InOrder(order, names) <==> x in order && x in names
  {
    if order != [] {
      InOrderContents(order[1..], names);
      assert order == [order[0]] + order[1..];
    }
  }

  lemma {:induction false} InOrderAgain(order: seq<string>, names: seq<string>, kept: seq<string>)
    requires forall x :: x in order ==> (x in kept <==> x in names)
    ensures InOrder(order, kept) == InOrder(order, names)
  {
    if order != [] {
      assert forall x :: x in order[1..] ==> x in order;
      InOrderAgain(order[1..], names, kept);
    }
  }

  lemma {:induction false} InOrderDistinct(order: seq<string>, names: seq<string>)
    requires Distinct(order)
    ensures Distinct(InOrder(order, names))
  {
    if order != [] {
      InOrderDistinct(order[1..], names);
      InOrderContents(order[1..], names);
      assert order[0] !in order[1..];
    }
  }

  predicate ValidCorpus(corpus: Corpus) {
    forall id :: id in corpus ==> corpus[id].category in CATEGORY_ORDER
  }

  lemma CategoriesAccepted(corpus: Corpus, items: seq<Item>)
    requires ValidCorpus(corpus) && items != [] && forall i :: 0 <= i < |items| ==> items[i].Id() in corpus
    ensures var kept := InOrder(CATEGORY_ORDER, Categories(corpus, items));
            kept != [] && kept == InOrder(CATEGORY_ORDER, kept) && Distinct(kept)
  {
    var names := Categories(corpus, items);
    var kept := InOrder(CATEGORY_ORDER, names);
    InOrderContents(CATEGORY_ORDER, names);
    InOrderAgain(CATEGORY_ORDER, names, kept);
    assert Distinct(CATEGORY_ORDER);
    InOrderDistinct(CATEGORY_ORDER, names);
    assert names[0] in kept;
  }

  predicate AllValidLeaves(leaves: seq<Leaf>) {
    forall i :: 0 <= i < |leaves| ==> ValidLeaf(leaves[i])
  }

  predicate ValidItems(items: seq<Item>) {
    forall i :: 0 <= i < |items| ==> ValidItem(items[i])
  }

  lemma {:induction false} LeavesValid(items: seq<Item>, seeds: seq<Option<int>>)
    requires ValidItems(items) && AllLeaves(items, seeds).Some?
    ensures AllValidLeaves(AllLeaves(items, seeds).value)
  {
    if items != [] {
      assert ValidItem(items[0]);
      LeavesValid(items[1..], seeds);
    }
  }

  lemma ObservedPossible(corpus: Corpus, leaves: seq<Leaf>, constrained: bool)
    requires AllJudgeable(corpus, leaves) && AllValidLeaves(leaves)
    ensures AllPossible(Observed(corpus, leaves, constrained), constrained)
  {
    var os := Observed(corpus, leaves, constrained);
    forall i | 0 <= i < |os|
      ensures Possible(os[i], constrained)
    {
      assert Judgeable(corpus, leaves[i]) && ValidLeaf(leaves[i]);
      assert os[i].verdict == Evaluate(os[i].arm, corpus[leaves[i].itemId]);
    }
  }

  predicate ValidUsagePairs(us: seq<UsagePair>) {
    forall i :: 0 <= i < |us| ==> ValidUsage(us[i].left) && ValidUsage(us[i].right)
  }

  lemma {:induction false} PairedUsageFacts(leaves: seq<Leaf>)
    requires AllValidLeaves(leaves)
    ensures |PairedUsage(leaves)| <= |leaves| && ValidUsagePairs(PairedUsage(leaves))
  {
    if leaves != [] {
      assert ValidLeaf(leaves[0]);
      PairedUsageFacts(leaves[1..]);
    }
  }

  lemma {:induction false} DeltasAdd(us: seq<UsagePair>)
    requires ValidUsagePairs(us)
    ensures IntSum(TotalDeltas(us)) == IntSum(PromptDeltas(us)) + IntSum(CompletionDeltas(us))
  {
    if us != [] {
      assert ValidUsage(us[0].left) && ValidUsage(us[0].right);
      DeltasAdd(us[1..]);
    }
  }

  lemma RatioAdds(a: int, b: int, n: nat)
    requires n > 0
    ensures Ratio(a + b, n) == Some(Ratio(a, n).value + Ratio(b, n).value)
  {
    QuotientSum(a as real, b as real, n as real);
  }

  lemma PairedCostAccepted(v: Summary, us: seq<UsagePair>)
    requires ValidUsagePairs(us) && |us| <= v.observations <= JSON_SAFE_INTEGER_MAX
    requires v.pairedUsage == |us| && v.pairedCoverage == Ratio(|us|, v.observations)
    requires v.promptDelta == IntMean(PromptDeltas(us)) && v.completionDelta == IntMean(CompletionDeltas(us))
    requires v.totalDelta == IntMean(TotalDeltas(us))
    ensures ValidPairedCost(v)
  {
    DeltasAdd(us);
    if |us| > 0 {
      RatioAdds(IntSum(PromptDeltas(us)), IntSum(CompletionDeltas(us)), |us|);
    }
  }

  lemma LatencyAccepted(c: seq<Observation>, u: seq<Observation>)
    requires |c| == |u| > 0
    ensures Some(Mean(LatencyDeltas(c, u))) == Minus(Summarize(c).meanLatency, Summarize(u).meanLatency)
  {
    MeanMinus(Latencies(c), Latencies(u));
  }

  // ----- the headline

  /** The score `_expected_leaf_error` demands of a completed leaf. */
  function LeafScore(corpus: Corpus, leaf: Leaf): real
    requires Judgeable(corpus, leaf)
  {
    if Evaluate(leaf.evidence.value.constrained, corpus[leaf.itemId]).correct then 1.0 else 0.0
  }

  function LeafScores(corpus: Corpus, leaves: seq<Leaf>): (r: seq<real>)
    requires AllJudgeable(corpus, leaves)
    ensures |r| == |leaves| && forall i :: 0 <= i < |r| ==> r[i] == LeafScore(corpus, leaves[i])
  {
    seq(|leaves|, i requires 0 <= i < |leaves| => LeafScore(corpus, leaves[i]))
  }

  /** The item score is the mean of its leaf scores. */
  predicate ItemScored(corpus: Corpus, item: Item, seeds: seq<Option<int>>) {
    var leaves := ItemLeaves(item, seeds);
    seeds != [] && leaves.Some? && AllJudgeable(corpus, leaves.value) ==>
      item.Score() == Some(Mean(LeafScores(corpus, leaves.value)))
  }

  lemma {:induction false} CorrectIsSum(corpus: Corpus, leaves: seq<Leaf>)
    requires AllJudgeable(corpus, leaves)
    ensures CountIf(Observed(corpus, leaves, true), Correct) as real == Sum(LeafScores(corpus, leaves))
  {
    if leaves != [] {
      assert Observed(corpus, leaves, true)[1..] == Observed(corpus, leaves[1..], true);
      assert LeafScores(corpus, leaves)[1..] == LeafScores(corpus, leaves[1..]);
      CorrectIsSum(corpus, leaves[1..]);
    }
  }

  lemma JudgeableParts(corpus: Corpus, a: seq<Leaf>, b: seq<Leaf>)
    requires AllJudgeable(corpus, a + b)
    ensures AllJudgeable(corpus, a) && AllJudgeable(corpus, b)
    ensures LeafScores(corpus, a + b) == LeafScores(corpus, a) + LeafScores(corpus, b)
  {
    assert forall i :: 0 <= i < |a| ==> a[i] == (a + b)[i];
    assert forall i :: 0 <= i < |b| ==> b[i] == (a + b)[|a| + i];
  }

  /** One row of leaf scores for every source item. */
  function Rows(corpus: Corpus, items: seq<Item>, seeds: seq<Option<int>>): (m: seq<seq<real>>)
    requires AllLeaves(items, seeds).Some? && AllJudgeable(corpus, AllLeaves(items, seeds).value)
    ensures |m| == |items| && Wide(m, |seeds|)
  {
    if items == [] then []
    else
      JudgeableParts(corpus, ItemLeaves(items[0], seeds).value, AllLeaves(items[1..], seeds).value);
      [LeafScores(corpus, ItemLeaves(items[0], seeds).value)] + Rows(corpus, items[1..], seeds)
  }

  lemma {:induction false} RowsAddUp(corpus: Corpus, items: seq<Item>, seeds: seq<Option<int>>)
    requires AllLeaves(items, seeds).Some? && AllJudgeable(corpus, AllLeaves(items, seeds).value)
    ensures Sum(RowSums(Rows(corpus, items, seeds))) == Sum(LeafScores(corpus, AllLeaves(items, seeds).value))
  {
    if items != [] {
      var first, rest := ItemLeaves(items[0], seeds).value, AllLeaves(items[1..], seeds).value;
      JudgeableParts(corpus, first, rest);
      RowsAddUp(corpus, items[1..], seeds);
      SumAppend(LeafScores(corpus, first), LeafScores(corpus, rest));
    }
  }

  function ItemScores(items: seq<Item>): seq<real>
    requires forall i :: 0 <= i < |items| ==> items[i].Score().Some?
  {
    if items == [] then [] else [items[0].Score().value] + ItemScores(items[1..])
  }

  lemma {:induction false} ItemScoresAreRowMeans(corpus: Corpus, items: seq<Item>, seeds: seq<Option<int>>)
    requires seeds != [] && AllLeaves(items, seeds).Some? && AllJudgeable(corpus, AllLeaves(items, seeds).value)
    requires forall i :: 0 <= i < |items| ==> ItemScored(corpus, items[i], seeds)
    ensures forall i :: 0 <= i < |items| ==> items[i].Score().Some?
    ensures ItemScores(items) == RowMeans(Rows(corpus, items, seeds), |seeds|)
  {
    if items != [] {
      JudgeableParts(corpus, ItemLeaves(items[0], seeds).value, AllLeaves(items[1..], seeds).value);
      assert ItemScored(corpus, items[0], seeds);
      assert forall i :: 0 <= i < |items[1..]| ==> items[1..][i] == items[i + 1];
      ItemScoresAreRowMeans(corpus, items[1..], seeds);
      var m := Rows(corpus, items, seeds);
      assert m[1..] == Rows(corpus, items[1..], seeds);
      assert RowMeans(m, |seeds|) == [Mean(m[0])] + RowMeans(m[1..], |seeds|);
    }
  }

  lemma AccuracyIs(os: seq<Observation>, total: real)
    requires os != [] && CountIf(os, Correct) as real == total
    ensures Summarize(os).accuracy == Some(total / |os| as real)
  {
  }

  /** The mean of the item scores is the constrained task accuracy over all leaves. */
  lemma HeadlineIsAccuracy(corpus: Corpus, items: seq<Item>, seeds: seq<Option<int>>)
    requires items != [] && seeds != [] && AllLeaves(items, seeds).Some?
    requires AllJudgeable(corpus, AllLeaves(items, seeds).value)
    requires forall i :: 0 <= i < |items| ==> ItemScored(corpus, items[i], seeds)
    ensures (forall i :: 0 <= i < |items| ==> items[i].Score().Some?) && ItemScores(items) != []
    ensures Some(Mean(ItemScores(items))) == Summarize(Observed(corpus, AllLeaves(items, seeds).value, true)).accuracy
  {
    var leaves, m := AllLeaves(items, seeds).value, Rows(corpus, items, seeds);
    LeafCount(items, seeds);
    ItemScoresAreRowMeans(corpus, items, seeds);
    MeanOfRowMeans(m, |seeds|, |leaves|);
    RowsAddUp(corpus, items, seeds);
    CorrectIsSum(corpus, leaves);
    AccuracyIs(Observed(corpus, leaves, true), Sum(RowSums(m)));
  }

  // ----- the theorem

  /** Items meet their validators, their scores are those of their leaves, and the pair score is their mean. */
  predicate ValidPair(corpus: Corpus, pair: Pair) {
    && ValidItems(pair.items)
    && (pair.seeds.Some? ==> forall i :: 0 <= i < |pair.items| ==> ItemScored(corpus, pair.items[i], pair.seeds.value))
    && ((forall i :: 0 <= i < |pair.items| ==> pair.items[i].Score().Some?) && pair.items != [] ==>
          ItemScores(pair.items) != [] && pair.score == Some(Mean(ItemScores(pair.items))))
  }

  lemma ListsAccepted(corpus: Corpus, leaves: seq<Leaf>, categories: seq<string>, items: nat, attempts: nat)
    requires AllJudgeable(corpus, leaves) && AllValidLeaves(leaves) && leaves != []
    ensures var v := Assemble(categories, items, attempts, ListsOf(corpus, leaves));
            && (ValidArmSummary(v.constrained, true, v.observations)
                <==> |leaves| <= JSON_SAFE_INTEGER_MAX && v.constrained.tokenTotal <= JSON_SAFE_INTEGER_MAX)
            && (ValidArmSummary(v.unconstrained, false, v.observations)
                <==> |leaves| <= JSON_SAFE_INTEGER_MAX && v.unconstrained.tokenTotal <= JSON_SAFE_INTEGER_MAX)
            && (|leaves| <= JSON_SAFE_INTEGER_MAX ==> ValidPairedCost(v) && ValidLatency(v))
  {
    var v, lists := Assemble(categories, items, attempts, ListsOf(corpus, leaves)), ListsOf(corpus, leaves);
    ObservedPossible(corpus, leaves, true);
    ObservedPossible(corpus, leaves, false);
    ArmAccepted(lists.constrained, true);
    ArmAccepted(lists.unconstrained, false);
    LatencyAccepted(lists.constrained, lists.unconstrained);
    PairedUsageFacts(leaves);
    if |leaves| <= JSON_SAFE_INTEGER_MAX {
      PairedCostAccepted(v, lists.paired);
    }
  }

  lemma DimensionsIff(v: Summary, items: nat, attempts: nat)
    requires v.sourceItems == items > 0 && v.attempts == attempts > 0 && v.observations == items * attempts
    ensures ValidDimensions(v, items, true) <==> v.observations <= JSON_SAFE_INTEGER_MAX
  {
    assert items * attempts >= items && items * attempts >= attempts;
  }

  lemma DeltasAccepted(v: Summary, c: seq<Observation>, u: seq<Observation>, score: Option<real>)
    requires c != [] && u != [] && v.constrained == Summarize(c) && v.unconstrained == Summarize(u)
    requires v.conformanceDelta == Minus(v.constrained.conformanceRate, v.unconstrained.conformanceRate)
    requires v.accuracyDelta == Minus(v.constrained.accuracy, v.unconstrained.accuracy)
    requires score == v.constrained.accuracy
    ensures ValidDeltas(v, score)
  {
  }

  /** The tokens of one arm over all leaves. */
  function LeafTokens(leaves: seq<Leaf>, constrained: bool): nat {
    if leaves == [] then 0
    else
      (if leaves[0].evidence.Some? && ArmOf(leaves[0], constrained).usage.Some?
       then ArmOf(leaves[0], constrained).usage.value.total else 0)
      + LeafTokens(leaves[1..], constrained)
  }

  lemma {:induction false} TokensOfLeaves(corpus: Corpus, leaves: seq<Leaf>, constrained: bool)
    requires AllJudgeable(corpus, leaves) && AllValidLeaves(leaves)
    ensures IntSum(TokenTotals(UsageOf(Observed(corpus, leaves, constrained)))) == LeafTokens(leaves, constrained)
  {
    if leaves != [] {
      var os := Observed(corpus, leaves, constrained);
      assert os[1..] == Observed(corpus, leaves[1..], constrained);
      assert Judgeable(corpus, leaves[0]) && ValidLeaf(leaves[0]);
      TokensOfLeaves(corpus, leaves[1..], constrained);
      TokensCons(os);
    }
  }

  lemma TokensCons(os: seq<Observation>)
    requires os != []
    ensures IntSum(TokenTotals(UsageOf(os)))
         == (if Metered(os[0]) then os[0].arm.usage.value.total else 0) + IntSum(TokenTotals(UsageOf(os[1..])))
  {
    if Metered(os[0]) {
      assert UsageOf(os)[1..] == UsageOf(os[1..]);
      assert TokenTotals(UsageOf(os))[1..] == TokenTotals(UsageOf(os[1..]));
    } else {
      assert UsageOf(os) == UsageOf(os[1..]);
    }
  }

  /** For evidence that meets its validators, the summary is accepted exactly when the number of leaves and
      the tokens of either arm over all of them are JSON-safe integers. */
  lemma SummaryAcceptedIff(corpus: Corpus, pair: Pair)
    requires ValidCorpus(corpus) && ValidPair(corpus, pair) && SummaryOf(corpus, pair).Some?
    ensures var v, leaves := SummaryOf(corpus, pair).value, Leaves(pair).value;
            AcceptedSummary(v, pair.score, |pair.items|, pair.completed)
            <==> |pair.items| * |pair.seeds.value| <= JSON_SAFE_INTEGER_MAX
                 && LeafTokens(leaves, true) <= JSON_SAFE_INTEGER_MAX
                 && LeafTokens(leaves, false) <= JSON_SAFE_INTEGER_MAX
  {
    var seeds, leaves, v := pair.seeds.value, Leaves(pair).value, SummaryOf(corpus, pair).value;
    ItemsKnown(corpus, pair.items, seeds);
    CategoriesAccepted(corpus, pair.items);
    LeafCount(pair.items, seeds);
    LeavesValid(pair.items, seeds);
    ListsAccepted(corpus, leaves, v.categories, |pair.items|, |seeds|);
    HeadlineIsAccuracy(corpus, pair.items, seeds);
    DimensionsIff(v, |pair.items|, |seeds|);
    DeltasAccepted(v, Observed(corpus, leaves, true), Observed(corpus, leaves, false), pair.score);
    TokensOfLeaves(corpus, leaves, true);
    TokensOfLeaves(corpus, leaves, false);
  }

  // ----- a summary that is refused

  /** A completed leaf whose constrained arm answered correctly with so many prompt tokens. */
  function MeteredLeaf(id: string, tokens: nat): Leaf {
    Leaf(id, true, Some(1.0), Some(Evidence(
      Arm(true, Completed, Some("{}"), None, None, Some(Usage(tokens, 0, tokens)), 0.0),
      Arm(false, Completed, Some("{}"), None, None, None, 0.0))))
  }

  function TwoItems(a: nat, b: nat): Pair {
    Pair(true, [Direct(MeteredLeaf("a", a)), Direct(MeteredLeaf("b", b))], Some([None]), Some(1.0))
  }

  function EasyCorpus(): Corpus {
    var row := Row("nested", _ => true, _ => true, _ => true);
    map["a" := row, "b" := row]
  }

  lemma TwoLeaves(x: Leaf, y: Leaf)
    ensures AllLeaves([Direct(x), Direct(y)], [None]) == Some([x, y])
  {
    var items, seeds := [Direct(x), Direct(y)], [None];
    var rest := items[1..];
    assert rest == [Direct(y)] && rest[1..] == [];
    assert AllLeaves(rest[1..], seeds) == Some([]);
    assert ItemLeaves(rest[0], seeds) == Some([y]) && [y] + [] == [y];
    assert AllLeaves(rest, seeds) == Some([y]);
    assert ItemLeaves(items[0], seeds) == Some([x]) && [x] + [y] == [x, y];
  }

  /** The mean of ones. */
  lemma MeanOfOnes()
    ensures Mean([1.0]) == 1.0 && Mean([1.0, 1.0]) == 1.0
  {
    assert [1.0][1..] == [] && [1.0, 1.0][1..] == [1.0];
    assert Sum([1.0]) == 1.0;
  }

  lemma TwoScores(x: Leaf, y: Leaf)
    requires x.score == Some(1.0) && y.score == Some(1.0)
    ensures ItemScores([Direct(x), Direct(y)]) == [1.0, 1.0]
  {
    var items := [Direct(x), Direct(y)];
    var rest := items[1..];
    assert rest == [Direct(y)] && rest[1..] == [];
    assert ItemScores(rest[1..]) == [] && ItemScores(rest) == [1.0];
  }

  lemma LeafIsScored(id: string, tokens: nat)
    requires id in EasyCorpus()
    ensures ItemScored(EasyCorpus(), Direct(MeteredLeaf(id, tokens)), [None])
  {
    var leaf := MeteredLeaf(id, tokens);
    assert LeafScores(EasyCorpus(), [leaf]) == [1.0];
    MeanOfOnes();
  }

  lemma TwoItemsAreValid(a: nat, b: nat)
    requires a <= JSON_SAFE_INTEGER_MAX && b <= JSON_SAFE_INTEGER_MAX
    ensures ValidCorpus(EasyCorpus()) && ValidPair(EasyCorpus(), TwoItems(a, b))
  {
    assert CATEGORY_ORDER[0] == "nested";
    LeafIsScored("a", a);
    LeafIsScored("b", b);
    TwoScores(MeteredLeaf("a", a), MeteredLeaf("b", b));
    MeanOfOnes();
  }

  lemma TwoItemTotal(a: nat, b: nat)
    ensures SummaryOf(EasyCorpus(), TwoItems(a, b)).Some?
    ensures LeafTokens(Leaves(TwoItems(a, b)).value, true) == a + b
  {
    var x, y := MeteredLeaf("a", a), MeteredLeaf("b", b);
    TwoLeaves(x, y);
    assert AllJudgeable(EasyCorpus(), [x, y]);
    assert [x, y][1..] == [y] && [y][1..] == [];
    assert LeafTokens([], true) == 0 && LeafTokens([y], true) == b;
  }

  /** Two leaves that each meet their validators give a summary that the producer returns and the validator
      refuses, whenever their tokens together leave the safe range. */
  lemma UnsafeTotalIsRefused(a: nat, b: nat)
    requires a <= JSON_SAFE_INTEGER_MAX && b <= JSON_SAFE_INTEGER_MAX < a + b
    ensures var corpus, pair := EasyCorpus(), TwoItems(a, b);
            && ValidCorpus(corpus) && ValidPair(corpus, pair) && SummaryOf(corpus, pair).Some?
            && !AcceptedSummary(SummaryOf(corpus, pair).value, pair.score, |pair.items|, pair.completed)
  {
    TwoItemsAreValid(a, b);
    TwoItemTotal(a, b);
    SummaryAcceptedIff(EasyCorpus(), TwoItems(a, b));
  }
}
