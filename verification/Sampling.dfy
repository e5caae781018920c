/**
 Grouped multi-seed sampling: the producer of the sensitivity summary, and the validator that later
 reads it back from a stored scoreboard.

 evals/sampling.py builds a parent item from its seed-specific attempts and a summary from the
 parents.  evals/types.py validates the parents and evals/aggregate.py validates the summary, each
 on its own terms.  The theorems say what the producer builds is what the validators accept.
 Arithmetic is exact, and the square root is a parameter.
 */
module Sampling {
  import opened Averages
  import opened Options
  import opened Reals
  import Rounding

  datatype Status = Completed | Failed | Unjudged | Skipped

  datatype Outcome = Outcome(itemId: string, status: Status, score: Option<real>, latency: Option<real>)

  datatype Attempt = Attempt(attempt: int, seed: int, result: Outcome)

  datatype Item = Item(itemId: string, status: Status, score: Option<real>, error: Option<string>,
                       latency: Option<real>, attempts: Option<seq<Attempt>>)

  // ----- the item validator (evals/types.py)

  predicate ValidScore(score: Option<real>) {
    score.Some? ==> 0.0 <= score.value <= 1.0
  }

  predicate ValidLatency(latency: Option<real>) {
    latency.Some? ==> latency.value >= 0.0
  }

  predicate ValidOutcome(o: Outcome) {
    ValidScore(o.score) && ValidLatency(o.latency)
  }

  predicate ValidAttempts(attempts: seq<Attempt>) {
    forall i :: 0 <= i < |attempts| ==> ValidOutcome(attempts[i].result)
  }

  predicate Scored(o: Outcome) {
    o.status.Completed? && o.score.Some?
  }

  predicate MissingScore(o: Outcome) {
    o.status.Completed? && o.score.None?
  }

  function ScoresOf(attempts: seq<Attempt>): seq<real> {
    if attempts == [] then []
    else if Scored(attempts[0].result) then [attempts[0].result.score.value] + ScoresOf(attempts[1..])
    else ScoresOf(attempts[1..])
  }

  function Statuses(attempts: seq<Attempt>): (r: seq<Status>)
    ensures |r| == |attempts| && forall i :: 0 <= i < |r| ==> r[i] == attempts[i].result.status
  {
    seq(|attempts|, i requires 0 <= i < |attempts| => attempts[i].result.status)
  }

  function Digits(n: nat): string {
    var last := [('0' as int + n % 10) as char];
    if n < 10 then last else Digits(n / 10) + last
  }

  datatype Tally = Tally(count: nat, name: string)

  /** The non-zero tallies in order, joined by commas. */
  function Reason(tallies: seq<Tally>): string {
    if tallies == [] then ""
    else if tallies[0].count == 0 then Reason(tallies[1..])
    else
      var rest := Reason(tallies[1..]);
      Digits(tallies[0].count) + " " + tallies[0].name + (if rest == "" then "" else ", " + rest)
  }

  function Incomplete(failed: nat, unjudged: nat, skipped: nat, invalid: nat): string {
    "sampling sweep incomplete: "
    + Reason([Tally(failed, "failed"), Tally(unjudged, "unjudged"), Tally(skipped, "skipped")]
             + if invalid > 0 then [Tally(invalid, "invalid")] else [])
  }

  /** Consecutive one-based numbers, unique seeds, and the parent's own id. */
  predicate Aligned(itemId: string, attempts: seq<Attempt>) {
    && (forall i :: 0 <= i < |attempts| ==> attempts[i].attempt == i + 1)
    && (forall i, j :: 0 <= i < j < |attempts| ==> attempts[i].seed != attempts[j].seed)
    && (forall i :: 0 <= i < |attempts| ==> attempts[i].result.itemId == itemId)
  }

  function CountMissing(attempts: seq<Attempt>): nat {
    if attempts == [] then 0
    else (if MissingScore(attempts[0].result) then 1 else 0) + CountMissing(attempts[1..])
  }

  predicate ValidSweep(item: Item, attempts: seq<Attempt>) {
    && attempts != []
    && Aligned(item.itemId, attempts)
    && var scores := ScoresOf(attempts);
       if |scores| == |attempts| then
         && item.status.Completed?
         && item.score == Some(Mean(scores))
         && item.error.None?
       else
         var statuses := Statuses(attempts);
         var missing := exists i :: 0 <= i < |attempts| && MissingScore(attempts[i].result);
         && item.status == (if Failed in statuses || missing then Failed
                            else if Unjudged in statuses then Unjudged
                            else Skipped)
         && item.score.None?
         && item.error == Some(Incomplete(
              multiset(statuses)[Failed], multiset(statuses)[Unjudged], multiset(statuses)[Skipped],
              if missing then CountMissing(attempts) else 0))
  }

  predicate ValidItem(item: Item) {
    && ValidScore(item.score)
    && ValidLatency(item.latency)
    && (item.attempts.Some? ==> ValidSweep(item, item.attempts.value))
  }

  // ----- combine_attempts

  function CountStatus(attempts: seq<Attempt>, status: Status): nat {
    if attempts == [] then 0
    else (if attempts[0].result.status == status then 1 else 0) + CountStatus(attempts[1..], status)
  }

  predicate AllScored(attempts: seq<Attempt>) {
    forall i :: 0 <= i < |attempts| ==> Scored(attempts[i].result)
  }

  function Latencies(attempts: seq<Attempt>): seq<real> {
    if attempts == [] then []
    else if attempts[0].result.latency.Some? then [attempts[0].result.latency.value] + Latencies(attempts[1..])
    else Latencies(attempts[1..])
  }

  /** The summed latency rounded to three decimals, when any attempt has one. */
  function CombinedLatency(attempts: seq<Attempt>): Option<real> {
    var values := Latencies(attempts);
    if values == [] then None
    else Some(Rounding.HalfEven(Sum(values) * 1000.0) as real / 1000.0)
  }

  /** The parent `combine_attempts` builds before its validator looks at it. */
  function Combined(itemId: string, attempts: seq<Attempt>): Item
    requires attempts != []
  {
    var latency := CombinedLatency(attempts);
    if AllScored(attempts) then
      var scores := seq(|attempts|, i requires 0 <= i < |attempts| => attempts[i].result.score.value);
      Item(itemId, Completed, Some(Sum(scores) / |scores| as real), None, latency, Some(attempts))
    else
      var failed, unjudged, skipped, missing :=
        CountStatus(attempts, Failed), CountStatus(attempts, Unjudged), CountStatus(attempts, Skipped),
        CountMissing(attempts);
      var status := if failed > 0 || missing > 0 then Failed else if unjudged > 0 then Unjudged else Skipped;
      Item(itemId, status, None, Some(Incomplete(failed, unjudged, skipped, missing)), latency,
           Some(attempts))
  }

  /** `combine_attempts`: no attempts are refused, and so is whatever the item validator refuses. */
  function CombineAttempts(itemId: string, attempts: seq<Attempt>): Option<Item> {
    if attempts == [] then None
    else
      var item := Combined(itemId, attempts);
      if ValidItem(item) then Some(item) else None
  }

  lemma {:induction false} StatusCounted(attempts: seq<Attempt>, status: Status)
    ensures CountStatus(attempts, status) == multiset(Statuses(attempts))[status]
    ensures CountStatus(attempts, status) > 0 <==> status in Statuses(attempts)
  {
    if attempts != [] {
      StatusCounted(attempts[1..], status);
      assert Statuses(attempts) == [attempts[0].result.status] + Statuses(attempts[1..]);
    }
  }

  lemma {:induction false} MissingCounted(attempts: seq<Attempt>)
    ensures CountMissing(attempts) > 0 <==> exists i :: 0 <= i < |attempts| && MissingScore(attempts[i].result)
  {
    if attempts != [] {
      MissingCounted(attempts[1..]);
      if CountMissing(attempts[1..]) > 0 {
        var i :| 0 <= i < |attempts[1..]| && MissingScore(attempts[1..][i].result);
        assert MissingScore(attempts[i + 1].result);
      }
      if i :| 0 <= i < |attempts| && MissingScore(attempts[i].result) {
        if i > 0 {
          assert MissingScore(attempts[1..][i - 1].result);
        }
      }
    }
  }

  lemma {:induction false} ScoresCounted(attempts: seq<Attempt>)
    ensures |ScoresOf(attempts)| <= |attempts|
    ensures |ScoresOf(attempts)| == |attempts| <==> AllScored(attempts)
    ensures AllScored(attempts) ==>
      forall i :: 0 <= i < |attempts| ==> ScoresOf(attempts)[i] == attempts[i].result.score.value
  {
    if attempts != [] {
      ScoresCounted(attempts[1..]);
      assert attempts == [attempts[0]] + attempts[1..];
    }
  }

  lemma {:induction false} LatenciesNonNegative(attempts: seq<Attempt>)
    requires ValidAttempts(attempts)
    ensures Sum(Latencies(attempts)) >= 0.0
  {
    if attempts != [] {
      assert ValidOutcome(attempts[0].result);
      LatenciesNonNegative(attempts[1..]);
    }
  }

  lemma CombinedLatencyValid(attempts: seq<Attempt>)
    requires ValidAttempts(attempts)
    ensures ValidLatency(CombinedLatency(attempts))
  {
    LatenciesNonNegative(attempts);
    var total := Sum(Latencies(attempts)) * 1000.0;
    Rounding.HalfEvenOfInteger(0);
    Rounding.HalfEvenMonotone(0.0, total);
    QuotientNonNegative(Rounding.HalfEven(total) as real, 1000.0);
  }

  lemma MeanOfScoresValid(attempts: seq<Attempt>)
    requires attempts != [] && ValidAttempts(attempts) && AllScored(attempts)
    ensures ScoresOf(attempts) != [] && 0.0 <= Mean(ScoresOf(attempts)) <= 1.0
  {
    ScoresCounted(attempts);
    forall i | 0 <= i < |attempts|
      ensures 0.0 <= ScoresOf(attempts)[i] <= 1.0
    {
      assert ValidOutcome(attempts[i].result);
    }
    MeanRange(ScoresOf(attempts), 0.0, 1.0);
  }

  /** The parent's status, score and error always agree with what the validator derives on its own. */
  lemma CombinedAgrees(itemId: string, attempts: seq<Attempt>)
    requires attempts != []
    ensures ValidSweep(Combined(itemId, attempts), attempts) <==> Aligned(itemId, attempts)
  {
    ScoresCounted(attempts);
    if AllScored(attempts) {
      var scores := seq(|attempts|, i requires 0 <= i < |attempts| => attempts[i].result.score.value);
      assert scores == ScoresOf(attempts);
    } else {
      StatusCounted(attempts, Failed);
      StatusCounted(attempts, Unjudged);
      StatusCounted(attempts, Skipped);
      MissingCounted(attempts);
    }
  }

  /** `combine_attempts` succeeds exactly on a non-empty, aligned sweep. */
  lemma CombineMeetsValidator(itemId: string, attempts: seq<Attempt>)
    requires ValidAttempts(attempts)
    ensures CombineAttempts(itemId, attempts).Some? <==> attempts != [] && Aligned(itemId, attempts)
    ensures CombineAttempts(itemId, attempts).Some? ==> ValidItem(CombineAttempts(itemId, attempts).value)
  {
    if attempts != [] {
      CombinedAgrees(itemId, attempts);
      CombinedLatencyValid(attempts);
      ScoresCounted(attempts);
      if AllScored(attempts) {
        MeanOfScoresValid(attempts);
        assert seq(|attempts|, i requires 0 <= i < |attempts| => attempts[i].result.score.value) == ScoresOf(attempts);
      }
    }
  }
}
