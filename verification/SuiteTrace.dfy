/**
 What a run of the evaluation suite leaves behind (evals/runner.py, evals/store.py): its events, the
 durable state they produce, which orders of events are allowed, and what that means after a crash.

 Every durable write and every observation of the outside is an event.  The store after a run, or after
 a crash at any point of it, is the events so far replayed on the store before.
 */
module SuiteTrace {
  type Key = (string, string)

  type Identity = string

  datatype Status = Completed | Partial | Skipped | Failed

  /** What a run stamps on its pairs: its fingerprint, and how it rewrites the comparability remarks. */
  datatype Stamp = Stamp(fingerprint: string, remark: string -> string)

  datatype Pair = Pair(key: Key, status: Status, fingerprint: string, source: Identity, remark: string) {
    predicate Scored() {
      status.Completed? || status.Partial?
    }

    /** `_stamp_run_reasons`. */
    function Stamped(stamp: Stamp, identity: Identity): Pair {
      Pair(key, status, stamp.fingerprint, identity, stamp.remark(remark))
    }

    /** `_failed_evidence` with the run's stamp. */
    function Quarantined(stamp: Stamp): Pair {
      Pair(key, Failed, fingerprint, source, "").Stamped(stamp, source)
    }
  }

  datatype File = Unreadable | Readable(pair: Pair)

  /** The durable state of one run id: both markers, the pair files, the boards and index entries written. */
  datatype Durable = Durable(sourceMarker: bool, evaluatorMarker: bool, files: map<Key, File>, indexed: nat)

  datatype Event =
    | SourceSeen(same: bool)
    | AdapterSeen(name: string, same: bool)
    | SourceMarked
    | EvaluatorMarked
    | Reused(pair: Pair)
    | Saved(pair: Pair)
    | BoardSaved
    | Indexed
    | Cleared

  function Apply(d: Durable, e: Event): Durable {
    match e
    case SourceMarked => d.(sourceMarker := true)
    case EvaluatorMarked => d.(evaluatorMarker := true)
    case Saved(pair) => d.(files := d.files[pair.key := Readable(pair)])
    case Indexed => d.(indexed := d.indexed + 1)
    case Cleared => d.(evaluatorMarker := false)
    case _ => d
  }

  function Replay(d: Durable, trace: seq<Event>): Durable {
    if trace == [] then d else Apply(Replay(d, trace[..|trace| - 1]), trace[|trace| - 1])
  }

  /** What a trace has seen, and whether every event so far was allowed when it happened. */
  datatype Audit = Audit(
    sourceDrift: bool,       // a source observation differed
    sourceOpen: bool,        // the last event is such an observation
    adapterDrift: bool,      // an adapter observation differed
    marked: bool,            // the evaluator marker was written
    boarded: bool,           // a scoreboard was saved
    reattested: bool,        // the source was looked at while an adapter drift was unmarked
    reused: bool,            // a stored pair was taken over
    indexed: bool,
    cleared: bool,
    sound: bool)
  {
    /** An adapter drift was seen whose marker is not durable yet. */
    predicate AdapterOpen() {
      adapterDrift && !marked
    }
  }

  const QUIET := Audit(false, false, false, false, false, false, false, false, false, true)

  predicate DriftedAdapter(e: Event) {
    e.AdapterSeen? && !e.same
  }

  /** A source drift is marked before anything else happens, and after it only failed evidence is saved.
      Before the first scoreboard an unmarked adapter drift is followed by more looks at adapters and then
      by its marker.  After it, one look at the source and the failed evidence of a source drift may come in
      between.  Indexing and clearing need a trace without drift, clearing also one without reuse, and after
      indexing nothing but clearing happens. */
  predicate Allowed(a: Audit, e: Event) {
    var settled := !a.sourceOpen && !a.cleared && !a.indexed;
    match e
    case SourceSeen(_) => settled && (a.AdapterOpen() ==> a.boarded && !a.reattested)
    case AdapterSeen(_, _) => settled && (a.AdapterOpen() ==> !a.reattested)
    case SourceMarked => a.sourceOpen
    case EvaluatorMarked => settled && a.adapterDrift
    case Reused(pair) => settled && !a.AdapterOpen() && !a.sourceDrift
    case Saved(pair) =>
      settled && if pair.status.Failed? then a.AdapterOpen() ==> a.reattested && a.sourceDrift
                 else !a.AdapterOpen() && !a.sourceDrift
    case BoardSaved => settled && !a.AdapterOpen()
    case Indexed => settled && !a.sourceDrift && !a.adapterDrift
    case Cleared => !a.cleared && !a.sourceDrift && !a.adapterDrift && !a.reused
  }

  function Next(a: Audit, e: Event): Audit {
    Audit(a.sourceDrift || e == SourceSeen(false),
          e == SourceSeen(false),
          a.adapterDrift || DriftedAdapter(e),
          a.marked || e == EvaluatorMarked,
          a.boarded || e == BoardSaved,
          a.reattested || (e.SourceSeen? && a.AdapterOpen()),
          a.reused || e.Reused?,
          a.indexed || e == Indexed,
          a.cleared || e == Cleared,
          a.sound && Allowed(a, e))
  }

  function Audited(trace: seq<Event>): Audit {
    if trace == [] then QUIET else Next(Audited(trace[..|trace| - 1]), trace[|trace| - 1])
  }

  // ----- what a sound trace means

  lemma LastOf(trace: seq<Event>)
    requires trace != []
    ensures forall e :: e in trace <==> e in trace[..|trace| - 1] || e == trace[|trace| - 1]
  {
    assert trace == trace[..|trace| - 1] + [trace[|trace| - 1]];
  }

  lemma {:induction false} DriftMeaning(trace: seq<Event>)
    ensures Audited(trace).sourceDrift <==> SourceSeen(false) in trace
    ensures Audited(trace).adapterDrift <==> exists e :: e in trace && DriftedAdapter(e)
    ensures Audited(trace).sourceOpen <==> trace != [] && trace[|trace| - 1] == SourceSeen(false)
  {
    if trace != [] {
      var n := |trace| - 1;
      DriftMeaning(trace[..n]);
      LastOf(trace);
    }
  }

  /** The flags of the audit are what their comments say. */
  lemma {:induction false} AuditMeaning(trace: seq<Event>)
    ensures Audited(trace).marked <==> EvaluatorMarked in trace
    ensures Audited(trace).boarded <==> BoardSaved in trace
    ensures Audited(trace).reused <==> exists e :: e in trace && e.Reused?
    ensures Audited(trace).indexed <==> Indexed in trace
    ensures Audited(trace).cleared <==> Cleared in trace
  {
    if trace != [] {
      AuditMeaning(trace[..|trace| - 1]);
      LastOf(trace);
    }
  }

  lemma OnlyMarkingFollows(a: Audit, e: Event)
    requires a.sourceOpen && a.sourceDrift && Next(a, e).sound
    ensures e == SourceMarked
  {
  }

  lemma SoundBefore(a: Audit, e: Event)
    requires Next(a, e).sound
    ensures a.sound
  {
  }

  lemma {:induction false} PrefixIsSound(trace: seq<Event>, n: nat)
    requires Audited(trace).sound && n <= |trace|
    ensures Audited(trace[..n]).sound
    decreases |trace|
  {
    if n == |trace| {
      assert trace[..n] == trace;
    } else {
      var m := |trace| - 1;
      SoundBefore(Audited(trace[..m]), trace[m]);
      PrefixIsSound(trace[..m], n);
      assert trace[..m][..n] == trace[..n];
    }
  }

  lemma StepOf(trace: seq<Event>, i: nat)
    requires Audited(trace).sound && i < |trace|
    ensures Next(Audited(trace[..i]), trace[i]).sound
  {
    PrefixIsSound(trace, i + 1);
    assert trace[..i + 1][..i] == trace[..i];
  }

  /** An observed source drift is marked by the very next event. */
  lemma SourceDriftIsMarked(trace: seq<Event>, i: nat)
    requires Audited(trace).sound && i + 1 < |trace| && trace[i] == SourceSeen(false)
    ensures trace[i + 1] == SourceMarked
  {
    StepOf(trace, i + 1);
    DriftMeaning(trace[..i + 1]);
    OnlyMarkingFollows(Audited(trace[..i + 1]), trace[i + 1]);
  }

  lemma {:induction false} MarkerStays(before: Durable, trace: seq<Event>)
    requires SourceMarked in trace
    ensures Replay(before, trace).sourceMarker
  {
    var n := |trace| - 1;
    if trace[n] != SourceMarked {
      assert trace == trace[..n] + [trace[n]];
      MarkerStays(before, trace[..n]);
    }
  }

  /** Crash after `n` events: a source drift that was seen before the last of them has its marker on disk,
      so no later run with this run id gets past the first check. */
  lemma CrashKeepsSourceMarker(before: Durable, trace: seq<Event>, n: nat, i: nat)
    requires Audited(trace).sound && i + 1 < n <= |trace| && trace[i] == SourceSeen(false)
    ensures Replay(before, trace[..n]).sourceMarker
  {
    SourceDriftIsMarked(trace, i);
    assert trace[..n][i + 1] == SourceMarked;
    MarkerStays(before, trace[..n]);
  }

  /** Nothing is indexed after a drift of either kind was seen. */
  lemma IndexedIsClean(trace: seq<Event>, i: nat, j: nat)
    requires Audited(trace).sound && j < i < |trace| && trace[i] == Indexed
    ensures trace[j] != SourceSeen(false) && !DriftedAdapter(trace[j])
  {
    StepOf(trace, i);
    DriftMeaning(trace[..i]);
    assert trace[..i][j] == trace[j];
  }

  /** Between an adapter drift and the evaluator marker nothing is taken over, scored, reported or indexed. */
  lemma EvaluatorMarkedFirst(trace: seq<Event>, i: nat, j: nat)
    requires Audited(trace).sound && j < i < |trace| && DriftedAdapter(trace[j])
    requires var e := trace[i]; e.Reused? || (e.Saved? && e.pair.Scored()) || e.BoardSaved? || e.Indexed? || e.Cleared?
    ensures EvaluatorMarked in trace[..i]
  {
    StepOf(trace, i);
    DriftMeaning(trace[..i]);
    AuditMeaning(trace[..i]);
    assert trace[..i][j] == trace[j];
  }

  /** The evaluator marker is removed only after a run that saw no drift and took over no stored pair. */
  lemma ClearedIsEarned(trace: seq<Event>, i: nat, j: nat)
    requires Audited(trace).sound && j < i < |trace| && trace[i] == Cleared
    ensures trace[j] != SourceSeen(false) && !DriftedAdapter(trace[j]) && !trace[j].Reused?
  {
    StepOf(trace, i);
    DriftMeaning(trace[..i]);
    AuditMeaning(trace[..i]);
    assert trace[..i][j] == trace[j];
  }

  lemma {:induction false} MarkerFollows(before: Durable, trace: seq<Event>)
    requires Cleared !in trace
    ensures Replay(before, trace).evaluatorMarker <==> before.evaluatorMarker || EvaluatorMarked in trace
  {
    if trace != [] {
      LastOf(trace);
      MarkerFollows(before, trace[..|trace| - 1]);
    }
  }

  lemma {:induction false} DriftExcludesClearing(trace: seq<Event>)
    requires Audited(trace).sound && Audited(trace).adapterDrift
    ensures !Audited(trace).cleared
  {
    var front, last := trace[..|trace| - 1], trace[|trace| - 1];
    SoundBefore(Audited(front), last);
    if Audited(front).adapterDrift {
      DriftExcludesClearing(front);
    }
  }

  // ----- where a crash can leave an adapter drift unmarked

  /** The first look that found a changed adapter. */
  predicate FirstDrift(trace: seq<Event>, f: nat) {
    f < |trace| && DriftedAdapter(trace[f]) && forall k :: 0 <= k < f ==> !DriftedAdapter(trace[k])
  }

  /** From `f` to `n` only adapters were looked at. */
  predicate OnlyLooks(trace: seq<Event>, f: nat, n: nat) {
    n <= |trace| && forall k :: f <= k < n ==> trace[k].AdapterSeen?
  }

  /** After `n` events the run is still in the scan, or at the look, that first found a changed adapter. */
  ghost predicate InScan(trace: seq<Event>, n: nat) {
    exists f: nat :: f < n && FirstDrift(trace, f) && OnlyLooks(trace, f, n)
  }

  /** What may follow the look at the source at `g`: the marker of its drift and failed evidence. */
  predicate Aftermath(trace: seq<Event>, g: nat, k: nat)
    requires g < k < |trace|
  {
    || (k == g + 1 && trace[g] == SourceSeen(false) && trace[k] == SourceMarked)
    || (trace[k].Saved? && trace[k].pair.status.Failed? && SourceSeen(false) in trace[..k])
  }

  /** After `n` events the run attests the source once more after the scan, behind its first scoreboard, that
      first found a changed adapter. */
  predicate ReattestingAt(trace: seq<Event>, n: nat, f: nat, g: nat) {
    && f < g < n <= |trace| && FirstDrift(trace, f) && BoardSaved in trace[..f] && OnlyLooks(trace, f, g)
    && trace[g].SourceSeen? && forall k :: g < k < n ==> Aftermath(trace, g, k)
  }

  ghost predicate Reattesting(trace: seq<Event>, n: nat) {
    exists f: nat, g: nat :: ReattestingAt(trace, n, f, g)
  }

  /** A crash after `n` events has seen an adapter drift and leaves no marker of it. */
  predicate LeftUnmarked(before: Durable, trace: seq<Event>, n: nat)
    requires n <= |trace|
  {
    (exists i :: 0 <= i < n && DriftedAdapter(trace[i])) && !Replay(before, trace[..n]).evaluatorMarker
  }

  ghost predicate InGap(trace: seq<Event>, n: nat, reattested: bool) {
    if reattested then Reattesting(trace, n) else InScan(trace, n)
  }

  /** The drift was seen by the last event. */
  lemma GapOpens(trace: seq<Event>)
    requires trace != [] && DriftedAdapter(trace[|trace| - 1]) && !Audited(trace[..|trace| - 1]).adapterDrift
    ensures InScan(trace, |trace|)
  {
    var n := |trace| - 1;
    DriftMeaning(trace[..n]);
    assert FirstDrift(trace, n) by {
      forall k | 0 <= k < n
        ensures !DriftedAdapter(trace[k])
      {
        assert trace[k] in trace[..n];
      }
    }
  }

  /** One more event after the second look at the source. */
  lemma AftermathGrows(trace: seq<Event>)
    requires trace != [] && Reattesting(trace[..|trace| - 1], |trace| - 1)
    requires var a, e := Audited(trace[..|trace| - 1]), trace[|trace| - 1];
             a.AdapterOpen() && a.reattested && Allowed(a, e) && !Next(a, e).marked
    ensures Reattesting(trace, |trace|)
  {
    var n := |trace| - 1;
    var front, e := trace[..n], trace[n];
    DriftMeaning(front);
    var f: nat, g: nat :| ReattestingAt(front, n, f, g);
    assert trace[..f] == front[..f];
    forall k | g < k < n
      ensures Aftermath(trace, g, k)
    {
      assert Aftermath(front, g, k) && trace[..k] == front[..k];
    }
    assert Aftermath(trace, g, n) by {
      if e == SourceMarked {
        assert front[n - 1] == SourceSeen(false);
        assert g < n - 1 ==> Aftermath(front, g, n - 1);
      }
    }
    assert ReattestingAt(trace, n + 1, f, g);
  }

  /** One more event before that look. */
  lemma ScanGrows(trace: seq<Event>)
    requires trace != [] && InScan(trace[..|trace| - 1], |trace| - 1)
    requires var a, e := Audited(trace[..|trace| - 1]), trace[|trace| - 1];
             a.AdapterOpen() && !a.reattested && Allowed(a, e) && !Next(a, e).marked
    ensures InGap(trace, |trace|, trace[|trace| - 1].SourceSeen?)
  {
    var n := |trace| - 1;
    var front := trace[..n];
    DriftMeaning(front);
    AuditMeaning(front);
    var f: nat :| f < n && FirstDrift(front, f) && OnlyLooks(front, f, n);
    assert front[n - 1].AdapterSeen? && FirstDrift(trace, f);
    if trace[n].SourceSeen? {
      var k :| 0 <= k < n && front[k] == BoardSaved;
      assert k < f && trace[..f][k] == BoardSaved;
      assert ReattestingAt(trace, n + 1, f, n);
    }
  }

  /** While a drift is unmarked the trace has one of the two shapes. */
  lemma {:induction false} OpenIsGap(trace: seq<Event>)
    requires Audited(trace).sound && Audited(trace).AdapterOpen()
    ensures InGap(trace, |trace|, Audited(trace).reattested)
  {
    var n := |trace| - 1;
    var front := trace[..n];
    if Audited(front).AdapterOpen() {
      OpenIsGap(front);
      if Audited(front).reattested {
        AftermathGrows(trace);
      } else {
        ScanGrows(trace);
      }
    } else {
      NoLookYet(front);
      GapOpens(trace);
    }
  }

  lemma {:induction false} NoLookYet(trace: seq<Event>)
    requires !Audited(trace).adapterDrift
    ensures !Audited(trace).reattested
  {
    if trace != [] {
      NoLookYet(trace[..|trace| - 1]);
    }
  }

  lemma {:induction false} MarkedAfterDrift(trace: seq<Event>)
    requires Audited(trace).sound && Audited(trace).marked
    ensures Audited(trace).adapterDrift
  {
    var n := |trace| - 1;
    if Audited(trace[..n]).marked {
      MarkedAfterDrift(trace[..n]);
    }
  }

  /** Both shapes hold a drift, at `f`, and no marker after it. */
  lemma GapStart(trace: seq<Event>, n: nat) returns (f: nat)
    requires n <= |trace| && (InScan(trace, n) || Reattesting(trace, n))
    ensures f < n && FirstDrift(trace, f) && forall k :: f <= k < n ==> trace[k] != EvaluatorMarked
  {
    if InScan(trace, n) {
      f :| f < n && FirstDrift(trace, f) && OnlyLooks(trace, f, n);
    } else {
      var g: nat;
      f, g :| ReattestingAt(trace, n, f, g);
      forall k | f <= k < n
        ensures trace[k] != EvaluatorMarked
      {
        assert g < k ==> Aftermath(trace, g, k);
      }
    }
  }

  lemma GapIsUnmarked(trace: seq<Event>, n: nat)
    requires Audited(trace).sound && n <= |trace| && (InScan(trace, n) || Reattesting(trace, n))
    ensures EvaluatorMarked !in trace[..n] && exists i :: 0 <= i < n && DriftedAdapter(trace[i])
  {
    var f := GapStart(trace, n);
    var front := trace[..f];
    PrefixIsSound(trace, f);
    DriftMeaning(front);
    AuditMeaning(front);
    if EvaluatorMarked in front {
      MarkedAfterDrift(front);
    }
    assert forall k :: 0 <= k < f ==> trace[k] == front[k];
  }

  /** A crash leaves a drift unmarked exactly in two gaps: until the scan or look that first found it is
      over, and, behind the first scoreboard, until the source has been attested once more and failed
      evidence of its drift has been saved. */
  lemma UnmarkedIffInGap(before: Durable, trace: seq<Event>, n: nat)
    requires Audited(trace).sound && n <= |trace|
    ensures LeftUnmarked(before, trace, n) <==> !before.evaluatorMarker && (InScan(trace, n) || Reattesting(trace, n))
  {
    var front := trace[..n];
    PrefixIsSound(trace, n);
    DriftMeaning(front);
    AuditMeaning(front);
    if exists i :: 0 <= i < n && DriftedAdapter(trace[i]) {
      var i :| 0 <= i < n && DriftedAdapter(trace[i]);
      assert front[i] == trace[i];
      DriftExcludesClearing(front);
      MarkerFollows(before, front);
      if Audited(front).AdapterOpen() {
        OpenIsGap(front);
        GapExtends(trace, n);
      }
    }
    if InScan(trace, n) || Reattesting(trace, n) {
      GapIsUnmarked(trace, n);
    }
  }

  /** The gaps speak only of the events before `n`. */
  lemma GapExtends(trace: seq<Event>, n: nat)
    requires n <= |trace|
    ensures InScan(trace[..n], n) ==> InScan(trace, n)
    ensures Reattesting(trace[..n], n) ==> Reattesting(trace, n)
  {
    var front := trace[..n];
    if InScan(front, n) {
      var f: nat :| f < n && FirstDrift(front, f) && OnlyLooks(front, f, n);
      assert FirstDrift(trace, f) && OnlyLooks(trace, f, n);
    }
    if Reattesting(front, n) {
      var f: nat, g: nat :| ReattestingAt(front, n, f, g);
      assert front[..f] == trace[..f];
      assert FirstDrift(trace, f);
      forall k | g < k < n
        ensures Aftermath(trace, g, k)
      {
        assert Aftermath(front, g, k) && trace[..k] == front[..k];
      }
      assert ReattestingAt(trace, n, f, g);
    }
  }
}
