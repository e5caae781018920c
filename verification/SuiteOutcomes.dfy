/**
 What a finished run of the suite leaves on disk, read off its trace: which scores the scans behind the pair
 loop take away and which they leave, which scoreboard is the last one, and what a run in a world that stands
 still achieves (evals/runner.py).
 */
module SuiteOutcomes {
  import opened Options
  import opened Runner
  import opened SuiteTrace

  // ----- what the pieces of a run add to the trace

  /** From `n` on, a look found this adapter changed. */
  predicate SeenChanged(trace: seq<Event>, n: nat, name: string) {
    exists t :: n <= t < |trace| && trace[t] == AdapterSeen(name, false)
  }

  /** The trace goes on without a look at an adapter. */
  predicate NoLooks(p: State, q: State) {
    p.trace <= q.trace && forall t :: |p.trace| <= t < |q.trace| ==> !q.trace[t].AdapterSeen?
  }

  predicate SameAt(files: map<Key, File>, other: map<Key, File>, key: Key) {
    (key in files <==> key in other) && (key in files ==> files[key] == other[key])
  }

  lemma SeenTheSame(p: State, q: State, n: nat, name: string)
    requires NoLooks(p, q)
    ensures SeenChanged(q.trace, n, name) <==> SeenChanged(p.trace, n, name)
  {
    if SeenChanged(p.trace, n, name) {
      var t :| n <= t < |p.trace| && p.trace[t] == AdapterSeen(name, false);
      assert q.trace[t] == p.trace[t];
    }
    if SeenChanged(q.trace, n, name) {
      var t :| n <= t < |q.trace| && q.trace[t] == AdapterSeen(name, false);
      assert t < |p.trace| && p.trace[t] == q.trace[t];
    }
  }

  lemma NoLooksTwice(p: State, q: State, r: State)
    requires NoLooks(p, q) && NoLooks(q, r)
    ensures NoLooks(p, r)
  {
    forall t | |p.trace| <= t < |r.trace|
      ensures !r.trace[t].AdapterSeen?
    {
      assert t < |q.trace| ==> r.trace[t] == q.trace[t];
    }
  }

  lemma LookedAdds(config: Config, world: World, p: State)
    ensures var q := Looked(config, world, p);
            && NoLooks(p, q) && q.store.files == p.store.files && q.pairs == p.pairs
            && (p.sourceTainted ==> q.sourceTainted)
  {
  }

  lemma DiscardOneAdds(stamp: Stamp, adapters: Option<set<string>>, p: State, i: nat, key: Key)
    requires i < |p.pairs|
    ensures var q := DiscardOne(stamp, adapters, p, i);
            NoLooks(p, q) && (adapters.Some? && key.0 !in adapters.value ==> SameAt(p.store.files, q.store.files, key))
  {
  }

  lemma {:induction false} DiscardAdds(stamp: Stamp, adapters: Option<set<string>>, p: State, n: nat, key: Key)
    requires n <= |p.pairs|
    ensures var q := Discard(stamp, adapters, p, n);
            NoLooks(p, q) && (adapters.Some? && key.0 !in adapters.value ==> SameAt(p.store.files, q.store.files, key))
    decreases |p.pairs| - n
  {
    if n < |p.pairs| {
      var q := DiscardOne(stamp, adapters, p, n);
      DiscardOneAdds(stamp, adapters, p, n, key);
      DiscardAdds(stamp, adapters, q, n + 1, key);
      NoLooksTwice(p, q, Discard(stamp, adapters, q, n + 1));
    }
  }

  /** A scan sees exactly the adapters it finds changed. */
  lemma {:induction false} ScannedAdds(config: Config, world: World, p: State, n: nat)
    requires n <= |config.adapters|
    ensures var q := Scanned(config, world, p, n); p.trace <= q.trace && q.store == p.store
    ensures forall name :: SeenChanged(Scanned(config, world, p, n).trace, |p.trace|, name) <==>
              name in Changed(config, world, p, n)
  {
    if n > 0 {
      ScannedAdds(config, world, p, n - 1);
      var q, r := Scanned(config, world, p, n - 1), Scanned(config, world, p, n);
      forall name
        ensures SeenChanged(r.trace, |p.trace|, name) <==>
                  SeenChanged(q.trace, |p.trace|, name) || r.trace[|q.trace|] == AdapterSeen(name, false)
      {
        SeenOneMore(q.trace, r.trace[|q.trace|], |p.trace|, name);
      }
    }
  }

  lemma SeenOneMore(trace: seq<Event>, e: Event, n: nat, name: string)
    requires n <= |trace|
    ensures SeenChanged(trace + [e], n, name) <==> SeenChanged(trace, n, name) || e == AdapterSeen(name, false)
  {
    var more := trace + [e];
    if SeenChanged(trace, n, name) {
      var t :| n <= t < |trace| && trace[t] == AdapterSeen(name, false);
      assert more[t] == trace[t];
    }
    assert more[|trace|] == e;
    if SeenChanged(more, n, name) {
      var t :| n <= t < |more| && more[t] == AdapterSeen(name, false);
      assert t < |trace| ==> trace[t] == more[t];
    }
  }

  lemma SeenLater(p: State, q: State, n: nat, name: string)
    requires p.trace <= q.trace && n <= |p.trace|
    ensures SeenChanged(q.trace, n, name) <==> SeenChanged(p.trace, n, name) || SeenChanged(q.trace, |p.trace|, name)
  {
    if SeenChanged(p.trace, n, name) {
      var t :| n <= t < |p.trace| && p.trace[t] == AdapterSeen(name, false);
      assert q.trace[t] == p.trace[t];
    }
    if SeenChanged(q.trace, n, name) {
      var t :| n <= t < |q.trace| && q.trace[t] == AdapterSeen(name, false);
      assert t < |p.trace| ==> p.trace[t] == q.trace[t];
    }
  }

  // ----- scores that go

  /** No pair of an adapter that was seen changed since `n` has a score, but for the adapters named. */
  predicate Swept(p: State, n: nat, but: set<string>) {
    forall i :: 0 <= i < |p.pairs| && SeenChanged(p.trace, n, p.pairs[i].key.0) ==>
      !p.pairs[i].Scored() || p.pairs[i].key.0 in but
  }

  /** Pairs only lose scores. */
  predicate OnlyLost(p: State, q: State) {
    |q.pairs| == |p.pairs| &&
    forall i :: 0 <= i < |p.pairs| ==> q.pairs[i].key == p.pairs[i].key && (q.pairs[i].Scored() ==> p.pairs[i].Scored())
  }

  lemma DiscardLoses(stamp: Stamp, adapters: Option<set<string>>, p: State)
    ensures OnlyLost(p, Discard(stamp, adapters, p, 0))
    ensures var q := Discard(stamp, adapters, p, 0);
            forall i :: 0 <= i < |q.pairs| && Affected(adapters, q.pairs[i]) ==> !q.pairs[i].Scored()
  {
    DiscardMeaning(stamp, adapters, p, 0);
  }

  lemma SweptStays(p: State, q: State, n: nat, but: set<string>)
    requires Swept(p, n, but) && NoLooks(p, q) && OnlyLost(p, q)
    ensures Swept(q, n, but)
  {
    forall i | 0 <= i < |q.pairs| && SeenChanged(q.trace, n, q.pairs[i].key.0)
      ensures !q.pairs[i].Scored() || q.pairs[i].key.0 in but
    {
      SeenTheSame(p, q, n, q.pairs[i].key.0);
    }
  }

  lemma AttestSweeps(config: Config, world: World, p: State, n: nat, but: set<string>)
    requires Swept(p, n, but)
    ensures var q := SourceAttested(config, world, p); Swept(q, n, but) && NoLooks(p, q)
  {
    var q := Looked(config, world, p);
    LookedAdds(config, world, p);
    SweptStays(p, q, n, but);
    if q.sourceTainted {
      var r := Discard(config.stamp, None, q, 0);
      DiscardLoses(config.stamp, None, q);
      DiscardAdds(config.stamp, None, q, 0, ("", ""));
      SweptStays(q, r, n, but);
      NoLooksTwice(p, q, r);
    }
  }

  lemma ScanSweeps(config: Config, world: World, p: State, n: nat)
    requires Swept(p, n, {}) && n <= |p.trace|
    ensures Swept(Scanned(config, world, p, |config.adapters|), n, Changed(config, world, p, |config.adapters|))
  {
    var q := Scanned(config, world, p, |config.adapters|);
    ScannedAdds(config, world, p, |config.adapters|);
    forall i | 0 <= i < |q.pairs| && SeenChanged(q.trace, n, q.pairs[i].key.0)
      ensures !q.pairs[i].Scored() || q.pairs[i].key.0 in Changed(config, world, p, |config.adapters|)
    {
      SeenLater(p, q, n, q.pairs[i].key.0);
    }
  }

  lemma MarkedAdds(p: State)
    ensures NoLooks(p, p.Marked()) && OnlyLost(p, p.Marked()) && p.Marked().store.files == p.store.files
  {
  }

  lemma DropSweeps(config: Config, p: State, n: nat, changed: set<string>)
    requires Swept(p, n, changed)
    ensures Swept(Dropped(config, changed, p), n, {})
  {
    if changed != {} {
      var q, r := p.Marked(), Dropped(config, changed, p);
      MarkedAdds(p);
      SweptStays(p, q, n, changed);
      DiscardLoses(config.stamp, Some(changed), q);
      DiscardAdds(config.stamp, Some(changed), q, 0, ("", ""));
      SweptStays(q, r, n, changed);
    }
  }

  // ----- scores that stay

  /** Without source drift, files of adapters not seen changed since `n` are those of `old`. */
  predicate KeptAt(files: map<Key, File>, p: State, n: nat, key: Key) {
    !p.sourceTainted && !SeenChanged(p.trace, n, key.0) ==> SameAt(files, p.store.files, key)
  }

  lemma AttestKeeps(config: Config, world: World, files: map<Key, File>, p: State, n: nat, key: Key)
    requires KeptAt(files, p, n, key)
    ensures KeptAt(files, SourceAttested(config, world, p), n, key)
  {
    var q := Looked(config, world, p);
    LookedAdds(config, world, p);
    SeenTheSame(p, q, n, key.0);
    if q.sourceTainted {
      TaintedStays(config.stamp, None, q);
    }
  }

  lemma TaintedStays(stamp: Stamp, adapters: Option<set<string>>, p: State)
    ensures Discard(stamp, adapters, p, 0).sourceTainted == p.sourceTainted
  {
  }

  lemma ScanKeepsFiles(config: Config, world: World, files: map<Key, File>, p: State, n: nat, key: Key)
    requires KeptAt(files, p, n, key) && n <= |p.trace|
    ensures var q := Scanned(config, world, p, |config.adapters|);
            && KeptAt(files, q, n, key)
            && (key.0 in Changed(config, world, p, |config.adapters|) ==> SeenChanged(q.trace, n, key.0))
  {
    ScannedAdds(config, world, p, |config.adapters|);
    SeenLater(p, Scanned(config, world, p, |config.adapters|), n, key.0);
  }

  lemma DropKeepsFiles(config: Config, files: map<Key, File>, p: State, n: nat, key: Key, changed: set<string>)
    requires KeptAt(files, p, n, key) && (key.0 in changed ==> SeenChanged(p.trace, n, key.0))
    ensures KeptAt(files, Dropped(config, changed, p), n, key)
  {
    if changed != {} {
      var q, r := p.Marked(), Dropped(config, changed, p);
      MarkedAdds(p);
      DiscardAdds(config.stamp, Some(changed), q, 0, key);
      NoLooksTwice(p, q, r);
      SeenTheSame(p, r, n, key.0);
    }
  }

  // ----- from the end of the pair loop to the end of the run

  /** Both, and the trace has not lost anything. */
  ghost predicate Late(files: map<Key, File>, p: State, n: nat) {
    n <= |p.trace| && Swept(p, n, {}) && forall key :: KeptAt(files, p, n, key)
  }

  lemma ScanAndDropLate(config: Config, world: World, files: map<Key, File>, p: State, n: nat)
    requires Late(files, p, n)
    ensures Late(files, ScannedAndDropped(config, world, p), n) && p.trace <= ScannedAndDropped(config, world, p).trace
  {
    var changed, q := Changed(config, world, p, |config.adapters|), Scanned(config, world, p, |config.adapters|);
    ScannedAdds(config, world, p, |config.adapters|);
    ScanSweeps(config, world, p, n);
    DropSweeps(config, q, n, changed);
    forall key
      ensures KeptAt(files, Dropped(config, changed, q), n, key)
    {
      ScanKeepsFiles(config, world, files, p, n, key);
      DropKeepsFiles(config, files, q, n, key, changed);
    }
    DroppedExtends(config, changed, q);
  }

  lemma DroppedExtends(config: Config, changed: set<string>, p: State)
    ensures p.trace <= Dropped(config, changed, p).trace
  {
    if changed != {} {
      MarkedAdds(p);
      DiscardAdds(config.stamp, Some(changed), p.Marked(), 0, ("", ""));
    }
  }

  lemma AttestLate(config: Config, world: World, files: map<Key, File>, p: State, n: nat)
    requires Late(files, p, n)
    ensures Late(files, SourceAttested(config, world, p), n) && p.trace <= SourceAttested(config, world, p).trace
  {
    AttestSweeps(config, world, p, n, {});
    forall key
      ensures KeptAt(files, SourceAttested(config, world, p), n, key)
    {
      AttestKeeps(config, world, files, p, n, key);
    }
  }

  /** An event that is no look and no save. */
  lemma PlainEventLate(files: map<Key, File>, p: State, e: Event, n: nat)
    requires Late(files, p, n) && !e.AdapterSeen? && !e.Saved?
    ensures Late(files, p.And(e), n)
  {
    var q := p.And(e);
    SweptStays(p, q, n, {});
    forall key
      ensures KeptAt(files, q, n, key)
    {
      SeenTheSame(p, q, n, key.0);
      assert KeptAt(files, p, n, key);
    }
  }

  lemma ReportLate(config: Config, world: World, files: map<Key, File>, p: State, n: nat)
    requires Late(files, p, n)
    ensures Late(files, Reported(config, world, p), n) && p.trace <= Reported(config, world, p).trace
  {
    AttestLate(config, world, files, p, n);
    var q := SourceAttested(config, world, p);
    ScanAndDropLate(config, world, files, q, n);
    PlainEventLate(files, ScannedAndDropped(config, world, q), BoardSaved, n);
  }

  lemma FinallyDropLate(config: Config, world: World, files: map<Key, File>, p: State, n: nat)
    requires Late(files, p, n)
    ensures Late(files, FinallyDropped(config, world, p), n) && p.trace <= FinallyDropped(config, world, p).trace
  {
    AttestLate(config, world, files, p, n);
    var q := SourceAttested(config, world, p);
    var changed, r := Changed(config, world, q, |config.adapters|), Scanned(config, world, q, |config.adapters|);
    ScannedAdds(config, world, q, |config.adapters|);
    ScanSweeps(config, world, q, n);
    AttestSweeps(config, world, r, n, changed);
    var t := Rescanned(config, world, p);
    DropSweeps(config, t, n, changed);
    forall key
      ensures KeptAt(files, Dropped(config, changed, t), n, key)
    {
      ScanKeepsFiles(config, world, files, q, n, key);
      AttestKeeps(config, world, files, r, n, key);
      SeenTheSame(r, t, n, key.0);
      DropKeepsFiles(config, files, t, n, key, changed);
    }
    DroppedExtends(config, changed, t);
  }

  lemma FinallyLate(config: Config, world: World, files: map<Key, File>, p: State, n: nat)
    requires Late(files, p, n)
    ensures Late(files, FinallyAttested(config, world, p), n) && p.trace <= FinallyAttested(config, world, p).trace
  {
    FinallyDropLate(config, world, files, p, n);
    PlainEventLate(files, FinallyDropped(config, world, p), BoardSaved, n);
  }

  lemma ConcludeLate(world: World, start: Durable, files: map<Key, File>, p: State, n: nat)
    requires Late(files, p, n)
    ensures Late(files, Concluded(world, start, p).0, n) && p.trace <= Concluded(world, start, p).0.trace
  {
    PlainEventLate(files, p, Indexed, n);
    PlainEventLate(files, p, Cleared, n);
    PlainEventLate(files, p.And(Indexed), Cleared, n);
  }

  /** The state at the end of the pair loop. */
  function LoopEnd(config: Config, world: World, before: Durable): State {
    PairsDone(config, world, before, Schedule(config.adapters, config.targets),
              Looked(config, world, Begun(config, before)))
  }

  lemma StartsLate(p: State)
    ensures Late(p.store.files, p, |p.trace|)
  {
  }

  lemma RunIsLate(config: Config, world: World, before: Durable)
    requires SuiteRunOf(config, world, before).1.Finished?
    ensures var p := LoopEnd(config, world, before); var q := SuiteRunOf(config, world, before).0;
            Late(p.store.files, q, |p.trace|) && p.trace <= q.trace
  {
    var p := LoopEnd(config, world, before);
    var files, n := p.store.files, |p.trace|;
    StartsLate(p);
    ScanAndDropLate(config, world, files, p, n);
    var q := ScannedAndDropped(config, world, p);
    ReportLate(config, world, files, q, n);
    var r := Reported(config, world, q);
    FinallyLate(config, world, files, r, n);
    ConcludeLate(world, before, files, FinallyAttested(config, world, r), n);
  }

  /** After a finished run no scheduled pair has a score on disk whose adapter a look behind the pair loop found
      changed; and without source drift, what the pair loop left on disk for every other adapter is still there. */
  lemma LateScansDecide(config: Config, world: World, before: Durable, key: Key)
    requires SuiteRunOf(config, world, before).1.Finished?
    ensures var q, n := SuiteRunOf(config, world, before).0, |LoopEnd(config, world, before).trace|;
            && n <= |q.trace|
            && (key in Schedule(config.adapters, config.targets) && SeenChanged(q.trace, n, key.0) ==>
                  !StoredScore(q.store.files, key))
            && (SourceSeen(false) !in q.trace && !SeenChanged(q.trace, n, key.0) ==>
                  SameAt(Replay(before, q.trace[..n]).files, q.store.files, key))
  {
    var p, q := LoopEnd(config, world, before), SuiteRunOf(config, world, before).0;
    RunIsLate(config, world, before);
    RunSettles(config, world, before);
    LoopEndIsReplay(config, world, before);
    assert q.trace[..|p.trace|] == p.trace;
    TaintIsSeen(config, world, before);
    assert KeptAt(p.store.files, q, |p.trace|, key);
    if key in Schedule(config.adapters, config.targets) {
      var i :| 0 <= i < |q.pairs| && q.pairs[i].key == key;
      assert FiledAt(q.store.files, q.pairs, key);
    }
  }

  lemma LoopEndIsReplay(config: Config, world: World, before: Durable)
    requires SuiteRunOf(config, world, before).1.Finished?
    ensures var p := LoopEnd(config, world, before); p.store == Replay(before, p.trace)
  {
    var p := Looked(config, world, Begun(config, before));
    BegunIsGood(config, world, before);
    LookKeeps(config, world, before, Begun(config, before), None);
    PairsKeep(config, world, before, Schedule(config.adapters, config.targets), p);
  }

  lemma TaintIsSeen(config: Config, world: World, before: Durable)
    requires SuiteRunOf(config, world, before).1.Finished?
    ensures var q := SuiteRunOf(config, world, before).0; q.sourceTainted ==> SourceSeen(false) in q.trace
  {
    var p := Looked(config, world, Begun(config, before));
    BegunIsGood(config, world, before);
    LookKeeps(config, world, before, Begun(config, before), None);
    PerformKeeps(config, world, before, p);
    var r := Performed(config, world, before, p);
    GoodTaint(config, world, before, r);
    ConcludeExtends(world, before, r);
  }

  lemma GoodTaint(config: Config, world: World, start: Durable, p: State)
    requires Good(config, world, start, p, None)
    ensures p.sourceTainted ==> SourceSeen(false) in p.trace
  {
    DriftMeaning(p.trace);
  }

  lemma ConcludeExtends(world: World, start: Durable, p: State)
    ensures var q := Concluded(world, start, p).0; p.trace <= q.trace && q.sourceTainted == p.sourceTainted
    ensures SourceSeen(false) in p.trace ==> SourceSeen(false) in Concluded(world, start, p).0.trace
  {
    var q := Concluded(world, start, p).0;
    if SourceSeen(false) in p.trace {
      var t :| 0 <= t < |p.trace| && p.trace[t] == SourceSeen(false);
      assert q.trace[t] == SourceSeen(false);
    }
  }

  // ----- the last scoreboard

  /** The last scoreboard is newer than the last evidence. */
  ghost predicate BoardIsCurrent(trace: seq<Event>) {
    exists n :: 0 <= n < |trace| && trace[n] == BoardSaved && forall t :: n < t < |trace| ==> !trace[t].Saved?
  }

  lemma CurrentStays(p: State, q: State)
    requires BoardIsCurrent(p.trace) && p.trace <= q.trace
    requires forall t :: |p.trace| <= t < |q.trace| ==> !q.trace[t].Saved?
    ensures BoardIsCurrent(q.trace)
  {
    var n :| 0 <= n < |p.trace| && p.trace[n] == BoardSaved && forall t :: n < t < |p.trace| ==> !p.trace[t].Saved?;
    assert q.trace[n] == BoardSaved;
    forall t | n < t < |q.trace|
      ensures !q.trace[t].Saved?
    {
      assert t < |p.trace| ==> q.trace[t] == p.trace[t];
    }
  }

  lemma JustSaved(p: State)
    ensures BoardIsCurrent(p.And(BoardSaved).trace)
  {
    assert p.And(BoardSaved).trace[|p.trace|] == BoardSaved;
  }

  lemma {:induction false} NothingToDiscard(stamp: Stamp, adapters: Option<set<string>>, p: State, n: nat)
    requires n <= |p.pairs| && NoScores(p.pairs)
    ensures Discard(stamp, adapters, p, n) == p
    decreases |p.pairs| - n
  {
    if n < |p.pairs| {
      assert DiscardOne(stamp, adapters, p, n) == p;
      NothingToDiscard(stamp, adapters, p, n + 1);
    }
  }

  lemma AttestIsCurrent(config: Config, world: World, p: State)
    requires BoardIsCurrent(p.trace) && (SourceAttested(config, world, p).sourceTainted ==> NoScores(p.pairs))
    ensures BoardIsCurrent(SourceAttested(config, world, p).trace)
  {
    var q := Looked(config, world, p);
    CurrentStays(p, q);
    if q.sourceTainted {
      TaintedStays(config.stamp, None, q);
      NothingToDiscard(config.stamp, None, q, 0);
    }
  }

  lemma {:induction false} ScanIsCurrent(config: Config, world: World, p: State, n: nat)
    requires BoardIsCurrent(p.trace) && n <= |config.adapters|
    ensures BoardIsCurrent(Scanned(config, world, p, n).trace)
  {
    if n > 0 {
      ScanIsCurrent(config, world, p, n - 1);
      CurrentStays(Scanned(config, world, p, n - 1), Scanned(config, world, p, n));
    }
  }

  /** Every finished run has saved a scoreboard after the last evidence it saved. */
  lemma LastBoardIsCurrent(config: Config, world: World, before: Durable)
    requires SuiteRunOf(config, world, before).1.Finished?
    ensures BoardIsCurrent(SuiteRunOf(config, world, before).0.trace)
  {
    var p := LoopEnd(config, world, before);
    var r := Reported(config, world, ScannedAndDropped(config, world, p));
    ReportedIsCurrent(config, world, ScannedAndDropped(config, world, p));
    FinallyIsCurrent(config, world, r);
    ConcludedIsCurrent(world, before, FinallyAttested(config, world, r));
  }

  lemma ReportedIsCurrent(config: Config, world: World, p: State)
    ensures BoardIsCurrent(Reported(config, world, p).trace)
  {
    JustSaved(ScannedAndDropped(config, world, SourceAttested(config, world, p)));
  }

  lemma ConcludedIsCurrent(world: World, before: Durable, p: State)
    requires BoardIsCurrent(p.trace)
    ensures BoardIsCurrent(Concluded(world, before, p).0.trace)
  {
    CurrentStays(p, Concluded(world, before, p).0);
  }

  lemma FinallyIsCurrent(config: Config, world: World, p: State)
    requires BoardIsCurrent(p.trace)
    ensures BoardIsCurrent(FinallyAttested(config, world, p).trace)
  {
    JustSaved(FinallyDropped(config, world, p));
    if !BoardIsStale(config, world, p) {
      var q := SourceAttested(config, world, p);
      AttestIsCurrent(config, world, p);
      ScanIsCurrent(config, world, q, |config.adapters|);
      AttestIsCurrent(config, world, Scanned(config, world, q, |config.adapters|));
    }
  }

  // ----- a world that stands still

  /** Source and adapters stay as recorded, and every answer is valid and no failure. */
  ghost predicate Steady(config: Config, world: World) {
    && (forall t: nat :: world.source(t) == config.source)
    && (forall t: nat, name :: Unmoved(config, world, t, name))
    && (forall t: nat, key :: GoodAnswer(world.answer(t, key)))
  }

  predicate GoodAnswer(a: Answer) {
    a.Answered? && a.valid && a.status != Failed
  }

  /** The stored pair can stand for a fresh one: of this run and source, valid for its place, and no failure. */
  predicate Reusable(config: Config, world: World, files: map<Key, File>, key: Key, pair: Pair) {
    && key in files && files[key] == Readable(pair) && pair.key == key && pair.status != Failed
    && pair.fingerprint == config.stamp.fingerprint && pair.source == config.source && !world.evidenceError(pair)
  }

  /** Nothing has drifted and nothing has failed. */
  predicate Fine(p: State) {
    !p.sourceTainted && !p.evaluatorTainted && !AnyFailed(p.pairs)
  }

  lemma SteadyLook(config: Config, world: World, p: State)
    requires Steady(config, world) && Fine(p)
    ensures var q := SourceAttested(config, world, p);
            q == Looked(config, world, p) && Fine(q) && q.eligible == p.eligible && q.store.files == p.store.files
  {
  }

  lemma SteadyAdapter(config: Config, world: World, p: State, name: string, news: bool)
    requires Steady(config, world)
    ensures Unmoved(config, world, |p.trace|, name)
    ensures AdapterAttested(config, world, name, news, p) == p.And(AdapterSeen(name, true))
  {
  }

  lemma FineSnoc(p: State, q: State, pair: Pair)
    requires Fine(p) && q.pairs == p.pairs + [pair] && !pair.status.Failed?
    requires !q.sourceTainted && !q.evaluatorTainted
    ensures Fine(q)
  {
    forall i | 0 <= i < |q.pairs|
      ensures !q.pairs[i].status.Failed?
    {
      assert i < |p.pairs| ==> q.pairs[i] == p.pairs[i];
    }
  }

  lemma SteadyExecute(config: Config, world: World, key: Key, p: State)
    requires Steady(config, world) && Fine(p)
    ensures var q := Executed(config, world, key, true, p);
            && Fine(q) && q.eligible == p.eligible && p.trace <= q.trace
            && (forall other :: other != key ==> SameAt(p.store.files, q.store.files, other))
  {
    var r := Looked(config, world, p);
    SteadyAdapter(config, world, r, key.0, true);
    var result := Result(config, world, key, true, p);
    assert GoodAnswer(world.answer(|p.trace|, key));
    FineSnoc(p, Executed(config, world, key, true, p), result);
  }

  lemma SteadyTakeOver(config: Config, world: World, pair: Pair, p: State)
    requires Fine(p) && !pair.status.Failed?
    ensures var q := TakenOver(config, pair, p);
            && Fine(q) && q.eligible == p.eligible && p.trace <= q.trace && Reused(pair) in q.trace
            && (forall other :: other != pair.key ==> SameAt(p.store.files, q.store.files, other))
  {
    var q := TakenOver(config, pair, p);
    FineSnoc(p, q, pair.Stamped(config.stamp, config.source));
    assert q.trace[|p.trace|] == Reused(pair);
  }

  /** A pair in a steady world: it does not fail, it leaves other files alone, and a usable one is taken over. */
  lemma SteadyPair(config: Config, world: World, start: Durable, key: Key, p: State)
    requires Steady(config, world) && Fine(p)
    ensures var q, usable := PairDone(config, world, start, key, p), Usable(config, world, p.store.files, key);
            && Fine(q) && q.eligible == p.eligible && p.trace <= q.trace
            && (forall other :: other != key ==> SameAt(p.store.files, q.store.files, other))
            && (!config.rerun && !start.evaluatorMarker && usable.Some? ==> Reused(usable.value) in q.trace)
  {
    SteadyLook(config, world, p);
    var q := Looked(config, world, p);
    SteadyAdapter(config, world, q, key.0, true);
    var r := AdapterAttested(config, world, key.0, true, q);
    assert p.trace <= r.trace && Fine(r) && r.store.files == p.store.files;
    var usable := Usable(config, world, r.store.files, key);
    if !config.rerun && !start.evaluatorMarker && usable.Some? {
      SteadyTakeOver(config, world, usable.value, r);
    } else if !config.rerun && !start.evaluatorMarker {
      SteadyExecute(config, world, key, Loaded(config, world, key, r));
    } else {
      SteadyExecute(config, world, key, r);
    }
  }

  lemma {:induction false} SteadyPairs(config: Config, world: World, start: Durable, schedule: seq<Key>, p: State)
    requires Steady(config, world) && Fine(p)
    ensures var q := PairsDone(config, world, start, schedule, p);
            Fine(q) && q.eligible == p.eligible && p.trace <= q.trace
  {
    if schedule != [] {
      SteadyPair(config, world, start, schedule[0], p);
      SteadyPairs(config, world, start, schedule[1..], PairDone(config, world, start, schedule[0], p));
    }
  }

  /** A usable pair is taken over when its turn comes. */
  lemma {:induction false} SteadyReuse(config: Config, world: World, start: Durable, schedule: seq<Key>, p: State,
                                       key: Key)
    requires Steady(config, world) && Fine(p) && key in schedule && !config.rerun && !start.evaluatorMarker
    requires Usable(config, world, p.store.files, key).Some?
    ensures Reused(Usable(config, world, p.store.files, key).value) in
              PairsDone(config, world, start, schedule, p).trace
  {
    var q, pair := PairDone(config, world, start, schedule[0], p), Usable(config, world, p.store.files, key).value;
    SteadyPair(config, world, start, schedule[0], p);
    SteadyPairs(config, world, start, schedule[1..], q);
    if schedule[0] == key {
      StillThere(q.trace, PairsDone(config, world, start, schedule, p).trace, Reused(pair));
    } else {
      assert SameAt(p.store.files, q.store.files, key);
      SteadyReuse(config, world, start, schedule[1..], q, key);
    }
  }

  lemma StillThere(trace: seq<Event>, more: seq<Event>, e: Event)
    requires trace <= more && e in trace
    ensures e in more
  {
    var t :| 0 <= t < |trace| && trace[t] == e;
    assert more[t] == e;
  }

  lemma {:induction false} SteadyScan(config: Config, world: World, p: State, n: nat)
    requires Steady(config, world) && n <= |config.adapters|
    ensures Changed(config, world, p, n) == {} && p.trace <= Scanned(config, world, p, n).trace
    ensures var q := Scanned(config, world, p, n); q == p.(trace := q.trace, store := q.store) && q.store == p.store
  {
    if n > 0 {
      SteadyScan(config, world, p, n - 1);
      assert Unmoved(config, world, |Scanned(config, world, p, n - 1).trace|, config.adapters[n - 1]);
    }
  }

  lemma SteadyRest(config: Config, world: World, p: State)
    requires Steady(config, world) && Fine(p)
    ensures var q := FinallyAttested(config, world, Reported(config, world, ScannedAndDropped(config, world, p)));
            Fine(q) && q.eligible == p.eligible && p.trace <= q.trace
  {
    var n := |config.adapters|;
    SteadyScan(config, world, p, n);
    var q := ScannedAndDropped(config, world, p);
    SteadyLook(config, world, q);
    var r := SourceAttested(config, world, q);
    SteadyScan(config, world, r, n);
    var t := Reported(config, world, q);
    assert Fine(t);
    SteadyLook(config, world, t);
    var u := SourceAttested(config, world, t);
    SteadyScan(config, world, u, n);
    SteadyLook(config, world, Scanned(config, world, u, n));
  }

  /** In a steady world a run that is not rejected succeeds, takes over every usable pair unless it has to start
      afresh, and is indexed if it is a history candidate. */
  lemma SteadyRunSucceeds(config: Config, world: World, before: Durable)
    requires Steady(config, world) && !before.sourceMarker && world.resumable && world.keyFree && world.appendAccepted
    ensures var (q, ending) := SuiteRunOf(config, world, before);
            && ending == Finished(false) && (Indexed in q.trace <==> config.eligible)
            && forall key :: key in Schedule(config.adapters, config.targets) ==>
                 && key in q.store.files && !StoredFailure(q.store.files, key)
                 && (!config.rerun && !before.evaluatorMarker ==>
                       forall pair :: Reusable(config, world, before.files, key, pair) ==> Reused(pair) in q.trace)
  {
    var p, schedule := Looked(config, world, Begun(config, before)), Schedule(config.adapters, config.targets);
    assert Fine(Begun(config, before));
    SteadyLook(config, world, Begun(config, before));
    SteadyPairs(config, world, before, schedule, p);
    var r := PairsDone(config, world, before, schedule, p);
    SteadyRest(config, world, r);
    var t := Performed(config, world, before, p);
    ConcludeExtends(world, before, t);
    RunPromises(config, world, before);
    var q := SuiteRunOf(config, world, before).0;
    AuditMeaning(q.trace);
    forall key, pair | key in schedule && Reusable(config, world, before.files, key, pair)
      ensures !config.rerun && !before.evaluatorMarker ==> Reused(pair) in q.trace
    {
      if !config.rerun && !before.evaluatorMarker {
        SteadyReuse(config, world, before, schedule, p, key);
        StillThere(r.trace, q.trace, Reused(pair));
      }
    }
  }
}
