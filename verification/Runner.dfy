/**
 The suite runner's drift, quarantine and resume machine (evals/runner.py) over the durable state of
 the result store (evals/store.py).

 What the runner observes - source identity, adapter identities, results of the adapters - comes from an
 arbitrary function of time, which is the number of events so far.  The first part says what each piece of
 a run does as a function of that world.  The second proves what every run keeps.  The third is the runner
 itself, which does exactly that.
 */
module Runner {
  import opened Options
  import opened SuiteTrace

  datatype Answer = Crashed | Answered(status: Status, valid: bool)

  datatype Config = Config(
    adapters: seq<string>, targets: seq<string>, rerun: bool,
    eligible: bool,            // nothing about the configuration keeps the run out of the history
    stamp: Stamp,
    source: Identity,          // the recorded source identity
    adapter: string -> Identity)

  /** What the runner cannot know in advance, at every moment. */
  datatype World = World(
    source: nat -> Identity,
    adapter: (nat, string) -> Identity,
    answer: (nat, Key) -> Answer,
    evidenceError: Pair -> bool,
    resumable: bool,           // the stable environment and fingerprint match an existing run
    keyFree: bool,             // the scoreboard key is available
    appendAccepted: bool)      // the index accepts the entry

  function Row(adapter: string, targets: seq<string>): (r: seq<Key>)
    ensures |r| == |targets| && forall i :: 0 <= i < |r| ==> r[i] == (adapter, targets[i])
  {
    seq(|targets|, i requires 0 <= i < |targets| => (adapter, targets[i]))
  }

  /** The pairs in the order they are run. */
  function Schedule(adapters: seq<string>, targets: seq<string>): seq<Key> {
    if adapters == [] then [] else Row(adapters[0], targets) + Schedule(adapters[1..], targets)
  }

  /** The stored pair that may be taken over: readable, with the run's fingerprint and source, with valid
      evidence for its place, and not failed. */
  function Usable(config: Config, world: World, files: map<Key, File>, key: Key): Option<Pair> {
    if key in files && files[key].Readable?
       && files[key].pair.fingerprint == config.stamp.fingerprint && files[key].pair.source == config.source
       && files[key].pair.key == key && !world.evidenceError(files[key].pair) && !files[key].pair.status.Failed?
    then Some(files[key].pair) else None
  }

  /** A stored file that can never be taken over and is replaced by failed evidence. */
  predicate Spoiled(config: Config, world: World, files: map<Key, File>, key: Key) {
    key in files &&
    (files[key].Readable? ==>
      && files[key].pair.fingerprint == config.stamp.fingerprint && files[key].pair.source == config.source
      && (files[key].pair.key != key || world.evidenceError(files[key].pair)))
  }

  /** The adapter has the recorded identity at this moment. */
  predicate Unmoved(config: Config, world: World, time: nat, name: string) {
    world.adapter(time, name) == config.adapter(name)
  }

  /** The result was given at `t`, after the look at its adapter at `j` and before the one that ends the
      trace; both found the adapter unchanged, right after an unchanged source if the source is watched. */
  predicate Earning(config: Config, world: World, trace: seq<Event>, pair: Pair, j: nat, t: nat) {
    var k := |trace| - 1;
    && j < t <= k && world.answer(t, pair.key) == Answered(pair.status, true)
    && trace[j] == AdapterSeen(pair.key.0, true) && trace[k] == AdapterSeen(pair.key.0, true)
    && (forall i :: j < i < k ==> !trace[i].AdapterSeen?)
    && (config.eligible ==> j > 0 && trace[j - 1] == SourceSeen(true) && trace[k - 1] == SourceSeen(true))
  }

  ghost predicate Earned(config: Config, world: World, trace: seq<Event>, pair: Pair) {
    exists j: nat, t: nat :: Earning(config, world, trace, pair, j, t)
  }

  /** The pair was taken over by the last event, and is stamped again. */
  predicate Retaken(config: Config, trace: seq<Event>, pair: Pair) {
    trace != [] && trace[|trace| - 1].Reused? && pair == trace[|trace| - 1].pair.Stamped(config.stamp, config.source)
  }

  predicate DriftSeen(trace: seq<Event>) {
    Audited(trace).sourceDrift || Audited(trace).adapterDrift
  }

  /** Failed evidence: a drift was seen, the adapter crashed, failed or gave invalid evidence, or a file that can
      never be used is replaced. */
  ghost predicate FailureEarned(config: Config, world: World, before: Durable, trace: seq<Event>, pair: Pair) {
    || DriftSeen(trace)
    || (exists t: nat :: t <= |trace| && Given(world, t, pair.key).Failed?)
    || (pair == Placeholder(config, pair.key) && Spoiled(config, world, Replay(before, trace).files, pair.key))
  }

  /** Observations report the world as it is at that moment, pairs are taken over only if they are usable,
      evidence that did not fail is saved only if the adapter gave it or it was just taken over, and evidence
      fails only for a reason. */
  ghost predicate Genuine(config: Config, world: World, before: Durable, trace: seq<Event>, e: Event) {
    match e
    case SourceSeen(same) => config.eligible && (same <==> world.source(|trace|) == config.source)
    case AdapterSeen(name, same) => same <==> Unmoved(config, world, |trace|, name)
    case Reused(pair) => !config.rerun && Usable(config, world, Replay(before, trace).files, pair.key) == Some(pair)
    case Saved(pair) =>
      if pair.status.Failed? then FailureEarned(config, world, before, trace, pair)
      else Earned(config, world, trace, pair) || Retaken(config, trace, pair)
    case _ => true
  }

  ghost predicate GenuineTrace(config: Config, world: World, d: Durable, trace: seq<Event>) {
    trace == [] ||
    (var front := trace[..|trace| - 1];
     GenuineTrace(config, world, d, front) && Genuine(config, world, d, front, trace[|trace| - 1]))
  }

  lemma TraceSnoc(config: Config, world: World, d: Durable, trace: seq<Event>, e: Event)
    ensures Replay(d, trace + [e]) == Apply(Replay(d, trace), e)
    ensures Audited(trace + [e]) == Next(Audited(trace), e)
    ensures GenuineTrace(config, world, d, trace + [e])
       <==> GenuineTrace(config, world, d, trace) && Genuine(config, world, d, trace, e)
  {
    assert (trace + [e])[..|trace|] == trace;
  }

  /** The pair was saved or taken over. */
  predicate Occurs(trace: seq<Event>, pair: Pair) {
    Saved(pair) in trace || Reused(pair) in trace
  }

  predicate AllOccur(trace: seq<Event>, pairs: seq<Pair>) {
    forall i :: 0 <= i < |pairs| ==> Occurs(trace, pairs[i])
  }

  /** One unchanged look at every adapter. */
  function Scan(adapters: seq<string>): (r: seq<Event>)
    ensures |r| == |adapters| && forall i :: 0 <= i < |r| ==> r[i] == AdapterSeen(adapters[i], true)
  {
    seq(|adapters|, i requires 0 <= i < |adapters| => AdapterSeen(adapters[i], true))
  }

  /** The trace ends with an unchanged look at every adapter and then at the source. */
  ghost predicate FreshlyAttested(config: Config, trace: seq<Event>) {
    exists before: seq<Event> :: trace == before + Scan(config.adapters) + [SourceSeen(true)]
  }

  predicate Affected(adapters: Option<set<string>>, pair: Pair) {
    adapters.None? || pair.key.0 in adapters.value
  }

  predicate AnyFailed(pairs: seq<Pair>) {
    exists i :: 0 <= i < |pairs| && pairs[i].status.Failed?
  }

  predicate NoScores(pairs: seq<Pair>) {
    forall i :: 0 <= i < |pairs| ==> !pairs[i].Scored()
  }

  function Keys(pairs: seq<Pair>): (r: seq<Key>)
    ensures |r| == |pairs| && forall i :: 0 <= i < |r| ==> r[i] == pairs[i].key
  {
    seq(|pairs|, i requires 0 <= i < |pairs| => pairs[i].key)
  }

  // ----- what each part of a run does, as a function of the world

  /** The events so far, the store, and the variables of `_run`. */
  datatype State = State(
    trace: seq<Event>, store: Durable, sourceTainted: bool, evaluatorTainted: bool, eligible: bool, pairs: seq<Pair>)
  {
    function And(e: Event): State {
      State(trace + [e], Apply(store, e), sourceTainted, evaluatorTainted, eligible, pairs)
    }

    function Marked(): State {
      And(EvaluatorMarked).(evaluatorTainted := true, eligible := false)
    }
  }

  /** A look at the source, which only history candidates take. */
  function Looked(config: Config, world: World, p: State): State {
    if !config.eligible then p
    else if world.source(|p.trace|) == config.source then p.And(SourceSeen(true))
    else p.And(SourceSeen(false)).And(SourceMarked).(sourceTainted := true, eligible := false)
  }

  function SeenAdapter(config: Config, world: World, name: string, p: State): State {
    p.And(AdapterSeen(name, Unmoved(config, world, |p.trace|, name)))
  }

  /** One look at each of the first `n` adapters. */
  function Scanned(config: Config, world: World, p: State, n: nat): (r: State)
    requires n <= |config.adapters|
    ensures r == p.(trace := r.trace)
  {
    if n == 0 then p else SeenAdapter(config, world, config.adapters[n - 1], Scanned(config, world, p, n - 1))
  }

  /** The adapters those looks find changed. */
  function Changed(config: Config, world: World, p: State, n: nat): set<string>
    requires n <= |config.adapters|
  {
    if n == 0 then {}
    else
      Changed(config, world, p, n - 1)
      + if Unmoved(config, world, |Scanned(config, world, p, n - 1).trace|, config.adapters[n - 1]) then {}
        else {config.adapters[n - 1]}
  }

  /** Scored pairs of the given adapters, of all when None, become failed evidence in memory and on disk;
      here from the pair at `n` on. */
  function Discard(stamp: Stamp, adapters: Option<set<string>>, p: State, n: nat): (r: State)
    requires n <= |p.pairs|
    ensures |r.pairs| == |p.pairs| && r == p.(trace := r.trace, store := r.store, pairs := r.pairs)
    decreases |p.pairs| - n
  {
    if n == |p.pairs| then p else Discard(stamp, adapters, DiscardOne(stamp, adapters, p, n), n + 1)
  }

  function DiscardOne(stamp: Stamp, adapters: Option<set<string>>, p: State, i: nat): (r: State)
    requires i < |p.pairs|
    ensures |r.pairs| == |p.pairs| && r == p.(trace := r.trace, store := r.store, pairs := r.pairs)
  {
    var failed := p.pairs[i].Quarantined(stamp);
    if p.pairs[i].Scored() && Affected(adapters, p.pairs[i])
    then p.And(Saved(failed)).(pairs := p.pairs[i := failed]) else p
  }

  /** A look at the source; when it has drifted, now or before, every score goes. */
  function SourceAttested(config: Config, world: World, p: State): State {
    var q := Looked(config, world, p);
    if q.sourceTainted then Discard(config.stamp, None, q, 0) else q
  }

  /** Changed adapters are marked and lose their scores. */
  function Dropped(config: Config, changed: set<string>, p: State): State {
    if changed == {} then p else Discard(config.stamp, Some(changed), p.Marked(), 0)
  }

  function ScannedAndDropped(config: Config, world: World, p: State): State {
    var n := |config.adapters|;
    Dropped(config, Changed(config, world, p, n), Scanned(config, world, p, n))
  }

  /** The failed evidence put in place of a file that cannot be used. */
  function Placeholder(config: Config, key: Key): Pair {
    Pair(key, Failed, "", config.source, "").Stamped(config.stamp, config.source)
  }

  function Loaded(config: Config, world: World, key: Key, p: State): State {
    if Spoiled(config, world, p.store.files, key) then p.And(Saved(Placeholder(config, key))) else p
  }

  function TakenOver(config: Config, pair: Pair, p: State): State {
    var stamped := pair.Stamped(config.stamp, config.source);
    var q := p.And(Reused(pair));
    var r := if stamped == pair then q else q.And(Saved(stamped));
    r.(pairs := p.pairs + [stamped])
  }

  /** What the adapter gives; crashes and invalid evidence count as failed. */
  function Given(world: World, time: nat, key: Key): Status {
    var answer := world.answer(time, key);
    if answer.Answered? && answer.valid then answer.status else Failed
  }

  /** A look at one adapter, and the marker when that may be news. */
  function AdapterAttested(config: Config, world: World, name: string, news: bool, p: State): State {
    var q := SeenAdapter(config, world, name, p);
    if news && !Unmoved(config, world, |p.trace|, name) then q.Marked() else q
  }

  /** The result of a pair: it stands if neither its adapter nor the source moved around it. */
  function Result(config: Config, world: World, key: Key, same: bool, p: State): Pair {
    var q := Looked(config, world, p);
    var stands := same && !q.sourceTainted && Unmoved(config, world, |q.trace|, key.0);
    Pair(key, if stands then Given(world, |p.trace|, key) else Failed, "", "", "")
      .Stamped(config.stamp, if config.eligible then world.source(|p.trace|) else config.source)
  }

  function Executed(config: Config, world: World, key: Key, same: bool, p: State): State {
    var result := Result(config, world, key, same, p);
    var q := AdapterAttested(config, world, key.0, same, Looked(config, world, p));
    q.And(Saved(result)).(pairs := p.pairs + [result])
  }

  /** The body of the loop over adapters and targets. */
  function PairDone(config: Config, world: World, start: Durable, key: Key, p: State): State {
    var q := Looked(config, world, p);
    var same := Unmoved(config, world, |q.trace|, key.0);
    ReusedOrExecuted(config, world, start, key, same, AdapterAttested(config, world, key.0, true, q))
  }

  function ReusedOrExecuted(config: Config, world: World, start: Durable, key: Key, same: bool, p: State): State {
    if !config.rerun && !start.evaluatorMarker && same && !p.sourceTainted then
      match Usable(config, world, p.store.files, key)
      case Some(pair) => TakenOver(config, pair, p)
      case None => Executed(config, world, key, same, Loaded(config, world, key, p))
    else Executed(config, world, key, same, p)
  }

  function PairsDone(config: Config, world: World, start: Durable, schedule: seq<Key>, p: State): State {
    if schedule == [] then p
    else PairsDone(config, world, start, schedule[1..], PairDone(config, world, start, schedule[0], p))
  }

  function Reported(config: Config, world: World, p: State): State {
    ScannedAndDropped(config, world, SourceAttested(config, world, p)).And(BoardSaved)
  }

  /** Source and adapters before the index, and the source once more after the scan. */
  function Rescanned(config: Config, world: World, p: State): State {
    SourceAttested(config, world, Scanned(config, world, SourceAttested(config, world, p), |config.adapters|))
  }

  /** Only now are changed adapters marked; the scoreboard is written again if any evidence changed. */
  function FinallyAttested(config: Config, world: World, p: State): State {
    var q := FinallyDropped(config, world, p);
    if BoardIsStale(config, world, p) then q.And(BoardSaved) else q
  }

  function FinallyDropped(config: Config, world: World, p: State): State {
    Dropped(config, Changed(config, world, SourceAttested(config, world, p), |config.adapters|),
            Rescanned(config, world, p))
  }

  predicate BoardIsStale(config: Config, world: World, p: State) {
    var q, r := SourceAttested(config, world, p), Rescanned(config, world, p);
    || (q.sourceTainted && !NoScores(p.pairs)) || (r.sourceTainted && !NoScores(q.pairs))
    || Changed(config, world, q, |config.adapters|) != {}
  }

  datatype Ending = Rejected | Stopped | Finished(failed: bool)

  predicate HasFailed(p: State) {
    p.sourceTainted || p.evaluatorTainted || AnyFailed(p.pairs)
  }

  /** Indexing, and clearing the evaluator marker after a clean forced rerun. */
  function Concluded(world: World, start: Durable, p: State): (State, Ending) {
    var failed := HasFailed(p);
    if p.eligible && !failed && !world.appendAccepted then (p, Stopped)
    else
      var q := if p.eligible && !failed then p.And(Indexed) else p;
      (if start.evaluatorMarker && !failed then q.And(Cleared) else q, Finished(failed))
  }

  function Begun(config: Config, before: Durable): State {
    State([], before, false, false, config.eligible, [])
  }

  /** Everything between the first look at the source and the question whether to index the run. */
  function Performed(config: Config, world: World, start: Durable, p: State): State {
    var q := PairsDone(config, world, start, Schedule(config.adapters, config.targets), p);
    FinallyAttested(config, world, Reported(config, world, ScannedAndDropped(config, world, q)))
  }

  /** A whole run. */
  function SuiteRunOf(config: Config, world: World, before: Durable): (State, Ending) {
    if before.sourceMarker || !world.resumable then (Begun(config, before), Rejected)
    else
      var p := Looked(config, world, Begun(config, before));
      if p.eligible && !world.keyFree then (p, Stopped)
      else Concluded(world, before, Performed(config, world, before, p))
  }

  // ----- what every run keeps

  /** The file of every pair in memory, except that of the pair being run, holds one of the pairs in memory. */
  predicate Filed(files: map<Key, File>, pairs: seq<Pair>, busy: Option<Key>) {
    forall i :: 0 <= i < |pairs| && busy != Some(pairs[i].key) ==> FiledAt(files, pairs, pairs[i].key)
  }

  predicate FiledAt(files: map<Key, File>, pairs: seq<Pair>, key: Key) {
    key in files && files[key].Readable? && files[key].pair in pairs && files[key].pair.key == key
  }

  lemma FiledSaved(files: map<Key, File>, pairs: seq<Pair>, pair: Pair)
    requires Filed(files, pairs, Some(pair.key))
    ensures Filed(files[pair.key := Readable(pair)], pairs, Some(pair.key))
    ensures Filed(files[pair.key := Readable(pair)], pairs + [pair], None)
  {
    var files', pairs' := files[pair.key := Readable(pair)], pairs + [pair];
    forall i | 0 <= i < |pairs'|
      ensures FiledAt(files', pairs', pairs'[i].key)
      ensures i < |pairs| && pairs[i].key != pair.key ==> FiledAt(files', pairs, pairs[i].key)
    {
      if i < |pairs| && pairs[i].key != pair.key {
        assert FiledAt(files, pairs, pairs[i].key);
      }
    }
  }

  lemma FiledTaken(files: map<Key, File>, pairs: seq<Pair>, pair: Pair)
    requires Filed(files, pairs, Some(pair.key)) && pair.key in files && files[pair.key] == Readable(pair)
    ensures Filed(files, pairs + [pair], None)
  {
    FiledSaved(files, pairs, pair);
    assert files[pair.key := Readable(pair)] == files;
  }

  lemma FiledReplaced(files: map<Key, File>, pairs: seq<Pair>, index: nat, pair: Pair)
    requires Filed(files, pairs, None) && index < |pairs| && pair.key == pairs[index].key
    ensures Filed(files[pair.key := Readable(pair)], pairs[index := pair], None)
  {
    var files', pairs' := files[pair.key := Readable(pair)], pairs[index := pair];
    forall i | 0 <= i < |pairs'|
      ensures FiledAt(files', pairs', pairs'[i].key)
    {
      var key := pairs'[i].key;
      assert FiledAt(files, pairs, pairs[i].key) && pairs'[index] == pair;
      if key != pair.key {
        var j :| 0 <= j < |pairs| && pairs[j] == files[key].pair;
        assert pairs'[j] == pairs[j];
      }
    }
  }

  /** Store and trace agree, the events are genuine, and every pair in memory is among them. */
  ghost predicate Recorded(config: Config, world: World, start: Durable, p: State) {
    && p.store == Replay(start, p.trace) && GenuineTrace(config, world, start, p.trace)
    && AllOccur(p.trace, p.pairs)
  }

  /** The invariant between observations; `busy` is the pair being run, whose file may be ahead of memory. */
  predicate Consistent(config: Config, start: Durable, p: State, busy: Option<Key>, a: Audit) {
    && a.sound && !a.sourceOpen && !a.indexed && !a.cleared
    && p.sourceTainted == a.sourceDrift && (p.sourceTainted ==> p.store.sourceMarker && config.eligible)
    && p.evaluatorTainted == a.marked && (a.marked ==> a.adapterDrift) && (a.reattested ==> a.adapterDrift)
    && (p.eligible <==> config.eligible && !p.sourceTainted && !p.evaluatorTainted)
    && (a.reused ==> !start.evaluatorMarker)
    && p.store.evaluatorMarker == (start.evaluatorMarker || a.marked)
    && (start.sourceMarker ==> p.store.sourceMarker)
    && p.store.indexed == start.indexed
    && Filed(p.store.files, p.pairs, busy)
  }

  ghost predicate Good(config: Config, world: World, start: Durable, p: State, busy: Option<Key>) {
    Recorded(config, world, start, p) && Consistent(config, start, p, busy, Audited(p.trace))
  }

  predicate Closed(p: State) {
    !Audited(p.trace).AdapterOpen()
  }

  /** The source may be looked at: a drift is unmarked only behind the first scoreboard, and not attested yet. */
  predicate MayAttest(a: Audit) {
    a.AdapterOpen() ==> a.boarded && !a.reattested
  }

  lemma Emitted(config: Config, world: World, start: Durable, p: State, e: Event)
    requires Recorded(config, world, start, p) && Genuine(config, world, start, p.trace, e)
    ensures Recorded(config, world, start, p.And(e)) && Audited(p.And(e).trace) == Next(Audited(p.trace), e)
  {
    TraceSnoc(config, world, start, p.trace, e);
    forall i | 0 <= i < |p.pairs|
      ensures Occurs(p.And(e).trace, p.pairs[i])
    {
      assert Occurs(p.trace, p.pairs[i]);
    }
  }

  lemma LookKeeps(config: Config, world: World, start: Durable, p: State, busy: Option<Key>)
    requires Good(config, world, start, p, busy) && MayAttest(Audited(p.trace))
    ensures var q := Looked(config, world, p); var a, b := Audited(p.trace), Audited(q.trace);
            && Good(config, world, start, q, busy)
            && b.adapterDrift == a.adapterDrift && b.marked == a.marked && b.boarded == a.boarded
            && b.reattested == (a.reattested || (config.eligible && a.AdapterOpen()))
  {
    if config.eligible {
      if world.source(|p.trace|) == config.source {
        NoDriftKeeps(config, world, start, p, busy);
      } else {
        DriftKeeps(config, world, start, p, busy);
      }
    }
  }

  lemma NoDriftKeeps(config: Config, world: World, start: Durable, p: State, busy: Option<Key>)
    requires Good(config, world, start, p, busy) && MayAttest(Audited(p.trace))
    requires config.eligible && world.source(|p.trace|) == config.source
    ensures Good(config, world, start, Looked(config, world, p), busy)
    ensures Audited(Looked(config, world, p).trace) == Next(Audited(p.trace), SourceSeen(true))
  {
    Emitted(config, world, start, p, SourceSeen(true));
  }

  lemma DriftKeeps(config: Config, world: World, start: Durable, p: State, busy: Option<Key>)
    requires Good(config, world, start, p, busy) && MayAttest(Audited(p.trace))
    requires config.eligible && world.source(|p.trace|) != config.source
    ensures Good(config, world, start, Looked(config, world, p), busy)
    ensures Audited(Looked(config, world, p).trace) == Next(Next(Audited(p.trace), SourceSeen(false)), SourceMarked)
  {
    Emitted(config, world, start, p, SourceSeen(false));
    Emitted(config, world, start, p.And(SourceSeen(false)), SourceMarked);
  }

  lemma MarkKeeps(config: Config, world: World, start: Durable, p: State, busy: Option<Key>)
    requires Good(config, world, start, p, busy) && Audited(p.trace).adapterDrift
    ensures var q := p.Marked();
            Good(config, world, start, q, busy) && Closed(q) && Audited(q.trace).boarded == Audited(p.trace).boarded
  {
    Emitted(config, world, start, p, EvaluatorMarked);
  }

  lemma SeeKeeps(config: Config, world: World, start: Durable, p: State, busy: Option<Key>, name: string)
    requires Good(config, world, start, p, busy) && (Audited(p.trace).AdapterOpen() ==> !Audited(p.trace).reattested)
    ensures var q := SeenAdapter(config, world, name, p);
            && Good(config, world, start, q, busy)
            && Audited(q.trace) == Audited(p.trace).(adapterDrift := Audited(p.trace).adapterDrift
                                                     || !Unmoved(config, world, |p.trace|, name))
  {
    Emitted(config, world, start, p, AdapterSeen(name, Unmoved(config, world, |p.trace|, name)));
  }

  lemma {:induction false} ScanKeeps(config: Config, world: World, start: Durable, p: State, busy: Option<Key>, n: nat)
    requires Good(config, world, start, p, busy) && (Audited(p.trace).AdapterOpen() ==> !Audited(p.trace).reattested)
    requires n <= |config.adapters|
    ensures var q := Scanned(config, world, p, n);
            && Good(config, world, start, q, busy) && q.pairs == p.pairs
            && Audited(q.trace) == Audited(p.trace).(adapterDrift := Audited(p.trace).adapterDrift
                                                     || Changed(config, world, p, n) != {})
  {
    if n > 0 {
      ScanKeeps(config, world, start, p, busy, n - 1);
      SeeKeeps(config, world, start, Scanned(config, world, p, n - 1), busy, config.adapters[n - 1]);
    }
  }

  /** Evidence for the pair being run is saved. */
  lemma SaveKeeps(config: Config, world: World, start: Durable, p: State, pair: Pair)
    requires Good(config, world, start, p, Some(pair.key)) && Closed(p) && (pair.status.Failed? || !p.sourceTainted)
    requires Genuine(config, world, start, p.trace, Saved(pair))
    ensures var q := p.And(Saved(pair));
            Good(config, world, start, q, Some(pair.key)) && Audited(q.trace) == Audited(p.trace)
  {
    Emitted(config, world, start, p, Saved(pair));
    FiledSaved(p.store.files, p.pairs, pair);
  }

  /** The pair being run is done: its file is the one just read or saved. */
  lemma FinishKeeps(config: Config, world: World, start: Durable, p: State, pair: Pair)
    requires Good(config, world, start, p, Some(pair.key))
    requires pair.key in p.store.files && p.store.files[pair.key] == Readable(pair) && Occurs(p.trace, pair)
    ensures Good(config, world, start, p.(pairs := p.pairs + [pair]), None)
  {
    FiledTaken(p.store.files, p.pairs, pair);
  }

  lemma SaveAndFinishKeeps(config: Config, world: World, start: Durable, p: State, pair: Pair)
    requires Good(config, world, start, p, Some(pair.key)) && Closed(p) && (pair.status.Failed? || !p.sourceTainted)
    requires Genuine(config, world, start, p.trace, Saved(pair))
    ensures var q := p.And(Saved(pair)).(pairs := p.pairs + [pair]); Good(config, world, start, q, None) && Closed(q)
  {
    SaveKeeps(config, world, start, p, pair);
    var q := p.And(Saved(pair));
    assert q.trace[|p.trace|] == Saved(pair);
    FinishKeeps(config, world, start, q, pair);
  }

  lemma OccursReplaced(trace: seq<Event>, pairs: seq<Pair>, i: nat, pair: Pair)
    requires AllOccur(trace, pairs) && i < |pairs| && trace != [] && trace[|trace| - 1] == Saved(pair)
    ensures AllOccur(trace, pairs[i := pair])
  {
    assert Saved(pair) in trace;
  }

  ghost predicate SameAudit(config: Config, world: World, start: Durable, a: Audit, p: State) {
    Good(config, world, start, p, None) && Audited(p.trace) == a
  }

  lemma DiscardOneKeeps(config: Config, world: World, start: Durable, adapters: Option<set<string>>, a: Audit,
                        p: State, i: nat) returns (q: State)
    requires SameAudit(config, world, start, a, p) && i < |p.pairs|
    requires (a.AdapterOpen() ==> a.reattested && a.sourceDrift) && (a.sourceDrift || a.adapterDrift)
    ensures SameAudit(config, world, start, a, q) && q == DiscardOne(config.stamp, adapters, p, i)
  {
    q := DiscardOne(config.stamp, adapters, p, i);
    if p.pairs[i].Scored() && Affected(adapters, p.pairs[i]) {
      var failed := p.pairs[i].Quarantined(config.stamp);
      Emitted(config, world, start, p, Saved(failed));
      FiledReplaced(p.store.files, p.pairs, i, failed);
      OccursReplaced(p.And(Saved(failed)).trace, p.pairs, i, failed);
    }
  }

  lemma {:induction false} DiscardKeeps(config: Config, world: World, start: Durable, adapters: Option<set<string>>,
                                        a: Audit, p: State, n: nat)
    requires SameAudit(config, world, start, a, p) && n <= |p.pairs|
    requires (a.AdapterOpen() ==> a.reattested && a.sourceDrift) && (a.sourceDrift || a.adapterDrift)
    ensures SameAudit(config, world, start, a, Discard(config.stamp, adapters, p, n))
    decreases |p.pairs| - n
  {
    if n < |p.pairs| {
      var q := DiscardOneKeeps(config, world, start, adapters, a, p, n);
      DiscardKeeps(config, world, start, adapters, a, q, n + 1);
    }
  }

  /** What discarding means: affected scores become failed evidence of the same key, nothing else changes. */
  lemma {:induction false} DiscardMeaning(stamp: Stamp, adapters: Option<set<string>>, p: State, n: nat)
    requires n <= |p.pairs|
    ensures var after := Discard(stamp, adapters, p, n).pairs;
            forall i :: 0 <= i < |p.pairs| ==>
              after[i] == if i >= n && p.pairs[i].Scored() && Affected(adapters, p.pairs[i])
                then p.pairs[i].Quarantined(stamp) else p.pairs[i]
    decreases |p.pairs| - n
  {
    if n < |p.pairs| {
      DiscardMeaning(stamp, adapters, DiscardOne(stamp, adapters, p, n), n + 1);
    }
  }

  lemma AllDiscarded(stamp: Stamp, adapters: Option<set<string>>, p: State)
    ensures var q := Discard(stamp, adapters, p, 0);
            && Keys(q.pairs) == Keys(p.pairs) && (NoScores(p.pairs) || adapters.None? ==> NoScores(q.pairs))
            && (forall i :: 0 <= i < |q.pairs| && Affected(adapters, q.pairs[i]) ==> !q.pairs[i].Scored())
  {
    DiscardMeaning(stamp, adapters, p, 0);
  }

  lemma SourceAttestKeeps(config: Config, world: World, start: Durable, p: State)
    requires Good(config, world, start, p, None) && MayAttest(Audited(p.trace))
    ensures var q := SourceAttested(config, world, p); var a, b := Audited(p.trace), Audited(q.trace);
            && Good(config, world, start, q, None) && Keys(q.pairs) == Keys(p.pairs)
            && (q.sourceTainted ==> NoScores(q.pairs))
            && b.adapterDrift == a.adapterDrift && b.marked == a.marked && b.boarded == a.boarded
            && (!a.AdapterOpen() ==> b.reattested == a.reattested)
  {
    LookKeeps(config, world, start, p, None);
    var q := Looked(config, world, p);
    if q.sourceTainted {
      DiscardKeeps(config, world, start, None, Audited(q.trace), q, 0);
      AllDiscarded(config.stamp, None, q);
    }
  }

  lemma DropKeeps(config: Config, world: World, start: Durable, changed: set<string>, p: State)
    requires Good(config, world, start, p, None)
    requires changed != {} ==> Audited(p.trace).adapterDrift
    requires Audited(p.trace).AdapterOpen() ==> changed != {}
    ensures var q := Dropped(config, changed, p);
            && Good(config, world, start, q, None) && Closed(q) && Audited(q.trace).boarded == Audited(p.trace).boarded
            && Keys(q.pairs) == Keys(p.pairs) && (NoScores(p.pairs) ==> NoScores(q.pairs))
            && q.sourceTainted == p.sourceTainted && (changed != {} ==> q.evaluatorTainted)
  {
    if changed != {} {
      MarkKeeps(config, world, start, p, None);
      DiscardKeeps(config, world, start, Some(changed), Audited(p.Marked().trace), p.Marked(), 0);
      AllDiscarded(config.stamp, Some(changed), p.Marked());
    }
  }

  lemma ScanAndDropKeeps(config: Config, world: World, start: Durable, p: State)
    requires Good(config, world, start, p, None) && Closed(p)
    ensures var q := ScannedAndDropped(config, world, p);
            Good(config, world, start, q, None) && Closed(q) && Keys(q.pairs) == Keys(p.pairs)
  {
    var n := |config.adapters|;
    ScanKeeps(config, world, start, p, None, n);
    DropKeeps(config, world, start, Changed(config, world, p, n), Scanned(config, world, p, n));
  }

  lemma TakeOverKeeps(config: Config, world: World, start: Durable, pair: Pair, p: State)
    requires Good(config, world, start, p, Some(pair.key)) && Closed(p)
    requires !p.sourceTainted && !start.evaluatorMarker && !config.rerun
    requires Usable(config, world, p.store.files, pair.key) == Some(pair)
    ensures var q := TakenOver(config, pair, p); Good(config, world, start, q, None) && Closed(q)
  {
    var stamped := pair.Stamped(config.stamp, config.source);
    var q := p.And(Reused(pair));
    Emitted(config, world, start, p, Reused(pair));
    assert q.trace[|q.trace| - 1] == Reused(pair);
    if stamped != pair {
      SaveAndFinishKeeps(config, world, start, q, stamped);
    } else {
      FinishKeeps(config, world, start, q, stamped);
    }
  }

  /** The adapter was found unchanged at `j` and not looked at since, right after an unchanged source. */
  predicate LookedBefore(config: Config, trace: seq<Event>, name: string, j: nat) {
    && j < |trace| && trace[j] == AdapterSeen(name, true) && (forall i :: j < i < |trace| ==> !trace[i].AdapterSeen?)
    && (config.eligible ==> j > 0 && trace[j - 1] == SourceSeen(true))
  }

  lemma GivenIsEarned(config: Config, world: World, p: State, key: Key, j: nat, pair: Pair)
    requires LookedBefore(config, p.trace, key.0, j) && pair.key == key
    requires world.answer(|p.trace|, key) == Answered(pair.status, true)
    requires var q := Looked(config, world, p); !q.sourceTainted && Unmoved(config, world, |q.trace|, key.0)
    ensures Earned(config, world, AdapterAttested(config, world, key.0, true, Looked(config, world, p)).trace, pair)
  {
    var r := AdapterAttested(config, world, key.0, true, Looked(config, world, p));
    assert Earning(config, world, r.trace, pair, j, |p.trace|);
  }

  lemma AdapterAttestKeeps(config: Config, world: World, start: Durable, name: string, news: bool, p: State,
                           busy: Option<Key>)
    requires Good(config, world, start, p, busy) && Closed(p) && (news || Audited(p.trace).adapterDrift)
    ensures var q := AdapterAttested(config, world, name, news, p);
            && Good(config, world, start, q, busy) && Closed(q) && q.sourceTainted == p.sourceTainted
            && q.pairs == p.pairs
            && (Unmoved(config, world, |p.trace|, name) || Audited(q.trace).adapterDrift)
  {
    SeeKeeps(config, world, start, p, busy, name);
    if news && !Unmoved(config, world, |p.trace|, name) {
      MarkKeeps(config, world, start, SeenAdapter(config, world, name, p), busy);
    }
  }

  /** A pair fails because of a drift, or because of what its adapter gave. */
  lemma FailureIsGiven(config: Config, world: World, start: Durable, key: Key, same: bool, p: State, result: Pair,
                       r: State)
    requires result == Result(config, world, key, same, p) && result.status.Failed?
    requires same || Audited(p.trace).adapterDrift
    requires var q := Looked(config, world, p);
             && r == AdapterAttested(config, world, key.0, same, q)
             && (q.sourceTainted ==> Audited(r.trace).sourceDrift)
             && (Audited(p.trace).adapterDrift ==> Audited(r.trace).adapterDrift)
             && (Unmoved(config, world, |q.trace|, key.0) || Audited(r.trace).adapterDrift)
    ensures FailureEarned(config, world, start, r.trace, result)
  {
    if !DriftSeen(r.trace) {
      assert Given(world, |p.trace|, key).Failed?;
    }
  }

  lemma ResultIsGenuine(config: Config, world: World, start: Durable, key: Key, same: bool, p: State, j: nat,
                        result: Pair, r: State)
    requires result == Result(config, world, key, same, p) && (same || Audited(p.trace).adapterDrift)
    requires same && !p.sourceTainted ==> LookedBefore(config, p.trace, key.0, j)
    requires var q := Looked(config, world, p);
             && r == AdapterAttested(config, world, key.0, same, q)
             && (q.sourceTainted ==> Audited(r.trace).sourceDrift)
             && (Audited(p.trace).adapterDrift ==> Audited(r.trace).adapterDrift)
             && (Unmoved(config, world, |q.trace|, key.0) || Audited(r.trace).adapterDrift)
    ensures Genuine(config, world, start, r.trace, Saved(result))
  {
    if result.status.Failed? {
      FailureIsGiven(config, world, start, key, same, p, result, r);
    } else {
      GivenIsEarned(config, world, p, key, j, result);
    }
  }

  lemma ExecuteKeeps(config: Config, world: World, start: Durable, key: Key, same: bool, p: State, j: nat)
    requires Good(config, world, start, p, Some(key)) && Closed(p) && (same || Audited(p.trace).adapterDrift)
    requires same && !p.sourceTainted ==> LookedBefore(config, p.trace, key.0, j)
    ensures var q := Executed(config, world, key, same, p); Good(config, world, start, q, None) && Closed(q)
  {
    var result := Result(config, world, key, same, p);
    LookKeeps(config, world, start, p, Some(key));
    var q := Looked(config, world, p);
    AdapterAttestKeeps(config, world, start, key.0, same, q, Some(key));
    var r := AdapterAttested(config, world, key.0, same, q);
    ResultIsGenuine(config, world, start, key, same, p, j, result, r);
    SaveAndFinishKeeps(config, world, start, r, result);
  }

  lemma LoadKeeps(config: Config, world: World, start: Durable, key: Key, p: State)
    requires Good(config, world, start, p, Some(key)) && Closed(p)
    ensures var q := Loaded(config, world, key, p); Good(config, world, start, q, Some(key)) && Closed(q)
  {
    if Spoiled(config, world, p.store.files, key) {
      SaveKeeps(config, world, start, p, Placeholder(config, key));
    }
  }

  lemma ReuseOrExecuteKeeps(config: Config, world: World, start: Durable, key: Key, same: bool, p: State, j: nat)
    requires Good(config, world, start, p, Some(key)) && Closed(p) && (same || Audited(p.trace).adapterDrift)
    requires same && !p.sourceTainted ==> LookedBefore(config, p.trace, key.0, j)
    ensures var q := ReusedOrExecuted(config, world, start, key, same, p);
            Good(config, world, start, q, None) && Closed(q)
  {
    if !config.rerun && !start.evaluatorMarker && same && !p.sourceTainted {
      var usable := Usable(config, world, p.store.files, key);
      if usable.Some? {
        TakeOverKeeps(config, world, start, usable.value, p);
      } else {
        LoadKeeps(config, world, start, key, p);
        ExecuteKeeps(config, world, start, key, same, Loaded(config, world, key, p), j);
      }
    } else {
      ExecuteKeeps(config, world, start, key, same, p, j);
    }
  }

  lemma PairKeeps(config: Config, world: World, start: Durable, key: Key, p: State)
    requires Good(config, world, start, p, None) && Closed(p)
    ensures var q := PairDone(config, world, start, key, p); Good(config, world, start, q, None) && Closed(q)
  {
    LookKeeps(config, world, start, p, Some(key));
    var q := Looked(config, world, p);
    var same := Unmoved(config, world, |q.trace|, key.0);
    AdapterAttestKeeps(config, world, start, key.0, true, q, Some(key));
    var r := AdapterAttested(config, world, key.0, true, q);
    assert same && !r.sourceTainted ==> LookedBefore(config, r.trace, key.0, |q.trace|);
    ReuseOrExecuteKeeps(config, world, start, key, same, r, |q.trace|);
  }

  predicate Adds(p: State, q: State, key: Key) {
    |q.pairs| == |p.pairs| + 1 && q.pairs[..|p.pairs|] == p.pairs && q.pairs[|p.pairs|].key == key
  }

  /** A pair adds itself, under its key. */
  lemma PairAdds(config: Config, world: World, start: Durable, key: Key, p: State)
    ensures Keys(PairDone(config, world, start, key, p).pairs) == Keys(p.pairs) + [key]
  {
    var q := Looked(config, world, p);
    var r := AdapterAttested(config, world, key.0, true, q);
    assert r.pairs == p.pairs;
    RestAdds(config, world, start, key, Unmoved(config, world, |q.trace|, key.0), r);
  }

  lemma RestAdds(config: Config, world: World, start: Durable, key: Key, same: bool, p: State)
    ensures Adds(p, ReusedOrExecuted(config, world, start, key, same, p), key)
  {
    ExecuteAdds(config, world, key, same, p);
    ExecuteAdds(config, world, key, same, Loaded(config, world, key, p));
  }

  lemma ExecuteAdds(config: Config, world: World, key: Key, same: bool, p: State)
    ensures Adds(p, Executed(config, world, key, same, p), key)
  {
  }

  ghost predicate Ready(config: Config, world: World, start: Durable, p: State) {
    Good(config, world, start, p, None) && Closed(p)
  }

  /** One more pair. */
  lemma NextPair(config: Config, world: World, start: Durable, key: Key, p: State) returns (q: State)
    requires Ready(config, world, start, p)
    ensures q == PairDone(config, world, start, key, p) && Ready(config, world, start, q)
  {
    q := PairDone(config, world, start, key, p);
    PairKeeps(config, world, start, key, p);
  }

  lemma {:induction false} PairsKeep(config: Config, world: World, start: Durable, schedule: seq<Key>, p: State)
    requires Ready(config, world, start, p)
    ensures Ready(config, world, start, PairsDone(config, world, start, schedule, p))
  {
    if schedule != [] {
      var q := NextPair(config, world, start, schedule[0], p);
      PairsKeep(config, world, start, schedule[1..], q);
    }
  }

  lemma Regrouped(keys: seq<Key>, schedule: seq<Key>)
    requires schedule != []
    ensures keys + schedule == keys + [schedule[0]] + schedule[1..]
  {
  }

  lemma {:induction false} PairsAdd(config: Config, world: World, start: Durable, schedule: seq<Key>, p: State)
    ensures Keys(PairsDone(config, world, start, schedule, p).pairs) == Keys(p.pairs) + schedule
  {
    if schedule != [] {
      var q := PairDone(config, world, start, schedule[0], p);
      PairAdds(config, world, start, schedule[0], p);
      PairsAdd(config, world, start, schedule[1..], q);
      Regrouped(Keys(p.pairs), schedule);
    }
  }

  lemma BoardKeeps(config: Config, world: World, start: Durable, p: State)
    requires Good(config, world, start, p, None) && Closed(p)
    ensures var q := p.And(BoardSaved); Good(config, world, start, q, None) && Closed(q) && Audited(q.trace).boarded
  {
    Emitted(config, world, start, p, BoardSaved);
  }

  lemma ReportKeeps(config: Config, world: World, start: Durable, p: State)
    requires Good(config, world, start, p, None) && Closed(p)
    ensures var q := Reported(config, world, p);
            Good(config, world, start, q, None) && Closed(q) && Audited(q.trace).boarded
              && Keys(q.pairs) == Keys(p.pairs)
  {
    SourceAttestKeeps(config, world, start, p);
    var q := SourceAttested(config, world, p);
    ScanAndDropKeeps(config, world, start, q);
    BoardKeeps(config, world, start, ScannedAndDropped(config, world, q));
  }

  /** A scan that finds nothing changed. */
  lemma {:induction false} CleanScan(config: Config, world: World, p: State, n: nat)
    requires n <= |config.adapters| && Changed(config, world, p, n) == {}
    ensures Scanned(config, world, p, n).trace == p.trace + Scan(config.adapters[..n])
  {
    if n > 0 {
      assert config.adapters[n - 1] !in Changed(config, world, p, n);
      CleanScan(config, world, p, n - 1);
      assert Scan(config.adapters[..n]) == Scan(config.adapters[..n - 1]) + [AdapterSeen(config.adapters[n - 1], true)];
    }
  }

  lemma RescanKeeps(config: Config, world: World, start: Durable, p: State)
    requires Good(config, world, start, p, None) && Closed(p) && Audited(p.trace).boarded
    ensures var q, r := SourceAttested(config, world, p), Rescanned(config, world, p);
            var changed := Changed(config, world, q, |config.adapters|);
            && Good(config, world, start, r, None) && Keys(r.pairs) == Keys(p.pairs)
            && (r.sourceTainted ==> NoScores(r.pairs))
            && (Audited(r.trace).AdapterOpen() ==> changed != {}) && (changed != {} ==> Audited(r.trace).adapterDrift)
  {
    SourceAttestKeeps(config, world, start, p);
    var q := SourceAttested(config, world, p);
    ScanKeeps(config, world, start, q, None, |config.adapters|);
    SourceAttestKeeps(config, world, start, Scanned(config, world, q, |config.adapters|));
  }

  /** Nothing changed and the source is as recorded: the trace ends with the looks that say so. */
  lemma CleanRescan(config: Config, world: World, p: State)
    requires var r := Rescanned(config, world, p); config.eligible && !r.sourceTainted
    requires Changed(config, world, SourceAttested(config, world, p), |config.adapters|) == {}
    ensures FreshlyAttested(config, Rescanned(config, world, p).trace)
  {
    var q := SourceAttested(config, world, p);
    CleanScan(config, world, q, |config.adapters|);
    assert config.adapters[..|config.adapters|] == config.adapters;
    assert Rescanned(config, world, p).trace == q.trace + Scan(config.adapters) + [SourceSeen(true)];
  }

  lemma FinallyDropKeeps(config: Config, world: World, start: Durable, p: State)
    requires Good(config, world, start, p, None) && Closed(p) && Audited(p.trace).boarded
    ensures var q := FinallyDropped(config, world, p);
            && Good(config, world, start, q, None) && Closed(q) && Keys(q.pairs) == Keys(p.pairs)
            && (q.sourceTainted ==> NoScores(q.pairs))
            && (q.eligible ==> q == Rescanned(config, world, p))
            && (q.eligible ==> Changed(config, world, SourceAttested(config, world, p), |config.adapters|) == {})
  {
    RescanKeeps(config, world, start, p);
    DropKeeps(config, world, start, Changed(config, world, SourceAttested(config, world, p), |config.adapters|),
              Rescanned(config, world, p));
  }

  lemma TaintStays(config: Config, world: World, p: State)
    requires !Rescanned(config, world, p).sourceTainted
    ensures !SourceAttested(config, world, p).sourceTainted
  {
  }

  lemma FinallyKeeps(config: Config, world: World, start: Durable, p: State)
    requires Good(config, world, start, p, None) && Closed(p) && Audited(p.trace).boarded
    ensures var q := FinallyAttested(config, world, p);
            && Good(config, world, start, q, None) && Closed(q) && Keys(q.pairs) == Keys(p.pairs)
            && (q.sourceTainted ==> NoScores(q.pairs)) && (q.eligible ==> FreshlyAttested(config, q.trace))
  {
    FinallyDropKeeps(config, world, start, p);
    var q := FinallyDropped(config, world, p);
    BoardKeeps(config, world, start, q);
    if q.eligible {
      TaintStays(config, world, p);
      CleanRescan(config, world, p);
    }
  }

  /** The entry is appended right after every adapter and then the source were found unchanged. */
  ghost predicate AttestedLast(config: Config, trace: seq<Event>) {
    exists n :: 0 <= n < |trace| && trace[n] == Indexed && FreshlyAttested(config, trace[..n])
  }

  /** What holds of the final state of a run that was not rejected. */
  predicate Settled(config: Config, world: World, start: Durable, p: State, a: Audit, ending: Ending) {
    && !ending.Rejected? && a.sound && !a.sourceOpen && !a.AdapterOpen()
    && (ending.Stopped? ==> config.eligible && !(world.keyFree && world.appendAccepted))
    && (a.sourceDrift ==> p.store.sourceMarker && ending == Finished(true) && NoScores(p.pairs))
    && (a.adapterDrift ==> p.store.evaluatorMarker && ending == Finished(true))
    && (a.indexed <==> config.eligible && ending == Finished(false))
    && p.store.indexed == start.indexed + (if a.indexed then 1 else 0)
    && (a.cleared <==> start.evaluatorMarker && ending == Finished(false))
    && p.store.evaluatorMarker == (if a.cleared then false else start.evaluatorMarker || a.marked)
    && (start.evaluatorMarker ==> !a.reused)
    && (ending == Finished(false) ==> !AnyFailed(p.pairs))
    && (ending == Finished(true) ==> a.sourceDrift || a.adapterDrift || AnyFailed(p.pairs))
  }

  lemma ConcludeSettles(config: Config, world: World, start: Durable, p: State)
    requires Good(config, world, start, p, None) && Closed(p) && (p.sourceTainted ==> NoScores(p.pairs))
    requires p.eligible ==> FreshlyAttested(config, p.trace)
    ensures var (q, ending) := Concluded(world, start, p);
            && Recorded(config, world, start, q) && Settled(config, world, start, q, Audited(q.trace), ending)
            && q.pairs == p.pairs && q.store.files == p.store.files
            && (Audited(q.trace).indexed ==> AttestedLast(config, q.trace))
  {
    if !(p.eligible && !HasFailed(p) && !world.appendAccepted) {
      var indexing := p.eligible && !HasFailed(p);
      var q := if indexing then p.And(Indexed) else p;
      if indexing {
        Emitted(config, world, start, p, Indexed);
        assert q.trace[|p.trace|] == Indexed && q.trace[..|p.trace|] == p.trace;
      }
      if start.evaluatorMarker && !HasFailed(p) {
        Emitted(config, world, start, q, Cleared);
        var r := q.And(Cleared);
        if indexing {
          assert r.trace[|p.trace|] == Indexed && r.trace[..|p.trace|] == p.trace;
        }
      }
    }
  }

  /** Everything up to the last attestation. */
  lemma PerformKeeps(config: Config, world: World, start: Durable, p: State)
    requires Good(config, world, start, p, None) && Closed(p) && p.pairs == []
    ensures var q := Performed(config, world, start, p);
            && Good(config, world, start, q, None) && Closed(q)
            && Keys(q.pairs) == Schedule(config.adapters, config.targets)
            && (q.sourceTainted ==> NoScores(q.pairs)) && (q.eligible ==> FreshlyAttested(config, q.trace))
  {
    var schedule := Schedule(config.adapters, config.targets);
    PairsKeep(config, world, start, schedule, p);
    PairsAdd(config, world, start, schedule, p);
    var q := PairsDone(config, world, start, schedule, p);
    ScanAndDropKeeps(config, world, start, q);
    var r := ScannedAndDropped(config, world, q);
    ReportKeeps(config, world, start, r);
    FinallyKeeps(config, world, start, Reported(config, world, r));
  }

  lemma BegunIsGood(config: Config, world: World, before: Durable)
    ensures Good(config, world, before, Begun(config, before), None) && Closed(Begun(config, before))
  {
  }

  lemma RunSettles(config: Config, world: World, before: Durable)
    requires !before.sourceMarker && world.resumable
    ensures var (q, ending) := SuiteRunOf(config, world, before);
            && Recorded(config, world, before, q) && Settled(config, world, before, q, Audited(q.trace), ending)
            && (ending.Finished? ==> Filed(q.store.files, q.pairs, None))
            && (ending.Finished? ==> Keys(q.pairs) == Schedule(config.adapters, config.targets))
            && (Audited(q.trace).indexed ==> AttestedLast(config, q.trace))
  {
    BegunIsGood(config, world, before);
    LookKeeps(config, world, before, Begun(config, before), None);
    var p := Looked(config, world, Begun(config, before));
    if !(p.eligible && !world.keyFree) {
      PerformKeeps(config, world, before, p);
      ConcludeSettles(config, world, before, Performed(config, world, before, p));
    }
  }

  predicate StoredScore(files: map<Key, File>, key: Key) {
    key in files && files[key].Readable? && files[key].pair.Scored()
  }

  predicate StoredFailure(files: map<Key, File>, key: Key) {
    key in files && files[key].Readable? && files[key].pair.status.Failed?
  }

  /** What every run promises about the durable state it leaves. */
  predicate Promised(config: Config, world: World, before: Durable, after: Durable, ending: Ending, a: Audit) {
    var schedule := Schedule(config.adapters, config.targets);
    && a.sound
    && (ending.Rejected? <==> before.sourceMarker || !world.resumable)
    && (ending.Rejected? ==> after == before)
    && (ending.Stopped? ==> config.eligible && !(world.keyFree && world.appendAccepted))
    && (a.sourceDrift ==> after.sourceMarker && ending == Finished(true))
    && (a.sourceDrift ==> forall key :: key in schedule ==> !StoredScore(after.files, key))
    && (a.adapterDrift ==> a.marked && after.evaluatorMarker && ending == Finished(true))
    && (a.indexed <==> config.eligible && ending == Finished(false))
    && after.indexed == before.indexed + (if a.indexed then 1 else 0)
    && (before.evaluatorMarker ==> !a.reused)
    && (before.evaluatorMarker ==> (!after.evaluatorMarker <==> ending == Finished(false)))
    && (ending == Finished(false) ==> !a.sourceDrift && !a.adapterDrift)
    && (ending == Finished(false) ==>
          forall key :: key in schedule ==> key in after.files && !StoredFailure(after.files, key))
  }

  /** Every scheduled pair was saved or taken over, and a run without drift fails only for a failed pair. */
  predicate Complete(config: Config, ending: Ending, a: Audit, trace: seq<Event>) {
    ending.Finished? ==>
      && (forall key :: key in Schedule(config.adapters, config.targets) ==> Handled(trace, key))
      && (ending.failed && !a.sourceDrift && !a.adapterDrift
          ==> exists e :: e in trace && e.Saved? && e.pair.status.Failed?)
  }

  predicate Handled(trace: seq<Event>, key: Key) {
    exists e :: e in trace && (e.Saved? || e.Reused?) && e.pair.key == key
  }

  /** What every run promises, for every world it may meet. */
  lemma RunPromises(config: Config, world: World, before: Durable)
    ensures var (q, ending) := SuiteRunOf(config, world, before); var a := Audited(q.trace);
            && q.store == Replay(before, q.trace) && GenuineTrace(config, world, before, q.trace)
            && Promised(config, world, before, q.store, ending, a) && Complete(config, ending, a, q.trace)
            && (Indexed in q.trace ==> AttestedLast(config, q.trace))
  {
    if !before.sourceMarker && world.resumable {
      RunSettles(config, world, before);
      var (q, ending) := SuiteRunOf(config, world, before);
      AuditMeaning(q.trace);
      if ending.Finished? {
        FilesFollow(q.store.files, q.pairs, Schedule(config.adapters, config.targets));
        EventsFollow(config, world, before, q.trace, q.pairs, Schedule(config.adapters, config.targets));
      }
    }
  }

  /** Every pair of the run is an event of its trace, and a failed one was saved. */
  lemma EventsFollow(config: Config, world: World, before: Durable, trace: seq<Event>, pairs: seq<Pair>,
                     schedule: seq<Key>)
    requires AllOccur(trace, pairs) && Keys(pairs) == schedule && GenuineTrace(config, world, before, trace)
    ensures forall key :: key in schedule ==> Handled(trace, key)
    ensures AnyFailed(pairs) ==> exists e :: e in trace && e.Saved? && e.pair.status.Failed?
  {
    forall key | key in schedule
      ensures Handled(trace, key)
    {
      var i :| 0 <= i < |pairs| && pairs[i].key == key;
      assert Occurs(trace, pairs[i]);
    }
    if i :| 0 <= i < |pairs| && pairs[i].status.Failed? {
      assert Occurs(trace, pairs[i]);
      if Reused(pairs[i]) in trace {
        ReusedIsUsable(config, world, before, trace, pairs[i]);
      }
      assert Saved(pairs[i]) in trace;
    }
  }

  lemma {:induction false} ReusedIsUsable(config: Config, world: World, before: Durable, trace: seq<Event>, pair: Pair)
    requires GenuineTrace(config, world, before, trace) && Reused(pair) in trace
    ensures !pair.status.Failed? && pair.fingerprint == config.stamp.fingerprint && pair.source == config.source
    ensures !world.evidenceError(pair) && !config.rerun
  {
    if trace[|trace| - 1] != Reused(pair) {
      LastOf(trace);
      ReusedIsUsable(config, world, before, trace[..|trace| - 1], pair);
    }
  }

  /** Files of the scheduled pairs hold pairs of the run. */
  lemma FilesFollow(files: map<Key, File>, pairs: seq<Pair>, schedule: seq<Key>)
    requires Filed(files, pairs, None) && Keys(pairs) == schedule
    ensures forall key :: key in schedule ==> key in files
    ensures NoScores(pairs) ==> forall key :: key in schedule ==> !StoredScore(files, key)
    ensures !AnyFailed(pairs) ==> forall key :: key in schedule ==> !StoredFailure(files, key)
  {
    forall key | key in schedule
      ensures key in files
      ensures NoScores(pairs) ==> !StoredScore(files, key)
      ensures !AnyFailed(pairs) ==> !StoredFailure(files, key)
    {
      var i :| 0 <= i < |pairs| && pairs[i].key == key;
      assert FiledAt(files, pairs, key);
    }
  }

  lemma {:induction false} EventIsGenuine(config: Config, world: World, before: Durable, trace: seq<Event>, i: nat)
    requires GenuineTrace(config, world, before, trace) && i < |trace|
    ensures Genuine(config, world, before, trace[..i], trace[i])
    decreases |trace|
  {
    var n := |trace| - 1;
    if i < n {
      EventIsGenuine(config, world, before, trace[..n], i);
      assert trace[..n][..i] == trace[..i];
    }
  }

  /** Evidence on disk that did not fail was given by the adapter between two looks that found it, and a
      watched source, unchanged; or it was just taken over and stamped again. */
  lemma ScoreIsEarned(config: Config, world: World, before: Durable, trace: seq<Event>, i: nat)
    requires GenuineTrace(config, world, before, trace)
    requires i < |trace| && trace[i].Saved? && !trace[i].pair.status.Failed?
    ensures Earned(config, world, trace[..i], trace[i].pair) || Retaken(config, trace[..i], trace[i].pair)
  {
    EventIsGenuine(config, world, before, trace, i);
  }

  /** Evidence on disk fails only after a drift was seen, or because the adapter crashed, failed or gave invalid
      evidence, or in place of a stored file that cannot be used. */
  lemma FailureIsEarned(config: Config, world: World, before: Durable, trace: seq<Event>, i: nat)
    requires GenuineTrace(config, world, before, trace)
    requires i < |trace| && trace[i].Saved? && trace[i].pair.status.Failed?
    ensures var pair := trace[i].pair;
            || SourceSeen(false) in trace[..i] || (exists e :: e in trace[..i] && DriftedAdapter(e))
            || (exists t: nat :: t <= i && Given(world, t, pair.key).Failed?)
            || Spoiled(config, world, Replay(before, trace[..i]).files, pair.key)
  {
    EventIsGenuine(config, world, before, trace, i);
    DriftMeaning(trace[..i]);
  }

  // ----- the runner

  class SuiteRun {
    const config: Config
    const world: World
    const start: Durable
    var trace: seq<Event>
    var store: Durable
    var sourceTainted: bool
    var evaluatorTainted: bool
    var eligible: bool
    var pairs: seq<Pair>

    constructor (config: Config, world: World, store: Durable)
      ensures this.config == config && this.world == world && this.start == store
      ensures View() == Begun(config, store)
    {
      this.config, this.world, this.start := config, world, store;
      trace, this.store, sourceTainted, evaluatorTainted, eligible, pairs := [], store, false, false,
        config.eligible, [];
    }

    ghost function View(): State
      reads this
    {
      State(trace, store, sourceTainted, evaluatorTainted, eligible, pairs)
    }

    /** One event. */
    method Emit(e: Event)
      modifies this
      ensures View() == old(View()).And(e)
    {
      store := Apply(store, e);
      trace := trace + [e];
    }

    /** `observe_source`: outside a history candidate nothing is looked at. */
    method ObserveSource() returns (seen: Identity)
      modifies this
      ensures View() == Looked(config, world, old(View()))
      ensures seen == if config.eligible then world.source(|old(trace)|) else config.source
    {
      if !config.eligible {
        return config.source;
      }
      seen := world.source(|trace|);
      if seen == config.source {
        Emit(SourceSeen(true));
      } else {
        Emit(SourceSeen(false));
        Emit(SourceMarked);
        sourceTainted, eligible := true, false;
      }
    }

    /** `mark_evaluator_drift`. */
    method MarkEvaluatorDrift()
      modifies this
      ensures View() == old(View()).Marked()
    {
      Emit(EvaluatorMarked);
      evaluatorTainted, eligible := true, false;
    }

    /** One look at one adapter. */
    method ObserveAdapter(name: string) returns (same: bool)
      modifies this
      ensures same == Unmoved(config, world, |old(trace)|, name)
      ensures View() == SeenAdapter(config, world, name, old(View()))
    {
      same := world.adapter(|trace|, name) == config.adapter(name);
      Emit(AdapterSeen(name, same));
    }

    /** Look at every adapter; the names of those that changed. */
    method ScanAdapters() returns (changed: set<string>)
      modifies this
      ensures View() == Scanned(config, world, old(View()), |config.adapters|)
      ensures changed == Changed(config, world, old(View()), |config.adapters|)
    {
      changed := {};
      for i := 0 to |config.adapters|
        invariant View() == Scanned(config, world, old(View()), i) && changed == Changed(config, world, old(View()), i)
      {
        var same := ObserveAdapter(config.adapters[i]);
        if !same {
          changed := changed + {config.adapters[i]};
        }
      }
    }

    /** Replace scored pairs of the given adapters (of all when None) by failed evidence. */
    method Quarantine(adapters: Option<set<string>>) returns (changed: bool)
      modifies this
      ensures View() == Discard(config.stamp, adapters, old(View()), 0)
      ensures changed <==>
                exists i :: 0 <= i < |old(pairs)| && old(pairs)[i].Scored() && Affected(adapters, old(pairs)[i])
    {
      changed := false;
      for i := 0 to |pairs|
        invariant |pairs| == |old(pairs)| && pairs[i..] == old(pairs)[i..]
        invariant Discard(config.stamp, adapters, View(), i) == Discard(config.stamp, adapters, old(View()), 0)
        invariant changed <==> exists k :: 0 <= k < i && old(pairs)[k].Scored() && Affected(adapters, old(pairs)[k])
      {
        assert pairs[i] == pairs[i..][0] == old(pairs)[i];
        if pairs[i].Scored() && Affected(adapters, pairs[i]) {
          var failed := pairs[i].Quarantined(config.stamp);
          Emit(Saved(failed));
          pairs := pairs[i := failed];
          changed := true;
        }
      }
    }

    /** `load_pair` and the checks of its caller: the stored pair to take over, if there is one.  Evidence
        that cannot be used is replaced by a failed pair before the pair is run again. */
    method LoadPair(key: Key) returns (existing: Option<Pair>)
      modifies this
      ensures existing == Usable(config, world, old(store.files), key)
      ensures View() == Loaded(config, world, key, old(View()))
    {
      if key !in store.files {
        return None;
      }
      var file := store.files[key];
      if file.Unreadable? {
        Emit(Saved(Placeholder(config, key)));
        return None;
      }
      if file.pair.fingerprint != config.stamp.fingerprint || file.pair.source != config.source {
        return None;
      }
      if file.pair.key != key || world.evidenceError(file.pair) {
        Emit(Saved(Placeholder(config, key)));
        return None;
      }
      return if file.pair.status.Failed? then None else Some(file.pair);
    }

    /** Take over a stored pair. */
    method TakeOver(existing: Pair)
      modifies this
      ensures View() == TakenOver(config, existing, old(View()))
    {
      Emit(Reused(existing));
      var stamped := existing.Stamped(config.stamp, config.source);
      if stamped != existing {
        Emit(Saved(stamped));
      }
      pairs := pairs + [stamped];
    }

    /** Run the pair and keep its evidence, unless source or adapter changed around it. */
    method RunFresh(key: Key, same: bool, sourceBefore: Identity)
      requires !config.eligible ==> sourceBefore == config.source
      modifies this
      ensures View() == Executed(config, world, key, same, old(View()))
    {
      var status := Failed;
      if !sourceTainted && same {
        var answer := world.answer(|trace|, key);
        status := if answer.Answered? && answer.valid then answer.status else Failed;
      }
      var sourceAfter := ObserveSource();
      if sourceTainted {
        status := Failed;
      }
      var finallySame := ObserveAdapter(key.0);
      if same && !finallySame {
        MarkEvaluatorDrift();
        status := Failed;
      }
      var result := Pair(key, status, "", "", "").Stamped(config.stamp, if config.eligible then sourceAfter
                                                          else sourceBefore);
      Emit(Saved(result));
      pairs := pairs + [result];
    }

    /** The body of the loop over adapters and targets. */
    method RunPair(key: Key)
      modifies this
      ensures View() == PairDone(config, world, start, key, old(View()))
    {
      var sourceBefore := ObserveSource();
      var same := ObserveAdapter(key.0);
      if !same {
        MarkEvaluatorDrift();
      }
      if !config.rerun && !start.evaluatorMarker && same && !sourceTainted {
        var existing := LoadPair(key);
        if existing.Some? {
          TakeOver(existing.value);
          return;
        }
      }
      RunFresh(key, same, sourceBefore);
    }

    /** The loop over all pairs, and the scan that closes it. */
    method RunPairs()
      modifies this
      ensures var schedule := Schedule(config.adapters, config.targets);
              View() == ScannedAndDropped(config, world, PairsDone(config, world, start, schedule, old(View())))
    {
      var schedule := Schedule(config.adapters, config.targets);
      for i := 0 to |schedule|
        invariant PairsDone(config, world, start, schedule[i..], View())
                  == PairsDone(config, world, start, schedule, old(View()))
      {
        assert schedule[i..][0] == schedule[i] && schedule[i..][1..] == schedule[i + 1..];
        RunPair(schedule[i]);
      }
      var changed := ScanAdapters();
      QuarantineChanged(changed);
    }

    /** Mark changed adapters and discard their scores. */
    method QuarantineChanged(changed: set<string>)
      modifies this
      ensures View() == Dropped(config, changed, old(View()))
    {
      if changed != {} {
        MarkEvaluatorDrift();
        var _ := Quarantine(Some(changed));
      }
    }

    /** Attest the source and discard scores if it has drifted. */
    method AttestSource() returns (changed: bool)
      modifies this
      ensures View() == SourceAttested(config, world, old(View()))
      ensures (changed <==> sourceTainted && !NoScores(old(pairs)))
    {
      var _ := ObserveSource();
      changed := false;
      if sourceTainted {
        changed := Quarantine(None);
      }
    }

    /** From the first rendering of the reports to the first saved board. */
    method Report()
      modifies this
      ensures View() == Reported(config, world, old(View()))
    {
      var _ := AttestSource();
      var late := ScanAdapters();
      QuarantineChanged(late);
      Emit(BoardSaved);
    }

    /** The last attestations before the index: source, adapters, and the source once more. */
    method AttestBeforeAppend()
      modifies this
      ensures View() == FinallyAttested(config, world, old(View()))
    {
      var first := AttestSource();
      var changed := ScanAdapters();
      var second := AttestSource();
      QuarantineChanged(changed);
      if first || second || changed != {} {
        Emit(BoardSaved);
      }
    }

    /** Indexing, and clearing the evaluator marker after a clean forced rerun. */
    method Conclude() returns (ending: Ending)
      modifies this
      ensures (View(), ending) == Concluded(world, start, old(View()))
    {
      var failed := sourceTainted || evaluatorTainted || AnyFailed(pairs);
      if eligible && !failed {
        if !world.appendAccepted {
          return Stopped;
        }
        Emit(Indexed);
      }
      if start.evaluatorMarker && !failed {
        Emit(Cleared);
      }
      return Finished(failed);
    }
  }

  /** `SuiteRunner._run`. */
  method Run(config: Config, world: World, before: Durable) returns (after: Durable, ending: Ending, trace: seq<Event>)
    ensures var (p, e) := SuiteRunOf(config, world, before); after == p.store && ending == e && trace == p.trace
    ensures after == Replay(before, trace) && GenuineTrace(config, world, before, trace)
    ensures Promised(config, world, before, after, ending, Audited(trace))
    ensures Complete(config, ending, Audited(trace), trace)
    ensures Indexed in trace ==> AttestedLast(config, trace)
  {
    RunPromises(config, world, before);
    if before.sourceMarker || !world.resumable {
      return before, Rejected, [];
    }
    var run := new SuiteRun(config, world, before);
    var _ := run.ObserveSource();
    if run.eligible && !world.keyFree {
      ending := Stopped;
    } else {
      run.RunPairs();
      run.Report();
      run.AttestBeforeAppend();
      ending := run.Conclude();
    }
    after, trace := run.store, run.trace;
  }

  // ----- crashes

  /** The second gap is one of runs that watch the source. */
  lemma OnlyCandidatesReattest(config: Config, world: World, before: Durable, trace: seq<Event>, n: nat)
    requires GenuineTrace(config, world, before, trace) && Reattesting(trace, n)
    ensures config.eligible
  {
    var f: nat, g: nat :| ReattestingAt(trace, n, f, g);
    EventIsGenuine(config, world, before, trace, g);
  }

  /** Crash of any run after `n` events: a drift was seen and has no marker on disk exactly in two places,
      the scan or look that first found it, and the second attestation of the source before the index. */
  lemma CrashLeavesDriftUnmarkedIff(config: Config, world: World, before: Durable, n: nat)
    requires n <= |SuiteRunOf(config, world, before).0.trace|
    ensures var trace := SuiteRunOf(config, world, before).0.trace;
            LeftUnmarked(before, trace, n) <==>
              !before.evaluatorMarker && (InScan(trace, n) || (config.eligible && Reattesting(trace, n)))
  {
    var trace := SuiteRunOf(config, world, before).0.trace;
    RunPromises(config, world, before);
    UnmarkedIffInGap(before, trace, n);
    if Reattesting(trace, n) {
      OnlyCandidatesReattest(config, world, before, trace, n);
    }
  }

  /** One adapter and no target. */
  function IdleConfig(): Config {
    Config(["bench"], [], false, true, Stamp("run", x => x), "source", _ => "recorded")
  }

  /** The adapter changes just for the scan before the index, when six events have happened. */
  function LateWorld(): World {
    World(_ => "source", (time, _) => if time == 6 then "changed" else "recorded", (_, _) => Crashed, _ => false,
          true, true, true)
  }

  function LateTrace(): seq<Event> {
    [SourceSeen(true), AdapterSeen("bench", true), SourceSeen(true), AdapterSeen("bench", true), BoardSaved,
     SourceSeen(true), AdapterSeen("bench", false), SourceSeen(true)]
  }

  /** A look at the source and a scan of the only adapter. */
  lemma IdleLooks(p: State)
    requires !p.sourceTainted && p.pairs == []
    ensures var q := SourceAttested(IdleConfig(), LateWorld(), p);
            q == p.And(SourceSeen(true)) && !q.sourceTainted && q.pairs == []
    ensures var q := Scanned(IdleConfig(), LateWorld(), p, |IdleConfig().adapters|);
            q == p.And(AdapterSeen("bench", |p.trace| != 6)) && !q.sourceTainted && q.pairs == []
    ensures Changed(IdleConfig(), LateWorld(), p, |IdleConfig().adapters|) == if |p.trace| != 6 then {} else {"bench"}
  {
    var config, world := IdleConfig(), LateWorld();
    assert Scanned(config, world, p, 0) == p;
    assert Unmoved(config, world, |p.trace|, "bench") <==> |p.trace| != 6;
  }

  lemma IdleSchedule()
    ensures Schedule(IdleConfig().adapters, IdleConfig().targets) == []
  {
    assert Row("bench", []) == [];
  }

  /** A run in which such a crash is possible: the scan before the index finds a changed adapter, the source
      is looked at again, and the marker is not there yet. */
  lemma UnmarkedWindow(before: Durable)
    requires !before.sourceMarker && !before.evaluatorMarker
    ensures var trace := SuiteRunOf(IdleConfig(), LateWorld(), before).0.trace; var n := |LateTrace()|;
            trace == LateTrace() + [EvaluatorMarked, BoardSaved] && Reattesting(trace, n)
              && LeftUnmarked(before, trace, n)
  {
    var config, world := IdleConfig(), LateWorld();
    IdleSchedule();
    var p0 := Begun(config, before);
    var p1 := p0.And(SourceSeen(true));
    var p2 := p1.And(AdapterSeen("bench", true));
    var p3 := p2.And(SourceSeen(true));
    var p4 := p3.And(AdapterSeen("bench", true));
    var p5 := p4.And(BoardSaved);
    var p6 := p5.And(SourceSeen(true));
    var p7 := p6.And(AdapterSeen("bench", false));
    var p8 := p7.And(SourceSeen(true));
    IdleLooks(p0);
    IdleLooks(p1);
    IdleLooks(p2);
    IdleLooks(p3);
    IdleLooks(p5);
    IdleLooks(p6);
    IdleLooks(p7);
    assert Looked(config, world, p0) == p1;
    assert Reported(config, world, p2) == p5;
    assert Rescanned(config, world, p5) == p8;
    var p10 := p8.Marked().And(BoardSaved);
    assert FinallyAttested(config, world, p5) == p10;
    assert SuiteRunOf(config, world, before).0 == p10;
    var trace := p10.trace;
    assert trace == LateTrace() + [EvaluatorMarked, BoardSaved];
    assert trace[..6][4] == BoardSaved;
    assert ReattestingAt(trace, 8, 6, 7);
    CrashLeavesDriftUnmarkedIff(config, world, before, 8);
  }
}
