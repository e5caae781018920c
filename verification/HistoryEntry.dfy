/**
 Scoreboard records of the commit history (evals/history.py): building an entry from fresh pair
 results, and validating it again in its stored form.

 The checks that need the adapter registry, the run metadata schema or a statistic are given as
 functions.  What is modelled is how the two validations, which share only part of their code, use
 them: which checks each makes, on which data, and what the builder leaves out of the record.
 */
module HistoryEntry {
  import opened Options
  import opened Sorting
  import opened Utf8

  /** JSON values the validation only compares. */
  type Blob = string

  /** A JSON number as a quotient; the denominator is positive where it is valid. */
  datatype Number = Number(numerator: int, denominator: nat) {
    predicate AtMost(other: Number) {
      numerator * other.denominator <= other.numerator * denominator
    }
  }

  datatype Status = Completed | Partial | Skipped | Failed

  /** The summary fields of a cell or binding; `rest` stands for those without a rule of their own. */
  datatype Summary = Summary(status: Status, score: Option<Number>, total: Option<nat>, scored: Option<nat>,
                             interval: Option<Interval>, rest: Blob)

  datatype Interval = Interval(successes: nat, trials: nat, lower: Number, upper: Number)

  /** A cell may carry derived claims besides its summary. */
  datatype Cell = Cell(summary: Summary, sampling: Option<Blob>, structured: Option<Blob>)

  type Key = (string, string)

  datatype Board = Board(runId: string, fingerprint: string, suite: string, config: Blob, environment: Blob,
                         benchmarks: seq<string>, targets: seq<string>, cells: map<Key, Cell>, rest: Blob)

  datatype Run = Run(runId: string, fingerprint: string, commit: string, source: Blob, suite: string, config: Blob,
                     environment: Blob, adapters: seq<string>, targets: seq<string>, sampling: bool)

  datatype Pair = Pair(payload: Blob)

  datatype Binding = Binding(benchmark: string, target: string, fingerprint: string, source: Blob,
                             summary: Summary, pairSha: string) {
    function Key(): Key {
      (benchmark, target)
    }
  }

  /** Checks that depend on code outside this model. */
  datatype Checks = Checks(
    run: Run -> bool,
    summary: Summary -> bool,
    board: (Run, Blob) -> bool,
    samplingResource: Run -> bool,
    structuredIdentity: (Run, bool) -> bool,
    datasetBound: (Run, string) -> bool,
    cell: (Run, Key, Summary) -> bool,
    bind: (Run, Pair) -> Option<Binding>,
    samplingEvidence: Pair -> bool,
    structuredEvidence: Pair -> bool,
    samplingClaim: (Pair, string) -> Option<Blob>,
    structuredClaim: (Pair, string) -> Option<Blob>)

  const STRUCTURED := "structured-output"
  const MAX_SAFE_INTEGER: nat := 9007199254740991

  predicate IsHex(s: string) {
    forall i :: 0 <= i < |s| ==> '0' <= s[i] <= '9' || 'a' <= s[i] <= 'f'
  }

  predicate IsDigest(s: string) {
    |s| == 64 && IsHex(s)
  }

  predicate IsCommit(s: string) {
    (|s| == 40 || |s| == 64) && IsHex(s)
  }

  predicate Unit(x: Number) {
    0 <= x.numerator <= x.denominator && x.denominator > 0
  }

  predicate SafeCount(n: Option<nat>) {
    n.Some? ==> n.value <= MAX_SAFE_INTEGER
  }

  /** `_cell_summary`: accepted summaries are returned as they are. */
  predicate ValidSummary(k: Checks, s: Summary) {
    && !s.status.Failed?
    && (s.score.Some? ==> Unit(s.score.value))
    && SafeCount(s.total) && SafeCount(s.scored)
    && (s.total.Some? && s.scored.Some? ==> s.scored.value <= s.total.value)
    && (s.interval.Some? ==> ValidInterval(s, s.interval.value))
    && k.summary(s)
  }

  predicate ValidInterval(s: Summary, i: Interval) {
    && s.status.Completed? && s.score.Some?
    && SafeCount(Some(i.successes)) && SafeCount(Some(i.trials))
    && 0 < i.trials && i.successes <= i.trials && s.total == Some(i.trials) && s.scored == Some(i.trials)
    && Unit(i.lower) && Unit(i.upper) && i.lower.AtMost(s.score.value) && s.score.value.AtMost(i.upper)
    && s.score.value.numerator * i.trials == i.successes * s.score.value.denominator
  }

  // ----- the scoreboard matrix

  predicate NameList(names: seq<string>) {
    && (forall i :: 0 <= i < |names| ==> names[i] != "")
    && (forall i, j :: 0 <= i < j < |names| ==> names[i] != names[j])
  }

  function Matrix(board: Board): set<Key> {
    set b, t | b in board.benchmarks && t in board.targets :: (b, t)
  }

  /** `_scoreboard_matrix`. */
  predicate ValidMatrix(k: Checks, board: Board) {
    && NameList(board.benchmarks) && NameList(board.targets)
    && board.cells.Keys == Matrix(board)
    && (forall key :: key in board.cells ==> ValidSummary(k, board.cells[key].summary))
  }

  predicate ScoredStatus(s: Status) {
    s.Completed? || s.Partial?
  }

  predicate HasSamplingClaim(board: Board) {
    exists key :: key in board.cells && board.cells[key].sampling.Some?
  }

  predicate HasStructuredClaim(board: Board) {
    exists key :: key in board.cells && board.cells[key].structured.Some?
  }

  predicate StructuredScored(board: Board) {
    exists key :: key in board.cells && key.0 == STRUCTURED && ScoredStatus(board.cells[key].summary.status)
  }

  predicate Scored(board: Board, benchmark: string) {
    exists key :: key in board.cells && key.0 == benchmark && ScoredStatus(board.cells[key].summary.status)
  }

  /** The evidence behind a board: fresh pair results, or the bindings of a stored record. */
  datatype Evidence = Fresh(pairs: seq<Pair>) | Stored(bindings: seq<Binding>)

  predicate SamplingUsed(k: Checks, run: Run, board: Board, e: Evidence) {
    || run.sampling
    || HasSamplingClaim(board)
    || (e.Fresh? && exists i :: 0 <= i < |e.pairs| && k.samplingEvidence(e.pairs[i]))
  }

  predicate StructuredUsed(k: Checks, run: Run, board: Board, e: Evidence) {
    || STRUCTURED in run.adapters
    || HasStructuredClaim(board)
    || (e.Fresh? && exists i :: 0 <= i < |e.pairs| && k.structuredEvidence(e.pairs[i]))
  }

  /** The part of `_validate_scoreboard` before the pair bindings. */
  predicate ValidHeader(k: Checks, run: Run, board: Board, e: Evidence) {
    && board.runId == run.runId && board.fingerprint == run.fingerprint
    && run.suite != "" && board.suite == run.suite
    && board.config == run.config && board.environment == run.environment
    && board.benchmarks == run.adapters && board.targets == run.targets
    && ValidMatrix(k, board)
    && k.board(run, board.rest)
    && (SamplingUsed(k, run, board, e) ==> k.samplingResource(run))
    && (StructuredUsed(k, run, board, e) ==> k.structuredIdentity(run, StructuredScored(board)))
    && (forall b :: b in run.adapters && Scored(board, b) ==> k.datasetBound(run, b))
    && (forall key :: key in board.cells ==> k.cell(run, key, board.cells[key].summary))
  }

  // ----- pair bindings

  predicate ValidBinding(k: Checks, run: Run, board: Board, b: Binding) {
    && b.benchmark != "" && b.target != ""
    && b.Key() in Matrix(board) && b.Key() in board.cells
    && b.fingerprint == run.fingerprint && b.source == run.source
    && ValidSummary(k, b.summary) && b.summary == board.cells[b.Key()].summary
    && IsDigest(b.pairSha)
  }

  /** The binding for one piece of evidence, if it passes every check of the loop body. */
  function BindingFor(k: Checks, run: Run, board: Board, e: Evidence, i: nat): Option<Binding>
    requires i < EvidenceCount(e)
  {
    match e
    case Stored(bindings) =>
      var b := bindings[i];
      if ValidBinding(k, run, board, b)
         && board.cells[b.Key()].sampling.None? && board.cells[b.Key()].structured.None?
      then Some(b) else None
    case Fresh(pairs) =>
      var bound := k.bind(run, pairs[i]);
      if bound.Some? && ValidBinding(k, run, board, bound.value)
         && board.cells[bound.value.Key()].sampling == k.samplingClaim(pairs[i], bound.value.benchmark)
         && board.cells[bound.value.Key()].structured == k.structuredClaim(pairs[i], bound.value.benchmark)
      then bound else None
  }

  function EvidenceCount(e: Evidence): nat {
    if e.Fresh? then |e.pairs| else |e.bindings|
  }

  predicate AllBound(k: Checks, run: Run, board: Board, e: Evidence) {
    forall i :: 0 <= i < EvidenceCount(e) ==> BindingFor(k, run, board, e, i).Some?
  }

  function Bound(k: Checks, run: Run, board: Board, e: Evidence): (r: seq<Binding>)
    requires AllBound(k, run, board, e)
    ensures |r| == EvidenceCount(e)
    ensures forall i :: 0 <= i < |r| ==> Some(r[i]) == BindingFor(k, run, board, e, i)
  {
    seq(EvidenceCount(e), i requires 0 <= i < EvidenceCount(e) => BindingFor(k, run, board, e, i).value)
  }

  predicate DistinctKeys(bs: seq<Binding>) {
    forall i, j :: 0 <= i < j < |bs| ==> bs[i].Key() != bs[j].Key()
  }

  function Keys(bs: seq<Binding>): (r: set<Key>)
    ensures forall key :: key in r <==> exists i :: 0 <= i < |bs| && bs[i].Key() == key
  {
    set i | 0 <= i < |bs| :: bs[i].Key()
  }

  predicate ByKey(a: Binding, b: Binding) {
    StringBelow(a.benchmark, b.benchmark) || (a.benchmark == b.benchmark && StringLeq(a.target, b.target))
  }

  /** What `_pair_bindings` returns: one binding for every cell, in key order. */
  function PairBindings(k: Checks, run: Run, board: Board, e: Evidence): Option<seq<Binding>> {
    if EvidenceCount(e) > 0 && AllBound(k, run, board, e)
       && DistinctKeys(Bound(k, run, board, e)) && Keys(Bound(k, run, board, e)) == Matrix(board)
    then Some(SortBy(ByKey, Bound(k, run, board, e)))
    else None
  }

  /** `_pair_bindings`. */
  method CollectBindings(k: Checks, run: Run, board: Board, e: Evidence) returns (r: Option<seq<Binding>>)
    ensures r == PairBindings(k, run, board, e)
  {
    if EvidenceCount(e) == 0 {
      return None;
    }
    var bindings: seq<Binding> := [];
    var seen: set<Key> := {};
    for i := 0 to EvidenceCount(e)
      invariant |bindings| == i && DistinctKeys(bindings) && seen == Keys(bindings)
      invariant forall j :: 0 <= j < i ==> Some(bindings[j]) == BindingFor(k, run, board, e, j)
    {
      var binding := BindingFor(k, run, board, e, i);
      if binding.None? {
        return None;
      }
      if binding.value.Key() in seen {
        var j :| 0 <= j < i && bindings[j].Key() == binding.value.Key();
        RepeatedKey(k, run, board, e, j, i);
        return None;
      }
      KeysSnoc(bindings, binding.value);
      bindings := bindings + [binding.value];
      seen := seen + {binding.value.Key()};
    }
    assert AllBound(k, run, board, e) && bindings == Bound(k, run, board, e);
    if seen != Matrix(board) {
      return None;
    }
    return Some(SortBy(ByKey, bindings));
  }

  lemma RepeatedKey(k: Checks, run: Run, board: Board, e: Evidence, j: nat, i: nat)
    requires j < i < EvidenceCount(e)
    requires BindingFor(k, run, board, e, j).Some? && BindingFor(k, run, board, e, i).Some?
    requires BindingFor(k, run, board, e, j).value.Key() == BindingFor(k, run, board, e, i).value.Key()
    ensures AllBound(k, run, board, e) ==> !DistinctKeys(Bound(k, run, board, e))
  {
  }

  lemma KeysSnoc(bs: seq<Binding>, b: Binding)
    ensures Keys(bs + [b]) == Keys(bs) + {b.Key()}
  {
    var all := bs + [b];
    forall key
      ensures key in Keys(all) <==> key in Keys(bs) || key == b.Key()
    {
      if key in Keys(bs) {
        var i :| 0 <= i < |bs| && bs[i].Key() == key;
        assert all[i].Key() == key;
      }
      assert all[|bs|] == b;
    }
  }

  // ----- key order

  lemma ByKeyIsPreorder()
    ensures TotalPreorder(ByKey)
  {
    forall a, b
      ensures ByKey(a, b) || ByKey(b, a)
    {
      StringBelowTrichotomy(a.benchmark, b.benchmark);
      StringBelowTrichotomy(a.target, b.target);
    }
    forall a, b, c | ByKey(a, b) && ByKey(b, c)
      ensures ByKey(a, c)
    {
      if StringBelow(a.benchmark, b.benchmark) && StringBelow(b.benchmark, c.benchmark) {
        CharsBelowTransitive(CodePoints(a.benchmark), CodePoints(b.benchmark), CodePoints(c.benchmark));
      } else if a.benchmark == b.benchmark == c.benchmark {
        CharsLeqTransitive(CodePoints(a.target), CodePoints(b.target), CodePoints(c.target));
      }
    }
  }

  lemma ByKeyTies(a: Binding, b: Binding)
    requires ByKey(a, b) && ByKey(b, a)
    ensures a.Key() == b.Key()
  {
    StringBelowTrichotomy(a.benchmark, b.benchmark);
    StringBelowTrichotomy(a.target, b.target);
  }

  lemma DistinctIsAntisymmetric(bs: seq<Binding>)
    requires DistinctKeys(bs)
    ensures Antisymmetric(ByKey, multiset(bs))
  {
    forall a, b | a in multiset(bs) && b in multiset(bs) && ByKey(a, b) && ByKey(b, a)
      ensures a == b
    {
      ByKeyTies(a, b);
      assert a in bs && b in bs;
    }
  }

  /** Rearranging bindings keeps their keys distinct. */
  lemma {:induction false} DistinctPermuted(a: seq<Binding>, b: seq<Binding>)
    requires multiset(a) == multiset(b) && DistinctKeys(a)
    ensures DistinctKeys(b)
  {
    forall i, j | 0 <= i < j < |b|
      ensures b[i].Key() != b[j].Key()
    {
      assert b[i] in multiset(a) && b[j] in multiset(a);
      if b[i] == b[j] {
        TwiceInSequence(b, i, j);
        OnceInSequence(a, b[i]);
      }
    }
  }

  lemma TwiceInSequence<T>(s: seq<T>, i: nat, j: nat)
    requires i < j < |s| && s[i] == s[j]
    ensures multiset(s)[s[i]] >= 2
  {
    assert s == s[..j] + ([s[j]] + s[j + 1..]);
    assert s[..j][i] == s[i];
    assert multiset(s[..j])[s[i]] >= 1;
  }

  lemma {:induction false} OnceInSequence(s: seq<Binding>, b: Binding)
    requires DistinctKeys(s)
    ensures multiset(s)[b] <= 1
  {
    if s != [] {
      assert s == [s[0]] + s[1..];
      OnceInSequence(s[1..], b);
      if s[0] == b {
        assert b !in s[1..];
      }
    }
  }

  lemma KeysPermuted(a: seq<Binding>, b: seq<Binding>)
    requires multiset(a) == multiset(b)
    ensures Keys(a) == Keys(b)
  {
    KeysWithin(a, b);
    KeysWithin(b, a);
  }

  lemma KeysWithin(a: seq<Binding>, b: seq<Binding>)
    requires multiset(a) == multiset(b)
    ensures Keys(a) <= Keys(b)
  {
    forall key | key in Keys(a)
      ensures key in Keys(b)
    {
      var i :| 0 <= i < |a| && a[i].Key() == key;
      assert a[i] in multiset(b);
    }
  }

  /** Sorting by key is idempotent on bindings with distinct keys, and loses nothing. */
  lemma SortedOnce(bs: seq<Binding>)
    requires DistinctKeys(bs)
    ensures var sorted := SortBy(ByKey, bs);
            && multiset(sorted) == multiset(bs) && |sorted| == |bs|
            && DistinctKeys(sorted) && Keys(sorted) == Keys(bs) && SortBy(ByKey, sorted) == sorted
  {
    var sorted := SortBy(ByKey, bs);
    ByKeyIsPreorder();
    SortBySorts(ByKey, bs);
    SortBySorts(ByKey, sorted);
    DistinctPermuted(bs, sorted);
    KeysPermuted(bs, sorted);
    DistinctIsAntisymmetric(sorted);
    SortedIsUnique(ByKey, sorted, SortBy(ByKey, sorted));
  }

  // ----- entries

  /** The board without its derived claims, as it is kept in the record. */
  function Stripped(board: Board): Board {
    board.(cells := map key | key in board.cells :: board.cells[key].(sampling := None, structured := None))
  }

  datatype Validated = Validated(board: Board, bindings: seq<Binding>)

  /** `_validate_scoreboard`. */
  function ValidateScoreboard(k: Checks, run: Run, board: Board, e: Evidence): Option<Validated> {
    var bindings := PairBindings(k, run, board, e);
    if ValidHeader(k, run, board, e) && bindings.Some?
    then Some(Validated(if e.Fresh? then Stripped(board) else board, bindings.value))
    else None
  }

  const INDEX_SCHEMA_VERSION: int := 1

  /** A record without its own digest. */
  datatype Payload = Payload(schema: int, commit: string, fingerprint: string, runId: string, suite: string,
                             run: Run, board: Board, pairs: seq<Binding>, previous: Option<string>)

  datatype Entry = Entry(payload: Payload, recordSha: string)

  type Hash = Payload -> string

  predicate ValidPrevious(previous: Option<string>) {
    previous.Some? ==> IsDigest(previous.value)
  }

  /** `build_entry`. */
  function BuildEntry(k: Checks, hash: Hash, board: Board, run: Run, pairs: seq<Pair>,
                      previous: Option<string>): Option<Entry> {
    var v := ValidateScoreboard(k, run, board, Fresh(pairs));
    if k.run(run) && v.Some? && IsCommit(run.commit) && ValidPrevious(previous) then
      var payload := Payload(INDEX_SCHEMA_VERSION, run.commit, run.fingerprint, run.runId, v.value.board.suite,
                             run, v.value.board, v.value.bindings, previous);
      Some(Entry(payload, hash(payload)))
    else None
  }

  /** `_validate_entry`. */
  predicate ValidEntry(k: Checks, hash: Hash, entry: Entry, previous: Option<string>) {
    var p := entry.payload;
    && p.schema == INDEX_SCHEMA_VERSION
    && p.previous == previous && ValidPrevious(previous)
    && IsDigest(entry.recordSha) && hash(p) == entry.recordSha
    && k.run(p.run)
    && var v := ValidateScoreboard(k, p.run, p.board, Stored(p.pairs));
    && v.Some?
    && IsCommit(p.run.commit)
    && p.commit == p.run.commit && p.fingerprint == p.run.fingerprint && p.runId == p.run.runId
    && p.suite == v.value.board.suite
    && p.pairs == v.value.bindings
  }

  lemma StrippedMatrix(k: Checks, board: Board)
    requires ValidMatrix(k, board)
    ensures ValidMatrix(k, Stripped(board)) && Matrix(Stripped(board)) == Matrix(board)
    ensures Stripped(board).cells.Keys == board.cells.Keys
  {
  }

  lemma StrippedStatuses(board: Board, benchmark: string)
    ensures Scored(Stripped(board), benchmark) <==> Scored(board, benchmark)
    ensures StructuredScored(Stripped(board)) <==> StructuredScored(board)
    ensures !HasSamplingClaim(Stripped(board)) && !HasStructuredClaim(Stripped(board))
  {
    var cells, kept := board.cells, Stripped(board).cells;
    assert cells.Keys == kept.Keys && forall key :: key in cells ==> kept[key].summary == cells[key].summary;
    if key :| key in cells && key.0 == benchmark && ScoredStatus(cells[key].summary.status) {
      assert key in kept;
    }
    if key :| key in cells && key.0 == STRUCTURED && ScoredStatus(cells[key].summary.status) {
      assert key in kept;
    }
  }

  /** The stored header makes no demand that the fresh one did not make. */
  lemma HeaderKept(k: Checks, run: Run, board: Board, pairs: seq<Pair>, bindings: seq<Binding>)
    requires ValidHeader(k, run, board, Fresh(pairs))
    ensures ValidHeader(k, run, Stripped(board), Stored(bindings))
  {
    StrippedMatrix(k, board);
    StrippedStatuses(board, STRUCTURED);
    forall b | b in run.adapters && Scored(Stripped(board), b)
      ensures k.datasetBound(run, b)
    {
      StrippedStatuses(board, b);
    }
  }

  lemma BoundIsValid(k: Checks, run: Run, board: Board, pairs: seq<Pair>, b: Binding)
    requires AllBound(k, run, board, Fresh(pairs)) && b in Bound(k, run, board, Fresh(pairs))
    ensures ValidBinding(k, run, board, b)
  {
    var i :| 0 <= i < |pairs| && Bound(k, run, board, Fresh(pairs))[i] == b;
    assert Some(b) == BindingFor(k, run, board, Fresh(pairs), i);
  }

  /** Stored bindings that are each valid are returned as they are. */
  lemma StoredBound(k: Checks, run: Run, board: Board, bindings: seq<Binding>)
    requires forall i :: 0 <= i < |bindings| ==> ValidBinding(k, run, Stripped(board), bindings[i])
    ensures AllBound(k, run, Stripped(board), Stored(bindings))
    ensures Bound(k, run, Stripped(board), Stored(bindings)) == bindings
  {
    forall i | 0 <= i < |bindings|
      ensures BindingFor(k, run, Stripped(board), Stored(bindings), i) == Some(bindings[i])
    {
      assert ValidBinding(k, run, Stripped(board), bindings[i]);
    }
  }

  lemma BindingsKept(k: Checks, run: Run, board: Board, pairs: seq<Pair>)
    requires ValidMatrix(k, board) && PairBindings(k, run, board, Fresh(pairs)).Some?
    ensures var kept := PairBindings(k, run, board, Fresh(pairs));
            PairBindings(k, run, Stripped(board), Stored(kept.value)) == kept
  {
    var bound := Bound(k, run, board, Fresh(pairs));
    var sorted := SortBy(ByKey, bound);
    SortedOnce(bound);
    StrippedMatrix(k, board);
    forall i | 0 <= i < |sorted|
      ensures ValidBinding(k, run, Stripped(board), sorted[i])
    {
      assert sorted[i] in multiset(bound);
      BoundIsValid(k, run, board, pairs, sorted[i]);
    }
    StoredBound(k, run, board, sorted);
  }

  /** Whatever the builder accepts from fresh evidence, the reader accepts in stored form. */
  lemma BuiltEntryIsValid(k: Checks, hash: Hash, board: Board, run: Run, pairs: seq<Pair>, previous: Option<string>)
    requires forall p :: IsDigest(hash(p))
    requires BuildEntry(k, hash, board, run, pairs, previous).Some?
    ensures ValidEntry(k, hash, BuildEntry(k, hash, board, run, pairs, previous).value, previous)
  {
    var bindings := PairBindings(k, run, board, Fresh(pairs)).value;
    HeaderKept(k, run, board, pairs, bindings);
    BindingsKept(k, run, board, pairs);
  }
}
