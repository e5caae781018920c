/**
 The append-only, hash-chained scoreboard index (evals/history.py).

 The canonical encoding of a record is an invertible function to bytes without line breaks.  The record
 digest is a function of the record without its digest; where a result needs that two records have
 different digests, it says so for the records concerned.  Publication of the file is one atomic step
 under the lock.
 */
module HistoryIndex {
  import opened HistoryEntry
  import opened Options

  type Bytes = seq<nat>

  const LF: nat := 10
  const CR: nat := 13

  datatype Codec = Codec(encode: Entry -> Bytes, decode: Bytes -> Option<Entry>)

  datatype Request = Request(board: Board, run: Run, pairs: seq<Pair>)

  /** How records are built, accepted, digested and written. */
  datatype Env = Env(build: (Request, Option<string>) -> Option<Entry>, accept: (Entry, Option<string>) -> bool,
                     hash: Hash, codec: Codec)

  /** The record validation of `HistoryEntry`. */
  function HistoryEnv(k: Checks, hash: Hash, codec: Codec): Env {
    Env((q: Request, previous) => BuildEntry(k, hash, q.board, q.run, q.pairs, previous),
        (e, previous) => ValidEntry(k, hash, e, previous),
        hash, codec)
  }

  ghost predicate SoundCodec(c: Codec) {
    forall e :: c.decode(c.encode(e)) == Some(e) && c.encode(e) != [] && LF !in c.encode(e) && CR !in c.encode(e)
  }

  ghost predicate SoundHash(hash: Hash) {
    forall p :: IsDigest(hash(p))
  }

  ghost predicate Linked(env: Env) {
    forall e, previous :: env.accept(e, previous) ==>
      e.payload.previous == previous && e.recordSha == env.hash(e.payload) && IsDigest(e.recordSha)
  }

  ghost predicate BuildsAccepted(env: Env) {
    forall q, previous :: ValidPrevious(previous) && env.build(q, previous).Some? ==>
      env.accept(env.build(q, previous).value, previous)
  }

  function Stable(e: Entry): Payload {
    e.payload.(previous := None)
  }

  /** Building again in another place succeeds and gives the same record up to that place. */
  ghost predicate BuildsStable(env: Env) {
    forall q, a, b :: ValidPrevious(a) && ValidPrevious(b) && env.build(q, a).Some? ==>
      env.build(q, b).Some? && Stable(env.build(q, b).value) == Stable(env.build(q, a).value)
  }

  ghost predicate Sound(env: Env) {
    SoundCodec(env.codec) && SoundHash(env.hash) && Linked(env) && BuildsAccepted(env) && BuildsStable(env)
  }

  /** The actual record validation has all the properties the index relies on. */
  lemma HistoryIsSound(k: Checks, hash: Hash, codec: Codec)
    requires SoundCodec(codec) && SoundHash(hash)
    ensures Sound(HistoryEnv(k, hash, codec))
  {
    var env := HistoryEnv(k, hash, codec);
    forall q, previous | ValidPrevious(previous) && env.build(q, previous).Some?
      ensures env.accept(env.build(q, previous).value, previous)
    {
      BuiltEntryIsValid(k, hash, q.board, q.run, q.pairs, previous);
    }
  }

  // ----- lines

  function FirstLineFeed(raw: Bytes): (n: nat)
    ensures n <= |raw| && LF !in raw[..n] && (n < |raw| ==> raw[n] == LF)
  {
    if raw == [] || raw[0] == LF then 0
    else
      assert raw[..1 + FirstLineFeed(raw[1..])] == [raw[0]] + raw[1..][..FirstLineFeed(raw[1..])];
      1 + FirstLineFeed(raw[1..])
  }

  /** `raw[:-1].split(b"\n")` for a file that ends in a line break. */
  function Lines(raw: Bytes): seq<Bytes>
    decreases |raw|
  {
    if raw == [] then []
    else
      var n := FirstLineFeed(raw);
      [raw[..n]] + Lines(if n < |raw| then raw[n + 1..] else [])
  }

  function Unlines(lines: seq<Bytes>): Bytes {
    if lines == [] then [] else lines[0] + [LF] + Unlines(lines[1..])
  }

  predicate Terminated(raw: Bytes) {
    raw == [] || raw[|raw| - 1] == LF
  }

  lemma BreakExists(raw: Bytes)
    requires LF in raw
    ensures FirstLineFeed(raw) < |raw|
  {
    assert raw[..|raw|] == raw;
  }

  lemma UnlinesCons(line: Bytes, lines: seq<Bytes>)
    ensures Unlines([line] + lines) == line + [LF] + Unlines(lines)
  {
    assert ([line] + lines)[1..] == lines;
  }

  lemma CutAt(raw: Bytes, n: nat)
    requires Terminated(raw) && n < |raw| && raw[n] == LF
    ensures Terminated(raw[n + 1..]) && raw == raw[..n] + [LF] + raw[n + 1..]
  {
  }

  lemma {:induction false} LinesJoin(raw: Bytes)
    requires Terminated(raw)
    ensures Unlines(Lines(raw)) == raw
    decreases |raw|
  {
    if raw != [] {
      BreakExists(raw);
      CutAt(raw, FirstLineFeed(raw));
      LinesJoin(raw[FirstLineFeed(raw) + 1..]);
      UnlinesCons(raw[..FirstLineFeed(raw)], Lines(raw[FirstLineFeed(raw) + 1..]));
    }
  }

  predicate Unbroken(lines: seq<Bytes>) {
    forall i :: 0 <= i < |lines| ==> LF !in lines[i]
  }

  lemma {:induction false} BreakAfter(line: Bytes, rest: Bytes)
    requires LF !in line
    ensures FirstLineFeed(line + [LF] + rest) == |line|
  {
    if line != [] {
      BreakAfter(line[1..], rest);
      assert (line + [LF] + rest)[1..] == line[1..] + [LF] + rest;
    }
  }

  lemma {:induction false} LinesSplit(lines: seq<Bytes>)
    requires Unbroken(lines)
    ensures Lines(Unlines(lines)) == lines && Terminated(Unlines(lines))
  {
    if lines != [] {
      var raw, rest := Unlines(lines), Unlines(lines[1..]);
      assert Unbroken(lines[1..]);
      LinesSplit(lines[1..]);
      BreakAfter(lines[0], rest);
      assert raw[..|lines[0]|] == lines[0];
      assert raw[|lines[0]| + 1..] == rest;
      assert lines == [lines[0]] + lines[1..];
    }
  }

  // ----- what a file of entries is

  function Encoded(c: Codec, entries: seq<Entry>): (r: seq<Bytes>)
    ensures |r| == |entries| && forall i :: 0 <= i < |r| ==> r[i] == c.encode(entries[i])
  {
    seq(|entries|, i requires 0 <= i < |entries| => c.encode(entries[i]))
  }

  function FileOf(env: Env, entries: seq<Entry>): Bytes {
    Unlines(Encoded(env.codec, entries))
  }

  function Previous(entries: seq<Entry>, i: nat): Option<string>
    requires i <= |entries|
  {
    if i == 0 then None else Some(entries[i - 1].recordSha)
  }

  function BoardKey(e: Entry): (string, string) {
    (e.payload.commit, e.payload.fingerprint)
  }

  predicate Link(env: Env, entries: seq<Entry>, i: nat)
    requires i < |entries|
  {
    env.accept(entries[i], Previous(entries, i))
  }

  ghost predicate Chained(env: Env, entries: seq<Entry>) {
    forall i :: 0 <= i < |entries| ==> Link(env, entries, i)
  }

  predicate Unique(entries: seq<Entry>) {
    forall i, j :: 0 <= i < j < |entries| ==>
      BoardKey(entries[i]) != BoardKey(entries[j]) && entries[i].payload.runId != entries[j].payload.runId
  }

  ghost predicate ValidIndex(env: Env, entries: seq<Entry>) {
    Chained(env, entries) && Unique(entries)
  }

  /** The file `raw` is an index of exactly these entries. */
  ghost predicate IsIndex(env: Env, raw: Bytes, entries: seq<Entry>) {
    raw == FileOf(env, entries) && ValidIndex(env, entries)
  }

  predicate Fresh(entries: seq<Entry>, e: Entry) {
    forall i :: 0 <= i < |entries| ==>
      BoardKey(entries[i]) != BoardKey(e) && entries[i].payload.runId != e.payload.runId
  }

  lemma EncodedUnbroken(env: Env, entries: seq<Entry>)
    requires SoundCodec(env.codec)
    ensures Unbroken(Encoded(env.codec, entries))
  {
  }

  lemma FileLines(env: Env, entries: seq<Entry>)
    requires SoundCodec(env.codec)
    ensures Lines(FileOf(env, entries)) == Encoded(env.codec, entries)
    ensures Terminated(FileOf(env, entries))
  {
    EncodedUnbroken(env, entries);
    LinesSplit(Encoded(env.codec, entries));
  }

  lemma EncodedIsInjective(c: Codec, a: seq<Entry>, b: seq<Entry>)
    requires SoundCodec(c) && Encoded(c, a) == Encoded(c, b)
    ensures a == b
  {
    assert |a| == |Encoded(c, a)| == |b|;
    forall i | 0 <= i < |a|
      ensures a[i] == b[i]
    {
      assert c.encode(a[i]) == Encoded(c, a)[i] == Encoded(c, b)[i] == c.encode(b[i]);
      assert c.decode(c.encode(a[i])) == Some(a[i]);
      assert c.decode(c.encode(b[i])) == Some(b[i]);
    }
  }

  /** A file is an index of at most one sequence of entries. */
  lemma FileIsInjective(env: Env, a: seq<Entry>, b: seq<Entry>)
    requires SoundCodec(env.codec) && FileOf(env, a) == FileOf(env, b)
    ensures a == b
  {
    FileLines(env, a);
    FileLines(env, b);
    EncodedIsInjective(env.codec, a, b);
  }

  lemma {:induction false} NoReturn(env: Env, entries: seq<Entry>)
    requires SoundCodec(env.codec)
    ensures CR !in FileOf(env, entries)
  {
    if entries != [] {
      NoReturn(env, entries[1..]);
      assert Encoded(env.codec, entries)[1..] == Encoded(env.codec, entries[1..]);
    }
  }

  lemma {:induction false} UnlinesSnoc(lines: seq<Bytes>, line: Bytes)
    ensures Unlines(lines + [line]) == Unlines(lines) + line + [LF]
  {
    if lines == [] {
      assert lines + [line] == [line];
      assert [line][1..] == [];
    } else {
      assert (lines + [line])[1..] == lines[1..] + [line];
      UnlinesSnoc(lines[1..], line);
    }
  }

  lemma FileSnoc(env: Env, entries: seq<Entry>, e: Entry)
    ensures FileOf(env, entries + [e]) == FileOf(env, entries) + env.codec.encode(e) + [LF]
  {
    assert Encoded(env.codec, entries + [e]) == Encoded(env.codec, entries) + [env.codec.encode(e)];
    UnlinesSnoc(Encoded(env.codec, entries), env.codec.encode(e));
  }

  lemma ChainedSnoc(env: Env, entries: seq<Entry>, e: Entry)
    requires Chained(env, entries)
    ensures Chained(env, entries + [e]) <==> env.accept(e, Previous(entries, |entries|))
  {
    var all := entries + [e];
    forall i | 0 <= i < |all|
      ensures Link(env, all, i) <==> if i < |entries| then Link(env, entries, i)
              else env.accept(e, Previous(entries, |entries|))
    {
      assert all[i] == if i < |entries| then entries[i] else e;
      assert Previous(all, i) == Previous(entries, i);
    }
    assert Link(env, all, |entries|) <==> env.accept(e, Previous(entries, |entries|));
  }

  lemma UniqueSnoc(entries: seq<Entry>, e: Entry)
    requires Unique(entries)
    ensures Unique(entries + [e]) <==> Fresh(entries, e)
  {
    var all := entries + [e];
    assert all[|entries|] == e && forall i :: 0 <= i < |entries| ==> all[i] == entries[i];
  }

  lemma IndexSnoc(env: Env, entries: seq<Entry>, e: Entry)
    requires ValidIndex(env, entries)
    ensures ValidIndex(env, entries + [e]) <==> env.accept(e, Previous(entries, |entries|)) && Fresh(entries, e)
  {
    ChainedSnoc(env, entries, e);
    UniqueSnoc(entries, e);
  }

  /** Every prefix of an index is an index: the chain does not protect against truncation. */
  lemma PrefixIsIndex(env: Env, entries: seq<Entry>, n: nat)
    requires ValidIndex(env, entries) && n <= |entries|
    ensures ValidIndex(env, entries[..n])
  {
    forall i | 0 <= i < n
      ensures Link(env, entries[..n], i)
    {
      assert Link(env, entries, i);
    }
  }

  // ----- parse_index

  /** The body of the loop: one line after the entries read so far. */
  function ReadRecord(env: Env, previous: Option<string>, keys: set<(string, string)>, runIds: set<string>, line: Bytes)
    : Option<Entry>
  {
    var parsed := env.codec.decode(line);
    if line != [] && parsed.Some?
       && env.accept(parsed.value, previous)
       && env.codec.encode(parsed.value) == line
       && BoardKey(parsed.value) !in keys && parsed.value.payload.runId !in runIds
    then parsed else None
  }

  function BoardKeys(entries: seq<Entry>): (r: set<(string, string)>)
    ensures forall key :: key in r <==> exists i :: 0 <= i < |entries| && BoardKey(entries[i]) == key
  {
    set i | 0 <= i < |entries| :: BoardKey(entries[i])
  }

  function RunIds(entries: seq<Entry>): (r: set<string>)
    ensures forall id :: id in r <==> exists i :: 0 <= i < |entries| && entries[i].payload.runId == id
  {
    set i | 0 <= i < |entries| :: entries[i].payload.runId
  }

  lemma RecordAccepted(env: Env, entries: seq<Entry>, line: Bytes)
    requires SoundCodec(env.codec) && ValidIndex(env, entries)
    ensures var r := ReadRecord(env, Previous(entries, |entries|), BoardKeys(entries), RunIds(entries), line);
            forall e :: r == Some(e) <==> line == env.codec.encode(e) && ValidIndex(env, entries + [e])
  {
    forall e
      ensures ReadRecord(env, Previous(entries, |entries|), BoardKeys(entries), RunIds(entries), line) == Some(e)
         <==> line == env.codec.encode(e) && ValidIndex(env, entries + [e])
    {
      IndexSnoc(env, entries, e);
      assert env.codec.decode(env.codec.encode(e)) == Some(e);
    }
  }

  lemma BoardKeysSnoc(entries: seq<Entry>, e: Entry)
    ensures BoardKeys(entries + [e]) == BoardKeys(entries) + {BoardKey(e)}
  {
    var all := entries + [e];
    forall key
      ensures key in BoardKeys(all) <==> key in BoardKeys(entries) || key == BoardKey(e)
    {
      if key in BoardKeys(entries) {
        var i :| 0 <= i < |entries| && BoardKey(entries[i]) == key;
        assert all[i] == entries[i];
      }
      assert all[|entries|] == e;
    }
  }

  lemma RunIdsSnoc(entries: seq<Entry>, e: Entry)
    ensures RunIds(entries + [e]) == RunIds(entries) + {e.payload.runId}
  {
    var all := entries + [e];
    forall id
      ensures id in RunIds(all) <==> id in RunIds(entries) || id == e.payload.runId
    {
      if id in RunIds(entries) {
        var i :| 0 <= i < |entries| && entries[i].payload.runId == id;
        assert all[i] == entries[i];
      }
      assert all[|entries|] == e;
    }
  }

  lemma ReadPrefix(c: Codec, lines: seq<Bytes>, entries: seq<Entry>, es: seq<Entry>)
    requires SoundCodec(c) && lines == Encoded(c, es)
    requires |entries| < |lines| && Encoded(c, entries) == lines[..|entries|]
    ensures |entries| < |es| && es[..|entries| + 1] == entries + [es[|entries|]]
  {
    var n := |entries|;
    assert Encoded(c, es[..n]) == lines[..n];
    EncodedIsInjective(c, es[..n], entries);
  }

  lemma ForcedReading(env: Env, raw: Bytes, entries: seq<Entry>, es: seq<Entry>)
    requires SoundCodec(env.codec) && IsIndex(env, raw, es)
    requires |entries| < |Lines(raw)| && Encoded(env.codec, entries) == Lines(raw)[..|entries|]
    ensures |entries| < |es| && Lines(raw)[|entries|] == env.codec.encode(es[|entries|])
    ensures ValidIndex(env, entries + [es[|entries|]])
  {
    FileLines(env, es);
    ReadPrefix(env.codec, Lines(raw), entries, es);
    PrefixIsIndex(env, es, |entries| + 1);
  }

  /** Any index the file could be starts with the entries read so far and continues with a record the
      loop accepts. */
  lemma ReadingIsForced(env: Env, raw: Bytes, entries: seq<Entry>)
    requires SoundCodec(env.codec)
    requires |entries| < |Lines(raw)| && Encoded(env.codec, entries) == Lines(raw)[..|entries|]
    ensures forall es :: IsIndex(env, raw, es) ==>
      && |entries| < |es|
      && Lines(raw)[|entries|] == env.codec.encode(es[|entries|])
      && ValidIndex(env, entries + [es[|entries|]])
  {
    forall es | IsIndex(env, raw, es)
      ensures |entries| < |es|
      ensures Lines(raw)[|entries|] == env.codec.encode(es[|entries|]) && ValidIndex(env, entries + [es[|entries|]])
    {
      ForcedReading(env, raw, entries, es);
    }
  }

  /** The entries of an index file; None when it is not one. */
  ghost function Parsed(env: Env, raw: Bytes): Option<seq<Entry>> {
    if exists entries :: IsIndex(env, raw, entries) then
      var entries :| IsIndex(env, raw, entries);
      Some(entries)
    else None
  }

  lemma ParsedIs(env: Env, raw: Bytes, entries: seq<Entry>)
    requires SoundCodec(env.codec)
    ensures Parsed(env, raw) == Some(entries) <==> IsIndex(env, raw, entries)
  {
    if IsIndex(env, raw, entries) {
      FileIsInjective(env, entries, Parsed(env, raw).value);
    }
  }

  /** The variables of the parsing loop. */
  datatype Reader = Reader(entries: seq<Entry>, keys: set<(string, string)>, runIds: set<string>,
                           previous: Option<string>)

  ghost predicate Reading(env: Env, raw: Bytes, r: Reader) {
    && |r.entries| <= |Lines(raw)| && Encoded(env.codec, r.entries) == Lines(raw)[..|r.entries|]
    && ValidIndex(env, r.entries)
    && r.keys == BoardKeys(r.entries) && r.runIds == RunIds(r.entries)
    && r.previous == Previous(r.entries, |r.entries|)
  }

  lemma EncodedSnoc(env: Env, raw: Bytes, entries: seq<Entry>, e: Entry)
    requires |entries| < |Lines(raw)| && Encoded(env.codec, entries) == Lines(raw)[..|entries|]
    requires Lines(raw)[|entries|] == env.codec.encode(e)
    ensures Encoded(env.codec, entries + [e]) == Lines(raw)[..|entries| + 1]
  {
  }

  /** The body of the parsing loop. */
  method ReadLine(env: Env, raw: Bytes, line: Bytes, before: Reader) returns (r: Option<Reader>)
    requires SoundCodec(env.codec) && Reading(env, raw, before)
    requires |before.entries| < |Lines(raw)| && line == Lines(raw)[|before.entries|]
    ensures r.Some? ==> Reading(env, raw, r.value) && |r.value.entries| == |before.entries| + 1
    ensures r.None? ==> forall es :: !IsIndex(env, raw, es)
  {
    ReadingIsForced(env, raw, before.entries);
    RecordAccepted(env, before.entries, line);
    var record := ReadRecord(env, before.previous, before.keys, before.runIds, line);
    if record.None? {
      return None;
    }
    BoardKeysSnoc(before.entries, record.value);
    RunIdsSnoc(before.entries, record.value);
    EncodedSnoc(env, raw, before.entries, record.value);
    return Some(Reader(before.entries + [record.value], before.keys + {BoardKey(record.value)},
                       before.runIds + {record.value.payload.runId}, Some(record.value.recordSha)));
  }

  /** The loop over the lines of a framed file. */
  method ReadRecords(env: Env, raw: Bytes) returns (r: Option<seq<Entry>>)
    requires SoundCodec(env.codec) && Terminated(raw)
    ensures r.Some? ==> IsIndex(env, raw, r.value)
    ensures r.None? ==> forall es :: !IsIndex(env, raw, es)
  {
    var lines := Lines(raw);
    var reader := Reader([], {}, {}, None);
    for i := 0 to |lines|
      invariant |reader.entries| == i && Reading(env, raw, reader)
    {
      var next := ReadLine(env, raw, lines[i], reader);
      if next.None? {
        return None;
      }
      reader := next.value;
    }
    LinesJoin(raw);
    assert lines[..|lines|] == lines;
    return Some(reader.entries);
  }

  /** `parse_index`. */
  method ParseIndex(env: Env, raw: Bytes) returns (r: Option<seq<Entry>>)
    requires SoundCodec(env.codec)
    ensures r == Parsed(env, raw)
  {
    AllIndexesAreFramed(env, raw);
    if !Terminated(raw) || CR in raw {
      return None;
    }
    r := ReadRecords(env, raw);
    if r.Some? {
      ParsedIs(env, raw, r.value);
    }
  }

  lemma AllIndexesAreFramed(env: Env, raw: Bytes)
    requires SoundCodec(env.codec)
    ensures forall es :: IsIndex(env, raw, es) ==> Terminated(raw) && CR !in raw
  {
    forall es | IsIndex(env, raw, es)
      ensures Terminated(raw) && CR !in raw
    {
      FileLines(env, es);
      NoReturn(env, es);
    }
  }

  // ----- append_scoreboard_index

  datatype Outcome = Appended(entry: Entry) | Already | Refused

  /** The loop over existing entries: the first one that shares the key or the run id decides. */
  function Scan(entries: seq<Entry>, candidate: Entry): Outcome {
    if entries == [] then Appended(candidate)
    else if BoardKey(entries[0]) == BoardKey(candidate) then
      (if Stable(entries[0]) == Stable(candidate) then Already else Refused)
    else if entries[0].payload.runId == candidate.payload.runId then Refused
    else Scan(entries[1..], candidate)
  }

  ghost function AppendOutcome(env: Env, raw: Bytes, q: Request): Outcome {
    var entries := Parsed(env, raw);
    if entries.None? then Refused
    else
      var candidate := env.build(q, Previous(entries.value, |entries.value|));
      if candidate.None? then Refused else Scan(entries.value, candidate.value)
  }

  ghost function AfterAppend(env: Env, raw: Bytes, q: Request): Bytes {
    var outcome := AppendOutcome(env, raw, q);
    if outcome.Appended? then raw + env.codec.encode(outcome.entry) + [LF] else raw
  }

  class IndexFile {
    var raw: Bytes

    constructor ()
      ensures raw == []
    {
      raw := [];
    }

    /** `append_scoreboard_index` under the exclusive lock. */
    method Append(env: Env, q: Request) returns (outcome: Outcome)
      requires Sound(env)
      modifies this
      ensures outcome == AppendOutcome(env, old(raw), q)
      ensures raw == AfterAppend(env, old(raw), q)
    {
      var entries := ParseIndex(env, raw);
      if entries.None? {
        return Refused;
      }
      var n := |entries.value|;
      var candidate := env.build(q, if n == 0 then None else Some(entries.value[n - 1].recordSha));
      if candidate.None? {
        return Refused;
      }
      outcome := ScanEntries(entries.value, candidate.value);
      if outcome.Appended? {
        raw := raw + env.codec.encode(outcome.entry) + [LF];
      }
    }
  }

  method ScanEntries(entries: seq<Entry>, candidate: Entry) returns (outcome: Outcome)
    ensures outcome == Scan(entries, candidate)
  {
    for i := 0 to |entries|
      invariant Scan(entries, candidate) == Scan(entries[i..], candidate)
    {
      assert entries[i..][1..] == entries[i + 1..];
      if BoardKey(entries[i]) == BoardKey(candidate) {
        return if Stable(entries[i]) == Stable(candidate) then Already else Refused;
      }
      if entries[i].payload.runId == candidate.payload.runId {
        return Refused;
      }
    }
    return Appended(candidate);
  }

  lemma {:induction false} ScanFresh(entries: seq<Entry>, candidate: Entry)
    ensures Scan(entries, candidate) == Appended(candidate) <==> Fresh(entries, candidate)
    ensures Scan(entries, candidate).Appended? ==> Scan(entries, candidate) == Appended(candidate)
  {
    if entries != [] {
      ScanFresh(entries[1..], candidate);
      assert entries == [entries[0]] + entries[1..];
    }
  }

  predicate Shares(e: Entry, candidate: Entry) {
    BoardKey(e) == BoardKey(candidate) || e.payload.runId == candidate.payload.runId
  }

  lemma SameEvidenceShares(e: Entry, candidate: Entry)
    requires Stable(e) == Stable(candidate)
    ensures BoardKey(e) == BoardKey(candidate) && e.payload.runId == candidate.payload.runId
  {
  }

  /** Evidence that is there already is recognised, evidence that shares a key or a run id with other evidence
      is refused, and everything else is appended. */
  lemma {:induction false} ScanDecides(entries: seq<Entry>, candidate: Entry)
    requires Unique(entries)
    ensures Scan(entries, candidate) == Already <==>
              exists i :: 0 <= i < |entries| && Stable(entries[i]) == Stable(candidate)
    ensures Scan(entries, candidate) == Appended(candidate) <==>
              forall i :: 0 <= i < |entries| ==> !Shares(entries[i], candidate)
    ensures Scan(entries, candidate).Appended? ==> Scan(entries, candidate).entry == candidate
  {
    if entries != [] {
      var first, rest := entries[0], entries[1..];
      assert forall i :: 0 <= i < |rest| ==> rest[i] == entries[i + 1];
      ScanDecides(rest, candidate);
      forall i | 0 <= i < |entries| && Stable(entries[i]) == Stable(candidate)
        ensures i > 0 ==> !Shares(first, candidate)
      {
        SameEvidenceShares(entries[i], candidate);
      }
      if Stable(first) == Stable(candidate) {
        SameEvidenceShares(first, candidate);
      }
    }
  }

  /** The outcome of an append to a readable index for a record that can be built. */
  lemma AppendDecides(env: Env, raw: Bytes, q: Request)
    requires Sound(env) && Parsed(env, raw).Some?
    requires env.build(q, Previous(Parsed(env, raw).value, |Parsed(env, raw).value|)).Some?
    ensures var entries := Parsed(env, raw).value;
            var candidate := env.build(q, Previous(entries, |entries|)).value;
            AppendOutcome(env, raw, q)
            == if exists i :: 0 <= i < |entries| && Stable(entries[i]) == Stable(candidate) then Already
               else if exists i :: 0 <= i < |entries| && Shares(entries[i], candidate) then Refused
               else Appended(candidate)
  {
    var entries := Parsed(env, raw).value;
    ParsedIs(env, raw, entries);
    ScanDecides(entries, env.build(q, Previous(entries, |entries|)).value);
  }

  lemma PreviousIsValid(env: Env, entries: seq<Entry>)
    requires Linked(env) && ValidIndex(env, entries)
    ensures ValidPrevious(Previous(entries, |entries|))
  {
    if entries != [] {
      var n := |entries| - 1;
      assert Link(env, entries, n);
    }
  }

  /** An append either leaves the file alone or adds one record to what it holds. */
  lemma AppendKeepsIndex(env: Env, raw: Bytes, q: Request)
    requires Sound(env) && Parsed(env, raw).Some?
    ensures var outcome, entries := AppendOutcome(env, raw, q), Parsed(env, raw).value;
            Parsed(env, AfterAppend(env, raw, q)) == Some(if outcome.Appended? then entries + [outcome.entry]
                                                          else entries)
  {
    var entries, outcome := Parsed(env, raw).value, AppendOutcome(env, raw, q);
    ParsedIs(env, raw, entries);
    if outcome.Appended? {
      var previous := Previous(entries, |entries|);
      PreviousIsValid(env, entries);
      ScanFresh(entries, env.build(q, previous).value);
      IndexSnoc(env, entries, outcome.entry);
      FileSnoc(env, entries, outcome.entry);
      ParsedIs(env, AfterAppend(env, raw, q), entries + [outcome.entry]);
    }
  }

  ghost function AfterAll(env: Env, raw: Bytes, qs: seq<Request>): Bytes
    decreases |qs|
  {
    if qs == [] then raw else AfterAll(env, AfterAppend(env, raw, qs[0]), qs[1..])
  }

  /** Whatever is appended to an index, it stays an index: old bytes and old entries remain a prefix. */
  lemma {:induction false} AppendsKeepIndex(env: Env, raw: Bytes, qs: seq<Request>)
    requires Sound(env) && Parsed(env, raw).Some?
    ensures Parsed(env, AfterAll(env, raw, qs)).Some?
    ensures raw <= AfterAll(env, raw, qs)
    ensures Parsed(env, raw).value <= Parsed(env, AfterAll(env, raw, qs)).value
    decreases |qs|
  {
    if qs != [] {
      AppendKeepsIndex(env, raw, qs[0]);
      AppendsKeepIndex(env, AfterAppend(env, raw, qs[0]), qs[1..]);
    }
  }

  lemma EmptyIsIndex(env: Env)
    requires SoundCodec(env.codec)
    ensures Parsed(env, []) == Some([])
  {
    assert Encoded(env.codec, []) == [];
    ParsedIs(env, [], []);
  }

  /** Every file reachable from the empty one is accepted again. */
  lemma ReachableParses(env: Env, qs: seq<Request>)
    requires Sound(env)
    ensures Parsed(env, AfterAll(env, [], qs)).Some?
  {
    EmptyIsIndex(env);
    AppendsKeepIndex(env, [], qs);
  }

  lemma {:induction false} ScanFinds(entries: seq<Entry>, candidate: Entry, i: nat)
    requires Unique(entries) && i < |entries|
    requires Stable(entries[i]) == Stable(candidate)
    ensures Scan(entries, candidate) == Already
  {
    if i > 0 {
      assert BoardKey(entries[0]) != BoardKey(entries[i]) && entries[0].payload.runId != entries[i].payload.runId;
      ScanFinds(entries[1..], candidate, i - 1);
    }
  }

  lemma BuiltAgain(env: Env, q: Request, entries: seq<Entry>, now: seq<Entry>)
    requires Linked(env) && BuildsStable(env) && ValidIndex(env, entries) && ValidIndex(env, now)
    requires env.build(q, Previous(entries, |entries|)).Some?
    ensures env.build(q, Previous(now, |now|)).Some?
    ensures Stable(env.build(q, Previous(now, |now|)).value) == Stable(env.build(q, Previous(entries, |entries|)).value)
  {
    PreviousIsValid(env, entries);
    PreviousIsValid(env, now);
  }

  lemma OutcomeAgain(env: Env, later: Bytes, q: Request, now: seq<Entry>, again: Entry, i: nat)
    requires SoundCodec(env.codec) && IsIndex(env, later, now) && i < |now|
    requires env.build(q, Previous(now, |now|)) == Some(again) && Stable(now[i]) == Stable(again)
    ensures AppendOutcome(env, later, q) == Already
  {
    ParsedIs(env, later, now);
    ScanFinds(now, again, i);
  }

  /** Appending the same evidence again, now or after any other appends, changes nothing. */
  lemma AppendIsIdempotent(env: Env, raw: Bytes, q: Request, others: seq<Request>)
    requires Sound(env) && AppendOutcome(env, raw, q).Appended?
    ensures var later := AfterAll(env, AfterAppend(env, raw, q), others);
            AppendOutcome(env, later, q) == Already && AfterAppend(env, later, q) == later
  {
    var entries := Parsed(env, raw).value;
    var first := env.build(q, Previous(entries, |entries|)).value;
    var later := AfterAll(env, AfterAppend(env, raw, q), others);
    ScanFresh(entries, first);
    AppendKeepsIndex(env, raw, q);
    AppendsKeepIndex(env, AfterAppend(env, raw, q), others);
    var now := Parsed(env, later).value;
    ParsedIs(env, raw, entries);
    ParsedIs(env, later, now);
    BuiltAgain(env, q, entries, now);
    assert now[|entries|] == first;
    OutcomeAgain(env, later, q, now, env.build(q, Previous(now, |now|)).value, |entries|);
  }

  // ----- the hash chain

  /** No record of `a` has the digest of a different record of `b`. */
  predicate NoCollision(hash: Hash, a: seq<Entry>, b: seq<Entry>) {
    forall i, j :: 0 <= i < |a| && 0 <= j < |b| && hash(a[i].payload) == hash(b[j].payload)
      ==> a[i].payload == b[j].payload
  }

  lemma RecordDetermined(env: Env, e: Entry, f: Entry, p: Option<string>, q: Option<string>)
    requires Linked(env) && env.accept(e, p) && env.accept(f, q) && e.recordSha == f.recordSha
    requires env.hash(e.payload) == env.hash(f.payload) ==> e.payload == f.payload
    ensures e == f && p == q
  {
  }

  lemma ChainedPrefix(env: Env, entries: seq<Entry>, n: nat)
    requires Chained(env, entries) && n <= |entries|
    ensures Chained(env, entries[..n]) && Previous(entries[..n], n) == Previous(entries, n)
  {
    forall i | 0 <= i < n
      ensures Link(env, entries[..n], i)
    {
      assert Link(env, entries, i);
    }
  }

  lemma SameByLast<T>(a: seq<T>, b: seq<T>)
    requires a != [] && b != [] && a[|a| - 1] == b[|b| - 1] && a[..|a| - 1] == b[..|b| - 1]
    ensures a == b
  {
    assert a == a[..|a| - 1] + [a[|a| - 1]] && b == b[..|b| - 1] + [b[|b| - 1]];
  }

  /** A record's digest fixes the record and all records before it. */
  lemma {:induction false} ChainDetermines(env: Env, a: seq<Entry>, b: seq<Entry>)
    requires Linked(env) && Chained(env, a) && Chained(env, b) && NoCollision(env.hash, a, b)
    requires Previous(a, |a|) == Previous(b, |b|)
    ensures a == b
    decreases |a|
  {
    if a != [] {
      var m, n := |a| - 1, |b| - 1;
      assert Link(env, a, m) && Link(env, b, n);
      RecordDetermined(env, a[m], b[n], Previous(a, m), Previous(b, n));
      ChainedPrefix(env, a, m);
      ChainedPrefix(env, b, n);
      ChainDetermines(env, a[..m], b[..n]);
      SameByLast(a, b);
    }
  }

  lemma OnlyPrefixIsIndex(env: Env, entries: seq<Entry>, other: seq<Entry>, i: nat)
    requires SoundCodec(env.codec) && Linked(env) && ValidIndex(env, entries) && i < |entries|
    requires NoCollision(env.hash, entries, other)
    requires other != [] && other[|other| - 1] == entries[i]
    ensures ValidIndex(env, other) <==> other == entries[..i + 1]
  {
    PrefixIsIndex(env, entries, i + 1);
    if ValidIndex(env, other) {
      ChainDetermines(env, entries[..i + 1], other);
    }
  }

  lemma ParsedFile(env: Env, entries: seq<Entry>)
    requires SoundCodec(env.codec)
    ensures Parsed(env, FileOf(env, entries)) == if ValidIndex(env, entries) then Some(entries) else None
  {
    ParsedIs(env, FileOf(env, entries), entries);
    forall es | IsIndex(env, FileOf(env, entries), es)
      ensures es == entries
    {
      FileIsInjective(env, es, entries);
    }
  }

  /** A file made of other records that still ends in a record of the index is accepted only if it is the
      index cut off after that record: altering, dropping, inserting or reordering anything before the
      last record is refused. */
  lemma TamperingIsRefused(env: Env, entries: seq<Entry>, other: seq<Entry>, i: nat)
    requires SoundCodec(env.codec) && Linked(env) && ValidIndex(env, entries) && i < |entries|
    requires NoCollision(env.hash, entries, other)
    requires other != [] && other[|other| - 1] == entries[i]
    ensures Parsed(env, FileOf(env, other)) == if other == entries[..i + 1] then Some(other) else None
  {
    OnlyPrefixIsIndex(env, entries, other, i);
    ParsedFile(env, other);
  }

  function Altered(entries: seq<Entry>, i: nat, e: Entry): seq<Entry>
    requires i < |entries|
  {
    entries[i := e]
  }

  function Dropped(entries: seq<Entry>, i: nat): seq<Entry>
    requires i < |entries|
  {
    entries[..i] + entries[i + 1..]
  }

  function Swapped(entries: seq<Entry>, i: nat, j: nat): (r: seq<Entry>)
    requires i < j < |entries|
    ensures |r| == |entries| && r[i] == entries[j] && r[j] == entries[i]
    ensures forall n :: 0 <= n < |r| && n != i && n != j ==> r[n] == entries[n]
  {
    entries[i := entries[j]][j := entries[i]]
  }

  lemma AlteredIsRefused(env: Env, entries: seq<Entry>, i: nat, e: Entry)
    requires SoundCodec(env.codec) && Linked(env) && ValidIndex(env, entries) && i < |entries| - 1 && e != entries[i]
    requires NoCollision(env.hash, entries, Altered(entries, i, e))
    ensures Parsed(env, FileOf(env, Altered(entries, i, e))) == None
  {
    assert Altered(entries, i, e)[i] != entries[..|entries|][i];
    TamperingIsRefused(env, entries, Altered(entries, i, e), |entries| - 1);
  }

  lemma DroppedIsRefused(env: Env, entries: seq<Entry>, i: nat)
    requires SoundCodec(env.codec) && Linked(env) && ValidIndex(env, entries) && i < |entries| - 1
    requires NoCollision(env.hash, entries, Dropped(entries, i))
    ensures Parsed(env, FileOf(env, Dropped(entries, i))) == None
  {
    TamperingIsRefused(env, entries, Dropped(entries, i), |entries| - 1);
  }

  /** Also when the last record takes part. */
  lemma SwappedIsRefused(env: Env, entries: seq<Entry>, i: nat, j: nat)
    requires SoundCodec(env.codec) && Linked(env) && ValidIndex(env, entries) && i < j < |entries|
    requires NoCollision(env.hash, entries, Swapped(entries, i, j))
    ensures Parsed(env, FileOf(env, Swapped(entries, i, j))) == None
  {
    var last := if j < |entries| - 1 then |entries| - 1 else i;
    assert entries[i] != entries[j] by {
      assert BoardKey(entries[i]) != BoardKey(entries[j]);
    }
    assert Swapped(entries, i, j)[i] != entries[..last + 1][i];
    TamperingIsRefused(env, entries, Swapped(entries, i, j), last);
  }
}
