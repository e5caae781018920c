/**
 The two readers of a usage ledger.  The invoice export gives the bytes of a line to `json.loads`
 (kairyu/pricing.py), the reconciliation reads the file as UTF-8 text first (kairyu/usage_reconciliation.py).
 `json.loads` guesses the encoding of bytes: it accepts a byte-order mark, encoded surrogates, UTF-16 and
 UTF-32; of a text it refuses a leading mark.
 */
module LedgerFiles {
  import opened Ledger
  import opened Options
  import opened Reconciliation
  import opened Sorting
  import opened Utf8
  import Invoice

  /** A ledger file; lines end at LF, CR or CR LF for both readers. */
  datatype File = File(name: Chars, path: Option<string>, lines: seq<seq<Byte>>, terminated: bool)

  /** JSON decoding of a text to an object, and the decoding of bytes taken for UTF-16 or UTF-32. */
  datatype Json = Json(parse: Chars -> Option<Record>, wide: seq<Byte> -> Option<Chars>)

  /** What `bytes.strip` strips. */
  predicate IsAsciiSpace(b: Byte) {
    9 <= b <= 13 || b == 32
  }

  /** What `str.strip` strips. */
  predicate IsSpace(c: nat) {
    || 9 <= c <= 13 || 28 <= c <= 32 || c == 0x85 || c == 0xA0 || c == 0x1680 || 0x2000 <= c <= 0x200A
    || c == 0x2028 || c == 0x2029 || c == 0x202F || c == 0x205F || c == 0x3000
  }

  predicate AllSpace(text: Chars) {
    forall i :: 0 <= i < |text| ==> IsSpace(text[i])
  }

  predicate AllAsciiSpace(raw: seq<Byte>) {
    forall i :: 0 <= i < |raw| ==> IsAsciiSpace(raw[i])
  }

  /** The object a text holds; no object is blank, starts with a byte-order mark or contains a zero. */
  function Loads(json: Json, text: Chars): Content {
    if AllSpace(text) || text[0] == MARK_CHAR || 0 in text || json.parse(text).None? then NotObject
    else Object(json.parse(text).value)
  }

  // ----- the reader of the invoice export

  /** `json.loads` takes these bytes for UTF-16 or UTF-32. */
  predicate LooksWide(raw: seq<Byte>) {
    || [0, 0, 0xFE, 0xFF] <= raw || [0xFF, 0xFE] <= raw || [0xFE, 0xFF] <= raw
    || (!(MARK <= raw) && (|raw| >= 4 || |raw| == 2) && (raw[0] == 0 || raw[1] == 0))
  }

  function GuessedText(json: Json, raw: seq<Byte>): Option<Chars> {
    if LooksWide(raw) then json.wide(raw)
    else if MARK <= raw then Decode(raw[3..], true)
    else Decode(raw, true)
  }

  function BytesContent(json: Json, raw: seq<Byte>): Content {
    if AllAsciiSpace(raw) then Blank
    else
      var text := GuessedText(json, raw);
      if text.None? then NotObject else Loads(json, text.value)
  }

  // ----- the reader of the reconciliation

  function TextContent(json: Json, raw: seq<Byte>): Content {
    var text := Decode(raw, false);
    if text.None? then NotObject else if AllSpace(text.value) then Blank else Loads(json, text.value)
  }

  // ----- one line

  /** Both readers see the same text: strict UTF-8 without a mark, not taken for a wider encoding. */
  predicate Plain(raw: seq<Byte>) {
    Decode(raw, false).Some? && !(MARK <= raw) && !LooksWide(raw)
  }

  lemma SpacesArePlain(raw: seq<Byte>)
    requires AllAsciiSpace(raw)
    ensures Plain(raw) && AllSpace(Decode(raw, false).value)
  {
    AsciiDecodes(raw, false);
  }

  /** What a text starts with, if its bytes start with a mark or look wide, is refused. */
  lemma OddTextIsRefused(json: Json, raw: seq<Byte>)
    requires MARK <= raw || LooksWide(raw)
    ensures TextContent(json, raw) == NotObject
  {
    if Decode(raw, false).Some? {
      var text := Decode(raw, false).value;
      if MARK <= raw {
        MarkDecodes(raw);
        assert text[0] == MARK_CHAR;
      } else if raw[0] >= 0xF8 {
        WideMarkIsInvalid(raw, false);
      } else {
        ZeroStays(raw, false);
        assert !AllSpace(text);
      }
    }
  }

  /** Of a line the invoice export accepts, the other reader sees the same, or it refuses it: exactly when
      the line is not plain. */
  lemma ReadersAgree(json: Json, raw: seq<Byte>)
    requires BytesContent(json, raw) != NotObject
    ensures TextContent(json, raw) == if Plain(raw) then BytesContent(json, raw) else NotObject
  {
    if AllAsciiSpace(raw) {
      SpacesArePlain(raw);
    } else if Plain(raw) {
      StrictIsLenient(raw);
    } else if Decode(raw, false).Some? {
      OddTextIsRefused(json, raw);
    }
  }

  /** A byte-order mark in front of an accepted line: the export does not notice, the reconciliation
      refuses the line. */
  lemma MarkedLine(json: Json, raw: seq<Byte>)
    requires Plain(raw) && BytesContent(json, raw).Object?
    ensures BytesContent(json, MARK + raw) == BytesContent(json, raw)
    ensures TextContent(json, MARK + raw) == NotObject
  {
    var marked := MARK + raw;
    assert marked[3..] == raw && MARK <= marked;
    assert !IsAsciiSpace(marked[0]);
    OddTextIsRefused(json, marked);
  }

  // ----- whole files

  function Lines(raws: seq<seq<Byte>>, content: seq<Byte> -> Content): seq<Line> {
    Map(raw => Line(raw, content(raw)), raws)
  }

  function AsBytes(json: Json, file: File): Source {
    Source(file.name, file.path, Lines(file.lines, raw => BytesContent(json, raw)), file.terminated)
  }

  function AsText(json: Json, file: File): Source {
    Source(file.name, file.path, Lines(file.lines, raw => TextContent(json, raw)), file.terminated)
  }

  function ByteReader(json: Json): File -> Source {
    file => AsBytes(json, file)
  }

  function TextReader(json: Json): File -> Source {
    file => AsText(json, file)
  }

  function ByteSources(json: Json, files: seq<File>): seq<Source> {
    Map(ByteReader(json), files)
  }

  function TextSources(json: Json, files: seq<File>): seq<Source> {
    Map(TextReader(json), files)
  }

  /** From the line at `number` on. */
  predicate PlainFrom(file: File, number: nat) {
    forall i :: number <= i < |file.lines| ==> Plain(file.lines[i])
  }

  predicate PlainFiles(files: seq<File>) {
    forall i :: 0 <= i < |files| ==> PlainFrom(files[i], 0)
  }

  function MetersOf(es: seq<Entry>): (r: seq<Metered>)
    ensures |r| == |es|
  {
    if es == [] then [] else [Metered(es[0].tenant, es[0].tokens)] + MetersOf(es[1..])
  }

  lemma {:induction false} MetersOfAppend(es: seq<Entry>, fs: seq<Entry>)
    ensures MetersOf(es + fs) == MetersOf(es) + MetersOf(fs)
  {
    if es == [] {
      assert es + fs == fs;
    } else {
      assert (es + fs)[1..] == es[1..] + fs;
      MetersOfAppend(es[1..], fs);
    }
  }

  lemma LineAgrees(json: Json, file: File, number: nat)
    requires number < |file.lines| && LineEntries(AsBytes(json, file), number).Some?
    ensures LineMeters(AsText(json, file).lines[number])
         == if Plain(file.lines[number]) then Some(MetersOf(LineEntries(AsBytes(json, file), number).value)) else None
  {
    ReadersAgree(json, file.lines[number]);
    var entries := LineEntries(AsBytes(json, file), number).value;
    if entries == [] {
      assert MetersOf(entries) == [];
    } else {
      assert entries[1..] == [];
      assert MetersOf(entries) == [Metered(entries[0].tenant, entries[0].tokens)];
    }
  }

  /** The meters of a plain part are those of its entries; of another there are none. */
  ghost predicate Agree(entries: Option<seq<Entry>>, meters: Option<seq<Metered>>, plain: bool) {
    entries.Some? ==> meters == if plain then Some(MetersOf(entries.value)) else None
  }

  lemma JoinAgrees(es: Option<seq<Entry>>, fs: Option<seq<Entry>>, ms: Option<seq<Metered>>,
                   ns: Option<seq<Metered>>, p: bool, q: bool)
    requires Agree(es, ms, p) && Agree(fs, ns, q)
    ensures Agree(Join(es, fs), Join(ms, ns), p && q)
  {
    if es.Some? && fs.Some? {
      MetersOfAppend(es.value, fs.value);
    }
  }

  lemma PlainCons(file: File, number: nat)
    requires number < |file.lines|
    ensures PlainFrom(file, number) <==> Plain(file.lines[number]) && PlainFrom(file, number + 1)
  {
  }

  lemma {:induction false} FileAgrees(json: Json, file: File, bytes: Source, text: Source, number: nat)
    requires number <= |file.lines| && bytes == AsBytes(json, file) && text == AsText(json, file)
    ensures |bytes.lines| == |text.lines| == |file.lines|
    ensures Agree(EntriesFrom(bytes, number), MetersFrom(text, number), PlainFrom(file, number))
    decreases |file.lines| - number
  {
    if number < |file.lines| {
      if LineEntries(bytes, number).Some? {
        LineAgrees(json, file, number);
      }
      FileAgrees(json, file, bytes, text, number + 1);
      PlainCons(file, number);
      JoinAgrees(LineEntries(bytes, number), EntriesFrom(bytes, number + 1),
                 LineMeters(text.lines[number]), MetersFrom(text, number + 1),
                 Plain(file.lines[number]), PlainFrom(file, number + 1));
    }
  }

  lemma {:induction false} FilesAgree(json: Json, files: seq<File>)
    ensures AllEntries(ByteSources(json, files)).Some? ==>
              Agree(AllEntries(ByteSources(json, files)), AllMeters(TextSources(json, files)), PlainFiles(files))
  {
    if files != [] && AllEntries(ByteSources(json, files)).Some? {
      var bytes, text := AsBytes(json, files[0]), AsText(json, files[0]);
      assert ByteSources(json, files)[1..] == ByteSources(json, files[1..]);
      assert TextSources(json, files)[1..] == TextSources(json, files[1..]);
      FileAgrees(json, files[0], bytes, text, 0);
      FilesAgree(json, files[1..]);
      JoinAgrees(SourceEntries(bytes), AllEntries(ByteSources(json, files[1..])),
                 MetersFrom(text, 0), AllMeters(TextSources(json, files[1..])),
                 PlainFrom(files[0], 0), PlainFiles(files[1..]));
      assert PlainFiles(files) <==> PlainFrom(files[0], 0) && PlainFiles(files[1..]);
    }
  }

  predicate FileByName(a: File, b: File) {
    CharsLeq(a.name, b.name)
  }

  /** Both readers take the files in the same order. */
  lemma SameOrder(json: Json, files: seq<File>)
    ensures Ordered(ByteSources(json, files)) == ByteSources(json, SortBy(FileByName, files))
    ensures Ordered(TextSources(json, files)) == TextSources(json, SortBy(FileByName, files))
  {
    SortMap(FileByName, ByName, ByteReader(json), files);
    SortMap(FileByName, ByName, TextReader(json), files);
  }

  lemma PlainInAnyOrder(files: seq<File>, other: seq<File>)
    requires multiset(files) == multiset(other)
    ensures PlainFiles(files) ==> PlainFiles(other)
  {
    if PlainFiles(files) {
      forall i | 0 <= i < |other|
        ensures PlainFrom(other[i], 0)
      {
        assert other[i] in multiset(files);
        var j :| 0 <= j < |files| && files[j] == other[i];
        assert PlainFrom(files[j], 0);
      }
    }
  }

  lemma FileByNameIsPreorder()
    ensures TotalPreorder(FileByName)
  {
    forall a, b
      ensures FileByName(a, b) || FileByName(b, a)
    {
      CharsBelowTrichotomy(a.name, b.name);
    }
    forall a, b, c | FileByName(a, b) && FileByName(b, c)
      ensures FileByName(a, c)
    {
      CharsLeqTransitive(a.name, b.name, c.name);
    }
  }

  predicate SameUsage(u: Invoice.Usage, b: Bucket) {
    u.requests == b.requests && u.uncached == b.uncached && u.cached == b.cached && u.output == b.completion
  }

  lemma {:induction false} UsageAgrees(es: seq<Entry>, tenant: Chars)
    ensures SameUsage(Billed(es, tenant, ALWAYS), BucketIn(MetersOf(es), tenant))
  {
    if es != [] {
      UsageAgrees(es[1..], tenant);
      BucketCons(Metered(es[0].tenant, es[0].tokens), MetersOf(es[1..]), tenant);
    }
  }

  lemma SameValidity(json: Json, files: seq<File>)
    requires ValidRequest(ByteSources(json, files), ALWAYS)
    ensures ValidLedgers(TextSources(json, files))
  {
    var bytes, texts := ByteSources(json, files), TextSources(json, files);
    assert forall i :: 0 <= i < |files| ==> texts[i].path == bytes[i].path && texts[i].name == bytes[i].name;
  }

  /** Of ledgers the invoice export accepts, the reconciliation accepts exactly those whose lines are all
      plain, and then both find the same usage for every tenant. */
  lemma InvoiceAgrees(json: Json, files: seq<File>, tenant: Chars)
    requires ValidRequest(ByteSources(json, files), ALWAYS) && AllEntries(Ordered(ByteSources(json, files))).Some?
    ensures LedgerMeters(TextSources(json, files)).Some? <==> PlainFiles(files)
    ensures LedgerMeters(TextSources(json, files)).Some? ==>
              SameUsage(Balance(BooksOf(Kept(AllEntries(Ordered(ByteSources(json, files))).value, None, ALWAYS)),
                                tenant),
                        Get(TotalsOf(LedgerMeters(TextSources(json, files)).value), tenant))
  {
    var ordered := SortBy(FileByName, files);
    SameOrder(json, files);
    SameValidity(json, files);
    FilesAgree(json, ordered);
    FileByNameIsPreorder();
    SortBySorts(FileByName, files);
    PlainInAnyOrder(files, ordered);
    PlainInAnyOrder(ordered, files);
    var es := AllEntries(Ordered(ByteSources(json, files))).value;
    BalanceIs(es, tenant, ALWAYS);
    UsageAgrees(es, tenant);
    GetIsBucket(MetersOf(es), tenant);
  }

  lemma OneRecord(json: Json, file: File, entry: Entry)
    requires file.name != [] && file.path == None && |file.lines| == 1 && file.terminated
    requires LineEntries(AsBytes(json, file), 0) == Some([entry])
    ensures Accepted(ByteSources(json, [file]), ALWAYS)
    ensures AllEntries(Ordered(ByteSources(json, [file]))) == Some([entry])
  {
    var source := AsBytes(json, file);
    assert EntriesFrom(source, 1) == Some([]) && [entry] + [] == [entry];
    assert EntriesFrom(source, 0) == Some([entry]);
    var sources := ByteSources(json, [file]);
    assert sources == [source] && sources[1..] == [];
    assert SortBy(ByName, sources[1..]) == [];
    assert Ordered(sources) == [source];
    assert AllEntries(sources[1..]) == Some([]);
  }

  lemma OneRecordExported(h: Hashes, sources: seq<Source>, sheet: Sheet, entry: Entry)
    requires sheet.Valid() && Accepted(sources, ALWAYS) && AllEntries(Ordered(sources)) == Some([entry])
    requires Billable(sheet, [entry], entry.tenant)
    ensures Exported(h, sources, sheet, None, ALWAYS).Some?
  {
    forall tenant
      ensures Exported(h, sources, sheet, Some(tenant), ALWAYS).Some?
    {
      OneKept(entry, Some(tenant), ALWAYS);
      TenantExportIff(h, sources, sheet, tenant, ALWAYS);
    }
    FullExportIff(h, sources, sheet, ALWAYS);
  }

  /** A ledger of one billable record behind a byte-order mark is invoiced, and refused by the
      reconciliation. */
  lemma MarkedLedger(h: Hashes, sheet: Sheet, json: Json, name: Chars, raw: seq<Byte>)
    requires name != [] && Plain(raw) && BytesContent(json, raw).Object? && sheet.Valid()
    requires var entry := RecordUsage(BytesContent(json, raw).record, Evidence(name, 1, MARK + raw));
             entry.Some? && Billable(sheet, [entry.value], entry.value.tenant)
    ensures var files := [File(name, None, [MARK + raw], true)];
            && Exported(h, ByteSources(json, files), sheet, None, ALWAYS).Some?
            && LedgerMeters(TextSources(json, files)) == None
  {
    var file := File(name, None, [MARK + raw], true);
    var files, entry := [file], RecordUsage(BytesContent(json, raw).record, Evidence(name, 1, MARK + raw)).value;
    MarkedLine(json, raw);
    assert LineEntries(AsBytes(json, file), 0) == Some([entry]);
    OneRecord(json, file, entry);
    OneRecordExported(h, ByteSources(json, files), sheet, entry);
    assert MARK <= file.lines[0] && !PlainFrom(file, 0);
    InvoiceAgrees(json, files, name);
  }
}
