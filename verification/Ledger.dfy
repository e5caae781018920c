/**
 Usage ledgers and the invoice export built from them (kairyu/pricing.py).

 A ledger line is modelled after JSON decoding; its raw bytes are kept because they enter the
 source digest.  The digest and the invoice id are functions of the evidence they are computed from.
 */
module Ledger {
  import opened Decimals
  import opened Invoice
  import opened Options
  import opened Sorting
  import opened Utf8

  datatype Text = NotText | Text(value: Chars)

  datatype Number = Absent | NotInteger | Integer(value: int)

  datatype Stamp = NotFinite | Finite(value: real)

  datatype Record = Record(tenant: Text, model: Text, ts: Stamp,
                           prompt: Number, cached: Number, uncached: Number, completion: Number)

  datatype Content = Blank | NotObject | Object(record: Record)

  datatype Line = Line(raw: seq<Byte>, content: Content)

  /** A named snapshot; `path` is None when it was given as bytes, `terminated` says that the last line
      has its newline. */
  datatype Source = Source(name: Chars, path: Option<string>, lines: seq<Line>, terminated: bool)

  datatype Tokens = Tokens(prompt: nat, cached: nat, uncached: nat, completion: nat)

  // ----- one record

  predicate NonEmpty(t: Text) {
    t.Text? && t.value != []
  }

  predicate Count(n: Number) {
    n.Integer? && n.value >= 0
  }

  /** The token fields with their defaults; refused unless they are counts that add up. */
  function TokensOf(r: Record): (t: Option<Tokens>)
    ensures t.Some? ==> t.value.cached + t.value.uncached == t.value.prompt
  {
    var cached := if r.cached.Absent? then Integer(0) else r.cached;
    var uncached :=
      if !r.uncached.Absent? then r.uncached
      else if r.prompt.Integer? && cached.Integer? then Integer(r.prompt.value - cached.value)
      else NotInteger;
    if Count(r.prompt) && Count(cached) && Count(uncached) && Count(r.completion)
       && cached.value + uncached.value == r.prompt.value
    then Some(Tokens(r.prompt.value, cached.value, uncached.value, r.completion.value))
    else None
  }

  /** The record says this usage: absent cached tokens are none, absent uncached ones are the rest. */
  predicate Says(r: Record, t: Tokens) {
    && r.prompt == Integer(t.prompt) && r.completion == Integer(t.completion)
    && (r.cached == Integer(t.cached) || (r.cached.Absent? && t.cached == 0))
    && (r.uncached == Integer(t.uncached) || r.uncached.Absent?)
    && t.cached + t.uncached == t.prompt
  }

  /** The token fields are accepted exactly when they say some usage, and then as that. */
  lemma TokensAccepted(r: Record, t: Tokens)
    ensures TokensOf(r) == Some(t) <==> Says(r, t)
  {
  }

  datatype Evidence = Evidence(source: Chars, line: nat, raw: seq<Byte>)

  datatype Entry = Entry(tenant: Chars, ts: real, tokens: Tokens, evidence: Evidence)

  /** `_record_usage`. */
  function RecordUsage(r: Record, evidence: Evidence): Option<Entry> {
    if NonEmpty(r.tenant) && NonEmpty(r.model) && r.ts.Finite? && TokensOf(r).Some?
    then Some(Entry(r.tenant.value, r.ts.value, TokensOf(r).value, evidence))
    else None
  }

  // ----- all records, in order

  function LineEntries(source: Source, number: nat): Option<seq<Entry>>
    requires number < |source.lines|
  {
    var line := source.lines[number];
    match line.content
    case Blank => Some([])
    case NotObject => None
    case Object(record) =>
      var entry := RecordUsage(record, Evidence(source.name, number + 1, line.raw));
      if entry.Some? then Some([entry.value]) else None
  }

  function EntriesFrom(source: Source, number: nat): Option<seq<Entry>>
    requires number <= |source.lines|
    decreases |source.lines| - number
  {
    if number == |source.lines| then Some([])
    else Join(LineEntries(source, number), EntriesFrom(source, number + 1))
  }

  predicate Truncated(source: Source) {
    source.lines != [] && !source.terminated
  }

  function SourceEntries(source: Source): Option<seq<Entry>> {
    if Truncated(source) then None else EntriesFrom(source, 0)
  }

  function AllEntries(sources: seq<Source>): Option<seq<Entry>> {
    if sources == [] then Some([]) else Join(SourceEntries(sources[0]), AllEntries(sources[1..]))
  }

  // ----- selection and totals

  datatype Window = Window(start: Option<real>, end: Option<real>) {
    predicate Contains(ts: real) {
      (start.Some? ==> start.value <= ts) && (end.Some? ==> ts < end.value)
    }
  }

  predicate Selected(e: Entry, tenant: Option<Chars>, w: Window) {
    (tenant.Some? ==> e.tenant == tenant.value) && w.Contains(e.ts)
  }

  function Kept(es: seq<Entry>, tenant: Option<Chars>, w: Window): seq<Entry> {
    if es == [] then []
    else (if Selected(es[0], tenant, w) then [es[0]] else []) + Kept(es[1..], tenant, w)
  }

  const ALWAYS := Window(None, None)

  function UsageOf(t: Tokens): Usage {
    Usage(1, t.uncached, t.cached, t.completion)
  }

  function Total(es: seq<Entry>): Usage {
    if es == [] then NO_USAGE else UsageOf(es[0].tokens).Plus(Total(es[1..]))
  }

  function Trail(es: seq<Entry>): (r: seq<Evidence>)
    ensures |r| == |es|
  {
    seq(|es|, i requires 0 <= i < |es| => es[i].evidence)
  }

  function Tenants(es: seq<Entry>): (r: set<Chars>)
    ensures forall t :: t in r <==> exists i :: 0 <= i < |es| && es[i].tenant == t
  {
    set i | 0 <= i < |es| :: es[i].tenant
  }

  function Of(es: seq<Entry>, tenant: Chars): seq<Entry> {
    Kept(es, Some(tenant), ALWAYS)
  }

  /** Per tenant, the usage and the evidence its digest is taken over. */
  datatype Books = Books(totals: map<Chars, Usage>, evidence: map<Chars, seq<Evidence>>)

  function BooksOf(es: seq<Entry>): (books: Books)
    ensures books.totals.Keys == Tenants(es) == books.evidence.Keys
  {
    Books(map t | t in Tenants(es) :: Total(Of(es, t)), map t | t in Tenants(es) :: Trail(Of(es, t)))
  }

  function Posted(books: Books, e: Entry): Books {
    var bucket := if e.tenant in books.totals then books.totals[e.tenant] else NO_USAGE;
    var trail := if e.tenant in books.evidence then books.evidence[e.tenant] else [];
    Books(books.totals[e.tenant := bucket.Plus(UsageOf(e.tokens))], books.evidence[e.tenant := trail + [e.evidence]])
  }

  lemma {:induction false} KeptAppend(es: seq<Entry>, fs: seq<Entry>, tenant: Option<Chars>, w: Window)
    ensures Kept(es + fs, tenant, w) == Kept(es, tenant, w) + Kept(fs, tenant, w)
  {
    if es == [] {
      assert es + fs == fs;
    } else {
      assert (es + fs)[1..] == es[1..] + fs;
      KeptAppend(es[1..], fs, tenant, w);
    }
  }

  lemma PlusLaws(a: Usage, b: Usage, c: Usage)
    ensures NO_USAGE.Plus(a) == a == a.Plus(NO_USAGE)
    ensures a.Plus(b).Plus(c) == a.Plus(b.Plus(c))
    ensures a.Plus(b) == b.Plus(a)
  {
  }

  lemma {:induction false} TotalAppend(es: seq<Entry>, fs: seq<Entry>)
    ensures Total(es + fs) == Total(es).Plus(Total(fs))
  {
    if es == [] {
      assert es + fs == fs;
      PlusLaws(Total(fs), NO_USAGE, NO_USAGE);
    } else {
      assert (es + fs)[1..] == es[1..] + fs;
      TotalAppend(es[1..], fs);
      PlusLaws(UsageOf(es[0].tokens), Total(es[1..]), Total(fs));
    }
  }

  lemma {:induction false} NoneKept(es: seq<Entry>, tenant: Chars)
    requires tenant !in Tenants(es)
    ensures Of(es, tenant) == []
  {
    if es != [] {
      assert es[0].tenant in Tenants(es);
      forall t | t in Tenants(es[1..])
        ensures t in Tenants(es)
      {
        var i :| 0 <= i < |es[1..]| && es[1..][i].tenant == t;
        assert es[i + 1].tenant == t;
      }
      NoneKept(es[1..], tenant);
    }
  }

  lemma OfSnoc(es: seq<Entry>, e: Entry, tenant: Chars)
    ensures Of(es + [e], tenant) == if e.tenant == tenant then Of(es, tenant) + [e] else Of(es, tenant)
  {
    KeptAppend(es, [e], Some(tenant), ALWAYS);
    assert Kept([e], Some(tenant), ALWAYS) == if e.tenant == tenant then [e] else [];
  }

  lemma TenantsSnoc(es: seq<Entry>, e: Entry)
    ensures Tenants(es + [e]) == Tenants(es) + {e.tenant}
  {
    var all := es + [e];
    forall t
      ensures t in Tenants(all) <==> t in Tenants(es) || t == e.tenant
    {
      if t in Tenants(es) {
        var i :| 0 <= i < |es| && es[i].tenant == t;
        assert all[i].tenant == t;
      }
      if t == e.tenant {
        assert all[|es|].tenant == t;
      }
    }
  }

  lemma TotalOne(es: seq<Entry>)
    requires |es| == 1
    ensures Total(es) == UsageOf(es[0].tokens)
  {
    var rest := es[1..];
    assert rest == [];
    PlusLaws(UsageOf(es[0].tokens), Total(rest), Total(rest));
  }

  lemma TotalSnoc(es: seq<Entry>, e: Entry)
    ensures Total(es + [e]) == Total(es).Plus(UsageOf(e.tokens))
  {
    var one := [e];
    TotalAppend(es, one);
    TotalOne(one);
  }

  lemma BalanceOf(es: seq<Entry>, tenant: Chars)
    ensures (if tenant in BooksOf(es).totals then BooksOf(es).totals[tenant] else NO_USAGE) == Total(Of(es, tenant))
    ensures (if tenant in BooksOf(es).evidence then BooksOf(es).evidence[tenant] else []) == Trail(Of(es, tenant))
  {
    if tenant !in Tenants(es) {
      NoneKept(es, tenant);
    }
  }

  lemma PostedTenant(es: seq<Entry>, e: Entry, t: Chars)
    requires t in Tenants(es) || t == e.tenant
    ensures Posted(BooksOf(es), e).totals[t] == Total(Of(es + [e], t))
    ensures Posted(BooksOf(es), e).evidence[t] == Trail(Of(es + [e], t))
  {
    OfSnoc(es, e, t);
    BalanceOf(es, t);
    TotalSnoc(Of(es, t), e);
  }

  lemma SameMap<V>(a: map<Chars, V>, b: map<Chars, V>)
    requires a.Keys == b.Keys && forall t :: t in b ==> a[t] == b[t]
    ensures a == b
  {
  }

  lemma PostedKeys(books: Books, e: Entry)
    ensures Posted(books, e).totals.Keys == books.totals.Keys + {e.tenant}
    ensures Posted(books, e).evidence.Keys == books.evidence.Keys + {e.tenant}
  {
  }

  /** Posting one more entry keeps the books exact for every tenant. */
  lemma PostedIsExact(es: seq<Entry>, e: Entry)
    ensures Posted(BooksOf(es), e) == BooksOf(es + [e])
  {
    TenantsSnoc(es, e);
    var before := BooksOf(es);
    PostedKeys(before, e);
    var posted, books := Posted(before, e), BooksOf(es + [e]);
    forall t | t in books.totals
      ensures posted.totals[t] == books.totals[t] && posted.evidence[t] == books.evidence[t]
    {
      PostedTenant(es, e, t);
    }
    SameMap(posted.totals, books.totals);
    SameMap(posted.evidence, books.evidence);
  }

  // ----- the aggregation loop

  predicate ByName(a: Source, b: Source) {
    CharsLeq(a.name, b.name)
  }

  lemma ByNameIsPreorder()
    ensures TotalPreorder(ByName)
  {
    forall a, b
      ensures ByName(a, b) || ByName(b, a)
    {
      CharsBelowTrichotomy(a.name, b.name);
    }
    forall a, b, c | ByName(a, b) && ByName(b, c)
      ensures ByName(a, c)
    {
      CharsLeqTransitive(a.name, b.name, c.name);
    }
  }

  /** The sources in the order the export reads them. */
  function Ordered(sources: seq<Source>): seq<Source> {
    SortBy(ByName, sources)
  }

  lemma KeptSnoc(es: seq<Entry>, e: Entry, tenant: Option<Chars>, w: Window)
    ensures Kept(es + [e], tenant, w) == if Selected(e, tenant, w) then Kept(es, tenant, w) + [e]
            else Kept(es, tenant, w)
  {
    KeptAppend(es, [e], tenant, w);
    assert Kept([e], tenant, w) == if Selected(e, tenant, w) then [e] else [];
  }

  /** The names of the sources these entries come from can be digested. */
  predicate Named(es: seq<Entry>) {
    forall i :: 0 <= i < |es| ==> Encodable(es[i].evidence.source)
  }

  predicate NamedSelection(es: seq<Entry>, tenant: Option<Chars>, w: Window) {
    Named(Kept(es, tenant, w))
  }

  /** The books of a selection, if every line was accepted. */
  function Aggregated(entries: Option<seq<Entry>>, tenant: Option<Chars>, w: Window): Option<Books> {
    if entries.Some? && NamedSelection(entries.value, tenant, w) then Some(BooksOf(Kept(entries.value, tenant, w)))
      else None
  }

  lemma NamedAppend(es: seq<Entry>, fs: seq<Entry>, tenant: Option<Chars>, w: Window)
    ensures NamedSelection(es + fs, tenant, w) <==> NamedSelection(es, tenant, w) && NamedSelection(fs, tenant, w)
  {
    KeptAppend(es, fs, tenant, w);
    var a, b := Kept(es, tenant, w), Kept(fs, tenant, w);
    assert forall i :: 0 <= i < |a| ==> (a + b)[i] == a[i];
    assert forall i :: 0 <= i < |b| ==> (a + b)[|a| + i] == b[i];
  }

  /** The body of the line loop. */
  method ReadLine(source: Source, number: nat, tenant: Option<Chars>, w: Window, before: Books, ghost seen: seq<Entry>)
    returns (r: Option<Books>)
    requires number < |source.lines| && before == BooksOf(Kept(seen, tenant, w))
    ensures r.Some? <==> LineEntries(source, number).Some? && NamedSelection(LineEntries(source, number).value,
                                                                             tenant, w)
    ensures r.Some? ==> r.value == BooksOf(Kept(seen + LineEntries(source, number).value, tenant, w))
  {
    var line := source.lines[number];
    if line.content.Blank? {
      assert seen + [] == seen;
      return Some(before);
    }
    if line.content.NotObject? {
      return None;
    }
    var entry := RecordUsage(line.content.record, Evidence(source.name, number + 1, line.raw));
    if entry.None? {
      return None;
    }
    KeptSnoc(seen, entry.value, tenant, w);
    OneKept(entry.value, tenant, w);
    if !Selected(entry.value, tenant, w) {
      return Some(before);
    }
    if !Encodable(source.name) {
      return None;
    }
    PostedIsExact(Kept(seen, tenant, w), entry.value);
    return Some(Posted(before, entry.value));
  }

  lemma OneKept(e: Entry, tenant: Option<Chars>, w: Window)
    ensures Kept([e], tenant, w) == if Selected(e, tenant, w) then [e] else []
  {
    assert [e][1..] == [];
  }

  /** The loop over the lines of one source. */
  method ReadSource(source: Source, tenant: Option<Chars>, w: Window, before: Books, ghost seen: seq<Entry>)
    returns (r: Option<Books>)
    requires before == BooksOf(Kept(seen, tenant, w))
    ensures r.Some? <==> SourceEntries(source).Some? && NamedSelection(SourceEntries(source).value, tenant, w)
    ensures r.Some? ==> r.value == BooksOf(Kept(seen + SourceEntries(source).value, tenant, w))
  {
    if source.lines != [] && !source.terminated {
      return None;
    }
    var books := before;
    ghost var read: seq<Entry> := [];
    JoinEmpty(EntriesFrom(source, 0));
    assert seen + read == seen;
    for number := 0 to |source.lines|
      invariant books == BooksOf(Kept(seen + read, tenant, w)) && NamedSelection(read, tenant, w)
      invariant EntriesFrom(source, 0) == Join(Some(read), EntriesFrom(source, number))
    {
      var after := ReadLine(source, number, tenant, w, books, seen + read);
      JoinAssociative(Some(read), LineEntries(source, number), EntriesFrom(source, number + 1));
      if after.None? {
        StopsAt(EntriesFrom(source, 0), read, LineEntries(source, number), EntriesFrom(source, number + 1), tenant, w);
        return None;
      }
      books := after.value;
      ghost var line := LineEntries(source, number).value;
      assert seen + (read + line) == seen + read + line;
      NamedAppend(read, line, tenant, w);
      read := read + line;
    }
    JoinEmpty(Some(read));
    return Some(books);
  }

  /** A part that cannot be read or digested refuses the whole. */
  lemma StopsAt(all: Option<seq<Entry>>, before: seq<Entry>, part: Option<seq<Entry>>, after: Option<seq<Entry>>,
                tenant: Option<Chars>, w: Window)
    requires all == Join(Join(Some(before), part), after) && (part.None? || !NamedSelection(part.value, tenant, w))
    ensures all.None? || !NamedSelection(all.value, tenant, w)
  {
    if all.Some? {
      NamedAppend(before + part.value, after.value, tenant, w);
      NamedAppend(before, part.value, tenant, w);
    }
  }

  /** `_aggregate`: refused when any line of any source is refused, whatever the filters, or when a source of
      a selected record cannot be digested. */
  method Aggregate(sources: seq<Source>, tenant: Option<Chars>, w: Window) returns (r: Option<Books>)
    ensures r == Aggregated(AllEntries(Ordered(sources)), tenant, w)
  {
    var ordered := SortBy(ByName, sources);
    var books := Books(map[], map[]);
    ghost var seen: seq<Entry> := [];
    assert Tenants([]) == {};
    JoinEmpty(AllEntries(ordered));
    for i := 0 to |ordered|
      invariant books == BooksOf(Kept(seen, tenant, w)) && NamedSelection(seen, tenant, w)
      invariant AllEntries(ordered) == Join(Some(seen), AllEntries(ordered[i..]))
    {
      assert ordered[i..][1..] == ordered[i + 1..];
      JoinAssociative(Some(seen), SourceEntries(ordered[i]), AllEntries(ordered[i + 1..]));
      var after := ReadSource(ordered[i], tenant, w, books, seen);
      if after.None? {
        StopsAt(AllEntries(ordered), seen, SourceEntries(ordered[i]), AllEntries(ordered[i + 1..]), tenant, w);
        return None;
      }
      books := after.value;
      NamedAppend(seen, SourceEntries(ordered[i]).value, tenant, w);
      seen := seen + SourceEntries(ordered[i]).value;
    }
    JoinEmpty(Some(seen));
    return Some(books);
  }

  // ----- the export

  datatype Sheet = Sheet(version: string, currency: string, rates: Rates, discounts: map<Chars, Decimal>) {
    predicate Valid() {
      rates.Valid() && forall tenant :: tenant in discounts ==> AtMostOne(discounts[tenant])
    }

    function Discount(tenant: Chars): (d: Decimal)
      requires Valid()
      ensures AtMostOne(d)
    {
      if tenant in discounts then discounts[tenant] else Decimal(0, 0)
    }
  }

  /** The digest of a tenant's evidence, and the invoice id made from the sheet version, the tenant, the
      billing window and that digest. */
  datatype Hashes = Hashes(digest: seq<Evidence> -> string, identify: (string, Chars, Window, string) -> string)

  datatype Row = Row(id: string, version: string, currency: string, digest: string, tenant: Chars, window: Window,
                     usage: Usage, rates: Rates, discount: Decimal, charges: Charges)

  /** The row of a tenant; refused when an amount has too many digits or the name has no encoding. */
  function RowFor(h: Hashes, sheet: Sheet, w: Window, books: Books, tenant: Chars): Option<Row>
    requires sheet.Valid() && tenant in books.totals && tenant in books.evidence
  {
    var charges := ChargesFor(books.totals[tenant], sheet.rates, sheet.Discount(tenant));
    var digest := h.digest(books.evidence[tenant]);
    if charges.None? || !Encodable(tenant) then None
    else Some(Row(h.identify(sheet.version, tenant, w, digest), sheet.version, sheet.currency, digest, tenant, w,
                  books.totals[tenant], sheet.rates, sheet.Discount(tenant), charges.value))
  }

  predicate Covers(books: Books, tenants: seq<Chars>) {
    forall i :: 0 <= i < |tenants| ==> tenants[i] in books.totals && tenants[i] in books.evidence
  }

  function Single<T>(x: Option<T>): Option<seq<T>> {
    if x.Some? then Some([x.value]) else None
  }

  function RowsFor(h: Hashes, sheet: Sheet, w: Window, books: Books, tenants: seq<Chars>): Option<seq<Row>>
    requires sheet.Valid() && Covers(books, tenants)
  {
    if tenants == [] then Some([])
    else Join(Single(RowFor(h, sheet, w, books, tenants[0])), RowsFor(h, sheet, w, books, tenants[1..]))
  }

  function InvoiceRows(h: Hashes, sheet: Sheet, w: Window, es: seq<Entry>): Option<seq<Row>>
    requires sheet.Valid()
  {
    CoversKeys(es);
    RowsFor(h, sheet, w, BooksOf(es), SortedKeys(Tenants(es)))
  }

  lemma CoversKeys(es: seq<Entry>)
    ensures Covers(BooksOf(es), SortedKeys(Tenants(es)))
  {
    var keys := SortedKeys(Tenants(es));
    forall i | 0 <= i < |keys|
      ensures keys[i] in Tenants(es)
    {
      assert keys[i] in keys;
    }
  }

  predicate ValidRequest(sources: seq<Source>, w: Window) {
    && sources != []
    && (forall i :: 0 <= i < |sources| ==> sources[i].name != [])
    && (w.start.Some? ==> w.start.value >= 0.0) && (w.end.Some? ==> w.end.value >= 0.0)
    && (w.start.Some? && w.end.Some? ==> w.start.value < w.end.value)
    && DistinctPaths(sources)
  }

  predicate DistinctPaths(sources: seq<Source>) {
    forall i, j :: 0 <= i < j < |sources| && sources[i].path.Some? ==> sources[i].path != sources[j].path
  }

  function Exported(h: Hashes, sources: seq<Source>, sheet: Sheet, tenant: Option<Chars>, w: Window): Option<seq<Row>>
    requires sheet.Valid()
  {
    var entries := AllEntries(Ordered(sources));
    if ValidRequest(sources, w) && entries.Some? && NamedSelection(entries.value, tenant, w)
    then InvoiceRows(h, sheet, w, Kept(entries.value, tenant, w))
    else None
  }

  /** `export_invoice_csv`, up to the CSV text. */
  method Export(h: Hashes, sources: seq<Source>, sheet: Sheet, tenant: Option<Chars>,
                w: Window) returns (r: Option<seq<Row>>)
    requires sheet.Valid()
    ensures r == Exported(h, sources, sheet, tenant, w)
  {
    if !ValidRequest(sources, w) {
      return None;
    }
    var books := Aggregate(sources, tenant, w);
    if books.None? {
      return None;
    }
    CoversKeys(Kept(AllEntries(Ordered(sources)).value, tenant, w));
    r := WriteRows(h, sheet, w, books.value, SortedKeys(books.value.totals.Keys));
  }

  method WriteRows(h: Hashes, sheet: Sheet, w: Window, books: Books, tenants: seq<Chars>) returns (r: Option<seq<Row>>)
    requires sheet.Valid() && Covers(books, tenants)
    ensures r == RowsFor(h, sheet, w, books, tenants)
  {
    var rows: seq<Row> := [];
    JoinEmpty(RowsFor(h, sheet, w, books, tenants));
    for i := 0 to |tenants|
      invariant RowsFor(h, sheet, w, books, tenants) == Join(Some(rows), RowsFor(h, sheet, w, books, tenants[i..]))
    {
      assert tenants[i..][1..] == tenants[i + 1..];
      var row := RowFor(h, sheet, w, books, tenants[i]);
      JoinAssociative(Some(rows), Single(row), RowsFor(h, sheet, w, books, tenants[i + 1..]));
      if row.None? {
        return None;
      }
      rows := rows + [row.value];
    }
    JoinEmpty(Some(rows));
    return Some(rows);
  }

  // ----- what the export promises

  lemma {:induction false} KeptTwice(es: seq<Entry>, tenant: Chars, w: Window)
    ensures Kept(es, Some(tenant), w) == Of(Kept(es, None, w), tenant)
  {
    if es != [] {
      KeptTwice(es[1..], tenant, w);
      var first := if Selected(es[0], None, w) then [es[0]] else [];
      KeptAppend(first, Kept(es[1..], None, w), Some(tenant), ALWAYS);
    }
  }

  lemma {:induction false} OfTenants(es: seq<Entry>, tenant: Chars)
    ensures forall i :: 0 <= i < |Of(es, tenant)| ==> Of(es, tenant)[i].tenant == tenant
    ensures tenant in Tenants(es) ==> Of(es, tenant) != []
  {
    if es != [] {
      OfTenants(es[1..], tenant);
      assert Of(es, tenant) == (if es[0].tenant == tenant then [es[0]] else []) + Of(es[1..], tenant);
      if tenant in Tenants(es) && es[0].tenant != tenant {
        var i :| 0 <= i < |es| && es[i].tenant == tenant;
        assert es[1..][i - 1].tenant == tenant;
      }
    }
  }

  lemma {:induction false} KeptAll(es: seq<Entry>, tenant: Chars)
    requires forall i :: 0 <= i < |es| ==> es[i].tenant == tenant
    ensures Of(es, tenant) == es
  {
    if es != [] {
      KeptAll(es[1..], tenant);
      assert es == [es[0]] + es[1..];
    }
  }

  /** Restricting the entries to one tenant leaves that tenant's books as they were, and nothing else. */
  lemma TenantBooks(es: seq<Entry>, tenant: Chars)
    ensures Tenants(Of(es, tenant)) == if tenant in Tenants(es) then {tenant} else {}
    ensures Of(Of(es, tenant), tenant) == Of(es, tenant)
  {
    var own := Of(es, tenant);
    OfTenants(es, tenant);
    KeptAll(own, tenant);
    if tenant in Tenants(es) {
      assert own[0].tenant == tenant;
    } else {
      NoneKept(es, tenant);
    }
  }

  lemma SingleKey(key: Chars)
    ensures SortedKeys({key}) == [key]
  {
    assert {key} - {key} == {};
    assert forall first :: IsLeast(first, {key}) ==> first == key;
  }

  function RowsOf(rows: seq<Row>, tenant: Chars): seq<Row> {
    if rows == [] then []
    else (if rows[0].tenant == tenant then [rows[0]] else []) + RowsOf(rows[1..], tenant)
  }

  lemma {:induction false} RowsOfAppend(a: seq<Row>, b: seq<Row>, tenant: Chars)
    ensures RowsOf(a + b, tenant) == RowsOf(a, tenant) + RowsOf(b, tenant)
  {
    if a == [] {
      assert a + b == b;
    } else {
      assert (a + b)[1..] == a[1..] + b;
      RowsOfAppend(a[1..], b, tenant);
      assert RowsOf(a, tenant) == (if a[0].tenant == tenant then [a[0]] else []) + RowsOf(a[1..], tenant);
    }
  }

  lemma RowsOfOne(row: Row, tenant: Chars)
    ensures RowsOf([row], tenant) == if row.tenant == tenant then [row] else []
  {
    assert [row][1..] == [];
  }

  /** The rows are written exactly when each of them can be. */
  lemma {:induction false} RowsWritten(h: Hashes, sheet: Sheet, w: Window, books: Books, tenants: seq<Chars>)
    requires sheet.Valid() && Covers(books, tenants)
    ensures RowsFor(h, sheet, w, books, tenants).Some?
       <==> forall i :: 0 <= i < |tenants| ==> RowFor(h, sheet, w, books, tenants[i]).Some?
  {
    if tenants != [] {
      RowsWritten(h, sheet, w, books, tenants[1..]);
      assert tenants == [tenants[0]] + tenants[1..];
    }
  }

  lemma {:induction false} RowsOfAbsent(h: Hashes, sheet: Sheet, w: Window, books: Books, tenants: seq<Chars>,
                                        tenant: Chars)
    requires sheet.Valid() && Covers(books, tenants) && tenant !in tenants && RowsFor(h, sheet, w, books, tenants).Some?
    ensures RowsOf(RowsFor(h, sheet, w, books, tenants).value, tenant) == []
  {
    if tenants != [] {
      RowsOfAbsent(h, sheet, w, books, tenants[1..], tenant);
      var row := RowFor(h, sheet, w, books, tenants[0]).value;
      RowsOfOne(row, tenant);
      RowsOfAppend([row], RowsFor(h, sheet, w, books, tenants[1..]).value, tenant);
    }
  }

  lemma {:induction false} RowsOfPresent(h: Hashes, sheet: Sheet, w: Window, books: Books, tenants: seq<Chars>,
                                         tenant: Chars)
    requires sheet.Valid() && Covers(books, tenants) && tenant in tenants && RowsFor(h, sheet, w, books, tenants).Some?
    requires forall i, j :: 0 <= i < j < |tenants| ==> CharsBelow(tenants[i], tenants[j])
    ensures tenant in books.totals && tenant in books.evidence && RowFor(h, sheet, w, books, tenant).Some?
    ensures RowsOf(RowsFor(h, sheet, w, books, tenants).value, tenant) == [RowFor(h, sheet, w, books, tenant).value]
  {
    var row := RowFor(h, sheet, w, books, tenants[0]).value;
    RowsOfOne(row, tenant);
    RowsOfAppend([row], RowsFor(h, sheet, w, books, tenants[1..]).value, tenant);
    if tenants[0] == tenant {
      CharsBelowTrichotomy(tenant, tenant);
      assert forall j :: 0 < j < |tenants| ==> CharsBelow(tenants[0], tenants[j]);
      RowsOfAbsent(h, sheet, w, books, tenants[1..], tenant);
    } else {
      RowsOfPresent(h, sheet, w, books, tenants[1..], tenant);
    }
  }

  /** The books of one tenant alone hold that tenant's row, if it has one. */
  lemma OwnRows(h: Hashes, sheet: Sheet, w: Window, es: seq<Entry>, tenant: Chars)
    requires sheet.Valid()
    ensures InvoiceRows(h, sheet, w, Of(es, tenant))
         == if tenant in Tenants(es) then Single(RowFor(h, sheet, w, BooksOf(es), tenant)) else Some([])
  {
    var own := Of(es, tenant);
    TenantBooks(es, tenant);
    CoversKeys(own);
    if tenant in Tenants(es) {
      SingleKey(tenant);
      assert RowFor(h, sheet, w, BooksOf(own), tenant) == RowFor(h, sheet, w, BooksOf(es), tenant);
      var one := [tenant];
      assert one[1..] == [];
      JoinEmpty(Single(RowFor(h, sheet, w, BooksOf(own), tenant)));
      assert RowsFor(h, sheet, w, BooksOf(own), one) == Single(RowFor(h, sheet, w, BooksOf(own), tenant));
    }
  }

  lemma TenantRows(h: Hashes, sheet: Sheet, w: Window, es: seq<Entry>, tenant: Chars)
    requires sheet.Valid() && InvoiceRows(h, sheet, w, es).Some?
    ensures InvoiceRows(h, sheet, w, Of(es, tenant)) == Some(RowsOf(InvoiceRows(h, sheet, w, es).value, tenant))
  {
    OwnRows(h, sheet, w, es, tenant);
    CoversKeys(es);
    if tenant in Tenants(es) {
      RowsOfPresent(h, sheet, w, BooksOf(es), SortedKeys(Tenants(es)), tenant);
    } else {
      RowsOfAbsent(h, sheet, w, BooksOf(es), SortedKeys(Tenants(es)), tenant);
    }
  }

  lemma {:induction false} KeptIsPart(es: seq<Entry>, tenant: Option<Chars>, w: Window)
    ensures forall i :: 0 <= i < |Kept(es, tenant, w)| ==> Kept(es, tenant, w)[i] in es
  {
    if es != [] {
      KeptIsPart(es[1..], tenant, w);
    }
  }

  lemma {:induction false} OfHolds(es: seq<Entry>, e: Entry)
    requires e in es
    ensures e in Of(es, e.tenant)
  {
    if e != es[0] {
      OfHolds(es[1..], e);
    }
  }

  /** Sources can be digested for all tenants exactly when they can for each. */
  lemma NamedByTenant(es: seq<Entry>)
    ensures Named(es) <==> forall tenant :: Named(Of(es, tenant))
  {
    if Named(es) {
      forall tenant
        ensures Named(Of(es, tenant))
      {
        KeptIsPart(es, Some(tenant), ALWAYS);
      }
    }
    if forall tenant :: Named(Of(es, tenant)) {
      forall i | 0 <= i < |es|
        ensures Encodable(es[i].evidence.source)
      {
        OfHolds(es, es[i]);
        assert Named(Of(es, es[i].tenant));
      }
    }
  }

  /** What a tenant's own records must satisfy: their sources and the tenant can be encoded and the amounts
      do not have too many digits. */
  predicate Billable(sheet: Sheet, own: seq<Entry>, tenant: Chars)
    requires sheet.Valid()
  {
    own != [] ==>
      && Named(own) && Encodable(tenant)
      && ChargesFor(Total(own), sheet.rates, sheet.Discount(tenant)).Some?
  }

  lemma BillableIff(h: Hashes, sheet: Sheet, w: Window, es: seq<Entry>, tenant: Chars)
    requires sheet.Valid()
    ensures Billable(sheet, Of(es, tenant), tenant)
       <==> Named(Of(es, tenant)) && InvoiceRows(h, sheet, w, Of(es, tenant)).Some?
  {
    OwnRows(h, sheet, w, es, tenant);
    OfTenants(es, tenant);
    if tenant !in Tenants(es) {
      NoneKept(es, tenant);
    }
  }

  /** The lines of all sources are accepted, whatever the filters. */
  predicate Accepted(sources: seq<Source>, w: Window) {
    ValidRequest(sources, w) && AllEntries(Ordered(sources)).Some?
  }

  /** A tenant-filtered export succeeds exactly when all lines are accepted and that tenant is billable. */
  lemma TenantExportIff(h: Hashes, sources: seq<Source>, sheet: Sheet, tenant: Chars, w: Window)
    requires sheet.Valid()
    ensures Exported(h, sources, sheet, Some(tenant), w).Some?
       <==> Accepted(sources, w) && Billable(sheet, Kept(AllEntries(Ordered(sources)).value, Some(tenant), w), tenant)
  {
    if Accepted(sources, w) {
      var entries := AllEntries(Ordered(sources)).value;
      KeptTwice(entries, tenant, w);
      BillableIff(h, sheet, w, Kept(entries, None, w), tenant);
    }
  }

  lemma InvoiceWritten(h: Hashes, sheet: Sheet, w: Window, es: seq<Entry>)
    requires sheet.Valid()
    ensures InvoiceRows(h, sheet, w, es).Some? <==> forall tenant :: InvoiceRows(h, sheet, w, Of(es, tenant)).Some?
  {
    CoversKeys(es);
    var keys := SortedKeys(Tenants(es));
    RowsWritten(h, sheet, w, BooksOf(es), keys);
    forall tenant
      ensures InvoiceRows(h, sheet, w, Of(es, tenant)).Some? <==> Writable(h, sheet, w, es, tenant)
    {
      OwnRows(h, sheet, w, es, tenant);
    }
    forall i | 0 <= i < |keys|
      ensures Writable(h, sheet, w, es, keys[i]) <==> RowFor(h, sheet, w, BooksOf(es), keys[i]).Some?
    {
      assert keys[i] in keys;
    }
  }

  /** The tenant has no records here or can be given a row. */
  predicate Writable(h: Hashes, sheet: Sheet, w: Window, es: seq<Entry>, tenant: Chars)
    requires sheet.Valid()
  {
    tenant in Tenants(es) ==> RowFor(h, sheet, w, BooksOf(es), tenant).Some?
  }

  lemma OneExported(h: Hashes, sources: seq<Source>, sheet: Sheet, w: Window, tenant: Chars)
    requires sheet.Valid() && Accepted(sources, w)
    ensures var own := Of(Kept(AllEntries(Ordered(sources)).value, None, w), tenant);
            Exported(h, sources, sheet, Some(tenant), w).Some? <==>
              Named(own) && InvoiceRows(h, sheet, w, own).Some?
  {
    KeptTwice(AllEntries(Ordered(sources)).value, tenant, w);
  }

  /** The full export succeeds exactly when every tenant's export does. */
  lemma FullExportIff(h: Hashes, sources: seq<Source>, sheet: Sheet, w: Window)
    requires sheet.Valid()
    ensures Exported(h, sources, sheet, None, w).Some? <==> forall tenant :: Exported(h, sources, sheet,
                                                                                      Some(tenant), w).Some?
  {
    if Accepted(sources, w) {
      var entries := AllEntries(Ordered(sources)).value;
      var es := Kept(entries, None, w);
      NamedByTenant(es);
      InvoiceWritten(h, sheet, w, es);
      forall tenant
        ensures Exported(h, sources, sheet, Some(tenant), w).Some?
           <==> Named(Of(es, tenant)) && InvoiceRows(h, sheet, w, Of(es, tenant)).Some?
      {
        OneExported(h, sources, sheet, w, tenant);
      }
    } else {
      assert Exported(h, sources, sheet, Some([]), w).None?;
    }
  }

  /** When the full export succeeds, a tenant-filtered one is that tenant's row of it, digest and invoice id
      included. */
  lemma TenantExport(h: Hashes, sources: seq<Source>, sheet: Sheet, tenant: Chars, w: Window)
    requires sheet.Valid() && Exported(h, sources, sheet, None, w).Some?
    ensures Exported(h, sources, sheet, Some(tenant), w) == Some(RowsOf(Exported(h, sources, sheet, None, w).value,
                                                                        tenant))
  {
    var entries := AllEntries(Ordered(sources)).value;
    KeptTwice(entries, tenant, w);
    var es := Kept(entries, None, w);
    KeptIsPart(es, Some(tenant), ALWAYS);
    TenantRows(h, sheet, w, es, tenant);
  }

  // ----- what an exported row says

  /** The record counts for this tenant: it is the tenant's, not before the start and before the end. */
  predicate Counts(e: Entry, tenant: Chars, w: Window) {
    && e.tenant == tenant
    && (w.start.Some? ==> w.start.value <= e.ts) && (w.end.Some? ==> e.ts < w.end.value)
  }

  /** The tokens of all records that count. */
  function Billed(es: seq<Entry>, tenant: Chars, w: Window): Usage {
    if es == [] then NO_USAGE
    else if Counts(es[0], tenant, w) then Added(es[0].tokens, Billed(es[1..], tenant, w))
    else Billed(es[1..], tenant, w)
  }

  /** One more request with these tokens. */
  function Added(t: Tokens, u: Usage): Usage {
    Usage(u.requests + 1, u.uncached + t.uncached, u.cached + t.cached, u.output + t.completion)
  }

  lemma {:induction false} BilledIsTotal(es: seq<Entry>, tenant: Chars, w: Window)
    ensures Billed(es, tenant, w) == Total(Kept(es, Some(tenant), w))
  {
    if es != [] {
      BilledIsTotal(es[1..], tenant, w);
      var rest := Kept(es[1..], Some(tenant), w);
      if Selected(es[0], Some(tenant), w) {
        TotalCons(es[0], rest);
      } else {
        assert [] + rest == rest;
      }
    }
  }

  /** The discount the sheet gives the tenant, or none. */
  predicate IsDiscountOf(sheet: Sheet, tenant: Chars, d: Decimal) {
    if tenant in sheet.discounts then d == sheet.discounts[tenant] else d.coefficient == 0
  }

  /** What a row of this export says. */
  ghost predicate RowSays(h: Hashes, es: seq<Entry>, sheet: Sheet, w: Window, row: Row)
    requires sheet.Valid()
  {
    && row.usage == Billed(es, row.tenant, w) && row.usage.requests > 0
    && row.version == sheet.version && row.currency == sheet.currency && row.window == w && row.rates == sheet.rates
    && IsDiscountOf(sheet, row.tenant, row.discount) && AtMostOne(row.discount)
    && ChargesFor(row.usage, sheet.rates, row.discount) == Some(row.charges)
    && row.digest == h.digest(Trail(Kept(es, Some(row.tenant), w)))
    && row.id == h.identify(sheet.version, row.tenant, w, row.digest)
  }

  lemma {:induction false} TotalCounts(es: seq<Entry>)
    ensures Total(es).requests == |es|
  {
    if es != [] {
      TotalCounts(es[1..]);
    }
  }

  lemma RowForSays(h: Hashes, es: seq<Entry>, sheet: Sheet, w: Window, filter: Option<Chars>, tenant: Chars)
    requires sheet.Valid() && tenant in Tenants(Kept(es, filter, w))
    requires RowFor(h, sheet, w, BooksOf(Kept(es, filter, w)), tenant).Some?
    ensures RowSays(h, es, sheet, w, RowFor(h, sheet, w, BooksOf(Kept(es, filter, w)), tenant).value)
  {
    var kept := Kept(es, filter, w);
    OwnKept(es, filter, tenant, w);
    BilledIsTotal(es, tenant, w);
    OfTenants(kept, tenant);
    TotalCounts(Of(kept, tenant));
  }

  /** Selecting first for the filter and then for one of its tenants selects for that tenant. */
  lemma OwnKept(es: seq<Entry>, filter: Option<Chars>, tenant: Chars, w: Window)
    requires tenant in Tenants(Kept(es, filter, w))
    ensures Of(Kept(es, filter, w), tenant) == Kept(es, Some(tenant), w)
  {
    KeptTwice(es, tenant, w);
    if filter.Some? {
      KeptTwice(es, filter.value, w);
      OfTenants(Kept(es, None, w), filter.value);
      var i :| 0 <= i < |Kept(es, filter, w)| && Kept(es, filter, w)[i].tenant == tenant;
      TenantBooks(Kept(es, None, w), tenant);
    }
  }

  predicate Increasing(rows: seq<Row>) {
    forall i, j :: 0 <= i < j < |rows| ==> CharsBelow(rows[i].tenant, rows[j].tenant)
  }

  lemma {:induction false} RowTenants(h: Hashes, sheet: Sheet, w: Window, books: Books, tenants: seq<Chars>)
    requires sheet.Valid() && Covers(books, tenants) && RowsFor(h, sheet, w, books, tenants).Some?
    ensures var rows := RowsFor(h, sheet, w, books, tenants).value;
            && |rows| == |tenants| && forall i :: 0 <= i < |rows| ==>
                 rows[i].tenant == tenants[i] && RowFor(h, sheet, w, books, tenants[i]) == Some(rows[i])
  {
    if tenants != [] {
      RowTenants(h, sheet, w, books, tenants[1..]);
      assert tenants == [tenants[0]] + tenants[1..];
    }
  }

  lemma RowsSay(h: Hashes, es: seq<Entry>, sheet: Sheet, filter: Option<Chars>, w: Window)
    requires sheet.Valid()
    requires var kept := Kept(es, filter, w);
             Covers(BooksOf(kept), SortedKeys(Tenants(kept))) &&
             RowsFor(h, sheet, w, BooksOf(kept), SortedKeys(Tenants(kept))).Some?
    ensures var kept := Kept(es, filter, w);
            var rows := RowsFor(h, sheet, w, BooksOf(kept), SortedKeys(Tenants(kept))).value;
            Increasing(rows) && forall i :: 0 <= i < |rows| ==> RowSays(h, es, sheet, w, rows[i])
  {
    var kept := Kept(es, filter, w);
    var keys := SortedKeys(Tenants(kept));
    var rows := RowsFor(h, sheet, w, BooksOf(kept), keys).value;
    RowTenants(h, sheet, w, BooksOf(kept), keys);
    forall i | 0 <= i < |rows|
      ensures RowSays(h, es, sheet, w, rows[i])
    {
      assert keys[i] in keys;
      RowForSays(h, es, sheet, w, filter, keys[i]);
    }
  }

  lemma BilledTenants(es: seq<Entry>, filter: Option<Chars>, tenant: Chars, w: Window)
    ensures (filter.Some? ==> tenant == filter.value) && Billed(es, tenant, w).requests > 0 <==>
              tenant in Tenants(Kept(es, filter, w))
  {
    var kept, own := Kept(es, filter, w), Kept(es, Some(tenant), w);
    BilledIsTotal(es, tenant, w);
    TotalCounts(own);
    KeptTwice(es, tenant, w);
    OfTenants(Kept(es, None, w), tenant);
    if tenant in Tenants(kept) {
      OwnKept(es, filter, tenant, w);
      OfTenants(kept, tenant);
      if filter.Some? {
        KeptTwice(es, filter.value, w);
        OfTenants(Kept(es, None, w), filter.value);
      }
    } else {
      NoneKept(kept, tenant);
      if filter == None {
        assert own == [];
      }
    }
  }

  lemma RowsCover(h: Hashes, es: seq<Entry>, sheet: Sheet, filter: Option<Chars>, w: Window)
    requires sheet.Valid()
    requires var kept := Kept(es, filter, w);
             Covers(BooksOf(kept), SortedKeys(Tenants(kept))) &&
             RowsFor(h, sheet, w, BooksOf(kept), SortedKeys(Tenants(kept))).Some?
    ensures var kept := Kept(es, filter, w);
            var rows := RowsFor(h, sheet, w, BooksOf(kept), SortedKeys(Tenants(kept))).value;
            forall tenant :: (filter.Some? ==> tenant == filter.value) && Billed(es, tenant, w).requests > 0 <==>
              exists i :: 0 <= i < |rows| && rows[i].tenant == tenant
  {
    var kept := Kept(es, filter, w);
    var keys := SortedKeys(Tenants(kept));
    var rows := RowsFor(h, sheet, w, BooksOf(kept), keys).value;
    RowTenants(h, sheet, w, BooksOf(kept), keys);
    forall tenant
      ensures (filter.Some? ==> tenant == filter.value) && Billed(es, tenant, w).requests > 0 <==>
                exists i :: 0 <= i < |rows| && rows[i].tenant == tenant
    {
      BilledTenants(es, filter, tenant, w);
      if tenant in keys {
        var i :| 0 <= i < |keys| && keys[i] == tenant;
        assert rows[i].tenant == tenant;
      }
    }
  }

  /** An export has one row for every tenant that has a record that counts, in increasing order, and each row
      says that tenant's usage, discount, charges and evidence. */
  lemma ExportedRows(h: Hashes, sources: seq<Source>, sheet: Sheet, filter: Option<Chars>, w: Window)
    requires sheet.Valid() && Exported(h, sources, sheet, filter, w).Some?
    ensures AllEntries(Ordered(sources)).Some?
    ensures var rows, es := Exported(h, sources, sheet, filter, w).value, AllEntries(Ordered(sources)).value;
            && Increasing(rows) && (forall i :: 0 <= i < |rows| ==> RowSays(h, es, sheet, w, rows[i]))
            && (forall tenant :: (filter.Some? ==> tenant == filter.value) && Billed(es, tenant, w).requests > 0 <==>
                  exists i :: 0 <= i < |rows| && rows[i].tenant == tenant)
  {
    var es := AllEntries(Ordered(sources)).value;
    RowsSay(h, es, sheet, filter, w);
    RowsCover(h, es, sheet, filter, w);
  }

  // ----- one tenant keeps all others from a full export

  /** A ledger of two records. */
  function TwoRecords(name: Chars, a: Record, b: Record): Source {
    Source(name, None, [Line([], Object(a)), Line([], Object(b))], true)
  }

  function EntryAt(name: Chars, r: Record, line: nat): Option<Entry> {
    RecordUsage(r, Evidence(name, line, []))
  }

  lemma TwoEntries(name: Chars, a: Record, b: Record)
    requires name != [] && EntryAt(name, a, 1).Some? && EntryAt(name, b, 2).Some?
    ensures Accepted([TwoRecords(name, a, b)], ALWAYS)
    ensures AllEntries(Ordered([TwoRecords(name, a, b)])) == Some([EntryAt(name, a, 1).value,
                                                                   EntryAt(name, b, 2).value])
  {
    var source := TwoRecords(name, a, b);
    var x, y := EntryAt(name, a, 1).value, EntryAt(name, b, 2).value;
    assert EntriesFrom(source, 2) == Some([]);
    assert LineEntries(source, 1) == Some([y]) && [y] + [] == [y];
    assert EntriesFrom(source, 1) == Some([y]);
    assert LineEntries(source, 0) == Some([x]) && [x] + [y] == [x, y];
    assert EntriesFrom(source, 0) == Some([x, y]);
    var sources := [source];
    assert sources[1..] == [] && SortBy(ByName, sources[1..]) == [];
    assert Ordered(sources) == sources;
    assert AllEntries(sources[1..]) == Some([]) && [x, y] + [] == [x, y];
  }

  lemma TwoKept(x: Entry, y: Entry)
    requires x.tenant != y.tenant
    ensures Kept([x, y], Some(x.tenant), ALWAYS) == [x] && Kept([x, y], Some(y.tenant), ALWAYS) == [y]
  {
    assert [x, y][1..] == [y];
    OneKept(y, Some(x.tenant), ALWAYS);
    OneKept(y, Some(y.tenant), ALWAYS);
  }

  /** If the first of two tenants cannot be billed and the second can, only the second's export succeeds. */
  lemma OnlyFiltered(h: Hashes, sheet: Sheet, name: Chars, a: Record, b: Record)
    requires sheet.Valid() && name != [] && EntryAt(name, a, 1).Some? && EntryAt(name, b, 2).Some?
    requires var x, y := EntryAt(name, a, 1).value, EntryAt(name, b, 2).value;
             x.tenant != y.tenant && !Billable(sheet, [x], x.tenant) && Billable(sheet, [y], y.tenant)
    ensures var sources := [TwoRecords(name, a, b)];
            && Accepted(sources, ALWAYS) && Exported(h, sources, sheet, None, ALWAYS) == None
            && Exported(h, sources, sheet, Some(b.tenant.value), ALWAYS).Some?
  {
    var sources, x, y := [TwoRecords(name, a, b)], EntryAt(name, a, 1).value, EntryAt(name, b, 2).value;
    TwoEntries(name, a, b);
    TwoKept(x, y);
    TenantExportIff(h, sources, sheet, x.tenant, ALWAYS);
    TenantExportIff(h, sources, sheet, y.tenant, ALWAYS);
    FullExportIff(h, sources, sheet, ALWAYS);
  }

  /** A request of a tenant for so many output tokens. */
  function Answer(tenant: Chars, completion: nat): Record {
    Record(Text(tenant), Text([0x6D]), Finite(0.0), Integer(0), Absent, Absent, Integer(completion))
  }

  lemma AnswerEntry(name: Chars, tenant: Chars, completion: nat, line: nat)
    requires tenant != []
    ensures EntryAt(name, Answer(tenant, completion), line)
         == Some(Entry(tenant, 0.0, Tokens(0, 0, 0, completion), Evidence(name, line, [])))
    ensures Total([EntryAt(name, Answer(tenant, completion), line).value]) == Usage(1, 0, 0, completion)
  {
    TotalOne([EntryAt(name, Answer(tenant, completion), line).value]);
  }

  /** An idle tenant with an encodable name can always be billed. */
  lemma IdleIsBillable(sheet: Sheet, name: Chars, tenant: Chars)
    requires sheet.Valid() && Encodable(name) && Encodable(tenant) && tenant != []
    ensures Billable(sheet, [EntryAt(name, Answer(tenant, 0), 2).value], tenant)
  {
    AnswerEntry(name, tenant, 0, 2);
    NothingDue(Usage(1, 0, 0, 0), sheet.rates, sheet.Discount(tenant), 0);
  }

  /** A tenant whose name has no encoding keeps every sheet's full export from succeeding ... */
  lemma UnnamedTenantBlocks(h: Hashes, sheet: Sheet, name: Chars, unnamed: Chars, other: Chars)
    requires sheet.Valid() && name != [] && Encodable(name) && other != [] && Encodable(other) && !Encodable(unnamed)
    ensures var sources := [TwoRecords(name, Answer(unnamed, 0), Answer(other, 0))];
            && Accepted(sources, ALWAYS) && Exported(h, sources, sheet, None, ALWAYS) == None
            && Exported(h, sources, sheet, Some(other), ALWAYS).Some?
  {
    AnswerEntry(name, unnamed, 0, 1);
    AnswerEntry(name, other, 0, 2);
    IdleIsBillable(sheet, name, other);
    OnlyFiltered(h, sheet, name, Answer(unnamed, 0), Answer(other, 0));
  }

  /** ... and so does one with 10^28 tokens at one quantum each. */
  lemma HugeTenantBlocks(h: Hashes, sheet: Sheet, name: Chars, huge: Chars, other: Chars)
    requires sheet.Valid() && sheet.rates.output == Decimal(1, 0) && name != [] && Encodable(name)
    requires huge != [] && other != [] && Encodable(other) && huge != other
    ensures var sources := [TwoRecords(name, Answer(huge, LIMIT), Answer(other, 0))];
            && Accepted(sources, ALWAYS) && Exported(h, sources, sheet, None, ALWAYS) == None
            && Exported(h, sources, sheet, Some(other), ALWAYS).Some?
  {
    AnswerEntry(name, huge, LIMIT, 1);
    AnswerEntry(name, other, 0, 2);
    HugeUsageIsRefused(Usage(1, 0, 0, LIMIT), sheet.rates, sheet.Discount(huge));
    IdleIsBillable(sheet, name, other);
    OnlyFiltered(h, sheet, name, Answer(huge, LIMIT), Answer(other, 0));
  }

  function Balance(books: Books, tenant: Chars): Usage {
    if tenant in books.totals then books.totals[tenant] else NO_USAGE
  }

  lemma WindowsPartition(e: Entry, tenant: Chars, start: Option<real>, middle: real, end: Option<real>)
    requires (start.Some? ==> start.value <= middle) && (end.Some? ==> middle <= end.value)
    ensures var early, late := Window(start, Some(middle)), Window(Some(middle), end);
            && (Counts(e, tenant, Window(start, end)) <==> Counts(e, tenant, early) || Counts(e, tenant, late))
            && !(Counts(e, tenant, early) && Counts(e, tenant, late))
  {
  }

  lemma {:induction false} WindowsSplit(es: seq<Entry>, tenant: Chars, start: Option<real>, middle: real,
                                        end: Option<real>)
    requires (start.Some? ==> start.value <= middle) && (end.Some? ==> middle <= end.value)
    ensures Billed(es, tenant, Window(start, end))
         == Billed(es, tenant, Window(start, Some(middle))).Plus(Billed(es, tenant, Window(Some(middle), end)))
  {
    var early, late := Window(start, Some(middle)), Window(Some(middle), end);
    if es == [] {
      PlusLaws(NO_USAGE, NO_USAGE, NO_USAGE);
    } else {
      WindowsSplit(es[1..], tenant, start, middle, end);
      WindowsPartition(es[0], tenant, start, middle, end);
      SplitStep(Counts(es[0], tenant, early), Counts(es[0], tenant, late), es[0].tokens,
                Billed(es[1..], tenant, early), Billed(es[1..], tenant, late));
    }
  }

  lemma SplitStep(inEarly: bool, inLate: bool, one: Tokens, early: Usage, late: Usage)
    requires !(inEarly && inLate)
    ensures (if inEarly || inLate then Added(one, early.Plus(late)) else early.Plus(late))
         == (if inEarly then Added(one, early) else early).Plus(if inLate then Added(one, late) else late)
  {
  }

  lemma TotalCons(e: Entry, es: seq<Entry>)
    ensures Total([e] + es) == UsageOf(e.tokens).Plus(Total(es))
  {
    assert ([e] + es)[1..] == es;
  }

  /** Adjacent billing windows add up field by field, for every tenant. */
  lemma WindowsAdd(es: seq<Entry>, tenant: Chars, start: Option<real>, middle: real, end: Option<real>)
    requires (start.Some? ==> start.value <= middle) && (end.Some? ==> middle <= end.value)
    ensures Balance(BooksOf(Kept(es, None, Window(start, end))), tenant)
         == Balance(BooksOf(Kept(es, None, Window(start, Some(middle)))), tenant)
            .Plus(Balance(BooksOf(Kept(es, None, Window(Some(middle), end))), tenant))
  {
    BalanceIs(es, tenant, Window(start, end));
    BalanceIs(es, tenant, Window(start, Some(middle)));
    BalanceIs(es, tenant, Window(Some(middle), end));
    WindowsSplit(es, tenant, start, middle, end);
  }

  lemma BalanceIs(es: seq<Entry>, tenant: Chars, w: Window)
    ensures Balance(BooksOf(Kept(es, None, w)), tenant) == Billed(es, tenant, w)
  {
    BilledIsTotal(es, tenant, w);
    KeptTwice(es, tenant, w);
    BalanceOf(Kept(es, None, w), tenant);
  }

  predicate DistinctNames(sources: seq<Source>) {
    forall i, j :: 0 <= i < j < |sources| ==> sources[i].name != sources[j].name
  }

  lemma OrderedAlike(sources: seq<Source>, other: seq<Source>)
    requires multiset(sources) == multiset(other) && DistinctNames(sources)
    ensures Ordered(sources) == Ordered(other)
  {
    ByNameIsPreorder();
    SortBySorts(ByName, sources);
    SortBySorts(ByName, other);
    forall a, b | a in multiset(sources) && b in multiset(sources) && ByName(a, b) && ByName(b, a)
      ensures a == b
    {
      CharsBelowTrichotomy(a.name, b.name);
      assert a in sources && b in sources;
    }
    assert multiset(Ordered(sources)) == multiset(sources);
    SortedIsUnique(ByName, Ordered(sources), Ordered(other));
  }

  lemma ValidAlike(sources: seq<Source>, other: seq<Source>, w: Window)
    requires multiset(sources) == multiset(other) && ValidRequest(sources, w)
    ensures ValidRequest(other, w)
  {
    SameMultisetSameLength(sources, other);
    forall i | 0 <= i < |other|
      ensures other[i].name != []
    {
      assert other[i] in multiset(sources);
    }
    forall i, j | 0 <= i < j < |other| && other[i].path.Some?
      ensures other[i].path != other[j].path
    {
      var k, l := TwoPlaces(other, sources, i, j);
    }
  }

  /** The order in which the sources are named does not matter: every export is the same, or the same
      refusal. */
  lemma SourceOrderIsImmaterial(h: Hashes, sources: seq<Source>, other: seq<Source>, sheet: Sheet,
                                tenant: Option<Chars>, w: Window)
    requires sheet.Valid()
    requires multiset(sources) == multiset(other) && DistinctNames(sources)
    ensures Exported(h, sources, sheet, tenant, w) == Exported(h, other, sheet, tenant, w)
  {
    OrderedAlike(sources, other);
    if ValidRequest(sources, w) {
      ValidAlike(sources, other, w);
    }
    if ValidRequest(other, w) {
      ValidAlike(other, sources, w);
    }
  }
}
