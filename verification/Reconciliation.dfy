/**
 The independent usage aggregation and the reconciliation report (kairyu/usage_reconciliation.py).

 Ledger lines are those of `Ledger`, as this reader decodes them; request log lines carry a gateway, an
 event id and a metered flag around the same usage fields.
 */
module Reconciliation {
  import opened Ledger
  import opened Options
  import opened Reals
  import opened Sorting
  import opened Utf8

  datatype Bucket = Bucket(requests: nat, prompt: nat, uncached: nat, cached: nat, completion: nat) {
    function Plus(other: Bucket): Bucket {
      Bucket(requests + other.requests, prompt + other.prompt, uncached + other.uncached, cached + other.cached,
             completion + other.completion)
    }
  }

  const EMPTY := Bucket(0, 0, 0, 0, 0)

  datatype Metered = Metered(tenant: Chars, tokens: Tokens)

  type Totals = map<Chars, Bucket>

  // ----- per-tenant totals of a sequence of metered records

  function BucketOf(t: Tokens): Bucket {
    Bucket(1, t.prompt, t.uncached, t.cached, t.completion)
  }

  function BucketIn(ms: seq<Metered>, tenant: Chars): Bucket {
    if ms == [] then EMPTY
    else if ms[0].tenant == tenant then BucketOf(ms[0].tokens).Plus(BucketIn(ms[1..], tenant))
    else BucketIn(ms[1..], tenant)
  }

  function MeteredTenants(ms: seq<Metered>): (r: set<Chars>)
    ensures forall t :: t in r <==> exists i :: 0 <= i < |ms| && ms[i].tenant == t
  {
    set i | 0 <= i < |ms| :: ms[i].tenant
  }

  function TotalsOf(ms: seq<Metered>): (r: Totals)
    ensures r.Keys == MeteredTenants(ms)
  {
    map t | t in MeteredTenants(ms) :: BucketIn(ms, t)
  }

  function Get(totals: Totals, tenant: Chars): Bucket {
    if tenant in totals then totals[tenant] else EMPTY
  }

  /** `_add`. */
  function Added(totals: Totals, m: Metered): Totals {
    totals[m.tenant := Get(totals, m.tenant).Plus(BucketOf(m.tokens))]
  }

  lemma BucketLaws(a: Bucket, b: Bucket, c: Bucket)
    ensures EMPTY.Plus(a) == a == a.Plus(EMPTY)
    ensures a.Plus(b).Plus(c) == a.Plus(b.Plus(c)) == b.Plus(a.Plus(c))
    ensures a.Plus(b) == b.Plus(a)
  {
  }

  lemma {:induction false} BucketAppend(ms: seq<Metered>, ns: seq<Metered>, tenant: Chars)
    ensures BucketIn(ms + ns, tenant) == BucketIn(ms, tenant).Plus(BucketIn(ns, tenant))
  {
    if ms == [] {
      assert ms + ns == ns;
      BucketLaws(BucketIn(ns, tenant), EMPTY, EMPTY);
    } else {
      assert (ms + ns)[1..] == ms[1..] + ns;
      BucketAppend(ms[1..], ns, tenant);
      BucketLaws(BucketOf(ms[0].tokens), BucketIn(ms[1..], tenant), BucketIn(ns, tenant));
    }
  }

  lemma BucketCons(m: Metered, ms: seq<Metered>, tenant: Chars)
    ensures BucketIn([m] + ms, tenant)
         == if m.tenant == tenant then BucketOf(m.tokens).Plus(BucketIn(ms, tenant)) else BucketIn(ms, tenant)
  {
    assert ([m] + ms)[1..] == ms;
  }

  lemma BucketSnoc(ms: seq<Metered>, m: Metered, tenant: Chars)
    ensures BucketIn(ms + [m], tenant)
         == if m.tenant == tenant then BucketIn(ms, tenant).Plus(BucketOf(m.tokens)) else BucketIn(ms, tenant)
  {
    var none: seq<Metered> := [];
    assert [m] + none == [m];
    BucketAppend(ms, [m] + none, tenant);
    BucketCons(m, none, tenant);
    BucketLaws(BucketOf(m.tokens), BucketIn(ms, tenant), EMPTY);
    BucketLaws(BucketIn(ms, tenant), EMPTY, EMPTY);
  }

  lemma {:induction false} AbsentIsEmpty(ms: seq<Metered>, tenant: Chars)
    requires tenant !in MeteredTenants(ms)
    ensures BucketIn(ms, tenant) == EMPTY
  {
    if ms != [] {
      assert ms[0].tenant in MeteredTenants(ms);
      assert forall i :: 0 <= i < |ms[1..]| ==> ms[1..][i] == ms[i + 1];
      AbsentIsEmpty(ms[1..], tenant);
    }
  }

  lemma GetIsBucket(ms: seq<Metered>, tenant: Chars)
    ensures Get(TotalsOf(ms), tenant) == BucketIn(ms, tenant)
  {
    if tenant !in MeteredTenants(ms) {
      AbsentIsEmpty(ms, tenant);
    }
  }

  lemma TenantsSnoc(ms: seq<Metered>, m: Metered)
    ensures MeteredTenants(ms + [m]) == MeteredTenants(ms) + {m.tenant}
  {
    var all := ms + [m];
    forall t
      ensures t in MeteredTenants(all) <==> t in MeteredTenants(ms) || t == m.tenant
    {
      if t in MeteredTenants(ms) {
        var i :| 0 <= i < |ms| && ms[i].tenant == t;
        assert all[i].tenant == t;
      }
      assert all[|ms|].tenant == m.tenant;
    }
  }

  lemma AddedIsExact(ms: seq<Metered>, m: Metered)
    ensures Added(TotalsOf(ms), m) == TotalsOf(ms + [m])
  {
    TenantsSnoc(ms, m);
    var before := TotalsOf(ms);
    var added, totals := Added(before, m), TotalsOf(ms + [m]);
    assert added.Keys == totals.Keys;
    forall t | t in totals
      ensures added[t] == totals[t]
    {
      BucketSnoc(ms, m, t);
      GetIsBucket(ms, t);
    }
    SameMap(added, totals);
  }

  // ----- gateway ledgers

  /** `_usage_values`. */
  function UsageValues(r: Record): Option<Metered> {
    if NonEmpty(r.tenant) && TokensOf(r).Some? then Some(Metered(r.tenant.value, TokensOf(r).value)) else None
  }

  function LineMeters(line: Line): Option<seq<Metered>> {
    match line.content
    case Blank => Some([])
    case NotObject => None
    case Object(record) => var m := UsageValues(record); if m.Some? then Some([m.value]) else None
  }

  function MetersFrom(source: Source, number: nat): Option<seq<Metered>>
    requires number <= |source.lines|
    decreases |source.lines| - number
  {
    if number == |source.lines| then Some([])
    else Join(LineMeters(source.lines[number]), MetersFrom(source, number + 1))
  }

  function AllMeters(sources: seq<Source>): Option<seq<Metered>> {
    if sources == [] then Some([]) else Join(MetersFrom(sources[0], 0), AllMeters(sources[1..]))
  }

  predicate ValidLedgers(ledgers: seq<Source>) {
    && ledgers != []
    && (forall i :: 0 <= i < |ledgers| ==> ledgers[i].name != [])
    && DistinctPaths(ledgers)
  }

  /** The records a set of ledgers meters, if they can be aggregated at all. */
  function LedgerMeters(ledgers: seq<Source>): Option<seq<Metered>> {
    if ValidLedgers(ledgers) then AllMeters(Ordered(ledgers)) else None
  }

  method ReadLedger(source: Source, before: Totals, ghost seen: seq<Metered>) returns (r: Option<Totals>)
    requires before == TotalsOf(seen)
    ensures r.Some? <==> MetersFrom(source, 0).Some?
    ensures r.Some? ==> r.value == TotalsOf(seen + MetersFrom(source, 0).value)
  {
    var totals := before;
    ghost var read: seq<Metered> := [];
    JoinEmpty(MetersFrom(source, 0));
    assert seen + read == seen;
    for number := 0 to |source.lines|
      invariant totals == TotalsOf(seen + read)
      invariant MetersFrom(source, 0) == Join(Some(read), MetersFrom(source, number))
    {
      var line := source.lines[number];
      JoinEmpty(MetersFrom(source, number + 1));
      if line.content.Object? {
        var m := UsageValues(line.content.record);
        if m.None? {
          return None;
        }
        AddedIsExact(seen + read, m.value);
        JoinAssociative(Some(read), Some([m.value]), MetersFrom(source, number + 1));
        totals := Added(totals, m.value);
        assert seen + (read + [m.value]) == seen + read + [m.value];
        read := read + [m.value];
      } else if line.content.NotObject? {
        return None;
      }
    }
    JoinEmpty(Some(read));
    return Some(totals);
  }

  /** `aggregate_gateway_ledgers`. */
  method AggregateLedgers(ledgers: seq<Source>) returns (r: Option<Totals>)
    ensures r == if LedgerMeters(ledgers).Some? then Some(TotalsOf(LedgerMeters(ledgers).value)) else None
  {
    if !ValidLedgers(ledgers) {
      return None;
    }
    var ordered := SortBy(ByName, ledgers);
    var totals: Totals := map[];
    ghost var seen: seq<Metered> := [];
    assert MeteredTenants([]) == {};
    JoinEmpty(AllMeters(ordered));
    for i := 0 to |ordered|
      invariant totals == TotalsOf(seen)
      invariant AllMeters(ordered) == Join(Some(seen), AllMeters(ordered[i..]))
    {
      assert ordered[i..][1..] == ordered[i + 1..];
      JoinAssociative(Some(seen), MetersFrom(ordered[i], 0), AllMeters(ordered[i + 1..]));
      var after := ReadLedger(ordered[i], totals, seen);
      if after.None? {
        return None;
      }
      totals := after.value;
      seen := seen + MetersFrom(ordered[i], 0).value;
    }
    JoinEmpty(Some(seen));
    return Some(totals);
  }

  // ----- request logs

  datatype Flag = NotBoolean | Flag(value: bool)

  datatype RequestLine = BlankLine | BadLine | Request(gateway: Text, eventId: Text, metered: Flag, usage: Record)

  predicate ValidEvent(line: RequestLine) {
    && line.Request?
    && NonEmpty(line.gateway) && NonEmpty(line.eventId)
    && line.metered.Flag?
    && (line.metered.value ==> UsageValues(line.usage).Some?)
  }

  function EventKey(line: RequestLine): (Chars, Chars)
    requires ValidEvent(line)
  {
    (line.gateway.value, line.eventId.value)
  }

  /** Every line is blank or a valid event, and no event occurs twice. */
  predicate AcceptedLog(lines: seq<RequestLine>) {
    && (forall i :: 0 <= i < |lines| ==> lines[i].BlankLine? || ValidEvent(lines[i]))
    && (forall i, j :: 0 <= i < j < |lines| && ValidEvent(lines[i]) && ValidEvent(lines[j])
          ==> EventKey(lines[i]) != EventKey(lines[j]))
  }

  function EventMeters(line: RequestLine): seq<Metered> {
    if ValidEvent(line) && line.metered.value then [UsageValues(line.usage).value] else []
  }

  function LogMeters(lines: seq<RequestLine>): seq<Metered> {
    if lines == [] then [] else EventMeters(lines[0]) + LogMeters(lines[1..])
  }

  function EventKeys(lines: seq<RequestLine>): set<(Chars, Chars)> {
    set i | 0 <= i < |lines| && ValidEvent(lines[i]) :: EventKey(lines[i])
  }

  lemma {:induction false} LogMetersAppend(a: seq<RequestLine>, b: seq<RequestLine>)
    ensures LogMeters(a + b) == LogMeters(a) + LogMeters(b)
  {
    if a == [] {
      assert a + b == b;
    } else {
      assert (a + b)[1..] == a[1..] + b;
      LogMetersAppend(a[1..], b);
    }
  }

  lemma LogMetersSnoc(lines: seq<RequestLine>, line: RequestLine)
    ensures LogMeters(lines + [line]) == LogMeters(lines) + EventMeters(line)
  {
    var one := [line];
    LogMetersAppend(lines, one);
    assert one[1..] == [];
    assert LogMeters(one) == EventMeters(line);
  }

  lemma AcceptedSnoc(lines: seq<RequestLine>, line: RequestLine)
    requires AcceptedLog(lines)
    ensures AcceptedLog(lines + [line])
       <==> line.BlankLine? || (ValidEvent(line) && EventKey(line) !in EventKeys(lines))
  {
    var all := lines + [line];
    assert all[|lines|] == line;
    assert forall i :: 0 <= i < |lines| ==> all[i] == lines[i];
    if ValidEvent(line) && EventKey(line) in EventKeys(lines) {
      var i :| 0 <= i < |lines| && ValidEvent(lines[i]) && EventKey(lines[i]) == EventKey(line);
      assert all[i] == lines[i];
    }
  }

  lemma KeysSnoc(lines: seq<RequestLine>, line: RequestLine)
    ensures EventKeys(lines + [line]) == EventKeys(lines) + if ValidEvent(line) then {EventKey(line)} else {}
  {
    var all := lines + [line];
    forall key
      ensures key in EventKeys(all) <==> key in EventKeys(lines) || (ValidEvent(line) && key == EventKey(line))
    {
      if key in EventKeys(lines) {
        var i :| 0 <= i < |lines| && ValidEvent(lines[i]) && EventKey(lines[i]) == key;
        assert all[i] == lines[i];
      }
      assert all[|lines|] == line;
    }
  }

  lemma RefusedPrefix(lines: seq<RequestLine>, more: seq<RequestLine>)
    requires !AcceptedLog(lines)
    ensures !AcceptedLog(lines + more)
  {
    var all := lines + more;
    assert forall i :: 0 <= i < |lines| ==> all[i] == lines[i];
  }

  datatype LogState = LogState(totals: Totals, events: set<(Chars, Chars)>)

  function LogStateOf(lines: seq<RequestLine>): LogState {
    LogState(TotalsOf(LogMeters(lines)), EventKeys(lines))
  }

  /** The body of the loop over log lines. */
  method ReadEvent(before: LogState, line: RequestLine, ghost lines: seq<RequestLine>) returns (r: Option<LogState>)
    requires AcceptedLog(lines) && before == LogStateOf(lines)
    ensures r.Some? <==> AcceptedLog(lines + [line])
    ensures r.Some? ==> r.value == LogStateOf(lines + [line])
  {
    AcceptedSnoc(lines, line);
    KeysSnoc(lines, line);
    LogMetersSnoc(lines, line);
    if line.BlankLine? {
      assert LogMeters(lines) + [] == LogMeters(lines);
      return Some(before);
    }
    if !ValidEvent(line) || EventKey(line) in before.events {
      return None;
    }
    var events := before.events + {EventKey(line)};
    if !line.metered.value {
      assert LogMeters(lines) + [] == LogMeters(lines);
      return Some(LogState(before.totals, events));
    }
    var m := UsageValues(line.usage).value;
    AddedIsExact(LogMeters(lines), m);
    return Some(LogState(Added(before.totals, m), events));
  }

  method ReadLog(before: LogState, log: seq<RequestLine>, ghost lines: seq<RequestLine>) returns (r: Option<LogState>)
    requires AcceptedLog(lines) && before == LogStateOf(lines)
    ensures r.Some? <==> AcceptedLog(lines + log)
    ensures r.Some? ==> r.value == LogStateOf(lines + log)
  {
    var state := before;
    ghost var read := lines;
    for k := 0 to |log|
      invariant read == lines + log[..k]
      invariant AcceptedLog(read) && state == LogStateOf(read)
    {
      var after := ReadEvent(state, log[k], read);
      NextLine(lines, log, k);
      if after.None? {
        RefusedPrefix(read + [log[k]], log[k + 1..]);
        return None;
      }
      state := after.value;
      read := read + [log[k]];
    }
    assert log[..|log|] == log;
    return Some(state);
  }

  lemma NextLine(lines: seq<RequestLine>, log: seq<RequestLine>, k: nat)
    requires k < |log|
    ensures lines + log[..k] + [log[k]] == lines + log[..k + 1]
    ensures lines + log[..k] + [log[k]] + log[k + 1..] == lines + log
  {
  }

  function Concat(logs: seq<seq<RequestLine>>): seq<RequestLine> {
    if logs == [] then [] else logs[0] + Concat(logs[1..])
  }

  /** The records the request logs meter, if they can be aggregated at all. */
  function RequestMeters(logs: seq<seq<RequestLine>>): Option<seq<Metered>> {
    if logs != [] && AcceptedLog(Concat(logs)) then Some(LogMeters(Concat(logs))) else None
  }

  /** `aggregate_request_logs`. */
  method AggregateRequests(logs: seq<seq<RequestLine>>) returns (r: Option<Totals>)
    ensures r == if RequestMeters(logs).Some? then Some(TotalsOf(RequestMeters(logs).value)) else None
  {
    if logs == [] {
      return None;
    }
    ghost var read: seq<RequestLine> := [];
    var state := LogState(map[], {});
    assert MeteredTenants([]) == {} && EventKeys([]) == {};
    for i := 0 to |logs|
      invariant AcceptedLog(read) && state == LogStateOf(read)
      invariant Concat(logs) == read + Concat(logs[i..])
    {
      assert logs[i..][1..] == logs[i + 1..];
      assert read + (logs[i] + Concat(logs[i + 1..])) == (read + logs[i]) + Concat(logs[i + 1..]);
      var after := ReadLog(state, logs[i], read);
      if after.None? {
        RefusedPrefix(read + logs[i], Concat(logs[i + 1..]));
        return None;
      }
      state := after.value;
      read := read + logs[i];
    }
    assert logs[|logs|..] == [];
    assert Concat(logs) == read;
    return Some(state.totals);
  }

  // ----- the report

  /** `_relative_error_percent`. */
  function RelativeError(expected: nat, actual: nat): real {
    if expected == 0 then (if actual == 0 then 0.0 else 100.0)
    else (if actual >= expected then actual - expected else expected - actual) as real / expected as real * 100.0
  }

  lemma RelativeErrorZero(expected: nat, actual: nat)
    ensures RelativeError(expected, actual) >= 0.0
    ensures RelativeError(expected, actual) == 0.0 <==> expected == actual
  {
    if expected > 0 {
      var gap := (if actual >= expected then actual - expected else expected - actual) as real;
      QuotientNonNegative(gap, expected as real);
      QuotientTimes(gap, expected as real);
    }
  }

  function Gap(expected: nat, actual: nat): nat {
    if actual >= expected then actual - expected else expected - actual
  }

  /** The deviation is less than `threshold` percent of what is expected; where nothing is expected, anything
      else counts as 100 percent. */
  predicate Tolerable(expected: nat, actual: nat, threshold: real) {
    if expected == 0 then actual == 0 || 100.0 < threshold
    else 100.0 * Gap(expected, actual) as real < threshold * expected as real
  }

  lemma ErrorBelow(expected: nat, actual: nat, threshold: real)
    requires threshold > 0.0
    ensures RelativeError(expected, actual) < threshold <==> Tolerable(expected, actual, threshold)
  {
    if expected > 0 {
      var gap, e := Gap(expected, actual) as real, expected as real;
      var share := gap / e;
      QuotientTimes(gap, e);
      ScaledOrder(share, threshold, e, gap);
    }
  }

  lemma ScaledOrder(share: real, threshold: real, e: real, gap: real)
    requires e > 0.0 && share * e == gap
    ensures share * 100.0 < threshold <==> 100.0 * gap < threshold * e
  {
    assert (threshold - share * 100.0) * e == threshold * e - 100.0 * gap;
    if share * 100.0 < threshold {
      ProductPositive(threshold - share * 100.0, e);
    } else {
      ProductNonNegative(share * 100.0 - threshold, e);
      assert (share * 100.0 - threshold) * e == 100.0 * gap - threshold * e;
    }
  }

  function Larger(x: real, y: real): real {
    if x >= y then x else y
  }

  /** The largest of the five field errors of one tenant. */
  function TenantError(expected: Bucket, actual: Bucket): real {
    Larger(RelativeError(expected.requests, actual.requests),
           Larger(RelativeError(expected.prompt, actual.prompt),
                  Larger(RelativeError(expected.uncached, actual.uncached),
                         Larger(RelativeError(expected.cached, actual.cached),
                                RelativeError(expected.completion, actual.completion)))))
  }

  lemma TenantErrorZero(expected: Bucket, actual: Bucket)
    ensures TenantError(expected, actual) >= 0.0
    ensures TenantError(expected, actual) == 0.0 <==> expected == actual
  {
    RelativeErrorZero(expected.requests, actual.requests);
    RelativeErrorZero(expected.prompt, actual.prompt);
    RelativeErrorZero(expected.uncached, actual.uncached);
    RelativeErrorZero(expected.cached, actual.cached);
    RelativeErrorZero(expected.completion, actual.completion);
  }

  datatype TenantReport = TenantReport(requestLog: Bucket, ledger: Bucket, maximum: real)

  datatype Report = Report(tenants: map<Chars, TenantReport>, maximum: real, passed: bool)

  function TenantLine(requests: Totals, ledger: Totals, tenant: Chars): TenantReport {
    TenantReport(Get(requests, tenant), Get(ledger, tenant), TenantError(Get(requests, tenant), Get(ledger, tenant)))
  }

  /** The report covers exactly the tenants of either side, and its maximum is attained or zero. */
  ghost predicate Describes(report: Report, requests: Totals, ledger: Totals, threshold: real) {
    && report.tenants.Keys == requests.Keys + ledger.Keys
    && Lines(report.tenants, requests, ledger)
    && IsMaximum(report.maximum, report.tenants)
    && (report.passed <==> report.maximum < threshold)
  }

  predicate Lines(tenants: map<Chars, TenantReport>, requests: Totals, ledger: Totals) {
    forall t :: t in tenants ==> tenants[t] == TenantLine(requests, ledger, t)
  }

  predicate IsMaximum(maximum: real, tenants: map<Chars, TenantReport>) {
    && maximum >= 0.0
    && (forall t :: t in tenants ==> tenants[t].maximum <= maximum)
    && (maximum == 0.0 || exists t :: t in tenants && tenants[t].maximum == maximum)
  }

  predicate Reconcilable(ledgers: seq<Source>, logs: seq<seq<RequestLine>>, threshold: real) {
    && threshold > 0.0
    && LedgerMeters(ledgers).Some? && RequestMeters(logs).Some?
    && RequestMeters(logs).value != []
  }

  /** `reconcile_usage`. */
  method Reconcile(ledgers: seq<Source>, logs: seq<seq<RequestLine>>, threshold: real) returns (r: Option<Report>)
    ensures r.Some? <==> Reconcilable(ledgers, logs, threshold)
    ensures r.Some? ==>
      Describes(r.value, TotalsOf(RequestMeters(logs).value), TotalsOf(LedgerMeters(ledgers).value), threshold)
  {
    if threshold <= 0.0 {
      return None;
    }
    var ledgerTotals := AggregateLedgers(ledgers);
    if ledgerTotals.None? {
      return None;
    }
    var requestTotals := AggregateRequests(logs);
    if requestTotals.None? {
      return None;
    }
    NoTotals(RequestMeters(logs).value);
    if requestTotals.value == map[] {
      return None;
    }
    var report := Compare(requestTotals.value, ledgerTotals.value, threshold);
    return Some(report);
  }

  lemma NoTotals(ms: seq<Metered>)
    ensures TotalsOf(ms) == map[] <==> ms == []
  {
    if ms != [] {
      assert ms[0].tenant in TotalsOf(ms);
    } else {
      assert MeteredTenants(ms) == {};
    }
  }

  method Compare(requests: Totals, ledger: Totals, threshold: real) returns (report: Report)
    ensures Describes(report, requests, ledger, threshold)
  {
    var tenants := map t | t in requests.Keys + ledger.Keys :: TenantLine(requests, ledger, t);
    var maximum := LargestError(tenants, SortedKeys(tenants.Keys));
    return Report(tenants, maximum, maximum < threshold);
  }

  /** The running maximum of the loop over tenants in increasing order. */
  method LargestError(tenants: map<Chars, TenantReport>, names: seq<Chars>) returns (maximum: real)
    requires forall t :: t in names <==> t in tenants.Keys
    ensures IsMaximum(maximum, tenants)
  {
    maximum := 0.0;
    for i := 0 to |names|
      invariant maximum >= 0.0
      invariant forall k :: 0 <= k < i ==> names[k] in tenants && tenants[names[k]].maximum <= maximum
      invariant maximum == 0.0 || exists t :: t in tenants && tenants[t].maximum == maximum
    {
      assert names[i] in names;
      maximum := Larger(maximum, tenants[names[i]].maximum);
    }
    forall t | t in tenants
      ensures tenants[t].maximum <= maximum
    {
      assert t in names;
    }
  }

  // ----- what the report promises

  /** No error anywhere means the two sides agree on every tenant and every field, and conversely. */
  lemma ZeroErrorIffEqual(report: Report, ms: seq<Metered>, ns: seq<Metered>, threshold: real)
    requires Describes(report, TotalsOf(ms), TotalsOf(ns), threshold)
    ensures report.maximum == 0.0 <==> TotalsOf(ms) == TotalsOf(ns)
  {
    var requests, ledger := TotalsOf(ms), TotalsOf(ns);
    forall t
      ensures TenantError(Get(requests, t), Get(ledger, t)) >= 0.0
      ensures TenantError(Get(requests, t), Get(ledger, t)) == 0.0 <==> Get(requests, t) == Get(ledger, t)
    {
      TenantErrorZero(Get(requests, t), Get(ledger, t));
    }
    if report.maximum == 0.0 {
      forall t | t in report.tenants
        ensures Get(requests, t) == Get(ledger, t)
      {
        assert report.tenants[t] == TenantLine(requests, ledger, t);
      }
      SameBalances(ms, ns);
    }
  }

  predicate TolerableBucket(expected: Bucket, actual: Bucket, threshold: real) {
    && Tolerable(expected.requests, actual.requests, threshold) && Tolerable(expected.prompt, actual.prompt, threshold)
    && Tolerable(expected.uncached, actual.uncached, threshold) && Tolerable(expected.cached, actual.cached, threshold)
    && Tolerable(expected.completion, actual.completion, threshold)
  }

  lemma TenantBelow(expected: Bucket, actual: Bucket, threshold: real)
    requires threshold > 0.0
    ensures TenantError(expected, actual) < threshold <==> TolerableBucket(expected, actual, threshold)
  {
    ErrorBelow(expected.requests, actual.requests, threshold);
    ErrorBelow(expected.prompt, actual.prompt, threshold);
    ErrorBelow(expected.uncached, actual.uncached, threshold);
    ErrorBelow(expected.cached, actual.cached, threshold);
    ErrorBelow(expected.completion, actual.completion, threshold);
  }

  /** A report passes exactly when every field of every tenant deviates by less than the threshold. */
  lemma PassedIff(report: Report, requests: Totals, ledger: Totals, threshold: real)
    requires threshold > 0.0 && Describes(report, requests, ledger, threshold)
    ensures report.passed <==>
              forall t :: t in requests.Keys + ledger.Keys ==>
                TolerableBucket(Get(requests, t), Get(ledger, t), threshold)
  {
    forall t | t in report.tenants
      ensures report.tenants[t].maximum < threshold <==> TolerableBucket(Get(requests, t), Get(ledger, t), threshold)
    {
      assert report.tenants[t] == TenantLine(requests, ledger, t);
      TenantBelow(Get(requests, t), Get(ledger, t), threshold);
    }
  }

  lemma {:induction false} PresentIsCounted(ms: seq<Metered>, tenant: Chars)
    ensures BucketIn(ms, tenant).requests > 0 <==> tenant in MeteredTenants(ms)
  {
    if ms != [] {
      PresentIsCounted(ms[1..], tenant);
      assert ms == [ms[0]] + ms[1..];
      if tenant in MeteredTenants(ms[1..]) {
        var i :| 0 <= i < |ms[1..]| && ms[1..][i].tenant == tenant;
        assert ms[i + 1].tenant == tenant;
      }
      if tenant in MeteredTenants(ms) && ms[0].tenant != tenant {
        var i :| 0 <= i < |ms| && ms[i].tenant == tenant;
        assert ms[1..][i - 1].tenant == tenant;
      }
    }
  }

  lemma SameBalances(ms: seq<Metered>, ns: seq<Metered>)
    requires forall t :: t in TotalsOf(ms).Keys + TotalsOf(ns).Keys ==> Get(TotalsOf(ms), t) == Get(TotalsOf(ns), t)
    ensures TotalsOf(ms) == TotalsOf(ns)
  {
    var a, b := TotalsOf(ms), TotalsOf(ns);
    forall t | t in a.Keys + b.Keys
      ensures t in a && t in b && a[t] == b[t]
    {
      assert Get(a, t) == Get(b, t);
      GetIsBucket(ms, t);
      GetIsBucket(ns, t);
      PresentIsCounted(ms, t);
      PresentIsCounted(ns, t);
    }
    assert a.Keys == b.Keys by {
      assert forall t :: t in a.Keys <==> t in b.Keys;
    }
    SameMap(a, b);
  }

  lemma {:induction false} BucketPermuted(ms: seq<Metered>, ns: seq<Metered>, tenant: Chars)
    requires multiset(ms) == multiset(ns)
    ensures BucketIn(ms, tenant) == BucketIn(ns, tenant)
  {
    if ms == [] {
      assert |multiset(ns)| == 0;
    } else {
      assert ms == [ms[0]] + ms[1..];
      assert ms[0] in multiset(ns);
      var k :| 0 <= k < |ns| && ns[k] == ms[0];
      assert ns == ns[..k] + ([ns[k]] + ns[k + 1..]);
      TailMultiset(ms);
      RemovedMultiset(ns, k);
      BucketPermuted(ms[1..], ns[..k] + ns[k + 1..], tenant);
      BucketMoved(ns[..k], ns[k], ns[k + 1..], tenant);
      BucketCons(ms[0], ms[1..], tenant);
    }
  }

  lemma BucketMoved(a: seq<Metered>, m: Metered, b: seq<Metered>, tenant: Chars)
    ensures BucketIn(a + ([m] + b), tenant)
         == if m.tenant == tenant then BucketOf(m.tokens).Plus(BucketIn(a + b, tenant)) else BucketIn(a + b, tenant)
  {
    BucketAppend(a, [m] + b, tenant);
    BucketAppend(a, b, tenant);
    BucketCons(m, b, tenant);
    BucketLaws(BucketOf(m.tokens), BucketIn(a, tenant), BucketIn(b, tenant));
  }

  lemma TotalsPermuted(ms: seq<Metered>, ns: seq<Metered>)
    requires multiset(ms) == multiset(ns)
    ensures TotalsOf(ms) == TotalsOf(ns)
  {
    forall t
      ensures Get(TotalsOf(ms), t) == Get(TotalsOf(ns), t)
    {
      GetIsBucket(ms, t);
      GetIsBucket(ns, t);
      BucketPermuted(ms, ns, t);
    }
    SameBalances(ms, ns);
  }

  /** Ledgers and request logs that record the same events, in any order and split over any files,
      reconcile without error and pass. */
  lemma EqualRecordsReconcile(report: Report, ledgers: seq<Source>, logs: seq<seq<RequestLine>>, threshold: real)
    requires Reconcilable(ledgers, logs, threshold)
    requires Describes(report, TotalsOf(RequestMeters(logs).value), TotalsOf(LedgerMeters(ledgers).value), threshold)
    requires multiset(RequestMeters(logs).value) == multiset(LedgerMeters(ledgers).value)
    ensures report.maximum == 0.0 && report.passed
    ensures forall t :: t in report.tenants ==> report.tenants[t].requestLog == report.tenants[t].ledger
  {
    TotalsPermuted(RequestMeters(logs).value, LedgerMeters(ledgers).value);
    ZeroErrorIffEqual(report, RequestMeters(logs).value, LedgerMeters(ledgers).value, threshold);
  }

  predicate Balanced(m: Metered) {
    m.tokens.cached + m.tokens.uncached == m.tokens.prompt
  }

  lemma {:induction false} BucketBalanced(ms: seq<Metered>, tenant: Chars)
    requires forall i :: 0 <= i < |ms| ==> Balanced(ms[i])
    ensures BucketIn(ms, tenant).cached + BucketIn(ms, tenant).uncached == BucketIn(ms, tenant).prompt
  {
    if ms != [] {
      assert Balanced(ms[0]);
      BucketBalanced(ms[1..], tenant);
    }
  }

  lemma {:induction false} LogMetersBalanced(lines: seq<RequestLine>)
    ensures forall i :: 0 <= i < |LogMeters(lines)| ==> Balanced(LogMeters(lines)[i])
  {
    if lines != [] {
      LogMetersBalanced(lines[1..]);
    }
  }

  lemma {:induction false} MetersFromBalanced(source: Source, number: nat)
    requires number <= |source.lines|
    ensures MetersFrom(source, number).Some? ==>
      forall i :: 0 <= i < |MetersFrom(source, number).value| ==> Balanced(MetersFrom(source, number).value[i])
    decreases |source.lines| - number
  {
    if number < |source.lines| {
      MetersFromBalanced(source, number + 1);
    }
  }

  lemma {:induction false} AllMetersBalanced(sources: seq<Source>)
    ensures AllMeters(sources).Some? ==>
      forall i :: 0 <= i < |AllMeters(sources).value| ==> Balanced(AllMeters(sources).value[i])
  {
    if sources != [] {
      AllMetersBalanced(sources[1..]);
      MetersFromBalanced(sources[0], 0);
    }
  }

  /** In the totals of either side, cached plus uncached input is the prompt. */
  lemma PromptIsSplit(ledgers: seq<Source>, logs: seq<seq<RequestLine>>, tenant: Chars)
    ensures LedgerMeters(ledgers).Some? ==>
      var b := Get(TotalsOf(LedgerMeters(ledgers).value), tenant); b.cached + b.uncached == b.prompt
    ensures RequestMeters(logs).Some? ==>
      var b := Get(TotalsOf(RequestMeters(logs).value), tenant); b.cached + b.uncached == b.prompt
  {
    if LedgerMeters(ledgers).Some? {
      AllMetersBalanced(Ordered(ledgers));
      BucketBalanced(LedgerMeters(ledgers).value, tenant);
      GetIsBucket(LedgerMeters(ledgers).value, tenant);
    }
    if RequestMeters(logs).Some? {
      LogMetersBalanced(Concat(logs));
      BucketBalanced(RequestMeters(logs).value, tenant);
      GetIsBucket(RequestMeters(logs).value, tenant);
    }
  }
}
