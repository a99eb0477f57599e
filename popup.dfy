/**
 * The popup of popup.js: how a stored report row is shown (status label,
 * duration, size and throughput cells, row order), the countdown of the
 * progress line, the stored durations it counts down from, the state of the
 * start button and the start/stop decision of a click. The module-level
 * progress variables and the rendered view live in `PopupPage`.
 */
module Popup {
  import opened Common
  import Strings
  import Url
  import Tracker
  import Timing
  import Report
  import Background

  // ---------------------------------------------------------------------------
  // Rows as read back from storage
  // ---------------------------------------------------------------------------

  /**
   * The measurement fields of a stored row. Every field may be missing or of
   * any JSON type; `speedKBps` numbers are held in tenths of KB/s.
   */
  datatype Cells = Cells(status: Value, duration: Value, size: Value, speedKBps: Value)

  /**
   * One element of the stored `tests` array: its own fields, and the
   * `direct` object when it has one (None also stands for a `direct` that is
   * missing, null or not an object).
   */
  datatype Row = Row(domain: Value, url: Value, own: Cells, direct: Option<Cells>)

  /** A status as the worker stores it: a number or a string. */
  function StatusValue(s: Status): Value {
    match s
    case Code(c) => Num(c)
    case Token(t) => Str(t)
  }

  /**
   * The row the popup reads back for a report item the worker wrote: a
   * `direct` object whose duration is missing when no timing record was
   * merged and whose size and throughput are null when unknown.
   */
  function StoredRow(t: TestItem): Row {
    var m := t.direct;
    Row(Str(t.domain), Str(t.url), Cells(Absent, Absent, Absent, Absent),
        Some(Cells(StatusValue(m.status),
                   if m.duration.Some? then Num(m.duration.value) else Absent,
                   if m.size.Some? then Num(m.size.value) else Null,
                   if m.speedKBps.Some? then Num(m.speedKBps.value) else Null)))
  }

  // ---------------------------------------------------------------------------
  // Cells
  // ---------------------------------------------------------------------------

  /** The label `getStatusSpan` gives a status. */
  datatype StatusLabel = Waiting | Ok200 | TimeoutLabel | ErrorLabel | Plain(text: string)

  function Label(status: Value): (l: StatusLabel)
    ensures l == Waiting <==> status == Str("pending")
    ensures l == Ok200 <==> status == Num(200) || status == Str("200")
    ensures l == TimeoutLabel <==> status == Str("timeout")
    ensures l == ErrorLabel <==> status == Str("error")
    ensures l.Plain? ==> l.text == Strings.JsString(status)
  {
    if status == Str("pending") then Waiting
    else if status == Num(200) || status == Str("200") then Ok200
    else if status == Str("timeout") then TimeoutLabel
    else if status == Str("error") then ErrorLabel
    else Plain(Strings.JsString(status))
  }

  /**
   * A numeric status and its decimal text get the same label: 200 and "200"
   * both show as 200, and any other code shows as its digits either way.
   */
  lemma NumericAndTextStatusAgree(c: int)
    ensures Label(Num(c)) == Label(Str(Strings.IntToString(c)))
  {
    var t := Strings.IntToString(c);
    IntTextIs200(c);
    assert t[0] == '-' || '0' <= t[0] <= '9' by {
      if c >= 0 {
        assert t == Strings.NatToString(c);
      }
    }
    assert t != "pending" && t != "timeout" && t != "error" by {
      assert "pending"[0] == 'p' && "timeout"[0] == 't' && "error"[0] == 'e';
    }
  }

  /** The decimal text of c is "200" exactly when c is 200. */
  lemma IntTextIs200(c: int)
    ensures Strings.IntToString(c) == "200" <==> c == 200
  {
    TextOf200();
    if Strings.IntToString(c) == "200" {
      TextOnlyOf200(c);
    }
  }

  lemma TextOf200()
    ensures Strings.IntToString(200) == "200"
  {
    assert Strings.NatToString(2) == "2";
    assert Strings.NatToString(20) == Strings.NatToString(2) + ['0'];
    assert Strings.NatToString(200) == Strings.NatToString(20) + ['0'];
  }

  lemma TextOnlyOf200(c: int)
    requires Strings.IntToString(c) == "200"
    ensures c == 200
  {
    var t := Strings.IntToString(c);
    assert t[0] != '-';
    assert c >= 0;
    assert t == Strings.NatToString(c);
    Strings.NatToStringRoundTrip(c);
    assert Strings.DecimalValue("200") == 200 by {
      assert "200"[..2] == "20" && "20"[..1] == "2" && "2"[..0] == "";
    }
  }

  /** The duration cell: a number as its digits, other truthy values as text, else "-". */
  function DurationText(v: Value): (t: string)
    ensures v.Num? ==> t == Strings.IntToString(v.n)
    ensures !v.Num? && !Truthy(v) ==> t == "-"
    ensures !v.Num? && Truthy(v) ==> t == Strings.JsString(v)
  {
    if v.Num? then Strings.IntToString(v.n)
    else if Truthy(v) then Strings.JsString(v)
    else "-"
  }

  /** `String(t / 10)` for a count of tenths: no fractional part when it is a whole number. */
  function TenthsText(t: int): (r: string)
    ensures t >= 0 ==> r == NatTenthsText(t)
    ensures t < 0 ==> r == "-" + NatTenthsText(-t)
  {
    if t < 0 then "-" + NatTenthsText(-t) else NatTenthsText(t)
  }

  function NatTenthsText(t: nat): (r: string)
    ensures t % 10 == 0 ==> r == Strings.NatToString(t / 10)
    ensures t % 10 != 0 ==> r == Strings.NatToString(t / 10) + "." + [Strings.DigitChar(t % 10)]
  {
    if t % 10 == 0 then Strings.NatToString(t / 10)
    else Strings.NatToString(t / 10) + "." + [Strings.DigitChar(t % 10)]
  }

  /** The size cell: kilobytes to one decimal for a positive number, else "-". */
  function SizeText(v: Value): (t: string)
    ensures v.Num? && v.n > 0 ==> t == TenthsText(KiloTenths(v.n))
    ensures !(v.Num? && v.n > 0) ==> t == "-"
  {
    if v.Num? && v.n > 0 then TenthsText(KiloTenths(v.n)) else "-"
  }

  /**
   * The throughput the speed cell shows, in tenths of KB/s: the stored one,
   * or, when it is null or missing and size and duration are positive
   * numbers, one computed from them.
   */
  function SpeedShown(speed: Value, size: Value, duration: Value): (r: Value)
    ensures (speed.Null? || speed.Absent?) && size.Num? && size.n > 0 && duration.Num? && duration.n > 0
      ==> r == Num(SpeedTenths(size.n, duration.n))
    ensures !((speed.Null? || speed.Absent?) && size.Num? && size.n > 0 && duration.Num? && duration.n > 0)
      ==> r == speed
  {
    if (speed.Null? || speed.Absent?) && size.Num? && size.n > 0 && duration.Num? && duration.n > 0
    then Num(SpeedTenths(size.n, duration.n))
    else speed
  }

  /** The speed cell: a number to one decimal, anything else "-". */
  function SpeedText(speed: Value, size: Value, duration: Value): (t: string)
    ensures SpeedShown(speed, size, duration).Num? ==> t == TenthsText(SpeedShown(speed, size, duration).n)
    ensures !SpeedShown(speed, size, duration).Num? ==> t == "-"
  {
    var s := SpeedShown(speed, size, duration);
    if s.Num? then TenthsText(s.n) else "-"
  }

  /** One rendered table row. */
  datatype RowView = RowView(
    domain: string,
    link: Option<string>,
    status: StatusLabel,
    duration: string,
    size: string,
    speed: string)

  /** Text assigned to `textContent`: null and undefined give "". */
  function DomainText(v: Value): string {
    if v.Absent? || v.Null? then "" else Strings.JsString(v)
  }

  /**
   * A row of the table. The status comes from `direct` when it is an object
   * that defines `status`, else from the row; duration, size and throughput
   * all come from `direct` when it is an object, else from the row.
   */
  function RenderRow(row: Row): (v: RowView)
    ensures v.status == Label(
      if row.direct.Some? && row.direct.value.status != Absent then row.direct.value.status else row.own.status)
    ensures var d := if row.direct.Some? then row.direct.value else row.own;
      && v.duration == DurationText(d.duration)
      && v.size == SizeText(d.size)
      && v.speed == SpeedText(d.speedKBps, d.size, d.duration)
    ensures v.link.Some? <==> Truthy(row.url)
  {
    var status := if row.direct.Some? && row.direct.value.status != Absent then row.direct.value.status else row.own.status;
    var d := if row.direct.Some? then row.direct.value else row.own;
    RowView(DomainText(row.domain), if Truthy(row.url) then Some(Strings.JsString(row.url)) else None,
            Label(status), DurationText(d.duration), SizeText(d.size), SpeedText(d.speedKBps, d.size, d.duration))
  }

  /**
   * A `direct` object without a status shows the row's own status next to
   * the direct object's measurements.
   */
  lemma DirectWithoutStatusMixesSources(domain: Value, url: Value, own: Cells, direct: Cells)
    requires direct.status == Absent && own.status != Absent
    ensures RenderRow(Row(domain, url, own, Some(direct))).status == Label(own.status)
    ensures RenderRow(Row(domain, url, own, Some(direct))).size == SizeText(direct.size)
  {
  }

  /**
   * The measurement of a report item the worker built is consistent: a size
   * is positive, and a throughput is present exactly when size and a
   * positive duration are, as their rate.
   */
  predicate Consistent(m: Measurement) {
    && (m.size.Some? ==> m.size.value > 0)
    && (m.speedKBps.Some? <==> m.size.Some? && m.duration.Some? && m.duration.value > 0)
    && (m.speedKBps.Some? ==> m.speedKBps.value == SpeedTenths(m.size.value, m.duration.value))
  }

  /**
   * A row the worker wrote shows its own measurement: its status label,
   * its duration or "-", its size in KB or "-", and its stored throughput or
   * "-". The popup's fallback computation never fires for such a row, so
   * the two formulas for the throughput cannot disagree on screen.
   */
  lemma WorkerRowShowsItsMeasurement(t: TestItem)
    requires Consistent(t.direct)
    ensures var v := RenderRow(StoredRow(t));
      && v.domain == t.domain
      && v.status == Label(StatusValue(t.direct.status))
      && v.duration == (if t.direct.duration.Some? then Strings.IntToString(t.direct.duration.value) else "-")
      && v.size == (if t.direct.size.Some? then TenthsText(KiloTenths(t.direct.size.value)) else "-")
      && v.speed == (if t.direct.speedKBps.Some? then TenthsText(t.direct.speedKBps.value) else "-")
  {
    var c := StoredRow(t).direct.value;
    assert c.status != Absent by {
      match t.direct.status
      case Code(_) =>
      case Token(_) =>
    }
  }

  /** Every item of a report built from a well-formed tracker is consistent. */
  lemma ReportItemsAreConsistent(tabs: Tracker.TabMap, tabId: int,
                                 perf: Option<map<string, Timing.TimingRecord>>,
                                 mainDomain: string, tests: seq<TestItem>, i: int)
    requires Tracker.WellFormedTabs(tabs)
    requires Report.IsReportOf(Report.PhaseInfo(Report.SnapshotOf(tabs, tabId), perf), mainDomain, tests)
    requires 0 <= i < |tests|
    ensures Consistent(tests[i].direct)
    ensures tests[i].direct.status != Pending
  {
    Report.ReportMeasurementsConsistent(tabs, tabId, perf, tests[i].domain);
  }

  // ---------------------------------------------------------------------------
  // Row order
  // ---------------------------------------------------------------------------

  /** The comparator's key: the domain (or "" when falsy) read backwards. */
  function SortKey(domain: Value): (k: string)
    ensures var t := if Truthy(domain) then Strings.JsString(domain) else "";
      |k| == |t| && forall i :: 0 <= i < |t| ==> k[i] == t[|t| - 1 - i]
  {
    Strings.Reverse(if Truthy(domain) then Strings.JsString(domain) else "")
  }

  /** `localeCompare` taken as the code-point order on the keys. */
  predicate KeyLe(a: Row, b: Row) {
    Strings.LexLe(SortKey(a.domain), SortKey(b.domain))
  }

  predicate SortedRows(rows: seq<Row>) {
    forall i, j :: 0 <= i < j < |rows| ==> KeyLe(rows[i], rows[j])
  }

  /** Inserts r after every row whose key is not greater. */
  function Insert(r: Row, rows: seq<Row>): (out: seq<Row>)
    requires SortedRows(rows)
    ensures SortedRows(out)
    ensures multiset(out) == multiset(rows) + multiset{r}
  {
    if rows == [] then [r]
    else if !KeyLe(rows[0], r) then
      Strings.LexLeTotal(SortKey(rows[0].domain), SortKey(r.domain));
      KeyLeBelowSorted(r, rows);
      [r] + rows
    else
      var rest := Insert(r, rows[1..]);
      assert rows == [rows[0]] + rows[1..];
      HeadBelowInserted(rows[0], r, rows[1..], rest);
      [rows[0]] + rest
  }

  /** A row not after the head of a sorted list is not after any of it. */
  lemma KeyLeBelowSorted(r: Row, rows: seq<Row>)
    requires SortedRows(rows) && rows != [] && KeyLe(r, rows[0])
    ensures SortedRows([r] + rows)
  {
    forall j | 0 <= j < |rows|
      ensures KeyLe(r, rows[j])
    {
      if j > 0 {
        Strings.LexLeTransitive(SortKey(r.domain), SortKey(rows[0].domain), SortKey(rows[j].domain));
      }
    }
    ConsSorted(r, rows);
  }

  lemma HeadBelowInserted(h: Row, r: Row, tail: seq<Row>, rest: seq<Row>)
    requires SortedRows([h] + tail) && SortedRows(rest) && KeyLe(h, r)
    requires multiset(rest) == multiset(tail) + multiset{r}
    ensures SortedRows([h] + rest)
  {
    forall j | 0 <= j < |rest|
      ensures KeyLe(h, rest[j])
    {
      var x := rest[j];
      assert x in multiset(rest);
      if x != r {
        assert x in multiset(tail);
        var k :| 0 <= k < |tail| && tail[k] == x;
        assert ([h] + tail)[0] == h && ([h] + tail)[k + 1] == x;
      }
    }
    ConsSorted(h, rest);
  }

  lemma ConsSorted(h: Row, rows: seq<Row>)
    requires SortedRows(rows)
    requires forall j :: 0 <= j < |rows| ==> KeyLe(h, rows[j])
    ensures SortedRows([h] + rows)
  {
    var s := [h] + rows;
    forall i, j | 0 <= i < j < |s|
      ensures KeyLe(s[i], s[j])
    {
      assert s[j] == rows[j - 1];
      if i > 0 {
        assert s[i] == rows[i - 1];
      }
    }
  }

  /** The rows in display order: a sorted rearrangement of the stored array. */
  function SortRows(rows: seq<Row>): (out: seq<Row>)
    ensures SortedRows(out)
    ensures multiset(out) == multiset(rows)
    ensures |out| == |rows|
  {
    if rows == [] then []
    else
      var last := |rows| - 1;
      assert rows == rows[..last] + [rows[last]];
      var out := Insert(rows[last], SortRows(rows[..last]));
      assert |out| == |multiset(out)|;
      out
  }

  /** Rows whose domains differ only in their leading labels sit together, ordered by the shared suffix first. */
  lemma SameParentDomainsCompareByLabel(a: string, b: string, parent: string)
    requires Strings.LexLe(Strings.Reverse(a), Strings.Reverse(b))
    ensures Strings.LexLe(Strings.Reverse(a + parent), Strings.Reverse(b + parent))
  {
    ReverseAppend(a, parent);
    ReverseAppend(b, parent);
    LexLeCommonPrefix(Strings.Reverse(parent), Strings.Reverse(a), Strings.Reverse(b));
  }

  lemma ReverseAppend(a: string, b: string)
    ensures Strings.Reverse(a + b) == Strings.Reverse(b) + Strings.Reverse(a)
  {
    var r := Strings.Reverse(a + b);
    assert forall i :: 0 <= i < |r| ==> r[i] == (Strings.Reverse(b) + Strings.Reverse(a))[i];
  }

  lemma {:induction false} LexLeCommonPrefix(p: string, a: string, b: string)
    requires Strings.LexLe(a, b)
    ensures Strings.LexLe(p + a, p + b)
    decreases |p|
  {
    if p != [] {
      var pa, pb := p + a, p + b;
      LexLeCommonPrefix(p[1..], a, b);
      assert pa[1..] == p[1..] + a;
      assert pb[1..] == p[1..] + b;
      assert Strings.LexLe(pa[1..], pb[1..]);
      assert pa != [] && pb != [] && pa[0] == pb[0];
    } else {
      assert p + a == a && p + b == b;
    }
  }

  // ---------------------------------------------------------------------------
  // The results area
  // ---------------------------------------------------------------------------

  /** The stored `results` record as the popup reads it. */
  datatype Stored = Stored(status: RunStatus, page: string, tests: seq<Row>)

  function StoredResults(r: Results): Stored {
    Stored(r.status, r.page, seq(|r.tests|, i requires 0 <= i < |r.tests| => StoredRow(r.tests[i])))
  }

  /** What `renderResults` puts in the results area. */
  datatype View =
    | NoResults
    | RunningNoRows(page: string)
    | ErrorView(page: string)
    | Table(running: bool, page: string, rows: seq<RowView>)
    | CompletedNoRows

  function ViewOf(results: Option<Stored>): (v: View)
    ensures results.None? <==> v == NoResults
    ensures v.RunningNoRows? <==> results.Some? && results.value.status == Running && results.value.tests == []
    ensures v.ErrorView? <==> results.Some? && results.value.status == Failed
    ensures v.Table? <==> results.Some? && results.value.status != Failed && results.value.tests != []
    ensures v.Table? ==> v.running == (results.value.status == Running) && |v.rows| == |results.value.tests|
    ensures v.Table? ==> forall i :: 0 <= i < |v.rows| ==> v.rows[i] == RenderRow(SortRows(results.value.tests)[i])
    ensures v.RunningNoRows? || v.ErrorView? || v.Table? ==> v.page == results.value.page
  {
    match results
    case None => NoResults
    case Some(r) =>
      if r.status == Running && r.tests == [] then RunningNoRows(r.page)
      else if r.status == Failed then ErrorView(r.page)
      else if r.tests != [] then
        var sorted := SortRows(r.tests);
        Table(r.status == Running, r.page, seq(|sorted|, i requires 0 <= i < |sorted| => RenderRow(sorted[i])))
      else CompletedNoRows
  }

  // ---------------------------------------------------------------------------
  // Durations and the countdown
  // ---------------------------------------------------------------------------

  /** The stored timeout replaces the current one only when it is a positive number. */
  function TimeoutOverride(c: Config, current: int): (ms: int)
    ensures c.timeoutMs.Num? && c.timeoutMs.n > 0 ==> ms == c.timeoutMs.n
    ensures !(c.timeoutMs.Num? && c.timeoutMs.n > 0) ==> ms == current
  {
    if c.timeoutMs.Num? && c.timeoutMs.n > 0 then c.timeoutMs.n else current
  }

  /** The stored collection window replaces the current one only when it is a number at least 0. */
  function CollectOverride(c: Config, current: int): (ms: int)
    ensures c.proxyCollectMs.Num? && c.proxyCollectMs.n >= 0 ==> ms == c.proxyCollectMs.n
    ensures !(c.proxyCollectMs.Num? && c.proxyCollectMs.n >= 0) ==> ms == current
  {
    if c.proxyCollectMs.Num? && c.proxyCollectMs.n >= 0 then c.proxyCollectMs.n else current
  }

  /**
   * Starting from its defaults, the popup counts down from the same timeout
   * and collection window that the worker uses for the stored configuration,
   * whatever the stored record holds (a missing record included).
   */
  lemma PopupCountsDownTheWorkersDurations(stored: Option<Config>)
    ensures var c := stored.GetOr(Background.EmptyConfig);
      && TimeoutOverride(c, DefaultTimeoutMs) == Background.EffectiveTimeoutMs(Background.Overlay(c).timeoutMs)
      && CollectOverride(c, DefaultCollectMs) == Background.EffectiveCollectMs(Background.Overlay(c).proxyCollectMs)
  {
  }

  /** `max(0, total - elapsed)`. */
  function RemainingMs(total: int, elapsed: int): (r: nat)
    ensures r >= total - elapsed
    ensures r == 0 || r == total - elapsed
  {
    if total - elapsed > 0 then total - elapsed else 0
  }

  /** `Math.ceil(remaining / 1000)`: the whole seconds shown. */
  function CountdownSeconds(total: int, elapsed: int): (s: nat)
    ensures 1000 * s >= RemainingMs(total, elapsed)
    ensures s > 0 ==> 1000 * (s - 1) < RemainingMs(total, elapsed)
    ensures s == 0 <==> elapsed >= total
  {
    (RemainingMs(total, elapsed) + 999) / 1000
  }

  /** The countdown never goes up as time passes. */
  lemma CountdownNeverIncreases(total: int, e1: int, e2: int)
    requires e1 <= e2
    ensures CountdownSeconds(total, e2) <= CountdownSeconds(total, e1)
  {
    var r1, r2 := RemainingMs(total, e1), RemainingMs(total, e2);
    assert r2 <= r1;
    DivMonotone(r2 + 999, r1 + 999, 1000);
  }

  lemma DivMonotone(a: nat, b: nat, d: int)
    requires a <= b && d > 0
    ensures a / d <= b / d
  {
    if a / d > b / d {
      assert d * (a / d) <= a && b < d * (b / d + 1);
      MulMonotone(d, b / d + 1, a / d);
    }
  }

  /** The countdown starts at the whole number of seconds in the total, rounded up. */
  lemma CountdownStartsAtTotal(total: nat)
    ensures CountdownSeconds(total, 0) == (total + 999) / 1000
    ensures total == DefaultTimeoutMs ==> CountdownSeconds(total, 0) == 5
  {
  }

  // ---------------------------------------------------------------------------
  // The start button
  // ---------------------------------------------------------------------------

  /**
   * `checkProxyConfig`: the button is disabled for a missing or blank proxy
   * string and enabled for a non-blank one; None when `.trim` throws on a
   * value that is not a string and the button is left as it was.
   */
  function StartButtonEnabled(stored: Option<Config>): (r: Option<bool>)
    ensures r == Some(true) <==> Background.CheckProxy(stored.GetOr(Background.EmptyConfig).proxyString).Usable?
    ensures r == Some(false) <==> Background.CheckProxy(stored.GetOr(Background.EmptyConfig).proxyString).Blank?
  {
    match Background.CheckProxy(stored.GetOr(Background.EmptyConfig).proxyString)
    case Blank => Some(false)
    case Usable(_) => Some(true)
    case NotText => None
  }

  /**
   * The button is enabled exactly when the worker, which reads the same
   * record through its defaults, would accept an http(s) page while idle,
   * and disabled exactly when it would refuse it for a missing proxy.
   */
  lemma ButtonAgreesWithWorker(stored: Option<Config>, url: string)
    requires Url.IsHttpUrl(url)
    ensures var worker := Background.Overlay(stored.GetOr(Background.EmptyConfig));
      && (StartButtonEnabled(stored) == Some(true) <==> Background.Admit(Some(url), worker.proxyString, false).Accept?)
      && (StartButtonEnabled(stored) == Some(false) <==>
          Background.Admit(Some(url), worker.proxyString, false) == Background.Refuse(Background.NoProxy))
  {
    var c := stored.GetOr(Background.EmptyConfig);
    assert Background.CheckProxy(Background.Overlay(c).proxyString) == Background.CheckProxy(c.proxyString) by {
      if c.proxyString == Absent {
        assert Background.Overlay(c).proxyString == Str("");
        assert Strings.Trim("") == "";
      }
    }
  }

  // ---------------------------------------------------------------------------
  // The click
  // ---------------------------------------------------------------------------

  /** The active tab: its id and its URL when it has one. */
  datatype Tab = Tab(id: int, url: Option<string>)

  /** What a click leads to. */
  datatype ClickAction =
    | SendStop(thenWrite: Results)       // stopTest, then the record marked stopped
    | WriteError(record: Results)        // an error record, no message
    | SendStart(tabId: int, url: string) // startTestForPage

  function Click(stored: Option<Results>, tab: Option<Tab>): (a: ClickAction)
    ensures a.SendStop? <==> stored.Some? && stored.value.status == Running
    ensures a.SendStop? ==> a.thenWrite == stored.value.(status := Stopped)
    ensures a.SendStart? <==>
      (!(stored.Some? && stored.value.status == Running) &&
       tab.Some? && tab.value.url.Some? && Url.IsHttpUrl(tab.value.url.value))
    ensures a.SendStart? ==> a.tabId == tab.value.id && tab.value.url == Some(a.url)
    ensures a.WriteError? ==> a.record.status == Failed && a.record.tests == []
    ensures a.WriteError? && tab.Some? && tab.value.url.Some? ==> a.record.page == tab.value.url.value
  {
    if stored.Some? && stored.value.status == Running then SendStop(stored.value.(status := Stopped))
    else if tab.None? || tab.value.url.None? || !Url.IsHttpUrl(tab.value.url.value) then
      WriteError(Results(Failed, if tab.Some? && tab.value.url.Some? then tab.value.url.value else "", []))
    else SendStart(tab.value.id, tab.value.url.value)
  }

  /** A start the popup sends never comes back refused for an invalid URL. */
  lemma StartIsNeverAnInvalidUrl(stored: Option<Results>, tab: Option<Tab>, proxyString: Value, busy: bool)
    requires Click(stored, tab).SendStart?
    ensures Background.Admit(Some(Click(stored, tab).url), proxyString, busy) != Background.Refuse(Background.InvalidUrl)
  {
  }

  /** The error record a rejected click writes is shown as an error for that page. */
  lemma RejectedClickShowsError(stored: Option<Results>, tab: Option<Tab>)
    requires Click(stored, tab).WriteError?
    ensures ViewOf(Some(StoredResults(Click(stored, tab).record))) == ErrorView(Click(stored, tab).record.page)
  {
  }

  // ---------------------------------------------------------------------------
  // The popup's state
  // ---------------------------------------------------------------------------

  datatype CountLabel = LoadingPage | Testing

  /** The text of the progress line. */
  datatype ProgressLine = Empty | Complete | Countdown(kind: CountLabel, seconds: nat)

  /** The phase as the worker stores it. */
  function PhaseValue(p: Background.Phase): Value {
    match p
    case Loading => Str("loading")
    case Collecting => Str("collecting")
    case PhaseDone => Str("done")
  }

  /**
   * The module variables of popup.js (the two durations, the interval timer,
   * the phase and its start) together with the progress line, the button and
   * the results area they drive.
   */
  class PopupPage {
    var timeoutMsConfig: int
    var collectMsConfig: int
    var timerRunning: bool
    var progressPhase: Value
    var progressStartedAt: int
    var line: ProgressLine
    var buttonRunning: bool
    var buttonEnabled: bool
    var view: View

    constructor()
      ensures timeoutMsConfig == DefaultTimeoutMs && collectMsConfig == DefaultCollectMs
      ensures !timerRunning && progressPhase == Null && progressStartedAt == 0
      ensures line == Empty && !buttonRunning && buttonEnabled && view == NoResults
    {
      timeoutMsConfig := DefaultTimeoutMs;
      collectMsConfig := DefaultCollectMs;
      timerRunning := false;
      progressPhase := Null;
      progressStartedAt := 0;
      line := Empty;
      buttonRunning := false;
      buttonEnabled := true;
      view := NoResults;
    }

    /** The `proxyConfig` read that overrides the two durations. */
    method ApplyStoredConfig(stored: Option<Config>)
      modifies this`timeoutMsConfig, this`collectMsConfig
      ensures timeoutMsConfig == TimeoutOverride(stored.GetOr(Background.EmptyConfig), old(timeoutMsConfig))
      ensures collectMsConfig == CollectOverride(stored.GetOr(Background.EmptyConfig), old(collectMsConfig))
    {
      var c := stored.GetOr(Background.EmptyConfig);
      if c.timeoutMs.Num? && c.timeoutMs.n > 0 {
        timeoutMsConfig := c.timeoutMs.n;
      }
      if c.proxyCollectMs.Num? && c.proxyCollectMs.n >= 0 {
        collectMsConfig := c.proxyCollectMs.n;
      }
    }

    /** `checkProxyConfig`: a throwing `.trim` leaves the button as it was. */
    method CheckProxyConfig(stored: Option<Config>)
      modifies this`buttonEnabled
      ensures StartButtonEnabled(stored).Some? ==> buttonEnabled == StartButtonEnabled(stored).value
      ensures StartButtonEnabled(stored).None? ==> buttonEnabled == old(buttonEnabled)
    {
      var check := Background.CheckProxy(stored.GetOr(Background.EmptyConfig).proxyString);
      if check.Blank? {
        buttonEnabled := false;
      } else if check.Usable? {
        buttonEnabled := true;
      }
    }

    /**
     * `updateProgressDisplay(phase, startedAt)`, with `startedAt` 0 when it
     * is missing: a falsy or "done" phase stops the timer and shows the
     * line as complete; any other phase is recorded with its start (now
     * when none was given) and the timer is (re)started.
     */
    method UpdateProgressDisplay(phase: Value, startedAt: int, now: int)
      modifies this`timerRunning, this`progressPhase, this`progressStartedAt, this`line
      ensures !Truthy(phase) || phase == Str("done") ==>
        !timerRunning && line == Complete &&
        progressPhase == old(progressPhase) && progressStartedAt == old(progressStartedAt)
      ensures Truthy(phase) && phase != Str("done") ==>
        timerRunning && line == old(line) && progressPhase == phase &&
        progressStartedAt == (if startedAt != 0 then startedAt else now)
    {
      if !Truthy(phase) || phase == Str("done") {
        timerRunning := false;
        line := Complete;
        return;
      }
      progressPhase := phase;
      progressStartedAt := if startedAt != 0 then startedAt else now;
      timerRunning := true;
    }

    /**
     * One firing of the 200 ms interval: the line counts down the timeout
     * while loading and the collection window while collecting; any other
     * phase shows the line as complete and stops the timer.
     */
    method Tick(now: int)
      modifies this`line, this`timerRunning
      ensures !Truthy(progressPhase) ==> line == old(line) && timerRunning == old(timerRunning)
      ensures progressPhase == Str("loading") ==>
        line == Countdown(LoadingPage, CountdownSeconds(timeoutMsConfig, now - progressStartedAt)) &&
        timerRunning == old(timerRunning)
      ensures progressPhase == Str("collecting") ==>
        line == Countdown(Testing, CountdownSeconds(collectMsConfig, now - progressStartedAt)) &&
        timerRunning == old(timerRunning)
      ensures Truthy(progressPhase) && progressPhase != Str("loading") && progressPhase != Str("collecting") ==>
        line == Complete && !timerRunning
    {
      if !Truthy(progressPhase) {
        return;
      }
      var total: int;
      var kind: CountLabel;
      if progressPhase == Str("loading") {
        total, kind := timeoutMsConfig, LoadingPage;
      } else if progressPhase == Str("collecting") {
        total, kind := collectMsConfig, Testing;
      } else {
        line := Complete;
        timerRunning := false;
        return;
      }
      var elapsed := now - progressStartedAt;
      var remaining := if total - elapsed > 0 then total - elapsed else 0;
      line := Countdown(kind, (remaining + 999) / 1000);
      if remaining <= 0 {
        // the source rewrites the line with an explicit 0, which it already shows
        line := Countdown(kind, 0);
      }
    }

    /**
     * The startup read of `results`: a stored record is rendered and sets
     * the button. Unlike a change event, it does not end the countdown.
     */
    method OnStartupResults(stored: Option<Results>)
      modifies this`view, this`buttonRunning
      ensures stored.Some? ==>
        view == ViewOf(Some(StoredResults(stored.value))) && (buttonRunning <==> stored.value.status == Running)
      ensures stored.None? ==> view == old(view) && buttonRunning == old(buttonRunning)
    {
      if stored.Some? {
        view := ViewOf(Some(StoredResults(stored.value)));
        buttonRunning := stored.value.status == Running;
      }
    }

    /**
     * The startup read of `progress`: a truthy phase updates the display;
     * anything else empties the line but, unlike a change event, leaves the
     * timer as it is.
     */
    method OnStartupProgress(phase: Value, startedAt: int, now: int)
      modifies this`timerRunning, this`progressPhase, this`progressStartedAt, this`line
      ensures !Truthy(phase) ==>
        line == Empty && timerRunning == old(timerRunning) &&
        progressPhase == old(progressPhase) && progressStartedAt == old(progressStartedAt)
      ensures phase == Str("done") ==> line == Complete && !timerRunning
      ensures Truthy(phase) && phase != Str("done") ==>
        timerRunning && progressPhase == phase && progressStartedAt == (if startedAt != 0 then startedAt else now)
    {
      if Truthy(phase) {
        UpdateProgressDisplay(phase, startedAt, now);
      } else {
        line := Empty;
      }
    }

    /** A change of the stored `results` record: the view, the button, and the end of the countdown. */
    method OnResultsChanged(r: Results)
      modifies this`view, this`buttonRunning, this`line, this`timerRunning
      ensures view == ViewOf(Some(StoredResults(r)))
      ensures buttonRunning <==> r.status == Running
      ensures r.status != Running ==> line == Complete && !timerRunning
      ensures r.status == Running ==> line == old(line) && timerRunning == old(timerRunning)
    {
      view := ViewOf(Some(StoredResults(r)));
      buttonRunning := r.status == Running;
      if r.status != Running {
        line := Complete;
        timerRunning := false;
      }
    }

    /**
     * A change of the stored `progress` record (phase Absent when the record
     * is removed): a truthy phase updates the display, anything else
     * empties the line and stops the timer.
     */
    method OnProgressChanged(phase: Value, startedAt: int, now: int)
      modifies this`timerRunning, this`progressPhase, this`progressStartedAt, this`line
      ensures !Truthy(phase) ==> line == Empty && !timerRunning && progressPhase == old(progressPhase)
      ensures phase == Str("done") ==> line == Complete && !timerRunning
      ensures Truthy(phase) && phase != Str("done") ==>
        timerRunning && progressPhase == phase && progressStartedAt == (if startedAt != 0 then startedAt else now)
    {
      if Truthy(phase) {
        UpdateProgressDisplay(phase, startedAt, now);
      } else {
        line := Empty;
        timerRunning := false;
      }
    }

    /**
     * The click handler: a running record is stopped; otherwise a tab that
     * is not an http(s) page gets an error record, and a valid one starts
     * the countdown of the loading phase and sends the start message.
     */
    method OnClick(stored: Option<Results>, tab: Option<Tab>, now: int) returns (action: ClickAction)
      modifies this`timerRunning, this`progressPhase, this`progressStartedAt, this`line
      ensures action == Click(stored, tab)
      ensures action.SendStart? ==>
        (timerRunning && progressPhase == Str("loading") && progressStartedAt == now && line == old(line))
      ensures !action.SendStart? ==>
        (timerRunning == old(timerRunning) && progressPhase == old(progressPhase) &&
         progressStartedAt == old(progressStartedAt) && line == old(line))
    {
      action := Click(stored, tab);
      if action.SendStart? {
        UpdateProgressDisplay(Str("loading"), now, now);
      }
    }
  }

  /**
   * A freshly opened popup that reads the stored configuration and is fed
   * the worker's loading progress counts down the worker's timeout from the
   * moment the worker stored, and reaches 0 exactly when that timeout has elapsed.
   */
  method LoadingCountdown(stored: Option<Config>, startedAt: int, now: int) returns (line: ProgressLine)
    requires startedAt != 0
    ensures line == Countdown(LoadingPage,
      CountdownSeconds(Background.EffectiveTimeoutMs(Background.Overlay(stored.GetOr(Background.EmptyConfig)).timeoutMs),
                       now - startedAt))
    ensures line.seconds == 0 <==>
      now - startedAt >= Background.EffectiveTimeoutMs(Background.Overlay(stored.GetOr(Background.EmptyConfig)).timeoutMs)
  {
    var p := new PopupPage();
    p.ApplyStoredConfig(stored);
    PopupCountsDownTheWorkersDurations(stored);
    p.OnProgressChanged(PhaseValue(Background.Loading), startedAt, now);
    p.Tick(now);
    line := p.line;
  }
}
