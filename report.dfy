/**
 * The end of a measurement pass in background.js: the snapshot of a tab's
 * domain map (`buildDomainToInfoForTab`), the merge with the in-page timing
 * records (the loop in `runPhase`) and the report items built in `testDomains`.
 */
module Report {
  import opened Common
  import opened Tracker
  import Timing

  /** A copied entry whose "pending" status has become "timeout". */
  function TimeoutIfPending(e: DomainEntry): (r: DomainEntry)
    ensures r.status != Pending
    ensures r.url == e.url && r.size == e.size && r.duration == e.duration && r.speedKBps == e.speedKBps
    ensures e.status != Pending ==> r == e
  {
    if e.status == Pending then e.(status := TimedOut) else e
  }

  /** The copy of a tab's domain map that the report is built from. */
  function Snapshot(m: DomainMap): DomainMap {
    map d | d in m :: TimeoutIfPending(m[d])
  }

  /**
   * The snapshot has the same domains as the tracker, no pending status,
   * pending turned into timeout and every other field copied.
   */
  lemma SnapshotFacts(m: DomainMap, d: string)
    requires d in m
    ensures Snapshot(m).Keys == m.Keys
    ensures Snapshot(m)[d].status == (if m[d].status == Pending then TimedOut else m[d].status)
    ensures Snapshot(m)[d].status != Pending
    ensures Snapshot(m)[d].(status := m[d].status) == m[d]
  {
  }

  /**
   * One merge step for a domain found in both the snapshot and the timing
   * data: duration from the timing record; size from it only when the
   * tracker had none or a non-positive one and the timing size is positive;
   * throughput only when size and duration are both positive.
   */
  function MergeEntry(target: DomainEntry, perf: Timing.TimingRecord): (r: DomainEntry)
    ensures r.url == target.url && r.status == target.status
    ensures r.duration == Some(perf.duration as int)
    ensures r.size == (if (target.size.None? || target.size.value <= 0) && perf.size > 0 then Some(perf.size as int) else target.size)
    ensures r.size.Some? && r.size.value > 0 && perf.duration > 0 ==>
      r.speedKBps == Some(SpeedTenths(r.size.value, perf.duration))
    ensures !(r.size.Some? && r.size.value > 0 && perf.duration > 0) ==> r.speedKBps == target.speedKBps
  {
    var size := if (target.size.None? || target.size.value <= 0) && perf.size > 0 then Some(perf.size as int) else target.size;
    var speed := if size.Some? && size.value > 0 && perf.duration > 0
      then Some(SpeedTenths(size.value, perf.duration)) else target.speedKBps;
    target.(duration := Some(perf.duration as int), size := size, speedKBps := speed)
  }

  /** The snapshot after the merge loop: only domains present in both maps change. */
  function MergeAll(info: DomainMap, perf: map<string, Timing.TimingRecord>): DomainMap {
    map d | d in info :: if d in perf then MergeEntry(info[d], perf[d]) else info[d]
  }

  /**
   * The `for (const d in perfInfo)` loop, updating the snapshot's entries in
   * place (here: a map that is reassigned).
   */
  method MergeTiming(info: DomainMap, perf: map<string, Timing.TimingRecord>) returns (merged: DomainMap)
    ensures merged == MergeAll(info, perf)
  {
    merged := info;
    var todo := perf.Keys;
    while todo != {}
      invariant todo <= perf.Keys
      invariant merged.Keys == info.Keys
      invariant forall d :: d in info ==>
        merged[d] == if d in perf && d !in todo then MergeEntry(info[d], perf[d]) else info[d]
      decreases todo
    {
      var d :| d in todo;
      if d in merged {
        merged := merged[d := MergeEntry(merged[d], perf[d])];
      }
      todo := todo - {d};
    }
  }

  /** `buildDomainToInfoForTab`: None when the tab has no domain map, else its snapshot. */
  function SnapshotOf(tabs: TabMap, tabId: int): (r: Option<DomainMap>)
    ensures r.Some? <==> tabId in tabs
    ensures r.Some? ==> r.value == Snapshot(tabs[tabId]) && r.value.Keys == tabs[tabId].Keys
    ensures r.Some? ==> forall d :: d in r.value ==> r.value[d].status != Pending
  {
    if tabId in tabs then Some(Snapshot(tabs[tabId])) else None
  }

  /**
   * What `runPhase` returns after the timing data arrived: the merged
   * snapshot when both are present, the snapshot alone when the page sent
   * nothing, and an empty map (`info || {}`) when the tab had no map.
   */
  function PhaseInfo(info: Option<DomainMap>, perf: Option<map<string, Timing.TimingRecord>>): DomainMap {
    if info.None? then map[]
    else if perf.None? then info.value
    else MergeAll(info.value, perf.value)
  }

  /** One element of the report's `tests` array. */
  function ToTestItem(domain: string, e: DomainEntry): (r: TestItem)
    ensures r.domain == domain && r.url == e.url
    ensures r.direct.status == e.status && r.direct.duration == e.duration
    ensures r.direct.size == e.size && r.direct.speedKBps == e.speedKBps
  {
    TestItem(domain, e.url, Measurement(e.status, e.duration, e.size, e.speedKBps))
  }

  /** `tests` lists every domain of info except the main domain, once each, in any order. */
  predicate IsReportOf(info: DomainMap, mainDomain: string, tests: seq<TestItem>) {
    && (forall i :: 0 <= i < |tests| ==>
          tests[i].domain in info && tests[i].domain != mainDomain &&
          tests[i] == ToTestItem(tests[i].domain, info[tests[i].domain]))
    && (forall d :: d in info && d != mainDomain ==> exists i :: 0 <= i < |tests| && tests[i].domain == d)
    && (forall i, j :: 0 <= i < j < |tests| ==> tests[i].domain != tests[j].domain)
  }

  /** The loop of `testDomains` that pushes one item per non-main domain. */
  method BuildTestItems(info: DomainMap, mainDomain: string) returns (tests: seq<TestItem>)
    ensures IsReportOf(info, mainDomain, tests)
  {
    tests := [];
    var todo := info.Keys;
    while todo != {}
      invariant todo <= info.Keys
      invariant forall i :: 0 <= i < |tests| ==>
        tests[i].domain in info && tests[i].domain !in todo && tests[i].domain != mainDomain &&
        tests[i] == ToTestItem(tests[i].domain, info[tests[i].domain])
      invariant forall d :: d in info && d !in todo && d != mainDomain ==>
        exists i :: 0 <= i < |tests| && tests[i].domain == d
      invariant forall i, j :: 0 <= i < j < |tests| ==> tests[i].domain != tests[j].domain
      decreases todo
    {
      var d :| d in todo;
      if d != mainDomain {
        ghost var prev := tests;
        tests := tests + [ToTestItem(d, info[d])];
        assert forall k :: 0 <= k < |prev| ==> tests[k] == prev[k];
        assert tests[|tests| - 1].domain == d;
      }
      todo := todo - {d};
    }
  }

  /** The report never lists the page's own domain, and lists each other domain exactly once. */
  lemma ReportExcludesMainDomain(info: DomainMap, mainDomain: string, tests: seq<TestItem>)
    requires IsReportOf(info, mainDomain, tests)
    ensures forall i :: 0 <= i < |tests| ==> tests[i].domain != mainDomain
    ensures |tests| == |info.Keys - {mainDomain}|
  {
    var doms := set i | 0 <= i < |tests| :: tests[i].domain;
    assert doms == info.Keys - {mainDomain};
    DistinctDomainsCount(tests);
  }

  lemma {:induction false} DistinctDomainsCount(tests: seq<TestItem>)
    requires forall i, j :: 0 <= i < j < |tests| ==> tests[i].domain != tests[j].domain
    ensures |set i | 0 <= i < |tests| :: tests[i].domain| == |tests|
  {
    if tests != [] {
      var rest := tests[..|tests| - 1];
      DistinctDomainsCount(rest);
      var last := tests[|tests| - 1].domain;
      assert (set i | 0 <= i < |tests| :: tests[i].domain) ==
             (set i | 0 <= i < |rest| :: rest[i].domain) + {last};
      assert last !in (set i | 0 <= i < |rest| :: rest[i].domain);
    }
  }

  /**
   * In the report built from a well-formed tracker, every size is positive
   * and a throughput is present exactly when the domain got a positive size
   * and a positive duration from the merge, in which case it is their rate.
   */
  lemma ReportMeasurementsConsistent(tabs: TabMap, tabId: int, perf: Option<map<string, Timing.TimingRecord>>,
                                     d: string)
    requires WellFormedTabs(tabs)
    requires d in PhaseInfo(SnapshotOf(tabs, tabId), perf)
    ensures var e := PhaseInfo(SnapshotOf(tabs, tabId), perf)[d];
      && (e.size.Some? ==> e.size.value > 0)
      && (e.speedKBps.Some? <==> e.size.Some? && e.duration.Some? && e.duration.value > 0)
      && (e.speedKBps.Some? ==> e.speedKBps.value == SpeedTenths(e.size.value, e.duration.value))
      && e.status != Pending
  {
    var m := tabs[tabId];
    assert WellFormedEntry(d, m[d]);
    SnapshotFacts(m, d);
  }

  /**
   * A domain the tracker saw without a size, with an in-page record of 5000
   * bytes in 200 ms, ends with size 5000, duration 200 and 24.4 KB/s.
   */
  lemma MergeBackfillsSize(url: string, status: Status, perfUrl: string)
    ensures MergeEntry(DomainEntry(url, status, None, None, None), Timing.TimingRecord(perfUrl, 200, 5000))
         == DomainEntry(url, status, Some(5000), Some(200), Some(244))
  {
    assert SpeedTenths(5000, 200) == 244;
  }
}
