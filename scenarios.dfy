/**
 * Whole passes of the worker, driven event by event: a stop during the
 * collection window, a second start while a pass runs, and a complete pass
 * over https://example.com that reports one third-party domain, as the popup
 * then shows it.
 */
module Scenarios {
  import opened Common
  import Strings
  import Url
  import Pac
  import Tracker
  import Timing
  import Report
  import Background
  import Popup

  /**
   * A stop that arrives during the first sleep of the collection window:
   * the pass ends without writing a report (the stored record stays as it
   * was), the system proxy is restored, and the stop boundary is the clock
   * at the end of that one sleep.
   */
  method StopWhileCollecting(w: Background.Worker, k: Background.Continuation, t0: int,
                             sleeps: nat -> Background.Sleep, stops: set<nat>,
                             perf: Option<map<string, Timing.TimingRecord>>, now: int)
    requires k.AwaitingLoad? && k.frame.collectMs > 0
    requires w.isTesting && 0 in stops
    modifies w
    ensures w.results == old(w.results) && w.progress == Some(Background.Progress(Background.Collecting, t0))
    ensures !w.isTesting && w.proxy == Some(Pac.SystemMode)
    ensures w.collectStopTime == t0 + sleeps(0)
  {
    var next; ghost var polls;
    next, polls := w.OnLoadSettled(k, Background.LoadCompleted, t0, sleeps, stops);
    Background.StopDuringFirstSleepEndsTheWait(t0, t0 + k.frame.collectMs, sleeps, stops, w.isTesting,
                                               w.collectStopTime, polls);
    w.OnPerfInfo(next.value, perf, now);
  }

  /**
   * A start while a pass runs is refused as busy and changes nothing: no
   * second proxy script is installed.
   */
  method SecondStartIsBusy(w: Background.Worker, url: string, now: int)
    returns (reply: Option<Background.Reply>)
    requires w.isTesting && Url.IsHttpUrl(url)
    requires Background.CheckProxy(w.config.proxyString).Usable?
    modifies w
    ensures reply == Some(Background.Rejected(Background.Busy))
    ensures w.proxy == old(w.proxy) && w.isTesting && w.results == old(w.results)
  {
    var next;
    reply, next := w.HandleMessage(Background.StartTestForPage(Some(url)), now);
  }

  /** A host name as the example uses it: plain characters, already lower-case. */
  predicate PlainHost(h: string) {
    h != [] && (forall k :: 0 <= k < |h| ==> Url.IsPlainHostChar(h[k])) && Strings.Lower(h) == h
  }

  /** The example's hosts are plain host names. */
  lemma ExampleHostsArePlain()
    ensures PlainHost("example.com") && PlainHost("cdn.example.net")
  {
    assert Strings.Lower("example.com") == "example.com";
    assert Strings.Lower("cdn.example.net") == "cdn.example.net";
  }

  /** The example's proxy address has no surrounding white space. */
  lemma ExampleProxyIsTrimmed()
    ensures Strings.Trim("127.0.0.1:7890") == "127.0.0.1:7890"
  {
    Strings.TrimOfTrimmed("127.0.0.1:7890");
  }

  function PageUrl(main: string): string { "https://" + main }
  function DocUrl(main: string): string { "https://" + main + "/" }
  function ScriptUrl(cdn: string): string { "https://" + cdn + "/lib.js" }

  /** A URL "https://" + h + path with a plain host h passes the test and is bucketed under h. */
  lemma HttpsHost(h: string, path: string)
    requires PlainHost(h)
    requires path == [] || Url.IsAuthorityEnd(path[0])
    ensures Url.IsHttpUrl("https://" + h + path)
    ensures Url.HostOf("https://" + h + path) == Some(h)
    ensures Tracker.DomainOf("https://" + h + path) == Some(h)
  {
    var u := "https://" + h + path;
    assert u[..8] == "https://";
    assert Strings.Lower("https://") == "https://";
    Url.HostOfHttpUrl("https://", h, path);
  }

  /** The stored configuration of the example: a proxy, a 5000 ms timeout, a 3000 ms window. */
  function Stored(proxy: string): Config {
    Config(Str(proxy), Num(5000), Num(3000), Bool(true))
  }

  /** The single report item the example pass produces: 200, 100 ms, 2048 bytes, 20.0 KB/s. */
  function CdnItem(cdn: string): TestItem {
    TestItem(cdn, ScriptUrl(cdn), Measurement(Code(200), Some(100), Some(2048), Some(200)))
  }

  /** The stored configuration admits the page and fixes the pass's durations. */
  lemma ExampleAdmitted(main: string, proxy: string)
    requires PlainHost(main) && proxy != [] && Strings.Trim(proxy) == proxy
    ensures Background.Admit(Some(PageUrl(main)), Background.Overlay(Stored(proxy)).proxyString, false)
         == Background.Accept(proxy)
    ensures Url.HostOf(PageUrl(main)) == Some(main)
    ensures Background.EffectiveCollectMs(Background.Overlay(Stored(proxy)).proxyCollectMs) == 3000
    ensures Background.EffectiveTimeoutMs(Background.Overlay(Stored(proxy)).timeoutMs) == 5000
  {
    HttpsHost(main, "");
    assert PageUrl(main) == "https://" + main + "";
  }

  /** The cdn response: status 200 and a content-length of 2048. */
  lemma ExampleResponse()
    ensures Tracker.ResponseSize(Some(200), Some([Tracker.Header("Content-Length", Some(2048))])) == Some(2048)
    ensures Tracker.FinishStatus(Some(200), None) == Code(200)
  {
    assert Strings.Lower("Content-Length") == "content-length";
  }

  /**
   * The tab's domain map when the load completes: both domains seeded by
   * their first request, the page's document finished with 200, and the
   * cdn script finished with 200 and 2048 bytes.
   */
  function ExampleDomains(main: string, cdn: string): Tracker.DomainMap {
    map[main := Tracker.DomainEntry(DocUrl(main), Code(200), None, None, None),
        cdn := Tracker.DomainEntry(ScriptUrl(cdn), Code(200), Some(2048), None, None)]
  }

  /** The in-page timing records: the document took 800 ms, the script 100 ms. */
  function ExamplePerf(main: string, cdn: string): map<string, Timing.TimingRecord> {
    map[main := Timing.TimingRecord(DocUrl(main), 800, 5000),
        cdn := Timing.TimingRecord(ScriptUrl(cdn), 100, 2048)]
  }

  /**
   * The merged snapshot reports the cdn host with 200, 100 ms, 2048 bytes
   * and 20.0 KB/s; the only report that lists every domain but the page's
   * own is that single item.
   */
  lemma ExampleReport(main: string, cdn: string, tests: seq<TestItem>)
    requires main != cdn
    requires Report.IsReportOf(Report.PhaseInfo(Some(Report.Snapshot(ExampleDomains(main, cdn))),
                                                Some(ExamplePerf(main, cdn))), main, tests)
    ensures tests == [CdnItem(cdn)]
  {
    var info := Report.PhaseInfo(Some(Report.Snapshot(ExampleDomains(main, cdn))), Some(ExamplePerf(main, cdn)));
    var script := Tracker.DomainEntry(ScriptUrl(cdn), Code(200), Some(2048), Some(100), Some(200));
    ExampleMerged(main, cdn);
    OnlyOtherDomainReported(info, main, cdn, tests);
    assert Report.ToTestItem(cdn, script) == CdnItem(cdn);
  }

  /** Merging the timing records gives the cdn entry its 100 ms and 20.0 KB/s. */
  lemma ExampleMerged(main: string, cdn: string)
    requires main != cdn
    ensures var info := Report.PhaseInfo(Some(Report.Snapshot(ExampleDomains(main, cdn))), Some(ExamplePerf(main, cdn)));
      && info.Keys == {main, cdn}
      && info[cdn] == Tracker.DomainEntry(ScriptUrl(cdn), Code(200), Some(2048), Some(100), Some(200))
  {
    assert SpeedTenths(2048, 100) == 200;
  }

  /** A report of a map with one domain besides the main one is that domain's single item. */
  lemma OnlyOtherDomainReported(info: Tracker.DomainMap, main: string, d: string, tests: seq<TestItem>)
    requires main != d && info.Keys == {main, d}
    requires Report.IsReportOf(info, main, tests)
    ensures tests == [Report.ToTestItem(d, info[d])]
  {
    Report.ReportExcludesMainDomain(info, main, tests);
    assert info.Keys - {main} == {d};
    assert |tests| == 1;
    assert tests[0].domain == d;
  }

  /**
   * The complete pass: the worker reads the stored configuration, accepts a
   * start for https://<main>, opens tab 7, sees the document and a script
   * from the cdn host load, waits out the 3000 ms window without a stop,
   * merges the page's timing records and ends the pass. The stored report
   * lists the cdn host alone (the page's own domain is left out), with
   * status 200, 100 ms, 2048 bytes and 20.0 KB/s, and the system proxy is
   * back. With main "example.com", cdn "cdn.example.net" and proxy
   * "127.0.0.1:7890" (see ExampleHostsArePlain and ExampleProxyIsTrimmed)
   * this is the pass over https://example.com.
   */
  method ExamplePass(main: string, cdn: string, proxy: string) returns (w: Background.Worker)
    requires PlainHost(main) && PlainHost(cdn) && main != cdn
    requires proxy != [] && Strings.Trim(proxy) == proxy
    ensures !w.isTesting && w.proxy == Some(Pac.SystemMode)
    ensures w.results == Some(Results(Done, PageUrl(main), [CdnItem(cdn)]))
    ensures w.removedTabs == [7]
  {
    w := new Background.Worker();
    var k := ExampleStart(w, main, proxy);
    ExampleUrls(main, cdn);
    ExampleCollected(w, k, main, cdn);
  }

  /** From the opened tab to the end of the pass: traffic, the window, the timing data. */
  method ExampleCollected(w: Background.Worker, k: Background.Continuation, main: string, cdn: string)
    requires UrlsBucketed(main, cdn) && main != cdn
    requires w.Valid() && w.isTesting && w.collectStopTime == 0
    requires w.domainResultsByTab == map[] && w.removedTabs == []
    requires k == Background.AwaitingLoad(Background.Frame(PageUrl(main), main, 3000, 5000), 7)
    modifies w
    ensures !w.isTesting && w.proxy == Some(Pac.SystemMode)
    ensures w.results == Some(Results(Done, PageUrl(main), [CdnItem(cdn)]))
    ensures w.removedTabs == [7]
  {
    ExampleTraffic(w, main, cdn);
    var next := ExampleSettled(w, k, main, cdn);
    ExampleFinished(w, next, main, cdn);
  }

  /** The load completes at 1800 ms and the 3000 ms window runs out without a stop. */
  method ExampleSettled(w: Background.Worker, k: Background.Continuation, main: string, cdn: string)
    returns (next: Background.Continuation)
    requires w.isTesting && w.domainResultsByTab == map[7 := ExampleDomains(main, cdn)]
    requires k == Background.AwaitingLoad(Background.Frame(PageUrl(main), main, 3000, 5000), 7)
    modifies w`isTesting, w`proxy, w`results, w`progress, w`removedTabs, w`collectStopTime
    ensures w.isTesting && w.removedTabs == old(w.removedTabs)
    ensures next == Background.AwaitingPerf(k.frame, 7, Some(Report.Snapshot(ExampleDomains(main, cdn))))
  {
    var sleeps: nat -> Background.Sleep := _ => 200;
    var settled; ghost var polls;
    settled, polls := w.OnLoadSettled(k, Background.LoadCompleted, 1800, sleeps, {});
    Background.WaitWithoutStopsRunsTheWindow(1800, 4800, sleeps, w.isTesting, w.collectStopTime, polls);
    next := settled.value;
  }

  /** The page's timing data arrives and the pass stores its single-item report. */
  method ExampleFinished(w: Background.Worker, next: Background.Continuation, main: string, cdn: string)
    requires main != cdn && w.isTesting && w.removedTabs == []
    requires next == Background.AwaitingPerf(Background.Frame(PageUrl(main), main, 3000, 5000), 7,
                                             Some(Report.Snapshot(ExampleDomains(main, cdn))))
    modifies w`isTesting, w`proxy, w`results, w`progress, w`removedTabs, w`currentTestTabId
    ensures !w.isTesting && w.proxy == Some(Pac.SystemMode)
    ensures w.results == Some(Results(Done, PageUrl(main), [CdnItem(cdn)]))
    ensures w.removedTabs == [7]
  {
    w.OnPerfInfo(next, Some(ExamplePerf(main, cdn)), 4900);
    ExampleReport(main, cdn, w.results.value.tests);
  }

  /** The configuration is read and the start message accepted. */
  method ExampleAccepted(w: Background.Worker, main: string, proxy: string) returns (k: Background.Continuation)
    requires PlainHost(main) && proxy != [] && Strings.Trim(proxy) == proxy
    requires !w.isTesting
    modifies w`config, w`syncConfig, w`isTesting, w`proxy, w`results, w`progress, w`collectStopTime
    ensures w.isTesting && w.collectStopTime == 0
    ensures k == Background.AwaitingTab(Background.Frame(PageUrl(main), main, 3000, 5000))
  {
    w.OnStoredConfigLoaded(Some(Stored(proxy)));
    var reply, next := w.HandleMessage(Background.StartTestForPage(Some(PageUrl(main))), 1000);
    ExampleAdmitted(main, proxy);
    k := next.value;
  }

  /** The configuration is read, the start message accepted and tab 7 opened. */
  method ExampleStart(w: Background.Worker, main: string, proxy: string) returns (k: Background.Continuation)
    requires PlainHost(main) && proxy != [] && Strings.Trim(proxy) == proxy
    requires w.Valid() && !w.isTesting && w.domainResultsByTab == map[] && w.removedTabs == []
    modifies w
    ensures w.Valid() && w.isTesting && w.collectStopTime == 0
    ensures w.domainResultsByTab == map[] && w.removedTabs == []
    ensures k == Background.AwaitingLoad(Background.Frame(PageUrl(main), main, 3000, 5000), 7)
  {
    var started := ExampleAccepted(w, main, proxy);
    var next := w.OnTabCreated(started, Some(7), 1000);
    k := next.value;
  }

  /** The tab's domain map once both requests have begun: one pending entry per domain. */
  lemma ExampleSeeded(main: string, cdn: string)
    requires Tracker.DomainOf(DocUrl(main)) == Some(main) && Tracker.DomainOf(ScriptUrl(cdn)) == Some(cdn)
    requires main != cdn
    ensures Tracker.Seed(Tracker.Seed(map[], 7, DocUrl(main)), 7, ScriptUrl(cdn)) ==
      map[7 := map[main := Tracker.NewEntry(DocUrl(main)), cdn := Tracker.NewEntry(ScriptUrl(cdn))]]
  {
    var doc := Tracker.NewEntry(DocUrl(main));
    var once := Tracker.Seed(map[], 7, DocUrl(main));
    Tracker.SeedSteps(map[], 7, DocUrl(main), main);
    ReplaceOnly(7, map[], map[main := doc]);
    Tracker.SeedSteps(once, 7, ScriptUrl(cdn), cdn);
    ReplaceOnly(7, map[main := doc], map[main := doc][cdn := Tracker.NewEntry(ScriptUrl(cdn))]);
  }

  /** The page's document URL and the cdn script URL pass the http(s) test and are bucketed under their hosts. */
  predicate UrlsBucketed(main: string, cdn: string) {
    && Url.IsHttpUrl(DocUrl(main)) && Tracker.DomainOf(DocUrl(main)) == Some(main)
    && Url.IsHttpUrl(ScriptUrl(cdn)) && Tracker.DomainOf(ScriptUrl(cdn)) == Some(cdn)
  }

  /** Both example URLs pass the http(s) test and are bucketed under their hosts. */
  lemma ExampleUrls(main: string, cdn: string)
    requires PlainHost(main) && PlainHost(cdn)
    ensures UrlsBucketed(main, cdn)
  {
    HttpsHost(main, "/");
    HttpsHost(cdn, "/lib.js");
    assert DocUrl(main) == "https://" + main + "/";
    assert ScriptUrl(cdn) == "https://" + cdn + "/lib.js";
  }

  /** The tab's domain map once the script has finished with 200 and 2048 bytes. */
  function ScriptDone(main: string, cdn: string): Tracker.TabMap {
    map[7 := map[main := Tracker.NewEntry(DocUrl(main)),
                 cdn := Tracker.DomainEntry(ScriptUrl(cdn), Code(200), Some(2048), None, None)]]
  }

  /** The script completes first, with status 200 and a content-length of 2048. */
  lemma ExampleScriptFinished(main: string, cdn: string, ev: Tracker.FinishEvent)
    requires Tracker.DomainOf(ScriptUrl(cdn)) == Some(cdn) && main != cdn
    requires ev == Tracker.FinishEvent("2", 1200, Some(200), None, Some([Tracker.Header("Content-Length", Some(2048))]))
    ensures Tracker.Complete(
              map[7 := map[main := Tracker.NewEntry(DocUrl(main)), cdn := Tracker.NewEntry(ScriptUrl(cdn))]],
              Tracker.TrackedRequest(7, ScriptUrl(cdn), 1100), ev)
         == ScriptDone(main, cdn)
  {
    var domains := map[main := Tracker.NewEntry(DocUrl(main)), cdn := Tracker.NewEntry(ScriptUrl(cdn))];
    ExampleResponse();
    assert domains[cdn] == Tracker.NewEntry(ScriptUrl(cdn));
    CompleteKnownDomain(map[7 := domains], Tracker.TrackedRequest(7, ScriptUrl(cdn), 1100), ev, cdn);
    var done := Tracker.Finished(Tracker.NewEntry(ScriptUrl(cdn)), Code(200), Some(2048));
    UpdateSecond(main, cdn, Tracker.NewEntry(DocUrl(main)), Tracker.NewEntry(ScriptUrl(cdn)), done);
    ReplaceOnly(7, domains, domains[cdn := done]);
  }

  /** Then the document completes with status 200 and no content-length. */
  lemma ExampleDocumentFinished(main: string, cdn: string, ev: Tracker.FinishEvent)
    requires Tracker.DomainOf(DocUrl(main)) == Some(main) && main != cdn
    requires ev == Tracker.FinishEvent("1", 1700, Some(200), None, Some([]))
    ensures Tracker.Complete(ScriptDone(main, cdn), Tracker.TrackedRequest(7, DocUrl(main), 1010), ev)
         == map[7 := ExampleDomains(main, cdn)]
  {
    var script := Tracker.DomainEntry(ScriptUrl(cdn), Code(200), Some(2048), None, None);
    var domains := map[main := Tracker.NewEntry(DocUrl(main)), cdn := script];
    assert Tracker.ResponseSize(Some(200), Some([])) == None;
    assert domains[main] == Tracker.NewEntry(DocUrl(main));
    CompleteKnownDomain(map[7 := domains], Tracker.TrackedRequest(7, DocUrl(main), 1010), ev, main);
    var done := Tracker.Finished(Tracker.NewEntry(DocUrl(main)), Code(200), None);
    UpdateFirst(main, cdn, Tracker.NewEntry(DocUrl(main)), script, done);
    ReplaceOnly(7, domains, domains[main := done]);
  }

  /** Updating the first key of a two-key map display. */
  lemma UpdateFirst<K, V>(a: K, b: K, x: V, y: V, z: V)
    requires a != b
    ensures map[a := x, b := y][a := z] == map[a := z, b := y]
  {
  }

  /** Updating the second key of a two-key map display. */
  lemma UpdateSecond<K, V>(a: K, b: K, x: V, y: V, z: V)
    requires a != b
    ensures map[a := x, b := y][b := z] == map[a := x, b := z]
  {
  }

  /** Replacing the value of a one-key map display. */
  lemma ReplaceOnly<K, V>(k: K, x: V, y: V)
    ensures map[k := x][k := y] == map[k := y]
  {
  }

  /** A finish for a domain the tab already has updates that one entry. */
  lemma CompleteKnownDomain(tabs: Tracker.TabMap, req: Tracker.TrackedRequest, ev: Tracker.FinishEvent, d: string)
    requires req.tabId in tabs && Tracker.DomainOf(req.url) == Some(d) && d in tabs[req.tabId]
    ensures Tracker.Complete(tabs, req, ev) ==
      tabs[req.tabId := tabs[req.tabId][d := Tracker.Finished(tabs[req.tabId][d],
        Tracker.FinishStatus(ev.statusCode, ev.error), Tracker.ResponseSize(ev.statusCode, ev.responseHeaders))]]
  {
  }

  /** The document and the script begin inside the window. */
  method ExampleRequestsBegin(w: Background.Worker, main: string, cdn: string)
    requires UrlsBucketed(main, cdn) && main != cdn
    requires w.Valid() && w.collectStopTime == 0 && w.domainResultsByTab == map[]
    modifies w`requestStartById, w`domainResultsByTab
    ensures w.Valid()
    ensures w.domainResultsByTab ==
      map[7 := map[main := Tracker.NewEntry(DocUrl(main)), cdn := Tracker.NewEntry(ScriptUrl(cdn))]]
    ensures w.requestStartById == old(w.requestStartById)["1" := Tracker.TrackedRequest(7, DocUrl(main), 1010)]
                                                         ["2" := Tracker.TrackedRequest(7, ScriptUrl(cdn), 1100)]
  {
    w.OnBeforeRequest("1", 7, DocUrl(main), 1010);
    w.OnBeforeRequest("2", 7, ScriptUrl(cdn), 1100);
    ExampleSeeded(main, cdn);
  }

  /** The document and the script begin and finish inside the window. */
  method ExampleTraffic(w: Background.Worker, main: string, cdn: string)
    requires UrlsBucketed(main, cdn) && main != cdn
    requires w.Valid() && w.collectStopTime == 0 && w.domainResultsByTab == map[]
    modifies w`requestStartById, w`domainResultsByTab
    ensures w.Valid() && w.domainResultsByTab == map[7 := ExampleDomains(main, cdn)]
  {
    ExampleRequestsBegin(w, main, cdn);
    ExampleScriptCompletes(w, main, cdn);
    ExampleDocumentCompletes(w, main, cdn);
  }

  /** The script's request "2" completes first, with 200 and 2048 bytes. */
  method ExampleScriptCompletes(w: Background.Worker, main: string, cdn: string)
    requires UrlsBucketed(main, cdn) && main != cdn
    requires w.Valid() && w.collectStopTime == 0
    requires w.domainResultsByTab ==
      map[7 := map[main := Tracker.NewEntry(DocUrl(main)), cdn := Tracker.NewEntry(ScriptUrl(cdn))]]
    requires "1" in w.requestStartById && w.requestStartById["1"] == Tracker.TrackedRequest(7, DocUrl(main), 1010)
    requires "2" in w.requestStartById && w.requestStartById["2"] == Tracker.TrackedRequest(7, ScriptUrl(cdn), 1100)
    modifies w`requestStartById, w`domainResultsByTab
    ensures w.Valid() && w.domainResultsByTab == ScriptDone(main, cdn)
    ensures "1" in w.requestStartById && w.requestStartById["1"] == Tracker.TrackedRequest(7, DocUrl(main), 1010)
  {
    var ev := Tracker.FinishEvent("2", 1200, Some(200), None, Some([Tracker.Header("Content-Length", Some(2048))]));
    w.OnRequestFinished(ev);
    ExampleScriptFinished(main, cdn, ev);
  }

  /** Then the document's request "1" completes with 200 and no content-length. */
  method ExampleDocumentCompletes(w: Background.Worker, main: string, cdn: string)
    requires UrlsBucketed(main, cdn) && main != cdn
    requires w.Valid() && w.collectStopTime == 0 && w.domainResultsByTab == ScriptDone(main, cdn)
    requires "1" in w.requestStartById && w.requestStartById["1"] == Tracker.TrackedRequest(7, DocUrl(main), 1010)
    modifies w`requestStartById, w`domainResultsByTab
    ensures w.Valid() && w.domainResultsByTab == map[7 := ExampleDomains(main, cdn)]
  {
    var ev := Tracker.FinishEvent("1", 1700, Some(200), None, Some([]));
    w.OnRequestFinished(ev);
    ExampleDocumentFinished(main, cdn, ev);
  }

  /** The popup shows the example's report as one row: 200, 100 ms, 2 KB, 20 KB/s. */
  lemma ExampleRendered(main: string, cdn: string)
    ensures Popup.ViewOf(Some(Popup.StoredResults(Results(Done, PageUrl(main), [CdnItem(cdn)])))) ==
      Popup.Table(false, PageUrl(main), [Popup.RowView(cdn, Some(ScriptUrl(cdn)), Popup.Ok200, "100", "2", "20")])
  {
    var stored := Popup.StoredResults(Results(Done, PageUrl(main), [CdnItem(cdn)]));
    var row := Popup.StoredRow(CdnItem(cdn));
    assert stored.tests == [row];
    assert Popup.SortRows([row]) == [row] by {
      assert [row][..0] == [];
    }
    ExampleRowRendered(cdn);
  }

  /** The cdn item's row shows 200 as OK, 100 ms, 2 KB and 20 KB/s. */
  lemma ExampleRowRendered(cdn: string)
    ensures Popup.RenderRow(Popup.StoredRow(CdnItem(cdn))) ==
      Popup.RowView(cdn, Some(ScriptUrl(cdn)), Popup.Ok200, "100", "2", "20")
  {
    assert KiloTenths(2048) == 20;
    ExampleTexts();
  }

  /** The decimal texts the example row shows. */
  lemma ExampleTexts()
    ensures Strings.NatToString(2) == "2" && Strings.NatToString(20) == "20" && Strings.NatToString(100) == "100"
  {
    assert Strings.NatToString(2) == "2";
    assert Strings.NatToString(20) == "20" by {
      assert Strings.NatToString(20) == Strings.NatToString(2) + ['0'];
    }
    assert Strings.NatToString(100) == "100" by {
      assert Strings.NatToString(10) == Strings.NatToString(1) + ['0'];
      assert Strings.NatToString(100) == Strings.NatToString(10) + ['0'];
    }
  }
}
