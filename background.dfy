/**
 * The background worker of background.js: the module-level state, the
 * network-event listeners that feed the request tracker, the start and stop
 * messages, and one measurement pass cut at its await points.
 *
 * A pass is driven by the caller, which plays the browser: it calls
 * `HandleMessage` with a start message, then `OnTabCreated` when the tab
 * exists, `OnLoadSettled` when the page-load race resolved and
 * `OnPerfInfo` when the page answered with its timing data, handing back the
 * continuation each step returned. Network events, navigations, tab
 * closures and further messages may be delivered between any two steps.
 */
module Background {
  import opened Common
  import Strings
  import Url
  import Pac
  import opened Tracker
  import Timing
  import Report

  /** A stored record with no keys at all. */
  const EmptyConfig: Config := Config(Absent, Absent, Absent, Absent)

  function OrDefault(v: Value, default: Value): Value {
    if v.Absent? then default else v
  }

  /** `{ ...DEFAULT_CONFIG, ...stored }`: a key the stored record lacks keeps its default. */
  function Overlay(stored: Config): (r: Config)
    ensures r.proxyString != Absent && r.timeoutMs != Absent && r.proxyCollectMs != Absent && r.disableCache != Absent
    ensures stored.proxyString != Absent ==> r.proxyString == stored.proxyString
    ensures stored.timeoutMs != Absent ==> r.timeoutMs == stored.timeoutMs
    ensures stored.proxyCollectMs != Absent ==> r.proxyCollectMs == stored.proxyCollectMs
    ensures stored.disableCache != Absent ==> r.disableCache == stored.disableCache
    ensures stored.proxyString == Absent ==> r.proxyString == DefaultConfig.proxyString
    ensures stored.timeoutMs == Absent ==> r.timeoutMs == DefaultConfig.timeoutMs
    ensures stored.proxyCollectMs == Absent ==> r.proxyCollectMs == DefaultConfig.proxyCollectMs
    ensures stored.disableCache == Absent ==> r.disableCache == DefaultConfig.disableCache
  {
    Config(OrDefault(stored.proxyString, DefaultConfig.proxyString),
           OrDefault(stored.timeoutMs, DefaultConfig.timeoutMs),
           OrDefault(stored.proxyCollectMs, DefaultConfig.proxyCollectMs),
           OrDefault(stored.disableCache, DefaultConfig.disableCache))
  }

  /** Overlaying twice is overlaying once, and an empty record gives the defaults. */
  lemma OverlayIdempotent(stored: Config)
    ensures Overlay(Overlay(stored)) == Overlay(stored)
    ensures Overlay(EmptyConfig) == DefaultConfig
  {
  }

  /** The collection window of a pass: a stored number that is at least 0, else 3000 ms. */
  function EffectiveCollectMs(v: Value): (ms: nat)
    ensures v.Num? && v.n >= 0 ==> ms == v.n
    ensures !(v.Num? && v.n >= 0) ==> ms == DefaultCollectMs
  {
    if v.Num? && v.n >= 0 then v.n else DefaultCollectMs
  }

  /** The page-load timeout of a pass: a stored positive number, else 5000 ms; never 0. */
  function EffectiveTimeoutMs(v: Value): (ms: nat)
    ensures ms > 0
    ensures v.Num? && v.n > 0 ==> ms == v.n
    ensures !(v.Num? && v.n > 0) ==> ms == DefaultTimeoutMs
  {
    if v.Num? && v.n > 0 then v.n else DefaultTimeoutMs
  }

  /**
   * The test `!proxyString || !proxyString.trim()`: Blank when it holds,
   * Usable when the value is a string with a non-blank trim, and NotText when
   * the value is truthy but not a string, where calling `trim` throws.
   */
  datatype ProxyCheck = Blank | Usable(proxy: string) | NotText

  function CheckProxy(v: Value): (r: ProxyCheck)
    ensures r.Blank? <==> !Truthy(v) || (v.Str? && Strings.Trim(v.s) == "")
    ensures r.Usable? ==> v == Str(r.proxy) && Strings.Trim(r.proxy) != ""
    ensures r.NotText? <==> Truthy(v) && !v.Str?
  {
    if !Truthy(v) then Blank
    else match v
      case Str(s) => if Strings.Trim(s) == "" then Blank else Usable(s)
      case _ => NotText
  }

  datatype StartError = InvalidUrl | NoProxy | Busy

  /** How the start handler treats a request: refused with an error, throwing, or accepted. */
  datatype Admission = Refuse(error: StartError) | Throws | Accept(proxy: string)

  /**
   * The checks of the start handler, in their order: the URL must be an
   * http(s) URL, then the proxy must be set, then no pass may be running.
   */
  function Admit(url: Option<string>, proxyString: Value, busy: bool): (r: Admission)
    ensures r == Refuse(InvalidUrl) <==> url.None? || !Url.IsHttpUrl(url.value)
    ensures r == Refuse(NoProxy) <==> url.Some? && Url.IsHttpUrl(url.value) && CheckProxy(proxyString).Blank?
    ensures r.Throws? <==> url.Some? && Url.IsHttpUrl(url.value) && CheckProxy(proxyString).NotText?
    ensures r == Refuse(Busy) <==> url.Some? && Url.IsHttpUrl(url.value) && CheckProxy(proxyString).Usable? && busy
    ensures r.Accept? <==> url.Some? && Url.IsHttpUrl(url.value) && CheckProxy(proxyString).Usable? && !busy
    ensures r.Accept? ==> proxyString == Str(r.proxy)
  {
    if url.None? || !Url.IsHttpUrl(url.value) then Refuse(InvalidUrl)
    else match CheckProxy(proxyString)
      case Blank => Refuse(NoProxy)
      case NotText => Throws
      case Usable(p) => if busy then Refuse(Busy) else Accept(p)
  }

  datatype Message = StopTest | StartTestForPage(url: Option<string>) | OtherMessage

  /** The `sendResponse` payload: `{ok: true}` or `{ok: false, error}`. */
  datatype Reply = Ok | Rejected(error: StartError)

  datatype Phase = Loading | Collecting | PhaseDone

  /** The `progress` record kept in local storage. */
  datatype Progress = Progress(phase: Phase, startedAt: int)

  /** How the page-load race resolved; `LoadAborted` is the poll that saw the flag cleared. */
  datatype LoadOutcome = LoadCompleted | LoadError | LoadTimeout | LoadAborted

  /** The locals of a pass fixed when it starts. */
  datatype Frame = Frame(pageUrl: string, mainDomain: string, collectMs: nat, timeoutMs: nat)

  /** Where a pass is suspended, with the locals it resumes with. */
  datatype Continuation =
    | AwaitingTab(frame: Frame)
    | AwaitingLoad(frame: Frame, tabId: int)
    | AwaitingPerf(frame: Frame, tabId: int, info: Option<DomainMap>)

  /** One 200 ms sleep of the collection wait, as long as the timer actually took. */
  type Sleep = ms: int | ms >= 200 witness 200

  /** The clock advance after the first n sleeps. */
  function Elapsed(sleeps: nat -> Sleep, n: nat): (t: int)
    ensures t >= 200 * n
  {
    if n == 0 then 0 else Elapsed(sleeps, n - 1) + sleeps(n - 1)
  }

  /** The flag is still set at the check before sleep n: no stop arrived during the earlier sleeps. */
  predicate StillTesting(testing: bool, stops: set<nat>, n: nat) {
    if n == 0 then testing else StillTesting(testing, stops, n - 1) && n - 1 !in stops
  }

  /** The flag survives the first n sleeps exactly when it was set and none of them saw a stop. */
  lemma {:induction false} StillTestingMeansNoStop(testing: bool, stops: set<nat>, n: nat)
    ensures StillTesting(testing, stops, n) <==> testing && forall j :: 0 <= j < n ==> j !in stops
  {
    if n > 0 {
      StillTestingMeansNoStop(testing, stops, n - 1);
    }
  }

  /** The collection wait never polls more than once per 200 ms of the window, plus one. */
  lemma {:induction false} PollBound(sleeps: nat -> Sleep, window: int, polls: nat)
    requires polls > 0 && Elapsed(sleeps, polls - 1) < window
    ensures polls <= window / 200 + 1
  {
    assert Elapsed(sleeps, polls - 1) >= 200 * (polls - 1);
  }

  /**
   * The collection wait from `start` ended at `end` after `polls` sleeps:
   * every earlier check found the clock before `endWait` and the flag set,
   * the last check found the clock at or past it or the flag cleared, and
   * the flag is then set exactly when no stop arrived during those sleeps.
   */
  predicate WaitEnded(start: int, endWait: int, sleeps: nat -> Sleep, stops: set<nat>,
                      before: bool, after: bool, end: int, polls: nat) {
    && end == start + Elapsed(sleeps, polls)
    && (forall j :: 0 <= j < polls ==> start + Elapsed(sleeps, j) < endWait && StillTesting(before, stops, j))
    && (end >= endWait || !StillTesting(before, stops, polls))
    && after == StillTesting(before, stops, polls)
  }

  /**
   * Without a stop the wait lasts the whole window, overshooting it by less
   * than the last sleep, and the flag stays set.
   */
  lemma WaitWithoutStopsRunsTheWindow(start: int, endWait: int, sleeps: nat -> Sleep, after: bool, end: int, polls: nat)
    requires WaitEnded(start, endWait, sleeps, {}, true, after, end, polls)
    ensures after && end >= endWait
    ensures polls > 0 ==> end < endWait + sleeps(polls - 1)
  {
    StillTestingMeansNoStop(true, {}, polls);
  }

  /**
   * A stop that arrives during the first sleep of a non-empty window ends the
   * wait right after that sleep, with the flag cleared.
   */
  lemma StopDuringFirstSleepEndsTheWait(start: int, endWait: int, sleeps: nat -> Sleep, stops: set<nat>,
                                        after: bool, end: int, polls: nat)
    requires WaitEnded(start, endWait, sleeps, stops, true, after, end, polls)
    requires 0 in stops && start < endWait
    ensures !after && polls == 1 && end == start + sleeps(0)
  {
    assert StillTesting(true, stops, 0) && Elapsed(sleeps, 0) == 0;
    assert polls >= 1;
    assert !StillTesting(true, stops, 1);
    assert polls == 1;
  }

  class Worker {
    var config: Config
    var isTesting: bool
    var requestStartById: map<string, TrackedRequest>
    var domainResultsByTab: TabMap
    var collectStopTime: int
    var currentTestTabId: Option<int>
    /** The last proxy setting the worker applied; None before the first. */
    var proxy: Option<Pac.ProxySettings>
    /** The `results` and `progress` records last written to local storage. */
    var results: Option<Results>
    var progress: Option<Progress>
    /** The tabs the worker closed, in order. */
    var removedTabs: seq<int>
    /** The `proxyConfig` record the worker last wrote to sync storage; None while it wrote none. */
    var syncConfig: Option<Config>

    /** What the tracker keeps true between events. */
    predicate Valid()
      reads this`requestStartById, this`domainResultsByTab
    {
      WellFormedRequests(requestStartById) && WellFormedTabs(domainResultsByTab)
    }

    constructor()
      ensures Valid()
      ensures config == DefaultConfig && !isTesting && collectStopTime == 0 && currentTestTabId.None?
      ensures requestStartById == map[] && domainResultsByTab == map[]
      ensures proxy.None? && results.None? && progress.None? && removedTabs == [] && syncConfig.None?
    {
      config := DefaultConfig;
      isTesting := false;
      requestStartById := map[];
      domainResultsByTab := map[];
      collectStopTime := 0;
      currentTestTabId := None;
      proxy := None;
      results := None;
      progress := None;
      removedTabs := [];
      syncConfig := None;
    }

    /**
     * The startup read of `proxyConfig`: a stored record is overlaid on the
     * defaults; with none stored, the defaults are written to sync storage.
     */
    method OnStoredConfigLoaded(stored: Option<Config>)
      modifies this`config, this`syncConfig
      ensures stored.Some? ==> config == Overlay(stored.value) && syncConfig == old(syncConfig)
      ensures stored.None? ==> config == old(config) && syncConfig == Some(DefaultConfig)
    {
      if stored.Some? {
        config := Overlay(stored.value);
      } else {
        syncConfig := Some(DefaultConfig);
      }
    }

    /** A change of `proxyConfig` in sync storage; None is a removed key. */
    method OnConfigChanged(area: string, newValue: Option<Config>)
      modifies this`config
      ensures config == if area == "sync" then Overlay(newValue.GetOr(EmptyConfig)) else old(config)
    {
      if area == "sync" {
        config := Overlay(newValue.GetOr(EmptyConfig));
      }
    }

    /** A top-frame navigation empties its tab's map; sub-frame navigations change nothing. */
    method OnBeforeNavigate(tabId: int, frameId: int)
      requires Valid()
      modifies this`domainResultsByTab
      ensures Valid()
      ensures domainResultsByTab == if frameId == 0 then old(domainResultsByTab)[tabId := map[]] else old(domainResultsByTab)
    {
      if frameId != 0 {
        return;
      }
      domainResultsByTab := domainResultsByTab[tabId := map[]];
    }

    /**
     * A request begins: past the guards, its domain is seeded for its tab
     * and the request is tracked, replacing any earlier record under its id.
     */
    method OnBeforeRequest(requestId: string, tabId: int, url: string, timeStamp: int)
      requires Valid()
      modifies this`requestStartById, this`domainResultsByTab
      ensures Valid()
      ensures BeginAccepted(tabId, url, timeStamp, collectStopTime) ==>
        && domainResultsByTab == Seed(old(domainResultsByTab), tabId, url)
        && requestStartById == old(requestStartById)[requestId := TrackedRequest(tabId, url, timeStamp)]
      ensures !BeginAccepted(tabId, url, timeStamp, collectStopTime) ==>
        domainResultsByTab == old(domainResultsByTab) && requestStartById == old(requestStartById)
    {
      if tabId < 0 {
        return;
      }
      if PastBoundary(collectStopTime, timeStamp) {
        return;
      }
      if !Url.IsHttpUrl(url) {
        return;
      }
      var tabs := domainResultsByTab;
      var domain := DomainOf(url);
      if domain.Some? {
        if tabId !in tabs {
          tabs := tabs[tabId := map[]];
        }
        if domain.value !in tabs[tabId] {
          tabs := tabs[tabId := tabs[tabId][domain.value := NewEntry(url)]];
        }
        SeedSteps(domainResultsByTab, tabId, url, domain.value);
      }
      assert WellFormedTabs(tabs) by {
        SeedWellFormed(domainResultsByTab, tabId, url);
      }
      var request := TrackedRequest(tabId, url, timeStamp);
      assert WellFormedRequests(requestStartById[requestId := request]) by {
        TrackWellFormed(requestStartById, requestId, request);
      }
      domainResultsByTab := tabs;
      requestStartById := requestStartById[requestId := request];
    }

    /**
     * A request completes or fails: a known id is always forgotten; then,
     * unless the event is past the stop boundary, its domain entry is updated.
     */
    method OnRequestFinished(ev: FinishEvent)
      requires Valid()
      modifies this`requestStartById, this`domainResultsByTab
      ensures Valid()
      ensures ev.requestId !in old(requestStartById) ==>
        requestStartById == old(requestStartById) && domainResultsByTab == old(domainResultsByTab)
      ensures ev.requestId in old(requestStartById) ==> requestStartById == old(requestStartById) - {ev.requestId}
      ensures ev.requestId in old(requestStartById) && PastBoundary(collectStopTime, ev.timeStamp) ==>
        domainResultsByTab == old(domainResultsByTab)
      ensures ev.requestId in old(requestStartById) && !PastBoundary(collectStopTime, ev.timeStamp) ==>
        domainResultsByTab == Complete(old(domainResultsByTab), old(requestStartById)[ev.requestId], ev)
    {
      if ev.requestId !in requestStartById {
        return;
      }
      var start := requestStartById[ev.requestId];
      requestStartById := requestStartById - {ev.requestId};
      if PastBoundary(collectStopTime, ev.timeStamp) {
        return;
      }
      if start.tabId !in domainResultsByTab {
        domainResultsByTab := domainResultsByTab[start.tabId := map[]];
      }
      var status := FinishStatus(ev.statusCode, ev.error);
      var size := ResponseSize(ev.statusCode, ev.responseHeaders);
      var domain := DomainOf(start.url);
      if domain.Some? && domain.value in domainResultsByTab[start.tabId] {
        var entry := domainResultsByTab[start.tabId][domain.value];
        entry := entry.(status := status);
        if size.Some? && size.value > 0 {
          entry := entry.(size := size);
        }
        domainResultsByTab := domainResultsByTab[start.tabId := domainResultsByTab[start.tabId][domain.value := entry]];
      }
      CompleteWellFormed(old(domainResultsByTab), start, ev);
    }

    /** A closed tab loses its domain map and exactly its tracked requests. */
    method OnTabRemoved(tabId: int)
      requires Valid()
      modifies this`requestStartById, this`domainResultsByTab
      ensures Valid()
      ensures domainResultsByTab == old(domainResultsByTab) - {tabId}
      ensures requestStartById ==
        map id | id in old(requestStartById) && old(requestStartById)[id].tabId != tabId :: old(requestStartById)[id]
    {
      domainResultsByTab := domainResultsByTab - {tabId};
      var todo := requestStartById.Keys;
      while todo != {}
        invariant todo <= old(requestStartById).Keys
        invariant domainResultsByTab == old(domainResultsByTab) - {tabId}
        invariant requestStartById ==
          map id | id in old(requestStartById) && (id in todo || old(requestStartById)[id].tabId != tabId)
                :: old(requestStartById)[id]
        decreases todo
      {
        var id :| id in todo;
        if requestStartById[id].tabId == tabId {
          requestStartById := requestStartById - {id};
        }
        todo := todo - {id};
      }
    }

    /** The stop message: clears the flag and restores the system proxy, only while testing. */
    method HandleStop()
      modifies this`isTesting, this`proxy
      ensures !isTesting
      ensures proxy == if old(isTesting) then Some(Pac.SystemMode) else old(proxy)
    {
      if isTesting {
        isTesting := false;
        proxy := Some(Pac.SystemMode);
      }
    }

    /**
     * The end of a pass: `testDomains` builds the report from `directInfo`
     * unless the flag was cleared, the report is written only then, and the
     * `finally` block always clears the flag and restores the system proxy.
     */
    twostate predicate PassEnded(frame: Frame, directInfo: DomainMap, now: int)
      reads this
    {
      && !isTesting
      && proxy == Some(Pac.SystemMode)
      && (old(isTesting) ==>
            && results.Some? && results.value.status == Done && results.value.page == frame.pageUrl
            && Report.IsReportOf(directInfo, frame.mainDomain, results.value.tests)
            && progress == Some(Progress(PhaseDone, now)))
      && (!old(isTesting) ==> results == old(results) && progress == old(progress))
    }

    method FinishPass(frame: Frame, directInfo: DomainMap, now: int)
      modifies this`isTesting, this`proxy, this`results, this`progress
      ensures PassEnded(frame, directInfo, now)
    {
      if isTesting {
        var tests := Report.BuildTestItems(directInfo, frame.mainDomain);
        results := Some(Results(Done, frame.pageUrl, tests));
        progress := Some(Progress(PhaseDone, now));
      }
      isTesting := false;
      proxy := Some(Pac.SystemMode);
    }

    /** The fields a message may change are as they were. */
    twostate predicate MessageStateUnchanged()
      reads this
    {
      && isTesting == old(isTesting) && proxy == old(proxy) && results == old(results)
      && progress == old(progress) && collectStopTime == old(collectStopTime)
    }

    /**
     * The outcome of a start message: a refusal answers with the first failing
     * check and changes nothing, a throwing check answers nothing; an accepted
     * start answers ok, sets the flag and writes the running record, then
     * either fails at once (the page URL has no host: the error record is
     * written and the pass ends) or installs the proxy script, clears the stop
     * boundary and waits for its tab.
     */
    twostate predicate StartHandled(url: Option<string>, now: int, new reply: Option<Reply>, new next: Option<Continuation>)
      reads this
    {
      var a := Admit(url, config.proxyString, old(isTesting));
      && (a.Refuse? ==> reply == Some(Rejected(a.error)) && next.None? && MessageStateUnchanged())
      && (a.Throws? ==> reply.None? && next.None? && MessageStateUnchanged())
      && (a.Accept? && Url.HostOf(url.value).None? ==>
            && reply == Some(Ok) && next.None? && !isTesting && proxy == Some(Pac.SystemMode)
            && results == Some(Results(Failed, url.value, [])) && progress == Some(Progress(PhaseDone, now))
            && collectStopTime == old(collectStopTime))
      && (a.Accept? && Url.HostOf(url.value).Some? ==>
            && reply == Some(Ok)
            && next == Some(AwaitingTab(Frame(url.value, Url.HostOf(url.value).value,
                                              EffectiveCollectMs(config.proxyCollectMs),
                                              EffectiveTimeoutMs(config.timeoutMs))))
            && isTesting && proxy == Some(Pac.GetDirectPAC(url.value, a.proxy))
            && results == Some(Results(Running, url.value, [])) && progress == Some(Progress(Loading, now))
            && collectStopTime == 0)
    }

    /**
     * An accepted start: the flag and the running record, then `testDomains`
     * up to the creation of the tab, or its catch and finally blocks when the
     * page URL has no host.
     */
    method BeginPass(url: string, proxyText: string, now: int) returns (next: Option<Continuation>)
      modifies this`isTesting, this`proxy, this`results, this`progress, this`collectStopTime
      ensures Url.HostOf(url).None? ==>
        && next.None? && !isTesting && proxy == Some(Pac.SystemMode)
        && results == Some(Results(Failed, url, [])) && progress == Some(Progress(PhaseDone, now))
        && collectStopTime == old(collectStopTime)
      ensures Url.HostOf(url).Some? ==>
        && next == Some(AwaitingTab(Frame(url, Url.HostOf(url).value,
                                          EffectiveCollectMs(config.proxyCollectMs),
                                          EffectiveTimeoutMs(config.timeoutMs))))
        && isTesting && proxy == Some(Pac.GetDirectPAC(url, proxyText))
        && results == Some(Results(Running, url, [])) && progress == Some(Progress(Loading, now))
        && collectStopTime == 0
    {
      isTesting := true;
      results := Some(Results(Running, url, []));
      progress := Some(Progress(Loading, now));
      var host := Url.HostOf(url);
      if host.None? {
        // `new URL(pageUrl)` throws inside testDomains: the catch block, then finally
        results := Some(Results(Failed, url, []));
        progress := Some(Progress(PhaseDone, now));
        isTesting := false;
        proxy := Some(Pac.SystemMode);
        next := None;
      } else {
        // runPhase up to tabs.create
        var frame := Frame(url, host.value, EffectiveCollectMs(config.proxyCollectMs),
                           EffectiveTimeoutMs(config.timeoutMs));
        proxy := Some(Pac.GetDirectPAC(url, proxyText));
        collectStopTime := 0;
        next := Some(AwaitingTab(frame));
      }
    }

    /** The start branch of the message listener. */
    method HandleStart(url: Option<string>, now: int) returns (reply: Option<Reply>, next: Option<Continuation>)
      modifies this`isTesting, this`proxy, this`results, this`progress, this`collectStopTime
      ensures StartHandled(url, now, reply, next)
    {
      var a := Admit(url, config.proxyString, isTesting);
      match a
      case Refuse(e) =>
        reply, next := Some(Rejected(e)), None;
      case Throws =>
        reply, next := None, None;
      case Accept(proxyText) =>
        next := BeginPass(url.value, proxyText, now);
        reply := Some(Ok);
    }

    /** The message listener: stop always answers ok, a start is handled as above, anything else is ignored. */
    method HandleMessage(msg: Message, now: int) returns (reply: Option<Reply>, next: Option<Continuation>)
      modifies this`isTesting, this`proxy, this`results, this`progress, this`collectStopTime
      ensures msg.OtherMessage? ==> reply.None? && next.None? && MessageStateUnchanged()
      ensures msg.StopTest? ==>
        && reply == Some(Ok) && next.None? && !isTesting
        && proxy == (if old(isTesting) then Some(Pac.SystemMode) else old(proxy))
        && results == old(results) && progress == old(progress) && collectStopTime == old(collectStopTime)
      ensures msg.StartTestForPage? ==> StartHandled(msg.url, now, reply, next)
    {
      match msg
      case OtherMessage =>
        reply, next := None, None;
      case StopTest =>
        HandleStop();
        reply, next := Some(Ok), None;
      case StartTestForPage(url) =>
        reply, next := HandleStart(url, now);
    }

    /**
     * The tab of a pass was created, or not: without a tab id the phase
     * returns null and the pass ends with an empty report.
     */
    method OnTabCreated(k: Continuation, tab: Option<int>, now: int) returns (next: Option<Continuation>)
      requires k.AwaitingTab?
      modifies this`currentTestTabId, this`isTesting, this`proxy, this`results, this`progress
      ensures currentTestTabId == tab
      ensures tab.Some? ==>
        && next == Some(AwaitingLoad(k.frame, tab.value))
        && isTesting == old(isTesting) && proxy == old(proxy) && results == old(results) && progress == old(progress)
      ensures tab.None? ==> next.None? && PassEnded(k.frame, map[], now)
    {
      currentTestTabId := tab;
      if tab.None? {
        FinishPass(k.frame, map[], now);
        next := None;
      } else {
        next := Some(AwaitingLoad(k.frame, tab.value));
      }
    }

    /**
     * The collection wait: from `start`, until the clock reaches `endWait`
     * or the flag is cleared. Sleep j takes `sleeps(j)` ms, and a stop
     * message arrives during sleep j exactly when j is in `stops`.
     */
    method CollectWait(endWait: int, start: int, sleeps: nat -> Sleep, stops: set<nat>) returns (now: int, polls: nat)
      modifies this`isTesting, this`proxy
      ensures WaitEnded(start, endWait, sleeps, stops, old(isTesting), isTesting, now, polls)
      ensures !old(isTesting) ==> polls == 0 && !isTesting
      ensures proxy == if old(isTesting) && !isTesting then Some(Pac.SystemMode) else old(proxy)
    {
      now := start;
      polls := 0;
      while now < endWait
        invariant now == start + Elapsed(sleeps, polls)
        invariant forall j :: 0 <= j < polls ==> start + Elapsed(sleeps, j) < endWait && StillTesting(old(isTesting), stops, j)
        invariant isTesting == StillTesting(old(isTesting), stops, polls)
        invariant !old(isTesting) ==> polls == 0
        invariant proxy == if old(isTesting) && !isTesting then Some(Pac.SystemMode) else old(proxy)
        decreases endWait - now
      {
        if !isTesting {
          break;
        }
        if polls in stops {
          HandleStop();
        }
        now := now + sleeps(polls);
        polls := polls + 1;
      }
    }

    /** `buildDomainToInfoForTab`: a copy of the tab's map with pending turned into timeout. */
    method BuildDomainToInfoForTab(tabId: int) returns (info: Option<DomainMap>)
      ensures info == Report.SnapshotOf(domainResultsByTab, tabId)
    {
      if tabId !in domainResultsByTab {
        return None;
      }
      var resultsMap := domainResultsByTab[tabId];
      var result: DomainMap := map[];
      var todo := resultsMap.Keys;
      while todo != {}
        invariant todo <= resultsMap.Keys
        invariant result == map d | d in resultsMap && d !in todo :: Report.TimeoutIfPending(resultsMap[d])
        decreases todo
      {
        var d :| d in todo;
        var entry := resultsMap[d];
        if entry.status == Pending {
          entry := entry.(status := TimedOut);
        }
        result := result[d := entry];
        todo := todo - {d};
      }
      assert result == Report.Snapshot(resultsMap);
      info := Some(result);
    }

    /**
     * The page-load race resolved. An abort, which the 200 ms poll reports
     * only once a stop has cleared the flag, closes the tab and ends the pass
     * without writing a report; otherwise a completed load waits for the
     * collection window, the stop boundary is set to the clock and the tab's
     * map is snapshotted. The ghost `polls` is the number of sleeps the
     * collection wait took.
     */
    method OnLoadSettled(k: Continuation, outcome: LoadOutcome, t0: int, sleeps: nat -> Sleep, stops: set<nat>)
      returns (next: Option<Continuation>, ghost polls: nat)
      requires k.AwaitingLoad?
      requires outcome == LoadAborted ==> !isTesting
      modifies this`isTesting, this`proxy, this`results, this`progress, this`removedTabs, this`collectStopTime
      ensures outcome == LoadAborted ==>
        && next.None? && removedTabs == old(removedTabs) + [k.tabId] && collectStopTime == old(collectStopTime)
        && results == old(results) && progress == old(progress)
        && PassEnded(k.frame, map[], t0)
      ensures outcome != LoadAborted ==>
        && next == Some(AwaitingPerf(k.frame, k.tabId, Report.SnapshotOf(domainResultsByTab, k.tabId)))
        && removedTabs == old(removedTabs) && results == old(results)
        && collectStopTime >= t0
        && (isTesting ==> old(isTesting) && proxy == old(proxy))
        && (old(isTesting) && !isTesting ==> proxy == Some(Pac.SystemMode))
        && (!old(isTesting) ==> proxy == old(proxy))
      ensures outcome != LoadAborted && outcome != LoadCompleted ==>
        collectStopTime == t0 && isTesting == old(isTesting) && progress == old(progress)
      ensures outcome == LoadCompleted ==>
        && progress == Some(Progress(Collecting, t0))
        && WaitEnded(t0, t0 + k.frame.collectMs, sleeps, stops, old(isTesting), isTesting, collectStopTime, polls)
    {
      polls := 0;
      if outcome == LoadAborted {
        removedTabs := removedTabs + [k.tabId];
        FinishPass(k.frame, map[], t0);
        return None, 0;
      }
      var now := t0;
      if outcome == LoadCompleted {
        progress := Some(Progress(Collecting, t0));
        now, polls := CollectWait(t0 + k.frame.collectMs, t0, sleeps, stops);
      }
      collectStopTime := now;
      var info := BuildDomainToInfoForTab(k.tabId);
      next := Some(AwaitingPerf(k.frame, k.tabId, info));
    }

    /**
     * The page's timing data arrived (None when it could not answer): it is
     * merged into the snapshot, the tab is closed, and the pass ends with the
     * report of the merged map.
     */
    method OnPerfInfo(k: Continuation, perf: Option<map<string, Timing.TimingRecord>>, now: int)
      requires k.AwaitingPerf?
      modifies this`isTesting, this`proxy, this`results, this`progress, this`removedTabs, this`currentTestTabId
      ensures removedTabs == old(removedTabs) + [k.tabId]
      ensures currentTestTabId.None?
      ensures PassEnded(k.frame, Report.PhaseInfo(k.info, perf), now)
    {
      var info := k.info;
      if perf.Some? && info.Some? {
        var merged := Report.MergeTiming(info.value, perf.value);
        info := Some(merged);
      }
      removedTabs := removedTabs + [k.tabId];
      currentTestTabId := None;
      FinishPass(k.frame, info.GetOr(map[]), now);
    }
  }
}
