/**
 * Request correlation in background.js, as functions on the two maps the
 * listeners change: `requestStartById` (request id to tab, url and start
 * time) and `domainResultsByTab` (tab to domain to accumulated entry).
 */
module Tracker {
  import opened Common
  import Strings
  import Url

  datatype TrackedRequest = TrackedRequest(tabId: int, url: string, startTime: int)

  /** One `domainResultsByTab[tab][domain]` record. */
  datatype DomainEntry = DomainEntry(
    url: string,
    status: Status,
    size: Option<int>,
    duration: Option<int>,
    speedKBps: Option<nat>)

  /** A response header; `parsedValue` is `parseInt(value, 10)`, None for NaN. */
  datatype Header = Header(name: string, parsedValue: Option<int>)

  /** The `details` of an `onCompleted` or `onErrorOccurred` event. */
  datatype FinishEvent = FinishEvent(
    requestId: string,
    timeStamp: int,
    statusCode: Option<int>,
    error: Option<string>,
    responseHeaders: Option<seq<Header>>)

  type DomainMap = map<string, DomainEntry>
  type TabMap = map<int, DomainMap>

  /** An event is past the stop boundary; a boundary of 0 means "none". */
  predicate PastBoundary(stop: int, timeStamp: int) {
    stop > 0 && timeStamp > stop
  }

  /** The three guards of the `onBeforeRequest` listener. */
  predicate BeginAccepted(tabId: int, url: string, timeStamp: int, stop: int) {
    tabId >= 0 && !PastBoundary(stop, timeStamp) && Url.IsHttpUrl(url)
  }

  /** The domain an event is bucketed under; "no domain" covers both a throw and the empty host. */
  function DomainOf(url: string): (r: Option<string>)
    ensures r.Some? ==> r.value != "" && Url.HostOf(url) == r
    ensures Url.HostOf(url).Some? && Url.HostOf(url).value != "" ==> r == Url.HostOf(url)
  {
    match Url.HostOf(url)
    case None => None
    case Some(h) => if h == "" then None else Some(h)
  }

  function NewEntry(url: string): DomainEntry {
    DomainEntry(url, Pending, None, None, None)
  }

  /**
   * The domain map after an accepted begin event: the request's domain is
   * seeded with a pending entry for its tab unless that tab already has one.
   */
  function Seed(tabs: TabMap, tabId: int, url: string): (r: TabMap)
    ensures DomainOf(url).None? ==> r == tabs
    ensures DomainOf(url).Some? ==>
      var d := DomainOf(url).value;
      && r.Keys == tabs.Keys + {tabId}
      && (forall t :: t in tabs && t != tabId ==> r[t] == tabs[t])
      && r[tabId].Keys == (if tabId in tabs then tabs[tabId].Keys else {}) + {d}
      && (forall e :: e in r[tabId] && e != d ==> r[tabId][e] == tabs[tabId][e])
      && r[tabId][d] == (if tabId in tabs && d in tabs[tabId] then tabs[tabId][d] else NewEntry(url))
  {
    match DomainOf(url)
    case None => tabs
    case Some(d) =>
      var domains := if tabId in tabs then tabs[tabId] else map[];
      if d in domains then tabs else tabs[tabId := domains[d := NewEntry(url)]]
  }

  /**
   * The begin handler's two in-place steps (give the tab a map if it has
   * none, then seed the domain unless it is there) compute `Seed`.
   */
  lemma SeedSteps(tabs: TabMap, tabId: int, url: string, d: string)
    requires DomainOf(url) == Some(d)
    ensures var withTab := if tabId in tabs then tabs else tabs[tabId := map[]];
      Seed(tabs, tabId, url) ==
        if d in withTab[tabId] then withTab else withTab[tabId := withTab[tabId][d := NewEntry(url)]]
  {
  }

  /**
   * The status a finish event records: the numeric status code when there
   * is one, else the error text with its first "net::ERR_" removed, else "error".
   */
  function FinishStatus(statusCode: Option<int>, error: Option<string>): (r: Status)
    ensures statusCode.Some? ==> r == Code(statusCode.value)
    ensures r.Code? ==> statusCode.Some?
  {
    if statusCode.Some? then Code(statusCode.value)
    else if error.Some? && error.value != "" then Token(Strings.ReplaceFirst(error.value, "net::ERR_", ""))
    else Token("error")
  }

  /** A network error reported as "net::ERR_<name>" is stored as "<name>". */
  lemma NetErrorTokenStripped(name: string)
    ensures FinishStatus(None, Some("net::ERR_" + name)) == Token(name)
  {
    var e := "net::ERR_" + name;
    assert Strings.HasPrefix(e, "net::ERR_") by { assert e[..9] == "net::ERR_"; }
    Strings.ReplaceFirstStripsPrefix(e, "net::ERR_");
    assert e[9..] == name;
  }

  /** A failure with neither a status code nor an error text is recorded as "error". */
  lemma NoDetailIsError(error: Option<string>)
    requires error.None? || error.value == ""
    ensures FinishStatus(None, error) == Token("error")
  {
  }

  predicate IsContentLength(h: Header) {
    Strings.Lower(h.name) == "content-length"
  }

  /** `headers.find(...)`: the first header named content-length, in any ASCII case. */
  function ContentLengthIndex(headers: seq<Header>): (r: Option<nat>)
    ensures r.Some? ==> r.value < |headers| && IsContentLength(headers[r.value])
    ensures r.Some? ==> forall k :: 0 <= k < r.value ==> !IsContentLength(headers[k])
    ensures r.None? ==> forall k :: 0 <= k < |headers| ==> !IsContentLength(headers[k])
  {
    if headers == [] then None
    else if IsContentLength(headers[0]) then Some(0)
    else
      match ContentLengthIndex(headers[1..])
      case None => None
      case Some(i) => Some(i + 1)
  }

  /**
   * The size a finish event records: present only for a response with a
   * status code whose first content-length header parses to a positive integer.
   */
  function ResponseSize(statusCode: Option<int>, headers: Option<seq<Header>>): (r: Option<int>)
    ensures r.Some? ==> r.value > 0
    ensures r.Some? <==>
      && statusCode.Some? && headers.Some?
      && ContentLengthIndex(headers.value).Some?
      && var h := headers.value[ContentLengthIndex(headers.value).value];
         h.parsedValue.Some? && h.parsedValue.value > 0
    ensures r.Some? ==> r == headers.value[ContentLengthIndex(headers.value).value].parsedValue
  {
    if statusCode.None? || headers.None? then None
    else
      match ContentLengthIndex(headers.value)
      case None => None
      case Some(i) =>
        var v := headers.value[i].parsedValue;
        if v.Some? && v.value > 0 then v else None
  }

  /** A response of 200 with "Content-Length: 12345" is recorded as status 200, size 12345. */
  lemma OkWithContentLength(rest: seq<Header>)
    ensures ResponseSize(Some(200), Some([Header("Content-Length", Some(12345))] + rest)) == Some(12345)
    ensures FinishStatus(Some(200), None) == Code(200)
  {
    var hs := [Header("Content-Length", Some(12345))] + rest;
    assert Strings.Lower("Content-Length") == "content-length";
    assert IsContentLength(hs[0]);
  }

  /** An existing entry after a finish: status always overwritten, size only by a positive one. */
  function Finished(e: DomainEntry, status: Status, size: Option<int>): (r: DomainEntry)
    ensures r.status == status && r.url == e.url
    ensures r.duration == e.duration && r.speedKBps == e.speedKBps
    ensures r.size == (if size.Some? && size.value > 0 then size else e.size)
  {
    e.(status := status, size := if size.Some? && size.value > 0 then size else e.size)
  }

  /**
   * The domain map after a finish event for a tracked request inside the
   * stop boundary: the tab gets an (empty) map if it had none, and the
   * request's domain entry, if the tab already has one, is updated.
   */
  function Complete(tabs: TabMap, req: TrackedRequest, ev: FinishEvent): (r: TabMap)
  {
    var tabs1 := if req.tabId in tabs then tabs else tabs[req.tabId := map[]];
    var domains := tabs1[req.tabId];
    match DomainOf(req.url)
    case None => tabs1
    case Some(d) =>
      if d in domains then
        var e := Finished(domains[d], FinishStatus(ev.statusCode, ev.error),
                          ResponseSize(ev.statusCode, ev.responseHeaders));
        tabs1[req.tabId := domains[d := e]]
      else tabs1
  }

  /**
   * A finish never creates a domain entry: the only new key is the request's
   * tab, with an empty map, and every tab keeps exactly its domains.
   */
  lemma CompleteAddsNoDomain(tabs: TabMap, req: TrackedRequest, ev: FinishEvent)
    ensures Complete(tabs, req, ev).Keys == tabs.Keys + {req.tabId}
    ensures forall t :: t in tabs ==> Complete(tabs, req, ev)[t].Keys == tabs[t].Keys
    ensures req.tabId !in tabs ==> Complete(tabs, req, ev)[req.tabId] == map[]
  {
  }

  /**
   * Every completion overwrites the status of the request's domain (later
   * completions win), replaces the size only with a positive one, and leaves
   * every other entry as it was.
   */
  lemma CompleteUpdatesOnlyItsDomain(tabs: TabMap, req: TrackedRequest, ev: FinishEvent, t: int, d: string)
    requires t in tabs && d in tabs[t]
    ensures var r := Complete(tabs, req, ev);
      if t == req.tabId && DomainOf(req.url) == Some(d) then
        && r[t][d].status == FinishStatus(ev.statusCode, ev.error)
        && r[t][d].url == tabs[t][d].url
        && (ResponseSize(ev.statusCode, ev.responseHeaders).Some? ==> r[t][d].size == ResponseSize(ev.statusCode, ev.responseHeaders))
        && (ResponseSize(ev.statusCode, ev.responseHeaders).None? ==> r[t][d].size == tabs[t][d].size)
      else r[t][d] == tabs[t][d]
  {
  }

  /** What the tracker keeps true of every entry it holds. */
  predicate WellFormedEntry(d: string, e: DomainEntry) {
    && d != ""
    && Url.HostOf(e.url) == Some(d)
    && (e.size.Some? ==> e.size.value > 0)
    && e.duration.None?
    && e.speedKBps.None?
  }

  /** Every tracked request belongs to a tab and has an http(s) URL, as the begin guards ensure. */
  predicate WellFormedRequests(reqs: map<string, TrackedRequest>) {
    forall id :: id in reqs ==> reqs[id].tabId >= 0 && Url.IsHttpUrl(reqs[id].url)
  }

  lemma TrackWellFormed(reqs: map<string, TrackedRequest>, id: string, r: TrackedRequest)
    requires WellFormedRequests(reqs)
    requires r.tabId >= 0 && Url.IsHttpUrl(r.url)
    ensures WellFormedRequests(reqs[id := r])
  {
  }

  predicate WellFormedDomains(m: DomainMap) {
    forall d :: d in m ==> WellFormedEntry(d, m[d])
  }

  predicate WellFormedTabs(tabs: TabMap) {
    forall t :: t in tabs ==> WellFormedDomains(tabs[t])
  }

  lemma SeedWellFormed(tabs: TabMap, tabId: int, url: string)
    requires WellFormedTabs(tabs)
    ensures WellFormedTabs(Seed(tabs, tabId, url))
  {
  }

  lemma CompleteWellFormed(tabs: TabMap, req: TrackedRequest, ev: FinishEvent)
    requires WellFormedTabs(tabs)
    ensures WellFormedTabs(Complete(tabs, req, ev))
  {
    var r := Complete(tabs, req, ev);
    forall t | t in r
      ensures WellFormedDomains(r[t])
    {
      if t in tabs {
        forall d | d in r[t]
          ensures WellFormedEntry(d, r[t][d])
        {
          CompleteUpdatesOnlyItsDomain(tabs, req, ev, t, d);
        }
      }
    }
  }
}
