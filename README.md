# ProxyDomainTester, modelled in Dafny

ProxyDomainTester is a browser extension that measures which third-party
domains a web page pulls in, and how each of them answers. It measures them
while the page's own host is routed through a configured proxy and every
other host goes direct.

The model has four parts, one per core script:

- **Background worker** (`background.js`). A start message, when the checks
  pass, runs one measurement pass:
  - it installs a proxy auto-configuration script that proxies only the page's host;
  - it opens the page in a background tab and races the page load against a timeout and a stop;
  - after a completed load it waits out a collection window;
  - it snapshots what the network listeners recorded per domain;
  - it merges in the page's own resource-timing data;
  - it closes the tab, stores a report of every domain except the page's own, and restores the system proxy.
- **In-page collector** (`content.js`) answers a `collectDomainInfo` message
  with one timing record per hostname. The first resource-timing entry for a
  hostname wins.
- **Popup** (`popup.js`) does five things:
  - renders the stored report as a table sorted by reversed domain name;
  - counts down the loading and collection phases;
  - starts or stops a pass;
  - enables its button only when a proxy is configured;
  - follows storage changes.
- **Options page** (`options.js`) fills its form from the stored
  `proxyConfig` record and writes back a normalised record after every edit.

## Modules

| file | module | what it holds |
|---|---|---|
| `common.dfy` | `Common` | JSON values, statuses, the configuration and report records, integer rounding of KB and KB/s |
| `strings.dfy` | `Strings` | `toLowerCase`, `trim`, `replace`, `String(n)`, `parseInt`, and the code-point order used for sorting |
| `url.dfy` | `Url` | the `^https?://` test and `new URL(s).hostname` |
| `pac.dfy` | `Pac` | `getDirectPAC` and the routing decision of the generated script |
| `tracker.dfy` | `Tracker` | the two tracker maps as pure functions: seeding on request begin, completion |
| `timing.dfy` | `Timing` | the content script |
| `report.dfy` | `Report` | `buildDomainToInfoForTab`, the merge loop of `runPhase`, the items of `testDomains` |
| `background.dfy` | `Background` | the class `Worker` (the module state of `background.js`) with one method per listener, and the pass cut at its await points |
| `options.dfy` | `Options` | the load and save of the options form, and the class `OptionsPage` |
| `popup.dfy` | `Popup` | rendering, sorting, the countdown, the click logic, and the class `PopupPage` |
| `scenarios.dfy` | `Scenarios` | whole passes driven event by event |

### The measurement pass

The asynchronous pass is cut at its await points. Each step returns a
`Continuation` that holds the locals the next step resumes with:

1. `HandleMessage` (the start message) returns `AwaitingTab`.
2. `OnTabCreated` returns `AwaitingLoad`.
3. `OnLoadSettled`, called once the load race has resolved, returns `AwaitingPerf`.
4. `OnPerfInfo` ends the pass.

Network events, navigations, tab closures and stop messages may be
delivered between any two steps.

The clock, the timers and the browser are inputs:

- the outcome of the load race is a parameter;
- the length of every 200 ms sleep of the collection wait is a parameter (at least 200 ms);
- the set of sleeps during which a stop message arrives is a parameter.

The calls the worker makes to browser storage and to the proxy settings are
kept as fields of `Worker`:

- the proxy setting last applied;
- the `results` and `progress` records last written;
- the tabs closed.

### Numbers

- Every number is an integer.
- A throughput in KB/s and a size in KB are held in tenths, rounded half up
  as `Math.round(x * 10) / 10` rounds them.
- Resource-timing durations arrive already rounded to whole milliseconds.

## Behaviour worth knowing

The model keeps the following details of the code.

- **Requests per domain.**
  - Every request with an http(s) URL is tracked (`background.js:180-184`).
  - Only the first request of a domain seeds its entry (`background.js:172-177`).
  - Every later completion overwrites the status. It also overwrites the size
    when a positive one is found (`background.js:303-309`).

  See `Tracker.CompleteUpdatesOnlyItsDomain`.
- **Only the stop boundary filters events.** Events stamped after the stop
  boundary are dropped. Events stamped before the pass started are kept. The
  boundary is reset to 0 when a pass starts (`background.js:339`).
- **Failed tab creation.** When the tab cannot be created, `runPhase` returns
  null. `testDomains` still stores a "done" report with no items
  (`background.js:487-510`).
- **`net::ERR_` removal.** The prefix is removed with `replace`. So it is the
  first occurrence that goes, wherever it is in the text.
- **Stop restores the system proxy.** A stop sets the proxy back to `system`
  mode (`background.js:86-91`). The last report is left as the worker wrote it.
  The popup itself then rewrites it with status "stopped".
- **An aborted pass** does not clear `currentTestTabId`. It writes no report,
  because `testDomains` returns null once the flag is cleared
  (`background.js:405-412`, `background.js:489`).
- **The stop boundary** keeps its value after a pass.
- **An invalid collection window.** For a collection window that does not
  parse, the options page stores 0. The worker accepts 0 as a valid window, so
  such a pass has no collection wait at all rather than the 3000 ms default.
  See `Options.InvalidCollectDisablesWindow`.
- **First run.** With no stored record, the worker writes the defaults to sync
  storage (`background.js:50`). The options page then shows 5000, 3000 and a
  ticked box; see `Options.FirstRunRecordRoundTrips`.

## Model

| member | source | states |
|---|---|---|
| Common.KiloTenths | popup.js:176-182 | the size shown in KB is size/1024 rounded half up to one decimal, stated as exact integer bounds |
| Common.SpeedTenths | background.js:456-467 | the throughput is (size/1024)/(duration/1000) rounded half up to one decimal, stated as exact integer bounds |
| Common.SpeedMonotoneInSize | background.js:456-467 | more bytes in the same time never give a lower throughput |
| Strings.Lower | background.js:287 | ASCII lower-casing maps every character and keeps the length |
| Strings.Trim | options.js:40 | the trim is a slice of the input with only white space cut at both ends, and starts and ends with a non-space; empty exactly when the input is all white space |
| Strings.TrimIdempotent | options.js:40 | trimming twice is trimming once |
| Strings.Reverse | popup.js:127-128 | the reversed text holds the input's characters in opposite order |
| Strings.IndexOf | background.js:279 | the index found is the first place where the pattern occurs; None when it occurs nowhere |
| Strings.ReplaceFirstStripsPrefix | background.js:279 | replacing a leading pattern by "" removes exactly that prefix |
| Strings.ReplaceFirstAbsent | background.js:279 | replacing a pattern that does not occur changes nothing |
| Strings.NatToString | options.js:24-32 | `String(n)` of a natural number is a digit string without a leading zero |
| Strings.NatToStringRoundTrip | options.js:24-32 | the decimal value of `String(n)` is n |
| Strings.JsString | popup.js:121 | `String(v)` of a string is the string and of a number its decimal text |
| Strings.ParseInt | options.js:37-38 | `parseInt` gives NaN exactly when no digit follows the white space and an optional sign |
| Strings.ParseIntOfTrimmed | options.js:37-38 | trimming before `parseInt` does not change its result |
| Strings.ParseIntOfNatString | options.js:24-38 | `parseInt(String(n))` is n |
| Strings.LexLeTotal | popup.js:126-130 | any two sort keys are comparable |
| Strings.LexLeTransitive | popup.js:126-130 | the key order is transitive |
| Strings.LexLeAntisymmetric | popup.js:126-130 | keys that sort both ways are equal |
| Url.HostOfHttpUrl | background.js:162-166 | for `http://` or `https://` followed by a plain host and a path, the hostname is the host, lower-cased |
| Url.NoSchemeNoHost | background.js:162-166 | a text without a scheme has no hostname (`new URL` throws) |
| Pac.GetDirectPAC | background.js:17-44 | the script proxies exactly the page's host with the configured proxy, and is direct-only when the page URL has no host |
| Pac.OnlyPageHostIsProxied | background.js:17-44 | the generated `FindProxyForURL` answers "PROXY p; DIRECT" for the page's host and "DIRECT" for every other host |
| Pac.HttpPageGetsProxyRule | background.js:335-336 | every page a pass is started for gets the proxy rule for its own host |
| Tracker.DomainOf | background.js:162-168 | a request's domain is its URL's hostname exactly when that hostname exists and is non-empty |
| Tracker.Seed | background.js:168-178 | a begin adds the tab and the domain when missing, with a pending entry for this URL, and keeps every existing entry |
| Tracker.SeedSteps | background.js:168-178 | the handler's two in-place steps (an empty map for a new tab, then a pending entry for a new domain) compute the same map as the seeding function |
| Tracker.FinishStatus | background.js:274-282 | the status is the numeric code when there is one, and is numeric only then |
| Tracker.NetErrorTokenStripped | background.js:279 | an error "net::ERR_x" is stored as "x" |
| Tracker.NoDetailIsError | background.js:281 | a failure without a code or an error text is stored as "error" |
| Tracker.ContentLengthIndex | background.js:285-288 | the header used is the first one named content-length in any case |
| Tracker.ResponseSize | background.js:284-295 | a size is recorded only for a response with a code whose first content-length parses to a positive integer, and is that integer |
| Tracker.OkWithContentLength | background.js:284-295 | a 200 response with "Content-Length: 12345" records status 200 and size 12345 |
| Tracker.Finished | background.js:303-309 | a finish always sets the status and replaces the size only by a positive one |
| Tracker.CompleteAddsNoDomain | background.js:270-309 | a finish never creates a domain entry; the only key it may add is the request's tab, with an empty map |
| Tracker.CompleteUpdatesOnlyItsDomain | background.js:303-309 | a finish updates the request's own domain entry and leaves every other entry as it was |
| Tracker.TrackWellFormed | background.js:180-184 | tracked requests stay on page tabs with http(s) URLs |
| Tracker.SeedWellFormed | background.js:148-187 | seeding keeps every entry keyed by its URL's host, with positive size and no duration or throughput |
| Tracker.CompleteWellFormed | background.js:255-310 | finishing keeps the same entry invariant |
| Timing.EntrySize | content.js:8-21 | the size is the first positive of transfer, encoded and decoded size, else 0 |
| Timing.SizePrecedence | content.js:8-21 | a body size is used only when the transferred size is not positive |
| Timing.EntryRecord | content.js:22-26 | the record keeps the entry's name as url, its duration (0 when missing) and the first positive of its sizes |
| Timing.Hosts | content.js:5-6 | each entry's hostname, None where `new URL` throws |
| Timing.CollectDomainInfo | content.js:3-29 | the map has exactly the hostnames of the parsable entries, each with the record of its first entry |
| Timing.FirstForUnique | content.js:7 | the first entry of a hostname is unique |
| Timing.HandleMessage | content.js:1-33 | only `collectDomainInfo` is answered, with the map above |
| Report.TimeoutIfPending | background.js:522-527 | a copied entry is never pending; a pending one becomes "timeout" and the rest is copied |
| Report.SnapshotFacts | background.js:513-530 | the snapshot has the tab's domains, no pending status, and every other field copied |
| Report.SnapshotOf | background.js:513-517 | there is a snapshot exactly when the tab has a domain map; it is that map's snapshot, with the same domains and no pending status |
| Report.MergeEntry | background.js:439-471 | duration from the timing record; size from it only when the tracker's is missing or not positive; throughput exactly when size and duration are positive |
| Report.MergeTiming | background.js:437-471 | the loop yields the snapshot with `MergeEntry` applied to exactly the domains the timing data also names; no domain is added or dropped |
| Report.ToTestItem | background.js:496-507 | a report item carries the domain, the entry's url, and its status, duration, size and throughput |
| Report.BuildTestItems | background.js:491-510 | the items list every domain except the main one, once each, with its measurements |
| Report.ReportExcludesMainDomain | background.js:494-495 | no item is for the page's own domain, and there are as many items as other domains |
| Report.ReportMeasurementsConsistent | background.js:430-471 | in a report built from the tracker, sizes are positive and a throughput is present exactly when size and a positive duration are, as their rate |
| Report.MergeBackfillsSize | background.js:450-466 | a domain without a size, with a 5000-byte 200 ms timing record, ends with size 5000, duration 200 and 24.4 KB/s |
| Background.Overlay | background.js:46-50 | a stored key replaces its default, and a missing key takes the default value |
| Background.OverlayIdempotent | background.js:46-58 | overlaying twice is overlaying once; an empty record gives the defaults |
| Background.EffectiveCollectMs | background.js:324-328 | the window is a stored number at least 0, else 3000 ms |
| Background.EffectiveTimeoutMs | background.js:330-333 | the timeout is a stored positive number, else 5000 ms; never 0 |
| Background.CheckProxy | background.js:105 | the proxy test is blank for a falsy or blank string, usable for a non-blank string, and throws on a truthy non-string |
| Background.Admit | background.js:97-112 | each start error holds exactly when its check is the first to fail, in source order; a start is accepted exactly when all pass |
| Background.Elapsed | background.js:418-424 | n sleeps take at least 200n ms |
| Background.StillTestingMeansNoStop | background.js:419-423 | the flag survives n sleeps exactly when it was set and no stop came during them |
| Background.PollBound | background.js:418-424 | the wait checks the flag at most window/200 + 1 times |
| Background.WaitWithoutStopsRunsTheWindow | background.js:414-427 | without a stop the wait lasts the whole window, overshooting it by less than the last sleep |
| Background.StopDuringFirstSleepEndsTheWait | background.js:414-427 | a stop during the first sleep ends the wait after that one sleep, with the flag cleared |
| Background.Worker.constructor | background.js:1-15 | the worker starts with the defaults, no pass, empty maps and a stop boundary of 0 |
| Background.Worker.OnStoredConfigLoaded | background.js:46-53 | a stored record is overlaid on the defaults; without one the configuration stays and the defaults are written to sync storage |
| Background.Worker.OnConfigChanged | background.js:55-60 | a change in sync storage replaces the configuration by the new record overlaid on the defaults |
| Background.Worker.OnBeforeNavigate | background.js:62-68 | a top-frame navigation empties its tab's domain map; other frames change nothing |
| Background.Worker.OnBeforeRequest | background.js:148-187 | an accepted begin seeds the domain and tracks the request; a rejected one changes nothing; the tracker invariant is kept |
| Background.Worker.OnRequestFinished | background.js:255-310 | a known request is always forgotten, and its domain is completed unless the event is past the stop boundary |
| Background.Worker.OnTabRemoved | background.js:71-82 | the tab loses its domain map and exactly its tracked requests |
| Background.Worker.HandleStop | background.js:85-95 | a stop clears the flag and restores the system proxy if a pass was running |
| Background.Worker.FinishPass | background.js:121-141 | a pass still running stores its report and the done progress; in every case the flag is cleared and the system proxy restored |
| Background.Worker.BeginPass | background.js:114-142 | an accepted start stores the running record and either installs the proxy script and waits for its tab, or fails at once with an error record when the URL has no host |
| Background.Worker.HandleStart | background.js:97-119 | a refused start answers its error and changes nothing; an accepted one answers ok and begins the pass |
| Background.Worker.HandleMessage | background.js:84-146 | stop always answers ok; a start is handled as above; any other message is ignored |
| Background.Worker.OnTabCreated | background.js:341-351 | with a tab the pass waits for its load; without one the pass ends with an empty report |
| Background.Worker.CollectWait | background.js:414-425 | the wait ends at the window or at the first check after a stop, and the proxy is restored exactly when a stop came |
| Background.Worker.BuildDomainToInfoForTab | background.js:513-530 | the loop builds the snapshot of the tab's map, or nothing when the tab has none |
| Background.Worker.OnLoadSettled | background.js:353-433 | an abort, which comes only after a stop cleared the flag, closes the tab and ends the pass without writing a report; a completed load enters collecting and waits; the stop boundary becomes the clock and the tab is snapshotted |
| Background.Worker.OnPerfInfo | background.js:435-480 | the timing data is merged, the tab closed, and the report of the merged map stored if the pass still runs |
| Options.InputText | options.js:23 | a falsy stored value fills the field with "", a string with itself |
| Options.LoadForm | options.js:21-33 | the fields show the stored proxy, a positive timeout, a window at least 0 (as text that parses back to it), and the checkbox only for `true` |
| Options.PositiveOrZero | options.js:41 | a parsed positive timeout is kept, anything else becomes 0 |
| Options.NonNegativeOrZero | options.js:43-46 | a parsed window at least 0 is kept, anything else becomes 0 |
| Options.SavedIsNormal | options.js:36-47 | every saved record has a trimmed proxy string and numbers at least 0 |
| Options.LoadSaveRoundTrip | options.js:21-47 | loading a saved record and saving it again writes the same record |
| Options.FirstRunRecordRoundTrips | background.js:1-6 | the defaults the worker writes on first run fill the options form with an empty proxy, 5000, 3000 and a ticked box, and saving that form writes them back |
| Options.SaveAfterReloadIsStable | options.js:21-50 | saving is stable under a reload of the page |
| Options.InvalidTimeoutFallsBackToDefault | options.js:41 | an unparsable or non-positive timeout is saved as 0, and the worker then uses 5000 ms |
| Options.InvalidCollectDisablesWindow | options.js:43-46 | an unparsable or negative window is saved as 0, and the worker then uses no window at all |
| Options.ValidFieldsReachWorker | options.js:37-46 | valid field values reach the worker's effective durations unchanged |
| Options.OptionsPage.constructor | options.js:2-5 | the page starts with its form and nothing written |
| Options.OptionsPage.OnConfigLoaded | options.js:21-33 | the form is filled from the stored record |
| Options.OptionsPage.OnEdit | options.js:52-55 | every edit saves the edited form at once, as a normal record |
| Options.OptionsPage.SaveConfig | options.js:36-50 | the written record is the normalised form |
| Popup.Label | popup.js:106-124 | each label is shown exactly for its status value; any other status shows as its text |
| Popup.NumericAndTextStatusAgree | popup.js:111 | a numeric status and its decimal text get the same label |
| Popup.IntTextIs200 | popup.js:111 | the decimal text of c is "200" exactly when c is 200 |
| Popup.DurationText | popup.js:169-171 | a number shows its digits, a falsy non-number "-", anything else its text |
| Popup.TenthsText | popup.js:179 | a count of tenths prints as `String(t / 10)`, with the sign of a negative count |
| Popup.NatTenthsText | popup.js:179 | a whole number prints without a fractional part, otherwise with one decimal |
| Popup.SizeText | popup.js:176-182 | a positive size shows its KB to one decimal, anything else "-" |
| Popup.SpeedShown | popup.js:187-200 | the stored throughput is shown, or when it is null or missing and size and duration are positive, one computed from them |
| Popup.SpeedText | popup.js:201-202 | a number shows to one decimal, anything else "-" |
| Popup.RenderRow | popup.js:132-206 | the status comes from `direct` when it defines one, else from the row; the measurements come from `direct` when present; a link exactly when the url is truthy |
| Popup.DirectWithoutStatusMixesSources | popup.js:156-165 | a `direct` without a status shows the row's status beside the direct measurements |
| Popup.WorkerRowShowsItsMeasurement | popup.js:164-202 | a row the worker wrote shows its own status, duration, size and stored throughput; the popup's fallback never fires |
| Popup.ReportItemsAreConsistent | background.js:491-510 | every item of a report built from the tracker meets what the popup's fallback assumes, and is never pending |
| Popup.SortKey | popup.js:127-128 | the key is the domain text (or "") reversed, character by character |
| Popup.Insert | popup.js:126-130 | inserting into sorted rows keeps them sorted and adds exactly the row |
| Popup.SortRows | popup.js:126-130 | the display order is a sorted permutation of the stored rows |
| Popup.SameParentDomainsCompareByLabel | popup.js:126-130 | domains under a common parent compare as their leading labels do, so they sit together |
| Popup.ViewOf | popup.js:23-213 | the results area shows each case exactly when its condition holds, and the table holds the rendered rows in sorted order |
| Popup.TimeoutOverride | popup.js:368-370 | only a stored positive number replaces the timeout |
| Popup.CollectOverride | popup.js:371-376 | only a stored number at least 0 replaces the window |
| Popup.PopupCountsDownTheWorkersDurations | popup.js:366-377 | starting from its defaults, the popup counts down the same timeout and window the worker uses |
| Popup.RemainingMs | popup.js:252 | the remaining time is total minus elapsed, or 0 |
| Popup.CountdownSeconds | popup.js:251-261 | the seconds shown are the remaining time rounded up, and 0 exactly when the total has elapsed |
| Popup.CountdownNeverIncreases | popup.js:251-253 | the countdown never goes up as time passes |
| Popup.CountdownStartsAtTotal | popup.js:251-253 | at the start the countdown shows the total rounded up to seconds: 5 for the 5000 ms default |
| Popup.StartButtonEnabled | popup.js:319-348 | the button is enabled exactly for a usable proxy string and disabled exactly for a blank one |
| Popup.ButtonAgreesWithWorker | popup.js:322 | the button is enabled exactly when an idle worker would accept an http(s) page, and disabled exactly when it would refuse it for lack of a proxy |
| Popup.Click | popup.js:266-298 | a running record is stopped; otherwise a valid tab sends a start with its id and url, and any other tab writes an error record for its page |
| Popup.StartIsNeverAnInvalidUrl | popup.js:282 | a start the popup sends is never refused as an invalid URL |
| Popup.RejectedClickShowsError | popup.js:283-285 | the error record a rejected click writes is shown as an error for that page |
| Popup.PopupPage.constructor | popup.js:1-7 | the popup starts with the default durations, no timer and no phase |
| Popup.PopupPage.ApplyStoredConfig | popup.js:366-377 | the stored record overrides each duration only when valid |
| Popup.PopupPage.CheckProxyConfig | popup.js:319-348 | the button is set as `StartButtonEnabled` says, and left as it was when the check throws |
| Popup.PopupPage.UpdateProgressDisplay | popup.js:225-234 | a falsy or done phase stops the timer and shows completion; another phase is recorded with its start and the timer runs |
| Popup.PopupPage.Tick | popup.js:235-262 | the line counts down the timeout while loading and the window while collecting; any other phase completes and stops the timer |
| Popup.PopupPage.OnStartupResults | popup.js:350-355 | a stored record is rendered and sets the button; the progress line and timer are left alone |
| Popup.PopupPage.OnStartupProgress | popup.js:357-364 | a truthy phase updates the display; otherwise the line is emptied and the timer left running |
| Popup.PopupPage.OnResultsChanged | popup.js:380-390 | the view follows the record, the button shows stop exactly while running, and any other status ends the countdown |
| Popup.PopupPage.OnProgressChanged | popup.js:391-399 | a truthy phase updates the display; a missing one empties the line and stops the timer |
| Popup.PopupPage.OnClick | popup.js:266-298 | the action is `Click`'s, and a start begins the loading countdown at the click |
| Popup.LoadingCountdown | popup.js:357-377 | a popup fed the worker's loading progress counts down the worker's timeout, reaching 0 exactly when it has elapsed |
| Scenarios.StopWhileCollecting | background.js:414-427 | a stop during the first sleep of the window ends the pass without a new report, restores the system proxy, and sets the boundary after that sleep |
| Scenarios.SecondStartIsBusy | background.js:109-112 | a start while a pass runs is refused as busy and installs no second proxy script |
| Scenarios.ExampleReport | background.js:483-510 | the example's merged snapshot gives exactly one item: the cdn host with 200, 100 ms, 2048 bytes and 20.0 KB/s |
| Scenarios.ExamplePass | background.js:84-146 | the complete pass over https://example.com stores that single-item report, closes its tab and restores the system proxy |
| Scenarios.ExampleRendered | popup.js:132-206 | the popup shows that report as one row: 200, 100, 2 KB, 20 KB/s |

## Left out

- `syncCacheDynamicRules` and the `disableCache` rules it installs (`background.js:189-253`) are not part of this model. They are a browser API call; the flag is only carried in the configuration.
- The browser APIs are left out: storage, tabs, proxy settings, runtime messaging, `webNavigation`. Their callbacks are modelled as method calls. Their effects are modelled as the fields they would set; the worker's one startup write to sync storage is the field `syncConfig`.
- The main-frame load race (`background.js:353-403`) is an input, as `LoadOutcome`: its timers, listeners and 200 ms abort poll are not modelled.
- The collection wait's sleeps and the stop messages during it are inputs.
- Overlapping passes are not analysed. A stop clears the flag at once (`background.js:86-87`), while the stopped pass is still waiting: in a collection sleep, for the timing data, or in the abort poll. A new start then passes the busy check (`background.js:109`). The old pass can later set the stop boundary under the new one (`background.js:427`), write its "done" report over the new "running" record (`background.js:489`), and clear the flag and restore the system proxy in its `finally` (`background.js:135-140`). The model permits this interleaving, since continuations are values the caller may hand back late, but no lemma states its effects.
- The DOM, localisation strings and `console.log` are not modelled. The popup's table is a value (`View`), and its progress line is a value (`ProgressLine`).
- The hint that `checkProxyConfig` writes into an empty results area (`popup.js:329-337`) is not modelled.
- Popup.SortRows: `localeCompare` is modelled as code-point order, and the stability of `Array.prototype.sort` is not stated.
- Url.HostOfHttpUrl: `new URL` is modelled by a simplified parser. It handles the scheme, the special http(s) slashes, user information, port and ASCII lower-casing. It has no percent-decoding, IDNA or IP-address normalisation. A bracketed IPv6 host such as "http://[::1]:80/" is cut at its first ':' and gives "[", where `new URL` gives "[::1]".
- The PAC script is represented by its rule (`Pac.PacRule`) and its answer (`Pac.FindProxyForURL`), not by its text. The splicing of host and proxy into the text is not modelled, so a `"` in the proxy text, which breaks the generated script, is not captured.
- Floating point is not modelled: sizes, durations and throughputs are integers, or tenths rounded half up.
- Strings.ParseInt: `parseInt` beyond 2^53 is exact here, not rounded. A run of 309 or more digits gives Infinity in JavaScript, so the options page would save 0; here it keeps the exact value.
- Options.InputText: `String(v)` of a non-string value is modelled for numbers, booleans and null. An object stored in the record is not modelled.
- Report.BuildTestItems: the order of the report items (the object's key order in the source) is left open. The model states only which items appear, once each.
- A non-string message URL, and hostnames that clash with `Object.prototype` keys, are not modelled.
- Popup.PopupPage.OnProgressChanged: a non-numeric or missing `startedAt` is passed as 0.
- Popup.Click: a tab without a URL writes the page "" instead of `undefined`.
- Popup.PopupPage.OnResultsChanged: a removed results record makes `popup.js:382` throw. That case is not modelled.
- The popup's startup read of `proxyConfig` (`popup.js:366-377`) is modelled by `Popup.PopupPage.ApplyStoredConfig`. Its two other startup reads have their own methods, because they differ from the change events.
- The example pass takes its hosts and proxy as parameters. `Scenarios.ExampleHostsArePlain` and `Scenarios.ExampleProxyIsTrimmed` show that "example.com", "cdn.example.net" and "127.0.0.1:7890" meet its preconditions.
