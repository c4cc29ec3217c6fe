# Bone Breaker web auditor: a verified model of its core logic

Bone Breaker audits one web page in Firefox. It fingerprints the front-end
technologies the page loads, records the HTTP traffic the browser makes, and
keeps a small JSON state file per audit project. This project models the logic
behind those features in Dafny and proves what it promises:

- **Technology fingerprinter** (`dom_analyzer.dfy`, module `DomAnalyzer`).
  - The page is given as its tag sequence in document order.
  - `DetectTechnologies` makes the source's three passes: script `src`, meta `generator`, link `href`.
  - `ExtractVersion` re-implements, by hand, the five fixed version patterns of `extract_version`.
    - It follows Python `re.search` semantics: the leftmost match; `.min` tried first; the greedy `.*`, so the last marker on the line wins; maximal digit runs.
  - The report is proved equal to a per-key reference reading: every key holds the value written by the last tag in document order that sets it.
- **Batch request capture** (`http_monitor.dfy`, module `HttpMonitor`).
  - `InterceptRequests` filters the proxy's request list to the requests that have a response, in order, with no deduplication.
  - It builds one record per request, with the cookie fallback.
  - `SaveRequests` overwrites `requests.log`; the saved list reads back unchanged.
- **Continuous capture and audit records** (`bone_breaker.dfy`, module `BoneBreaker`).
  - `MonitorRequests` is the polling loop of the manual mode, over a file store.
    - It keeps a seen-URL set.
    - A request without a response is skipped.
    - Each new record is appended by read-append-rewrite.
    - Text that fails to decode counts as `[]`.
    - A missing file or a non-list value ends the loop.
  - The loop is proved against a reference definition (`NewRecords`): the first responded request of each URL, in order.
  - `RunSeleniumAudit` is proved against two reference definitions: `AuditOutcome`, the record saved to `state.json` on each path (automatic, manual or error), and `AuditFiles`, what `state.json`, `dom_analysis.json` and `requests.log` hold afterwards, every other file being unchanged.
  - `ProjectDirName` is the `users/user_project_YYYYMMDD_HHMMSS` directory name, as POSIX `os.path.join` builds it; the time is proved to read back from it.
- **Project state** (`project_manager.dfy`, module `ProjectManager`).
  - `Merge` holds the type-directed rules of `update_project`: list extend or append, dict update or `ValueError`, scalar overwrite, insertion of an absent key.
  - It also covers initialising, loading, saving and finalising the state file.
- **Browser set-up** (`browser_config.dfy`, module `BrowserConfig`).
  - `FindFirefoxPath` searches for the first existing candidate path.
  - `LaunchSeleniumBrowser` makes the option decisions: browser, mode, proxy, mobile.
  - `DetectMobileVersion` applies the 800-pixel width threshold.
- **Shared vocabulary** (`common.dfy`, `json.dfy`): optional values, results carrying the Python exception, ASCII lower-casing, substring search, JSON values, and the file store.
  - The file store is a class whose `files` map each path either to a decoded JSON value or to text that does not decode.

Clocks, the environment, the file system and the browser become parameters:

- a timestamp string or `DateTime`;
- the environment map and the set of existing paths;
- the `FileSystem` object;
- the page's tags, the proxy's request list, and the sequence of polling turns.

Two behaviours of the code are easy to misread, and the model follows the code in both:

- A `<meta name="generator">` without a `content` attribute records `"Unknown"`, but one with an empty `content` records `''` (`GeneratorContentDefault`).
- The continuous capture opens the requests file for reading before each append. A missing file raises `FileNotFoundError`, which ends the loop without writing (`MissingLogHalts`). Only text that does not decode, including an empty file, is treated as `[]` (`GarbledLogReadAsEmpty`).

## Model

| member | source | states |
|---|---|---|
| DomAnalyzer.PatternFor | modules/dom_analyzer.py:82-90 | exactly the five lower-case names react, angular, vue, bootstrap and tailwind have a pattern; its token is the name, its extension `.css` for bootstrap and tailwind and `.js` otherwise, its marker `version=` for react and vue and `v=` otherwise |
| DomAnalyzer.DigitRun | modules/dom_analyzer.py:83-87 | a greedy `\d+` consumes only digits and stops at the first non-digit or at the end |
| DomAnalyzer.DigitsInEvery | modules/dom_analyzer.py:83-87 | the recursive digit-run predicate holds exactly when every character of the range is a digit |
| DomAnalyzer.TripleEndSound | modules/dom_analyzer.py:83-87 | the end found for `\d+\.\d+\.\d+` delimits a version triple whose last run is maximal |
| DomAnalyzer.TripleEndComplete | modules/dom_analyzer.py:83-87 | every version triple at a position whose last run is maximal is the one found |
| DomAnalyzer.TripleEndSpec | modules/dom_analyzer.py:83-87 | the end found is Some(b) exactly when a maximal version triple spans from the position to b |
| DomAnalyzer.ExtEndSpec | modules/dom_analyzer.py:83-87 | `(?:\.min)?ext` ends at k exactly when `.min` then the extension, or the extension alone, spans up to k |
| DomAnalyzer.LineEndSpec | modules/dom_analyzer.py:83-87 | `.*` may stop at a position exactly when no newline lies before it |
| DomAnalyzer.QueryMatchSound | modules/dom_analyzer.py:83-87 | a query group found is a marker followed by a version triple |
| DomAnalyzer.QueryMatchGreedy | modules/dom_analyzer.py:83-87 | no marker followed by a version is missed, and the one found is the one that starts last (greedy `.*`) |
| DomAnalyzer.QueryBranch | modules/dom_analyzer.py:83-87 | after a `?` the query group is found exactly when one on the same line is followed by a version, and then the last such |
| DomAnalyzer.GroupAfterSpec | modules/dom_analyzer.py:83-87 | after the extension, the captured group is the optional query group's version or the version that follows at once, none missed, the last-starting one chosen |
| DomAnalyzer.MatchAtSpec | modules/dom_analyzer.py:83-87 | a match is found at a start position exactly when the pattern relation has one there, and the group found is the last-starting of those |
| DomAnalyzer.SearchFromSound | modules/dom_analyzer.py:92 | what the search finds is a maximal version triple |
| DomAnalyzer.SearchFromFirst | modules/dom_analyzer.py:92 | the search from a position finds nothing exactly when no match starts there or later, and otherwise the leftmost match's group |
| DomAnalyzer.SearchFirst | modules/dom_analyzer.py:92 | `re.search` finds nothing exactly when the pattern matches nowhere; otherwise the group of the leftmost match, which is a version triple |
| DomAnalyzer.ExtractVersion | modules/dom_analyzer.py:69-96 | a technology without a pattern gives "Unknown"; any other result is a version triple that occurs in the url |
| DomAnalyzer.ExtractVersionSpec | modules/dom_analyzer.py:90-96 | for a technology with a pattern the result is "Unknown" exactly when the pattern matches nowhere in the url, and otherwise the group of the leftmost match |
| DomAnalyzer.FirstMatchUnique | modules/dom_analyzer.py:92 | only one match is the leftmost one, with one group |
| DomAnalyzer.VersionOfMatch | modules/dom_analyzer.py:92-94 | given the leftmost match and its group, the result is exactly that group's text |
| DomAnalyzer.UnknownIsNotVersion | modules/dom_analyzer.py:81 | the default "Unknown" is never a version triple, so the two outcomes cannot be confused |
| DomAnalyzer.ReactVersionFromQuery | modules/dom_analyzer.py:83 | `react.min.js?version=18.2.0` with `react` yields `18.2.0` |
| DomAnalyzer.AngularVersionFromQuery | modules/dom_analyzer.py:84 | `angular.min.js?v=1.8.2` with `angular` yields `1.8.2` (angular uses the `v=` marker) |
| DomAnalyzer.ReactIgnoresShortMarker | modules/dom_analyzer.py:83 | react only accepts the `version=` marker: `react.js?v=18.2.0` yields "Unknown" |
| DomAnalyzer.FindAll | modules/dom_analyzer.py:34 | the tags found are exactly the document's tags with that name, no more of them than the document has |
| DomAnalyzer.DetectTechnologies | modules/dom_analyzer.py:21-67 | the three loops compute the report; its keys are among the six display names; each key holds the last setting tag's value |
| DomAnalyzer.TechnologiesCharacterized | modules/dom_analyzer.py:31-67 | the report equals the per-key reference reading "last tag in document order that sets the key" |
| DomAnalyzer.TechnologiesKeys | modules/dom_analyzer.py:39-65 | output keys are a subset of {React, Angular, Vue.js, CMS, Bootstrap, Tailwind CSS} |
| DomAnalyzer.LastMatchingTagWins | modules/dom_analyzer.py:35-65 | the last tag that sets a key decides its value; earlier tags are overwritten |
| DomAnalyzer.KeyDetectedIff | modules/dom_analyzer.py:39-65 | a key is present exactly when some tag of its kind matches it |
| DomAnalyzer.IndependentTokenChecks | modules/dom_analyzer.py:39-48 | one src containing both "react" and "vue" reports both keys |
| DomAnalyzer.MissingAttributeMatchesNothing | modules/dom_analyzer.py:36 | a tag without `src`/`href` counts as `''` and sets no framework key |
| DomAnalyzer.UnversionedScriptReportsUnknown | modules/dom_analyzer.py:36-40 | a script `/js/react.js` reports React with version "Unknown" and nothing else |
| DomAnalyzer.LastGeneratorWins | modules/dom_analyzer.py:54-56 | of two generator metas, the second one's content is the CMS |
| DomAnalyzer.GeneratorContentDefault | modules/dom_analyzer.py:56 | CMS is the `content` attribute as given, even if empty, and "Unknown" only when the attribute is absent |
| DomAnalyzer.AnalyzePage | modules/dom_analyzer.py:98-114 | the result is exactly `{url, technologies}` with the page url and the detected report |
| HttpMonitor.CookiesOf | modules/http_monitor.py:20-25 | the cookies field is the structured cookies when present; otherwise the raw Set-Cookie header, or "" without one |
| HttpMonitor.Capture | modules/http_monitor.py:26-33 | the record copies the request's url, method and headers and the response's status code and headers; its cookies follow the cookie fallback |
| HttpMonitor.Captures | modules/http_monitor.py:16-35 | the result has one record per responded request, every responded request's record is in it, and it is no longer than the input |
| HttpMonitor.InterceptRequests | modules/http_monitor.py:6-35 | the loop's result is the filter-then-map reference `Captures` |
| HttpMonitor.CapturesAppend | modules/http_monitor.py:17-34 | the result follows the driver's order: capturing a concatenation captures each part in turn |
| HttpMonitor.NothingRespondedNothingCaptured | modules/http_monitor.py:16-18 | with no response at all the result is the empty list |
| HttpMonitor.CapturedComeFromResponded | modules/http_monitor.py:18 | every record comes from a request that had a response |
| HttpMonitor.CaptureAt | modules/http_monitor.py:17-34 | the i-th responded request's record sits at position "responded requests before it" |
| HttpMonitor.RepeatedUrlsEachRecorded | modules/http_monitor.py:17-34 | no dedup in batch mode: two responded requests to one URL give two records |
| HttpMonitor.CountGrowsPastResponded | modules/http_monitor.py:18 | distinct responded requests get distinct positions |
| HttpMonitor.RecordCopiesRequest | modules/http_monitor.py:26-32 | a record's dict copies url, method, status code, request headers and response headers |
| HttpMonitor.ExchangeRoundTrip | modules/http_monitor.py:26-33 | a record's dict reads back to the same record |
| HttpMonitor.LogRoundTrip | modules/http_monitor.py:45-46 | the dumped list of records reads back to the same list |
| HttpMonitor.SaveRequests | modules/http_monitor.py:37-46 | `requests.log` is overwritten with the whole list, nothing else changes, and it reads back as the list |
| BoneBreaker.ReadLog | bone_breaker.py:108-115 | reading fails exactly when the file is missing or holds a non-list; undecodable text reads as [] |
| BoneBreaker.Observe | bone_breaker.py:88-119 | a request with a response marks its URL seen even when the append then raises; the loop ends exactly when a new URL's read raises; a rewritten file ends with the request's record; an ended loop changes nothing |
| BoneBreaker.CapturePass | bone_breaker.py:88-119 | once the loop has ended, a pass changes nothing |
| BoneBreaker.CapturePassSeen | bone_breaker.py:88-90 | a pass only adds URLs to the seen set, and only URLs that got a response in it |
| BoneBreaker.Run | bone_breaker.py:86-127 | once the loop has ended, further turns change nothing (no retry) |
| BoneBreaker.RunSeen | bone_breaker.py:86-90 | a run only adds to the seen set the responded URLs of the turns made before the stop flag |
| BoneBreaker.MonitorRequests | bone_breaker.py:73-127 | the polling loop changes only the requests file, which ends as the reference run `Run` leaves it |
| BoneBreaker.NewRecordsDistinct | bone_breaker.py:84-90 | persisted records have pairwise distinct URLs, none seen before, each of a responded request |
| BoneBreaker.NewRecordsComplete | bone_breaker.py:88-90 | every responded URL not seen before is persisted |
| BoneBreaker.NewRecordsKeepFirst | bone_breaker.py:88-105 | the record persisted for a URL is the capture of the first request to that URL that got a response |
| BoneBreaker.NewRecordsAppend | bone_breaker.py:86-90 | passes compose: later requests are filtered against everything persisted earlier |
| BoneBreaker.RetriedAfterNoResponse | bone_breaker.py:89 | a request without a response is not marked seen, so a later response to its URL is captured |
| BoneBreaker.PassAppends | bone_breaker.py:88-119 | a pass appends exactly the new records after the earlier items and marks the responded URLs seen |
| BoneBreaker.GarbledLogReadAsEmpty | bone_breaker.py:109-112 | log text that fails to decode is treated as the empty list before the append |
| BoneBreaker.MissingLogHalts | bone_breaker.py:108-127 | with no requests file the first record to persist raises and ends the loop without writing |
| BoneBreaker.RunAppends | bone_breaker.py:86-123 | a whole run appends, in order, the new records of every request observed before the stop flag |
| BoneBreaker.RunStopsAtFlag | bone_breaker.py:86 | turns after the one that sees the stop flag are never made |
| BoneBreaker.ManualCaptureLog | bone_breaker.py:221-227 | from the manual mode's initial `[]` the file ends with one record per URL, each URL once, in first-capture order |
| BoneBreaker.RespondedUrls | bone_breaker.py:89-90 | every responded request's URL is among the URLs marked seen |
| BoneBreaker.InteractionsOf | bone_breaker.py:208 | a recognised interactions text is the text of the outcome read back |
| BoneBreaker.InteractionsRoundTrip | bone_breaker.py:201-287 | the three interactions texts are distinct and read back to their outcome |
| BoneBreaker.AuditRoundTrip | bone_breaker.py:201-209 | an audit record's dict reads back to the same record |
| BoneBreaker.UpdateStateJson | bone_breaker.py:61-71 | `state.json` is overwritten with the audit dict, which reads back as the record |
| BoneBreaker.AuditOutcome | bone_breaker.py:131-290 | the record keeps url, mode, mobile and timestamp; it is automatic exactly for automatique without a fault, manual exactly for manuel when neither loading nor `driver.quit()` raised, and an error otherwise; technologies are the page's once it was analysed and {} otherwise |
| BoneBreaker.AuditFiles | bone_breaker.py:168-290 | `state.json` holds the record; once the page loaded, `dom_analysis.json` holds `{url, technologies}`; `requests.log` holds the batch capture (automatique, unless reading the proxy raised) or the continuous capture (manuel); an unloaded page or a failed read leaves those files alone; every other file is unchanged |
| BoneBreaker.RunSeleniumAudit | bone_breaker.py:131-290 | the returned record is the outcome of the path taken, the files end as described, `state.json` reads back as the record, and `dom_analysis.json` and `requests.log` read back as the analysis and the capture when written |
| BoneBreaker.AuditLoadedPage | bone_breaker.py:162-271 | once the page loaded, the analysis is saved and the mode's branch leaves the record and files described |
| BoneBreaker.AutomaticAudit | bone_breaker.py:174-213 | a raising proxy read saves only an error record; otherwise the batch capture is saved before `driver.quit()`, and the record is automatic or, if the quit raised, an error |
| BoneBreaker.ManualAudit | bone_breaker.py:215-271 | `requests.log` starts as [] and ends with the continuous capture; the record is manual or, if the final `driver.quit()` raised, an error |
| BoneBreaker.Digits | bone_breaker.py:56 | a zero-padded field has exactly its width and only digits |
| BoneBreaker.DigitsRoundTrip | bone_breaker.py:56 | a zero-padded field reads back to its number |
| BoneBreaker.Timestamp | bone_breaker.py:56 | the stamp has 15 characters: digits everywhere except the `_` at index 8 |
| BoneBreaker.TimestampRoundTrip | bone_breaker.py:56 | the `%Y%m%d_%H%M%S` stamp reads back to the time |
| BoneBreaker.ProjectDirName | bone_breaker.py:53-57 | the directory is `users/user_project_` followed by the stamp (POSIX separator) |
| BoneBreaker.ProjectDirRoundTrip | bone_breaker.py:53-57 | the time reads back from the directory name |
| BoneBreaker.ProjectDirInjective | bone_breaker.py:53-57 | audits started at different seconds get different directories |
| ProjectManager.SaveProject | modules/project_manager.py:7-16 | `state.json` is replaced by the data, which loads back unchanged |
| ProjectManager.LoadProject | modules/project_manager.py:18-33 | a missing `state.json` raises FileNotFoundError, undecodable text a decode error, otherwise its value is returned |
| ProjectManager.Basename | modules/project_manager.py:44 | the project name is the last path component: no '/', a suffix of the path, preceded by '/' if not the whole path |
| ProjectManager.InitializeProject | modules/project_manager.py:35-52 | `state.json` becomes the fixed initial state named after the basename |
| ProjectManager.InitialStateKeys | modules/project_manager.py:43-51 | the initial state has exactly the seven documented keys |
| ProjectManager.Merge | modules/project_manager.py:63-78 | ValueError exactly when a dict key gets a non-dict; the keys become the old keys plus `key`; other keys unchanged; an absent key is inserted as-is |
| ProjectManager.MergeIntoList | modules/project_manager.py:65-69 | on a list key the old elements stay in front, followed by a list value's elements or a non-list value as one element |
| ProjectManager.MergeIntoDict | modules/project_manager.py:70-72 | on a dict key a dict value's entries win and the other entries stay |
| ProjectManager.MergeOverwritesScalar | modules/project_manager.py:75-76 | any other existing value is overwritten |
| ProjectManager.DictMergeIdempotent | modules/project_manager.py:70-72 | merging the same dict twice equals merging it once |
| ProjectManager.ListExtendsCompose | modules/project_manager.py:65-67 | extending by a then by b equals extending by a + b |
| ProjectManager.Update | modules/project_manager.py:63-78 | a state that is not a dict raises TypeError; otherwise it fails exactly when a dict key gets a non-dict; the keys become the old keys plus `key`, and other keys are unchanged |
| ProjectManager.UpdateProject | modules/project_manager.py:54-79 | the file is rewritten with the merged state, and untouched when loading or merging fails |
| ProjectManager.Finalize | modules/project_manager.py:81-91 | status becomes "completed", end_time is added, all other keys are preserved; a non-dict state raises TypeError |
| ProjectManager.FinalizeProject | modules/project_manager.py:81-91 | the file is rewritten with the finalised state, and untouched on failure |
| ProjectManager.FinalizeAfterInitialize | modules/project_manager.py:35-91 | finalising a fresh project keeps its name, start time and empty lists, and marks it completed |
| ProjectManager.FinalizeTwice | modules/project_manager.py:88-91 | finalising twice equals finalising once at the later time |
| BrowserConfig.WinJoin | modules/browser_config.py:19-21 | the joined Windows path starts with the directory and ends with the name |
| BrowserConfig.Candidates | modules/browser_config.py:14-35 | Windows fails with TypeError exactly when one of the three variables is unset; an unknown system has no candidates |
| BrowserConfig.FirstExisting | modules/browser_config.py:37-40 | the index found exists and no earlier candidate does; none found means no candidate exists |
| BrowserConfig.FindFirefoxPath | modules/browser_config.py:10-47 | returns the first existing candidate in list order, else FileNotFoundError (also on an unknown OS) |
| BrowserConfig.FoundIsFirstExisting | modules/browser_config.py:37-47 | a path is found exactly when some candidate exists |
| BrowserConfig.UnknownSystemNotFound | modules/browser_config.py:34-35 | on an unknown system the list is empty and nothing is found |
| BrowserConfig.WindowsCandidateShape | modules/browser_config.py:19-21 | a Windows candidate is the variable's directory followed by `\Mozilla Firefox\firefox.exe` |
| BrowserConfig.LaunchSeleniumBrowser | modules/browser_config.py:49-100 | browser checked first, case-insensitively; automatique gives headless, manuel not headless, else ValueError; a proxy sets type 1, http and ssl; mobile sets 375x667 |
| BrowserConfig.FirefoxOptions.SetHeadless | modules/browser_config.py:64-67 | the headless flag is set as given and nothing else changes |
| BrowserConfig.FirefoxOptions.SetPreference | modules/browser_config.py:72-74 | one preference is set and nothing else changes |
| BrowserConfig.FirefoxOptions.AddArgument | modules/browser_config.py:77-78 | one argument is appended and nothing else changes |
| BrowserConfig.DetectMobileVersion | modules/browser_config.py:102-116 | mobile exactly when the width is below 800; the launched mobile window (375) counts as mobile |

## Left out

- HTML parsing (BeautifulSoup/lxml) and `get_html_content`. The page is given as its tag sequence, and tag names are taken as already lower-case.
- The general regular-expression engine. Only the five fixed patterns are matched, by a hand-written matcher.
- DomAnalyzer.ExtractVersion: `str.lower()` and `\d` are modelled for ASCII only. Python also lower-cases non-ASCII letters and counts non-ASCII decimal digits as `\d`.
- The browser driver itself: Selenium Wire construction, `driver.get`, `title`, `page_source`, `driver.requests` and `driver.quit()`. Requests are plain records. Whether loading the page, reading the proxy's list in the automatic mode, or closing the browser raises is a parameter (`Fault`).
- HttpMonitor.CookiesOf: a structured `cookies` attribute is modelled as a map of strings. Its Python type is not part of this model.
- Header dictionaries are plain maps of strings; case-insensitive header lookup is not modelled.
- JSON text. A file holds either a decoded value or text that does not decode. Indentation, `ensure_ascii` and floats are not modelled (the auditor writes none).
- Key order. JSON objects are maps, so the insertion order of a dict, and with it the key order written to `dom_analysis.json`, `state.json` and the records, is not modelled.
- Directories (`os.makedirs`), `list_projects` and `delete_project`: the file store has no directories.
- The threading of the manual mode: the background thread, `stop_event`/`join` and `time.sleep(1)`. The polling loop runs sequentially over the turns it makes, and the stop flag is an element of that sequence.
- The browser-liveness wait loop of the manual mode and its `KeyboardInterrupt` handler: they depend on process state. Whether the final `driver.quit()` is called and raises is the `QuitFails` fault.
- modules/user_interactions.py (scripted clicks) is not part of this model. Its two functions catch and log every exception, so they never change an audit's outcome.
- modules/test_browsers.py is not part of this model: live-browser integration tests.
- Logging, `print` and argument parsing.
- The wall clock. `datetime.now()` / `utcnow()` are parameters: an ISO string, or a `DateTime`.
- BoneBreaker.ProjectDirRoundTrip: proved for years 1000-9999 only. Below 1000, the platform's `%Y` may not zero-pad.
- BrowserConfig.WinJoin: UNC paths and drive-relative components beyond a bare `X:` are not modelled.
- BoneBreaker.ProjectDirName, ProjectManager.Basename, Files.Join: paths follow POSIX `os.path` (posixpath), with `/` as the only separator. On Windows (ntpath) `os.path.join` inserts `\`, so the directory is `users\user_project_…`, and `os.path.basename` also splits on `\` and after a drive `X:`; a path such as `users\user_project_20240101_120000` then has basename `user_project_20240101_120000`, where the model keeps the whole string. Only the Firefox candidate paths are built the Windows way (`WinJoin`).
- BrowserConfig.LaunchSeleniumBrowser: driver creation is taken to succeed. Its failure is re-raised unchanged by the source.
- BoneBreaker.MonitorRequests: exceptions other than the file read are not modelled. This includes a cookies object that `json.dump` cannot serialise.
