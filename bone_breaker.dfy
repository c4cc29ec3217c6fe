/** The audit driver: the continuous request capture of the manual mode, the
    audit record saved to `state.json` on each path of an audit, and the name of
    the directory a project is stored in. */
module BoneBreaker {
  import opened Common
  import opened Json
  import opened Files
  import opened HttpMonitor
  import DomAnalyzer
  import BrowserConfig

  // ---------------------------------------------------------------------------
  // `monitor_requests`: continuous capture into a JSON array file

  /** What one turn of the polling loop sees at its top: either the stop flag is
      set, or the flag is clear and the proxy's request list is `requests`. */
  datatype Poll = StopSet | Snapshot(requests: seq<Request>)

  /** The state of the capture: the URLs already persisted, what the requests
      file holds (absent when there is no such file), and whether an exception
      has ended the loop. */
  datatype Monitor = Monitor(seen: set<string>, log: Option<Contents>, halted: bool)

  /** Reading the requests file before an append: a missing file raises
      `FileNotFoundError`; text that does not decode counts as `[]`; a decoded
      value that is not a list has no `append` and raises `AttributeError`. */
  function ReadLog(file: string, log: Option<Contents>): (items: Result<seq<Value>>)
    ensures items.Failure? <==> log.None? || (log.value.Parsed? && !log.value.value.Array?)
  {
    match log
    case None => Failure(FileNotFound(file))
    case Some(Garbled) => Success([])
    case Some(Parsed(v)) => if v.Array? then Success(v.items) else Failure(AttributeError)
  }

  /** The loop body for one request: a request with a response whose URL has
      not been persisted yet is marked seen, and its record is appended to the
      file's list, which is rewritten. */
  function Observe(file: string, st: Monitor, r: Request): (next: Monitor)
    ensures st.halted ==> next == st
    ensures !st.halted ==> next.seen == st.seen + (if r.response.Some? then {r.url} else {})
    ensures next.halted <==>
      st.halted || (r.response.Some? && r.url !in st.seen && ReadLog(file, st.log).Failure?)
    ensures next.log != st.log ==>
      r.response.Some? && next.log.Some? && next.log.value.Parsed? && next.log.value.value.Array?
      && next.log.value.value.items != [] && Last(next.log.value.value.items) == ExchangeJson(Capture(r))
  {
    if st.halted || r.response.None? || r.url in st.seen then st
    else
      var seen := st.seen + {r.url};
      match ReadLog(file, st.log)
      case Failure(_) => Monitor(seen, st.log, true)
      case Success(items) => Monitor(seen, Some(Parsed(Array(items + [ExchangeJson(Capture(r))]))), false)
  }

  /** One pass of the `for` loop over the proxy's request list. */
  function CapturePass(file: string, st: Monitor, requests: seq<Request>): (next: Monitor)
    ensures st.halted ==> next == st
    decreases |requests|
  {
    if requests == [] then st else CapturePass(file, Observe(file, st, requests[0]), requests[1..])
  }

  /** The `while` loop: passes are made until the stop flag is seen set at the
      top of a turn or an exception has ended the loop. */
  function Run(file: string, st: Monitor, polls: seq<Poll>): (last: Monitor)
    ensures st.halted ==> last == st
    decreases |polls|
  {
    if polls == [] || polls[0].StopSet? || st.halted then st
    else Run(file, CapturePass(file, st, polls[0].requests), polls[1..])
  }

  /** The state at the start of `monitor_requests`: nothing seen yet. */
  function Start(file: string, files: map<string, Contents>): (st: Monitor)
  {
    Monitor({}, Lookup(files, file), false)
  }

  /** The file system once the capture state's log is what `file` holds. */
  function Commit(files: map<string, Contents>, file: string, log: Option<Contents>): (after: map<string, Contents>)
  {
    if log.Some? then files[file := log.value] else files
  }

  /** `monitor_requests(driver, requests_file, stop_event)`, where `polls` are the
      turns of the loop in order. Only the requests file changes. */
  method MonitorRequests(fs: FileSystem, file: string, polls: seq<Poll>)
    modifies fs
    ensures fs.files == Commit(old(fs.files), file, Run(file, Start(file, old(fs.files)), polls).log)
  {
    var seen: set<string> := {};
    var halted := false;
    var i := 0;
    while i < |polls| && polls[i].Snapshot?
      invariant 0 <= i <= |polls|
      invariant !halted
      invariant fs.files == Commit(old(fs.files), file, Lookup(fs.files, file))
      invariant Run(file, Monitor(seen, Lookup(fs.files, file), false), polls[i..])
             == Run(file, Start(file, old(fs.files)), polls)
    {
      var requests := polls[i].requests;
      ghost var before := Monitor(seen, Lookup(fs.files, file), false);
      var j := 0;
      while j < |requests|
        invariant 0 <= j <= |requests|
        invariant fs.files == Commit(old(fs.files), file, Lookup(fs.files, file))
        invariant CapturePass(file, Monitor(seen, Lookup(fs.files, file), false), requests[j..])
               == CapturePass(file, before, requests)
      {
        var r := requests[j];
        ghost var here := Monitor(seen, Lookup(fs.files, file), false);
        assert requests[j..][1..] == requests[j + 1..];
        if r.response.Some? && r.url !in seen {
          seen := seen + {r.url};
          var record := ExchangeJson(Capture(r));
          if file !in fs.files {
            halted := true;
            break;
          }
          var existing: seq<Value>;
          match fs.files[file] {
            case Garbled =>
              existing := [];
            case Parsed(v) =>
              if !v.Array? {
                halted := true;
                break;
              }
              existing := v.items;
          }
          fs.Dump(file, Array(existing + [record]));
          assert Monitor(seen, Lookup(fs.files, file), false) == Observe(file, here, r);
        }
        j := j + 1;
      }
      if halted {
        ghost var stopped := Monitor(seen, Lookup(fs.files, file), true);
        assert CapturePass(file, stopped, requests[j + 1..]) == stopped;
        assert Run(file, stopped, polls[i + 1..]) == stopped;
        assert polls[i..][1..] == polls[i + 1..];
        break;
      }
      assert polls[i..][1..] == polls[i + 1..];
      i := i + 1;
    }
  }

  // ---------------------------------------------------------------------------
  // A reference definition of what the capture persists

  /** The URLs of the requests that have a response. */
  function RespondedUrls(requests: seq<Request>): (urls: set<string>)
    ensures forall r :: r in requests && r.response.Some? ==> r.url in urls
    decreases |requests|
  {
    if requests == [] then {}
    else (if requests[0].response.Some? then {requests[0].url} else {}) + RespondedUrls(requests[1..])
  }

  /** The records persisted, in order, for `requests` when the URLs in `seen`
      have already been persisted: the first responded request of each URL. */
  function NewRecords(seen: set<string>, requests: seq<Request>): (records: seq<Exchange>)
    decreases |requests|
  {
    if requests == [] then []
    else
      var r := requests[0];
      if r.response.Some? && r.url !in seen then [Capture(r)] + NewRecords(seen + {r.url}, requests[1..])
      else NewRecords(seen, requests[1..])
  }

  /** The JSON items of a list of records. */
  function Records(es: seq<Exchange>): (items: seq<Value>)
  {
    LogJson(es).items
  }

  lemma RecordsAppend(a: seq<Exchange>, b: seq<Exchange>)
    ensures Records(a + b) == Records(a) + Records(b)
  {
  }

  /** The requests of the turns made before the stop flag was seen set. */
  function Observed(polls: seq<Poll>): (observed: seq<Request>)
    decreases |polls|
  {
    if polls == [] || polls[0].StopSet? then [] else polls[0].requests + Observed(polls[1..])
  }

  /** Each persisted record belongs to a responded request; no two persisted
      records share a URL, and none repeats a URL persisted before. */
  lemma {:induction false} NewRecordsDistinct(seen: set<string>, requests: seq<Request>)
    ensures forall k :: 0 <= k < |NewRecords(seen, requests)| ==>
      NewRecords(seen, requests)[k].url !in seen && NewRecords(seen, requests)[k].url in RespondedUrls(requests)
    ensures forall k, l :: 0 <= k < l < |NewRecords(seen, requests)| ==>
      NewRecords(seen, requests)[k].url != NewRecords(seen, requests)[l].url
    decreases |requests|
  {
    if requests != [] {
      var r := requests[0];
      var tailUrls := RespondedUrls(requests[1..]);
      assert tailUrls <= RespondedUrls(requests);
      if r.response.Some? && r.url !in seen {
        var tail := NewRecords(seen + {r.url}, requests[1..]);
        NewRecordsDistinct(seen + {r.url}, requests[1..]);
        var recs := [Capture(r)] + tail;
        assert r.url in RespondedUrls(requests);
        assert recs == NewRecords(seen, requests);
        forall k | 1 <= k < |recs|
          ensures recs[k].url !in seen + {r.url} && recs[k].url in RespondedUrls(requests)
        {
          assert recs[k] == tail[k - 1];
        }
        forall k, l | 0 <= k < l < |recs|
          ensures recs[k].url != recs[l].url
        {
          assert recs[l] == tail[l - 1];
          if k > 0 {
            assert recs[k] == tail[k - 1];
          }
        }
      } else {
        NewRecordsDistinct(seen, requests[1..]);
        assert NewRecords(seen, requests) == NewRecords(seen, requests[1..]);
      }
    }
  }

  /** The record persisted for a URL is that of the first request to the URL
      that got a response: later responses to it are skipped. */
  lemma {:induction false} NewRecordsKeepFirst(seen: set<string>, requests: seq<Request>, k: nat, j: nat)
    requires k < |NewRecords(seen, requests)|
    requires j < |requests| && requests[j].response.Some? && requests[j].url == NewRecords(seen, requests)[k].url
    requires forall i :: 0 <= i < j ==> !(requests[i].response.Some? && requests[i].url == requests[j].url)
    ensures NewRecords(seen, requests)[k] == Capture(requests[j])
    decreases |requests|
  {
    var r := requests[0];
    var u := requests[j].url;
    NewRecordsDistinct(seen, requests);
    if r.response.Some? && r.url !in seen {
      var tail := NewRecords(seen + {r.url}, requests[1..]);
      assert NewRecords(seen, requests) == [Capture(r)] + tail;
      if j == 0 {
        NewRecordsDistinct(seen + {r.url}, requests[1..]);
      } else {
        assert r.url != u;
        assert k > 0;
        assert requests[1..][j - 1] == requests[j];
        NewRecordsKeepFirst(seen + {r.url}, requests[1..], k - 1, j - 1);
      }
    } else {
      assert NewRecords(seen, requests) == NewRecords(seen, requests[1..]);
      if j > 0 {
        assert requests[1..][j - 1] == requests[j];
        NewRecordsKeepFirst(seen, requests[1..], k, j - 1);
      }
    }
  }

  /** Every URL that got a response and was not persisted before is persisted. */
  lemma {:induction false} NewRecordsComplete(seen: set<string>, requests: seq<Request>, u: string)
    requires u in RespondedUrls(requests) && u !in seen
    ensures exists k :: 0 <= k < |NewRecords(seen, requests)| && NewRecords(seen, requests)[k].url == u
    decreases |requests|
  {
    var r := requests[0];
    if r.response.Some? && r.url !in seen {
      if r.url != u {
        NewRecordsComplete(seen + {r.url}, requests[1..], u);
        var k :| 0 <= k < |NewRecords(seen + {r.url}, requests[1..])|
               && NewRecords(seen + {r.url}, requests[1..])[k].url == u;
        assert NewRecords(seen, requests)[k + 1].url == u;
      } else {
        assert NewRecords(seen, requests)[0].url == u;
      }
    } else {
      assert r.response.Some? ==> r.url != u;
      assert u in RespondedUrls(requests[1..]);
      NewRecordsComplete(seen, requests[1..], u);
      assert NewRecords(seen, requests) == NewRecords(seen, requests[1..]);
    }
  }

  lemma {:induction false} RespondedUrlsAppend(a: seq<Request>, b: seq<Request>)
    ensures RespondedUrls(a + b) == RespondedUrls(a) + RespondedUrls(b)
    decreases |a|
  {
    if a == [] {
      assert a + b == b;
    } else {
      assert (a + b)[0] == a[0];
      assert (a + b)[1..] == a[1..] + b;
      RespondedUrlsAppend(a[1..], b);
    }
  }

  /** Passes compose: the records of `a + b` are those of `a`, then those of `b`
      with every URL of `a` that got a response counted as seen. */
  lemma {:induction false} NewRecordsAppend(seen: set<string>, a: seq<Request>, b: seq<Request>)
    ensures NewRecords(seen, a + b) == NewRecords(seen, a) + NewRecords(seen + RespondedUrls(a), b)
    decreases |a|
  {
    if a == [] {
      assert a + b == b;
      assert seen + RespondedUrls(a) == seen;
    } else {
      var r := a[0];
      assert (a + b)[0] == r && (a + b)[1..] == a[1..] + b;
      if r.response.Some? && r.url !in seen {
        NewRecordsAppend(seen + {r.url}, a[1..], b);
        assert seen + {r.url} + RespondedUrls(a[1..]) == seen + RespondedUrls(a);
      } else {
        NewRecordsAppend(seen, a[1..], b);
        assert seen + RespondedUrls(a[1..]) == seen + RespondedUrls(a);
      }
    }
  }

  /** A request without a response does not mark its URL: when the same URL
      later arrives with a response and has not been persisted meanwhile, its
      record is appended. */
  lemma RetriedAfterNoResponse(seen: set<string>, pending: Request, between: seq<Request>, answered: Request)
    requires pending.response.None? && answered.response.Some?
    requires answered.url == pending.url && answered.url !in seen
    requires answered.url !in RespondedUrls(between)
    ensures NewRecords(seen, [pending] + between + [answered])
         == NewRecords(seen, between) + [Capture(answered)]
  {
    var start := [pending] + between;
    assert start[1..] == between;
    assert RespondedUrls(start) == RespondedUrls(between);
    NewRecordsAppend(seen, start, [answered]);
    assert NewRecords(seen, start) == NewRecords(seen, between);
    assert NewRecords(seen + RespondedUrls(start), [answered]) == [Capture(answered)];
  }

  // ---------------------------------------------------------------------------
  // The capture against the reference definition

  /** A pass only ever adds URLs to the seen set, and only URLs that got a
      response during the pass. */
  lemma {:induction false} CapturePassSeen(file: string, st: Monitor, requests: seq<Request>)
    ensures st.seen <= CapturePass(file, st, requests).seen <= st.seen + RespondedUrls(requests)
    decreases |requests|
  {
    if requests != [] {
      var next := Observe(file, st, requests[0]);
      CapturePassSeen(file, next, requests[1..]);
      assert next.seen <= st.seen + RespondedUrls(requests);
    }
  }

  /** The same holds for a whole run, over the requests observed before the
      stop flag. */
  lemma {:induction false} RunSeen(file: string, st: Monitor, polls: seq<Poll>)
    ensures st.seen <= Run(file, st, polls).seen <= st.seen + RespondedUrls(Observed(polls))
    decreases |polls|
  {
    if !(polls == [] || polls[0].StopSet? || st.halted) {
      var next := CapturePass(file, st, polls[0].requests);
      CapturePassSeen(file, st, polls[0].requests);
      RunSeen(file, next, polls[1..]);
      RespondedUrlsAppend(polls[0].requests, Observed(polls[1..]));
    }
  }

  /** A pass from a state whose file holds a JSON list appends exactly the new
      records, after the earlier items, and marks the responded URLs seen. */
  lemma {:induction false} PassAppends(file: string, seen: set<string>, items: seq<Value>, requests: seq<Request>)
    ensures CapturePass(file, Monitor(seen, Some(Parsed(Array(items))), false), requests)
         == Monitor(seen + RespondedUrls(requests),
                    Some(Parsed(Array(items + Records(NewRecords(seen, requests))))), false)
    decreases |requests|
  {
    if requests == [] {
      assert items + Records([]) == items;
    } else {
      var r := requests[0];
      var st := Monitor(seen, Some(Parsed(Array(items))), false);
      if r.response.Some? && r.url !in seen {
        var grown := items + [ExchangeJson(Capture(r))];
        assert Observe(file, st, r) == Monitor(seen + {r.url}, Some(Parsed(Array(grown))), false);
        PassAppends(file, seen + {r.url}, grown, requests[1..]);
        RecordsAppend([Capture(r)], NewRecords(seen + {r.url}, requests[1..]));
        assert grown + Records(NewRecords(seen + {r.url}, requests[1..]))
            == items + Records(NewRecords(seen, requests));
        assert seen + {r.url} + RespondedUrls(requests[1..]) == seen + RespondedUrls(requests);
      } else {
        PassAppends(file, seen, items, requests[1..]);
        assert seen + RespondedUrls(requests[1..]) == seen + RespondedUrls(requests);
      }
    }
  }

  /** Text that fails to decode is treated as the empty list: once a pass has a
      record to persist, it ends as if the file had held `[]`. */
  lemma {:induction false} GarbledLogReadAsEmpty(file: string, seen: set<string>, requests: seq<Request>)
    requires NewRecords(seen, requests) != []
    ensures CapturePass(file, Monitor(seen, Some(Garbled), false), requests)
         == CapturePass(file, Monitor(seen, Some(Parsed(Array([]))), false), requests)
    decreases |requests|
  {
    var r := requests[0];
    if !(r.response.Some? && r.url !in seen) {
      GarbledLogReadAsEmpty(file, seen, requests[1..]);
    }
  }

  /** With no file to read, the first record to persist raises: the loop ends
      and nothing is written. */
  lemma {:induction false} MissingLogHalts(file: string, seen: set<string>, requests: seq<Request>)
    requires NewRecords(seen, requests) != []
    ensures CapturePass(file, Monitor(seen, None, false), requests).halted
    ensures CapturePass(file, Monitor(seen, None, false), requests).log == None
    decreases |requests|
  {
    var r := requests[0];
    if !(r.response.Some? && r.url !in seen) {
      MissingLogHalts(file, seen, requests[1..]);
    }
  }

  /** A whole run from a file holding a JSON list: the file ends holding the
      earlier items followed by the new records of every request observed
      before the stop flag, in order. */
  lemma {:induction false} RunAppends(file: string, seen: set<string>, items: seq<Value>, polls: seq<Poll>)
    ensures Run(file, Monitor(seen, Some(Parsed(Array(items))), false), polls)
         == Monitor(seen + RespondedUrls(Observed(polls)),
                    Some(Parsed(Array(items + Records(NewRecords(seen, Observed(polls)))))), false)
    decreases |polls|
  {
    if polls == [] || polls[0].StopSet? {
      assert items + Records([]) == items;
    } else {
      var first := polls[0].requests;
      var rest := Observed(polls[1..]);
      PassAppends(file, seen, items, first);
      var seen' := seen + RespondedUrls(first);
      var items' := items + Records(NewRecords(seen, first));
      RunAppends(file, seen', items', polls[1..]);
      NewRecordsAppend(seen, first, rest);
      RespondedUrlsAppend(first, rest);
      RecordsAppend(NewRecords(seen, first), NewRecords(seen', rest));
      assert items' + Records(NewRecords(seen', rest)) == items + Records(NewRecords(seen, first + rest));
      assert seen' + RespondedUrls(rest) == seen + RespondedUrls(first + rest);
    }
  }

  /** The turns after the one that sees the stop flag are never made. */
  lemma {:induction false} RunStopsAtFlag(file: string, st: Monitor, polls: seq<Poll>, k: nat)
    requires k < |polls| && polls[k].StopSet?
    ensures Run(file, st, polls) == Run(file, st, polls[..k])
    decreases k
  {
    if k > 0 && polls[0].Snapshot? && !st.halted {
      assert polls[..k][1..] == polls[1..][..k - 1];
      RunStopsAtFlag(file, CapturePass(file, st, polls[0].requests), polls[1..], k - 1);
    }
  }

  /** In the manual mode the file starts as `[]`: it ends holding one record per
      URL that got a response, each URL once, in the order first captured. */
  lemma ManualCaptureLog(file: string, polls: seq<Poll>)
    ensures var final := Run(file, Monitor({}, Some(Parsed(Array([]))), false), polls);
      && !final.halted
      && final.log == Some(Parsed(LogJson(NewRecords({}, Observed(polls)))))
    ensures var recs := NewRecords({}, Observed(polls));
      forall k, l :: 0 <= k < l < |recs| ==> recs[k].url != recs[l].url
  {
    RunAppends(file, {}, [], polls);
    assert [] + Records(NewRecords({}, Observed(polls))) == Records(NewRecords({}, Observed(polls)));
    NewRecordsDistinct({}, Observed(polls));
  }

  // ---------------------------------------------------------------------------
  // The audit record written to `state.json`

  /** How the page was interacted with, as recorded in `interactions`. */
  datatype Interactions = Automatic | Manual | Failed

  function InteractionsText(i: Interactions): (text: string)
  {
    match i
    case Automatic => "Simulées automatiquement"
    case Manual => "Simulées manuellement"
    case Failed => "Erreur durant l'audit"
  }

  function InteractionsOf(text: string): (i: Option<Interactions>)
    ensures i.Some? ==> InteractionsText(i.value) == text
  {
    if text == "Simulées automatiquement" then Some(Automatic)
    else if text == "Simulées manuellement" then Some(Manual)
    else if text == "Erreur durant l'audit" then Some(Failed)
    else None
  }

  /** The three texts are distinct, so the record tells the paths apart. */
  lemma InteractionsRoundTrip(i: Interactions)
    ensures InteractionsOf(InteractionsText(i)) == Some(i)
  {
    match i
    case Automatic =>
    case Manual =>
      assert |InteractionsText(i)| != |"Simulées automatiquement"|;
    case Failed =>
      assert InteractionsText(i)[0] != "Simulées automatiquement"[0];
      assert InteractionsText(i)[0] != "Simulées manuellement"[0];
  }

  /** The audit information of one run; the browser is always Firefox. */
  datatype AuditInfo = AuditInfo(
    url: string,
    mode: string,
    mobile: bool,
    timestamp: string,
    technologies: map<string, string>,
    interactions: Interactions)

  const AuditKeys: set<string> :=
    {"url", "browser", "mode", "mobile", "timestamp", "technologies_detected", "interactions"}

  /** The `audit_info` dict. */
  function AuditJson(a: AuditInfo): (v: Value)
  {
    Object(map[
      "url" := Str(a.url),
      "browser" := Str("firefox"),
      "mode" := Str(a.mode),
      "mobile" := Bool(a.mobile),
      "timestamp" := Str(a.timestamp),
      "technologies_detected" := StrObject(a.technologies),
      "interactions" := Str(InteractionsText(a.interactions))])
  }

  /** Reads an audit record back from its dict. */
  function AuditOf(v: Value): (audit: Option<AuditInfo>)
  {
    if v.Object? && v.fields.Keys == AuditKeys
      && v.fields["url"].Str? && v.fields["browser"] == Str("firefox") && v.fields["mode"].Str?
      && v.fields["mobile"].Bool? && v.fields["timestamp"].Str?
      && StrMapOf(v.fields["technologies_detected"]).Some?
      && v.fields["interactions"].Str? && InteractionsOf(v.fields["interactions"].s).Some?
    then
      Some(AuditInfo(
        v.fields["url"].s, v.fields["mode"].s, v.fields["mobile"].b, v.fields["timestamp"].s,
        StrMapOf(v.fields["technologies_detected"]).value,
        InteractionsOf(v.fields["interactions"].s).value))
    else None
  }

  lemma AuditRoundTrip(a: AuditInfo)
    ensures AuditOf(AuditJson(a)) == Some(a)
  {
    var v := AuditJson(a);
    assert v.fields.Keys == AuditKeys;
    StrObjectRoundTrip(a.technologies);
    InteractionsRoundTrip(a.interactions);
  }

  /** `update_state_json(project_dir, audit_info)`. */
  method UpdateStateJson(fs: FileSystem, projectDir: string, audit: AuditInfo)
    modifies fs
    ensures fs.files == old(fs.files)[Join(projectDir, "state.json") := Parsed(AuditJson(audit))]
    ensures fs.Load(Join(projectDir, "state.json")).Success?
    ensures AuditOf(fs.Load(Join(projectDir, "state.json")).value) == Some(audit)
  {
    fs.Dump(Join(projectDir, "state.json"), AuditJson(audit));
    AuditRoundTrip(audit);
  }

  // ---------------------------------------------------------------------------
  // `run_selenium_audit`: which record each path of an audit leaves

  /** Where an audit run raises, if anywhere: loading the page (`driver.get`,
      the title or the page source), reading the proxy's request list in the
      automatic mode (`intercept_requests_selenium`), or closing the browser
      (`driver.quit`). The simulated interactions catch and log their own
      exceptions and the manual capture thread ends on its own errors, so
      neither ever reaches the audit's handler. */
  datatype Fault = NoFault | PageLoadFails | CaptureFails | QuitFails

  /** The browser starts only for the two known modes; the page is then
      analysed unless loading it raised. */
  predicate PageLoaded(mode: string, fault: Fault)
  {
    (mode == "automatique" || mode == "manuel") && fault != PageLoadFails
  }

  lemma LowerFirefox()
    ensures Lower("firefox") == "firefox"
  {
    assert forall i :: 0 <= i < 7 ==> 'a' <= "firefox"[i] <= 'z';
  }

  lemma {:induction false} JoinLength(dir: string, name: string)
    ensures |Join(dir, name)| == |dir| + |name| + (if dir == "" || Last(dir) == '/' then 0 else 1)
  {
  }

  /** The record an audit saves: the page's technologies once it was analysed,
      `{}` otherwise, and the interactions of the path it took. */
  function AuditOutcome(url: string, mode: string, mobile: bool, timestamp: string,
                        page: seq<DomAnalyzer.Tag>, fault: Fault): (audit: AuditInfo)
    ensures audit.url == url && audit.mode == mode && audit.mobile == mobile && audit.timestamp == timestamp
    ensures audit.interactions == Automatic <==> mode == "automatique" && fault == NoFault
    ensures audit.interactions == Manual <==> mode == "manuel" && (fault == NoFault || fault == CaptureFails)
    ensures audit.interactions == Failed <==>
      !PageLoaded(mode, fault) || fault == QuitFails || (mode == "automatique" && fault == CaptureFails)
    ensures audit.technologies == (if PageLoaded(mode, fault) then DomAnalyzer.Technologies(page) else map[])
  {
    if !PageLoaded(mode, fault) then AuditInfo(url, mode, mobile, timestamp, map[], Failed)
    else
      var interactions :=
        if fault == QuitFails || (mode == "automatique" && fault == CaptureFails) then Failed
        else if mode == "automatique" then Automatic
        else Manual;
      AuditInfo(url, mode, mobile, timestamp, DomAnalyzer.Technologies(page), interactions)
  }

  /** The object saved to `dom_analysis.json`. */
  function AnalysisJson(url: string, page: seq<DomAnalyzer.Tag>): (v: Value)
  {
    Object(map["url" := Str(url), "technologies" := StrObject(DomAnalyzer.Technologies(page))])
  }

  /** The files an audit leaves, from the files `files` it started with: the
      record in `state.json`; once the page was analysed, the analysis in
      `dom_analysis.json` and, unless reading the proxy's list raised, the
      captured requests in `requests.log`; every other file as it was. */
  function AuditFiles(files: map<string, Contents>, projectDir: string, url: string, mode: string,
                      page: seq<DomAnalyzer.Tag>, requests: seq<Request>, polls: seq<Poll>,
                      fault: Fault, audit: AuditInfo): (after: map<string, Contents>)
    ensures Lookup(after, Join(projectDir, "state.json")) == Some(Parsed(AuditJson(audit)))
    ensures PageLoaded(mode, fault) ==>
      Lookup(after, Join(projectDir, "dom_analysis.json")) == Some(Parsed(AnalysisJson(url, page)))
    ensures !PageLoaded(mode, fault) ==>
      Lookup(after, Join(projectDir, "dom_analysis.json")) == Lookup(files, Join(projectDir, "dom_analysis.json"))
    ensures PageLoaded(mode, fault) && mode == "automatique" && fault != CaptureFails ==>
      Lookup(after, RequestsLog(projectDir)) == Some(Parsed(LogJson(Captures(requests))))
    ensures PageLoaded(mode, fault) && mode == "manuel" ==>
      Lookup(after, RequestsLog(projectDir)) == Some(Parsed(LogJson(NewRecords({}, Observed(polls)))))
    ensures !PageLoaded(mode, fault) || (mode == "automatique" && fault == CaptureFails) ==>
      Lookup(after, RequestsLog(projectDir)) == Lookup(files, RequestsLog(projectDir))
    ensures forall p ::
      p != Join(projectDir, "state.json") && p != RequestsLog(projectDir) && p != Join(projectDir, "dom_analysis.json")
      ==> Lookup(after, p) == Lookup(files, p)
  {
    AuditPathsDistinct(projectDir);
    var stateFile := Join(projectDir, "state.json");
    if !PageLoaded(mode, fault) then files[stateFile := Parsed(AuditJson(audit))]
    else
      var analysed := files[Join(projectDir, "dom_analysis.json") := Parsed(AnalysisJson(url, page))];
      var logged :=
        if mode == "manuel" then analysed[RequestsLog(projectDir) := Parsed(LogJson(NewRecords({}, Observed(polls))))]
        else if fault == CaptureFails then analysed
        else analysed[RequestsLog(projectDir) := Parsed(LogJson(Captures(requests)))];
      logged[stateFile := Parsed(AuditJson(audit))]
  }

  /** The three files an audit writes are distinct paths. */
  lemma AuditPathsDistinct(projectDir: string)
    ensures Join(projectDir, "state.json") != Join(projectDir, "dom_analysis.json")
    ensures Join(projectDir, "state.json") != RequestsLog(projectDir)
    ensures Join(projectDir, "dom_analysis.json") != RequestsLog(projectDir)
  {
    JoinLength(projectDir, "state.json");
    JoinLength(projectDir, "dom_analysis.json");
    JoinLength(projectDir, "requests.log");
  }

  /** `run_selenium_audit(url, mode, mobile, project_dir)` against a page whose
      tags are `page`, whose proxy holds `requests` once the automatic
      interactions are over, and whose manual capture loop makes the turns
      `polls`. The audit record is returned and saved to `state.json`; only
      `state.json`, `requests.log` and `dom_analysis.json` change. */
  method RunSeleniumAudit(
    fs: FileSystem, url: string, mode: string, mobile: bool, projectDir: string, timestamp: string,
    page: seq<DomAnalyzer.Tag>, requests: seq<Request>, polls: seq<Poll>, fault: Fault)
    returns (audit: AuditInfo)
    modifies fs
    ensures audit == AuditOutcome(url, mode, mobile, timestamp, page, fault)
    ensures fs.files == AuditFiles(old(fs.files), projectDir, url, mode, page, requests, polls, fault, audit)
    ensures fs.Load(Join(projectDir, "state.json")).Success?
    ensures AuditOf(fs.Load(Join(projectDir, "state.json")).value) == Some(audit)
    ensures PageLoaded(mode, fault) ==>
      fs.Load(Join(projectDir, "dom_analysis.json"))
        == Success(Object(map["url" := Str(url), "technologies" := StrObject(DomAnalyzer.Technologies(page))]))
    ensures PageLoaded(mode, fault) && mode == "automatique" && fault != CaptureFails ==>
      fs.Load(RequestsLog(projectDir)) == Success(LogJson(Captures(requests)))
    ensures PageLoaded(mode, fault) && mode == "manuel" ==>
      fs.Load(RequestsLog(projectDir)) == Success(LogJson(NewRecords({}, Observed(polls))))
  {
    var launch := BrowserConfig.LaunchSeleniumBrowser("firefox", mode, None, mobile);
    LowerFirefox();
    if launch.Failure? || fault == PageLoadFails {
      audit := AuditInfo(url, mode, mobile, timestamp, map[], Failed);
      UpdateStateJson(fs, projectDir, audit);
    } else {
      audit := AuditLoadedPage(fs, url, mode, mobile, projectDir, timestamp, page, requests, polls, fault);
    }
    ghost var after := AuditFiles(old(fs.files), projectDir, url, mode, page, requests, polls, fault, audit);
    assert fs.files == after;
    assert fs.Load(Join(projectDir, "state.json")) == Success(AuditJson(audit));
    AuditRoundTrip(audit);
  }

  /** The audit once the browser has started and the page has loaded: the
      analysis is saved to `dom_analysis.json`, then the mode's branch runs. */
  method AuditLoadedPage(
    fs: FileSystem, url: string, mode: string, mobile: bool, projectDir: string, timestamp: string,
    page: seq<DomAnalyzer.Tag>, requests: seq<Request>, polls: seq<Poll>, fault: Fault)
    returns (audit: AuditInfo)
    requires PageLoaded(mode, fault)
    modifies fs
    ensures audit == AuditOutcome(url, mode, mobile, timestamp, page, fault)
    ensures fs.files == AuditFiles(old(fs.files), projectDir, url, mode, page, requests, polls, fault, audit)
  {
    var analysis := DomAnalyzer.AnalyzePage(url, page);
    var technologies := StrMapOf(analysis.fields["technologies"]).value;
    assert technologies == DomAnalyzer.Technologies(page);
    StrMapOfInverse(analysis.fields["technologies"], technologies);
    assert analysis.fields == AnalysisJson(url, page).fields;
    fs.Dump(Join(projectDir, "dom_analysis.json"), analysis);
    if mode == "automatique" {
      audit := AutomaticAudit(fs, url, mode, mobile, projectDir, timestamp, technologies, requests, fault);
    } else {
      audit := ManualAudit(fs, url, mode, mobile, projectDir, timestamp, technologies, polls, fault);
    }
  }

  /** The `automatique` branch, once the page is analysed: the requests are read
      from the proxy and saved, then the browser is closed. Reading the list
      raising leaves `requests.log` alone; `driver.quit()` raising comes after
      the save. */
  method AutomaticAudit(
    fs: FileSystem, url: string, mode: string, mobile: bool, projectDir: string, timestamp: string,
    technologies: map<string, string>, requests: seq<Request>, fault: Fault)
    returns (audit: AuditInfo)
    requires fault != PageLoadFails
    modifies fs
    ensures audit == AuditInfo(url, mode, mobile, timestamp, technologies, if fault == NoFault then Automatic else Failed)
    ensures fault == CaptureFails ==>
      fs.files == old(fs.files)[Join(projectDir, "state.json") := Parsed(AuditJson(audit))]
    ensures fault != CaptureFails ==>
      fs.files == old(fs.files)[RequestsLog(projectDir) := Parsed(LogJson(Captures(requests)))]
                               [Join(projectDir, "state.json") := Parsed(AuditJson(audit))]
  {
    if fault == CaptureFails {
      audit := AuditInfo(url, mode, mobile, timestamp, technologies, Failed);
      UpdateStateJson(fs, projectDir, audit);
      return;
    }
    var captured := InterceptRequests(requests);
    SaveRequests(fs, projectDir, captured);
    audit := AuditInfo(url, mode, mobile, timestamp, technologies, if fault == QuitFails then Failed else Automatic);
    UpdateStateJson(fs, projectDir, audit);
  }

  /** The `manuel` branch, once the page is analysed: `requests.log` starts as
      `[]` and the capture runs until the stop flag; `driver.quit()` in the
      `finally` comes after the capture has stopped. */
  method ManualAudit(
    fs: FileSystem, url: string, mode: string, mobile: bool, projectDir: string, timestamp: string,
    technologies: map<string, string>, polls: seq<Poll>, fault: Fault)
    returns (audit: AuditInfo)
    modifies fs
    ensures audit == AuditInfo(url, mode, mobile, timestamp, technologies, if fault == QuitFails then Failed else Manual)
    ensures fs.files == old(fs.files)[RequestsLog(projectDir) := Parsed(LogJson(NewRecords({}, Observed(polls))))]
                                     [Join(projectDir, "state.json") := Parsed(AuditJson(audit))]
  {
    var requestsFile := RequestsLog(projectDir);
    fs.Dump(requestsFile, Array([]));
    MonitorRequests(fs, requestsFile, polls);
    ManualCaptureLog(requestsFile, polls);
    audit := AuditInfo(url, mode, mobile, timestamp, technologies, if fault == QuitFails then Failed else Manual);
    UpdateStateJson(fs, projectDir, audit);
  }

  // ---------------------------------------------------------------------------
  // `create_project_directory`: the directory name

  /** A wall-clock reading, as `datetime.now()` gives it. */
  datatype DateTime = DateTime(year: nat, month: nat, day: nat, hour: nat, minute: nat, second: nat)

  /** The readings `strftime('%Y%m%d_%H%M%S')` renders as fixed-width fields. */
  predicate Valid(t: DateTime)
  {
    1000 <= t.year <= 9999 && 1 <= t.month <= 12 && 1 <= t.day <= 31
    && t.hour < 24 && t.minute < 60 && t.second < 60
  }

  function Pow10(width: nat): (p: nat)
    ensures p >= 1
  {
    if width == 0 then 1 else 10 * Pow10(width - 1)
  }

  function DigitChar(d: nat): (c: char)
    requires d < 10
  {
    (d + '0' as int) as char
  }

  /** The last `width` decimal digits of `n`, zero-padded. */
  function Digits(n: nat, width: nat): (s: string)
    ensures |s| == width && AllDigits(s)
    decreases width
  {
    if width == 0 then "" else Digits(n / 10, width - 1) + [DigitChar(n % 10)]
  }

  /** The number a string of decimal digits spells. */
  function DigitsValue(s: string): (value: nat)
    decreases |s|
  {
    if s == [] then 0
    else
      var d := Last(s) as int - '0' as int;
      10 * DigitsValue(Init(s)) + (if 0 <= d then d else 0)
  }

  lemma {:induction false} DigitsRoundTrip(n: nat, width: nat)
    requires n < Pow10(width)
    ensures DigitsValue(Digits(n, width)) == n
    decreases width
  {
    if width > 0 {
      DigitsRoundTrip(n / 10, width - 1);
      var s := Digits(n, width);
      assert Init(s) == Digits(n / 10, width - 1);
      assert Last(s) == DigitChar(n % 10);
    }
  }

  /** `datetime.now().strftime('%Y%m%d_%H%M%S')`. */
  function Timestamp(t: DateTime): (stamp: string)
    ensures |stamp| == 15 && stamp[8] == '_'
    ensures forall k :: 0 <= k < 15 && k != 8 ==> IsDigit(stamp[k])
  {
    StampShape(Digits(t.year, 4) + Digits(t.month, 2) + Digits(t.day, 2),
               Digits(t.hour, 2) + Digits(t.minute, 2) + Digits(t.second, 2));
    Digits(t.year, 4) + Digits(t.month, 2) + Digits(t.day, 2) + "_"
      + (Digits(t.hour, 2) + Digits(t.minute, 2) + Digits(t.second, 2))
  }

  /** A date and a time field of digits joined by `_`. */
  lemma StampShape(date: string, time: string)
    requires |date| == 8 && |time| == 6
    requires forall k :: 0 <= k < 8 ==> IsDigit(date[k])
    requires forall k :: 0 <= k < 6 ==> IsDigit(time[k])
    ensures var stamp := date + "_" + time;
      |stamp| == 15 && stamp[8] == '_' && forall k :: 0 <= k < 15 && k != 8 ==> IsDigit(stamp[k])
  {
    var stamp := date + "_" + time;
    assert forall k :: 9 <= k < 15 ==> stamp[k] == time[k - 9];
  }

  const ProjectPrefix := "users/user_project_"

  /** The directory `create_project_directory` creates at time `t`. */
  function ProjectDirName(t: DateTime): (dir: string)
    ensures dir == ProjectPrefix + Timestamp(t)
  {
    UsersJoin(Timestamp(t));
    Join("users", "user_project_" + Timestamp(t))
  }

  lemma UsersJoin(stamp: string)
    ensures Join("users", "user_project_" + stamp) == ProjectPrefix + stamp
  {
    var name := "user_project_" + stamp;
    assert Last("users") == 's';
    assert Join("users", name) == "users" + "/" + name;
    assert "users" + "/" + "user_project_" == ProjectPrefix;
    assert "users" + "/" + name == ("users" + "/" + "user_project_") + stamp;
  }

  /** Reads the time back from a `%Y%m%d_%H%M%S` stamp. */
  function ParseTimestamp(ts: string): (t: Option<DateTime>)
  {
    if |ts| == 15 && ts[8] == '_' then
      Some(DateTime(
        DigitsValue(ts[..4]), DigitsValue(ts[4..6]), DigitsValue(ts[6..8]),
        DigitsValue(ts[9..11]), DigitsValue(ts[11..13]), DigitsValue(ts[13..])))
    else None
  }

  /** Reads the time back from a project directory name. */
  function ParseProjectDir(dir: string): (t: Option<DateTime>)
  {
    if |dir| == |ProjectPrefix| + 15 && dir[..|ProjectPrefix|] == ProjectPrefix then
      ParseTimestamp(dir[|ProjectPrefix|..])
    else None
  }

  lemma TimestampRoundTrip(t: DateTime)
    requires Valid(t)
    ensures ParseTimestamp(Timestamp(t)) == Some(t)
  {
    var date := Digits(t.year, 4) + Digits(t.month, 2) + Digits(t.day, 2);
    var time := Digits(t.hour, 2) + Digits(t.minute, 2) + Digits(t.second, 2);
    var ts := Timestamp(t);
    assert ts == date + "_" + time;
    assert ts[..8] == date && ts[9..] == time;
    assert date[..4] == Digits(t.year, 4) && date[4..6] == Digits(t.month, 2) && date[6..] == Digits(t.day, 2);
    assert time[..2] == Digits(t.hour, 2) && time[2..4] == Digits(t.minute, 2) && time[4..] == Digits(t.second, 2);
    assert ts[..4] == date[..4] && ts[4..6] == date[4..6] && ts[6..8] == date[6..];
    assert ts[9..11] == time[..2] && ts[11..13] == time[2..4] && ts[13..] == time[4..];
    DigitsRoundTrip(t.year, 4);
    DigitsRoundTrip(t.month, 2);
    DigitsRoundTrip(t.day, 2);
    DigitsRoundTrip(t.hour, 2);
    DigitsRoundTrip(t.minute, 2);
    DigitsRoundTrip(t.second, 2);
  }

  lemma ProjectDirRoundTrip(t: DateTime)
    requires Valid(t)
    ensures ParseProjectDir(ProjectDirName(t)) == Some(t)
  {
    var dir := ProjectDirName(t);
    assert dir == ProjectPrefix + Timestamp(t);
    assert dir[..|ProjectPrefix|] == ProjectPrefix && dir[|ProjectPrefix|..] == Timestamp(t);
    TimestampRoundTrip(t);
  }

  /** Two audits started at different seconds get different directories. */
  lemma ProjectDirInjective(t: DateTime, u: DateTime)
    requires Valid(t) && Valid(u) && t != u
    ensures ProjectDirName(t) != ProjectDirName(u)
  {
    ProjectDirRoundTrip(t);
    ProjectDirRoundTrip(u);
  }
}
