/** Batch capture of the HTTP exchanges a browser session has made: every request
    the proxy saw that received a response becomes one record, in the order the
    proxy saw them, and the list is written whole to `requests.log`. */
module HttpMonitor {
  import opened Common
  import opened Json
  import opened Files

  /** A response seen by the intercepting proxy. `cookies` is the response's own
      `cookies` attribute when it has one. */
  datatype Response = Response(
    statusCode: int,
    headers: map<string, string>,
    cookies: Option<map<string, string>>)

  /** A request seen by the intercepting proxy; `response` is absent while none
      has arrived. */
  datatype Request = Request(
    url: string,
    verb: string,
    headers: map<string, string>,
    response: Option<Response>)

  /** The `cookies` field of a record: the structured cookies when the response
      carries them, otherwise the raw `Set-Cookie` header text. */
  datatype CookieField = Structured(jar: map<string, string>) | RawHeader(text: string)

  /** One captured exchange, with the six fields of a record. */
  datatype Exchange = Exchange(
    url: string,
    verb: string,
    statusCode: int,
    requestHeaders: map<string, string>,
    responseHeaders: map<string, string>,
    cookies: CookieField)

  /** The cookie fallback: `response.cookies`, else the `Set-Cookie` header,
      else the empty string. */
  function CookiesOf(resp: Response): (field: CookieField)
    ensures field.Structured? <==> resp.cookies.Some?
    ensures field.Structured? ==> field.jar == resp.cookies.value
    ensures field.RawHeader? && "Set-Cookie" in resp.headers ==> field.text == resp.headers["Set-Cookie"]
    ensures field.RawHeader? && "Set-Cookie" !in resp.headers ==> field.text == ""
  {
    match resp.cookies
    case Some(jar) => Structured(jar)
    case None =>
      var setCookie := GetOr(resp.headers, "Set-Cookie", "");
      RawHeader(if setCookie != "" then setCookie else "")
  }

  /** The record built for a request that has a response. */
  function Capture(r: Request): (e: Exchange)
    requires r.response.Some?
    ensures e.url == r.url && e.verb == r.verb && e.requestHeaders == r.headers
    ensures e.statusCode == r.response.value.statusCode && e.responseHeaders == r.response.value.headers
    ensures e.cookies == CookiesOf(r.response.value)
  {
    var resp := r.response.value;
    Exchange(r.url, r.verb, resp.statusCode, r.headers, resp.headers, CookiesOf(resp))
  }

  /** What `intercept_requests_selenium` returns for the proxy's request list:
      the requests with a response, in order, each turned into its record. */
  function Captures(requests: seq<Request>): (captured: seq<Exchange>)
    ensures |captured| == CountResponded(requests) <= |requests|
    ensures forall r :: r in requests && r.response.Some? ==> Capture(r) in captured
    decreases |requests|
  {
    if requests == [] then []
    else
      var last := Last(requests);
      assert requests == Init(requests) + [last];
      Captures(Init(requests)) + (if last.response.Some? then [Capture(last)] else [])
  }

  /** How many of `requests` have a response. */
  function CountResponded(requests: seq<Request>): (n: nat)
    decreases |requests|
  {
    if requests == [] then 0
    else CountResponded(Init(requests)) + (if Last(requests).response.Some? then 1 else 0)
  }

  /** `intercept_requests_selenium(driver)`, over the proxy's request list. */
  method InterceptRequests(requests: seq<Request>) returns (captured: seq<Exchange>)
    ensures captured == Captures(requests)
  {
    captured := [];
    for i := 0 to |requests|
      invariant captured == Captures(requests[..i])
    {
      if requests[i].response.Some? {
        captured := captured + [Capture(requests[i])];
      }
      assert Init(requests[..i + 1]) == requests[..i];
    }
    assert requests[..|requests|] == requests;
  }

  // ---------------------------------------------------------------------------
  // Properties of the batch capture

  /** Capturing a concatenation captures each part in turn: the result follows
      the proxy's order and nothing is merged across the parts. */
  lemma {:induction false} CapturesAppend(a: seq<Request>, b: seq<Request>)
    ensures Captures(a + b) == Captures(a) + Captures(b)
    decreases |b|
  {
    if b == [] {
      assert a + b == a;
    } else {
      assert Init(a + b) == a + Init(b);
      assert Last(a + b) == Last(b);
      CapturesAppend(a, Init(b));
    }
  }

  /** No request has a response: the result is the empty list. */
  lemma {:induction false} NothingRespondedNothingCaptured(requests: seq<Request>)
    requires forall i :: 0 <= i < |requests| ==> requests[i].response.None?
    ensures Captures(requests) == []
    decreases |requests|
  {
    if requests != [] {
      NothingRespondedNothingCaptured(Init(requests));
    }
  }

  /** Every captured record comes from a request that had a response. */
  lemma {:induction false} CapturedComeFromResponded(requests: seq<Request>, e: Exchange)
    requires e in Captures(requests)
    ensures exists i :: 0 <= i < |requests| && requests[i].response.Some? && Capture(requests[i]) == e
    decreases |requests|
  {
    var init := Init(requests);
    if e in Captures(init) {
      CapturedComeFromResponded(init, e);
      var i :| 0 <= i < |init| && init[i].response.Some? && Capture(init[i]) == e;
      assert requests[i] == init[i];
    } else {
      assert requests[|requests| - 1] == Last(requests);
    }
  }

  /** The responded request at index `i` is the record at position "number of
      responded requests before it". Distinct requests land at distinct
      positions, so nothing is deduplicated. */
  lemma {:induction false} CaptureAt(requests: seq<Request>, i: nat)
    requires i < |requests| && requests[i].response.Some?
    ensures CountResponded(requests[..i]) < |Captures(requests)|
    ensures Captures(requests)[CountResponded(requests[..i])] == Capture(requests[i])
  {
    var before := requests[..i];
    var rest := requests[i + 1..];
    assert requests == before + [requests[i]] + rest;
    CapturesAppend(before + [requests[i]], rest);
    CapturesAppend(before, [requests[i]]);
    assert Init([requests[i]]) == [];
  }

  /** Two responded requests with the same URL each give a record. */
  lemma RepeatedUrlsEachRecorded(requests: seq<Request>, i: nat, j: nat)
    requires i < j < |requests|
    requires requests[i].response.Some? && requests[j].response.Some?
    requires requests[i].url == requests[j].url
    ensures exists p, q ::
              && 0 <= p < q < |Captures(requests)|
              && Captures(requests)[p].url == requests[i].url
              && Captures(requests)[q].url == requests[i].url
  {
    CaptureAt(requests, i);
    CaptureAt(requests, j);
    CountGrowsPastResponded(requests, i, j);
    var p := CountResponded(requests[..i]);
    var q := CountResponded(requests[..j]);
    assert Captures(requests)[p].url == requests[i].url;
    assert Captures(requests)[q].url == requests[j].url;
  }

  /** A responded request at `i` is counted before any later index `j`. */
  lemma CountGrowsPastResponded(requests: seq<Request>, i: nat, j: nat)
    requires i < j <= |requests| && requests[i].response.Some?
    ensures CountResponded(requests[..i]) < CountResponded(requests[..j])
  {
    var through := requests[..i + 1];
    assert Init(through) == requests[..i];
    assert requests[..j] == through + requests[i + 1..j];
    CountAppend(through, requests[i + 1..j]);
  }

  lemma {:induction false} CountAppend(a: seq<Request>, b: seq<Request>)
    ensures CountResponded(a + b) == CountResponded(a) + CountResponded(b)
    decreases |b|
  {
    if b == [] {
      assert a + b == a;
    } else {
      assert Init(a + b) == a + Init(b);
      assert Last(a + b) == Last(b);
      CountAppend(a, Init(b));
    }
  }

  // ---------------------------------------------------------------------------
  // The records as JSON, and `save_requests`

  function CookieJson(field: CookieField): (v: Value)
  {
    match field
    case Structured(jar) => StrObject(jar)
    case RawHeader(text) => Str(text)
  }

  function CookieOf(v: Value): (field: Option<CookieField>)
  {
    if v.Str? then Some(RawHeader(v.s))
    else match StrMapOf(v)
      case Some(jar) => Some(Structured(jar))
      case None => None
  }

  const RecordKeys: set<string> :=
    {"url", "method", "status_code", "request_headers", "response_headers", "cookies"}

  /** The dict a record is dumped as. */
  function ExchangeJson(e: Exchange): (v: Value)
  {
    Object(map[
      "url" := Str(e.url),
      "method" := Str(e.verb),
      "status_code" := Int(e.statusCode),
      "request_headers" := StrObject(e.requestHeaders),
      "response_headers" := StrObject(e.responseHeaders),
      "cookies" := CookieJson(e.cookies)])
  }

  /** Reads a record back from its dict. */
  function ExchangeOf(v: Value): (e: Option<Exchange>)
  {
    if v.Object? && v.fields.Keys == RecordKeys
      && v.fields["url"].Str? && v.fields["method"].Str? && v.fields["status_code"].Int?
      && StrMapOf(v.fields["request_headers"]).Some?
      && StrMapOf(v.fields["response_headers"]).Some?
      && CookieOf(v.fields["cookies"]).Some?
    then
      Some(Exchange(
        v.fields["url"].s, v.fields["method"].s, v.fields["status_code"].n,
        StrMapOf(v.fields["request_headers"]).value,
        StrMapOf(v.fields["response_headers"]).value,
        CookieOf(v.fields["cookies"]).value))
    else None
  }

  lemma CookieRoundTrip(field: CookieField)
    ensures CookieOf(CookieJson(field)) == Some(field)
  {
    if field.Structured? {
      StrObjectRoundTrip(field.jar);
    }
  }

  lemma ExchangeRoundTrip(e: Exchange)
    ensures ExchangeOf(ExchangeJson(e)) == Some(e)
  {
    var v := ExchangeJson(e);
    assert v.fields.Keys == RecordKeys;
    StrObjectRoundTrip(e.requestHeaders);
    StrObjectRoundTrip(e.responseHeaders);
    CookieRoundTrip(e.cookies);
  }

  /** A record copies the request's url, method and headers and the response's
      status code and headers. */
  lemma RecordCopiesRequest(r: Request)
    requires r.response.Some?
    ensures var v := ExchangeJson(Capture(r));
      v.fields.Keys == RecordKeys
      && v.fields["url"] == Str(r.url)
      && v.fields["method"] == Str(r.verb)
      && v.fields["status_code"] == Int(r.response.value.statusCode)
      && StrMapOf(v.fields["request_headers"]) == Some(r.headers)
      && StrMapOf(v.fields["response_headers"]) == Some(r.response.value.headers)
  {
    StrObjectRoundTrip(r.headers);
    StrObjectRoundTrip(r.response.value.headers);
  }

  /** The JSON array of a list of records. */
  function LogJson(data: seq<Exchange>): (v: Value)
  {
    Array(seq(|data|, i requires 0 <= i < |data| => ExchangeJson(data[i])))
  }

  /** Reads a list of records back from JSON array items. */
  function ExchangesOf(items: seq<Value>): (data: Option<seq<Exchange>>)
    decreases |items|
  {
    if items == [] then Some([])
    else match (ExchangesOf(Init(items)), ExchangeOf(Last(items)))
      case (Some(es), Some(e)) => Some(es + [e])
      case _ => None
  }

  lemma {:induction false} LogRoundTrip(data: seq<Exchange>)
    ensures ExchangesOf(LogJson(data).items) == Some(data)
    decreases |data|
  {
    if data != [] {
      var items := LogJson(data).items;
      assert Init(items) == LogJson(Init(data)).items;
      LogRoundTrip(Init(data));
      ExchangeRoundTrip(Last(data));
      assert data == Init(data) + [Last(data)];
    }
  }

  /** `os.path.join(project_path, 'requests.log')`. */
  function RequestsLog(projectPath: string): (path: string)
  {
    Join(projectPath, "requests.log")
  }

  /** `save_requests(project_path, data)`: `requests.log` is replaced by the whole
      list; no other file changes. */
  method SaveRequests(fs: FileSystem, projectPath: string, data: seq<Exchange>)
    modifies fs
    ensures fs.files == old(fs.files)[RequestsLog(projectPath) := Parsed(LogJson(data))]
    ensures fs.Load(RequestsLog(projectPath)).Success?
    ensures ExchangesOf(fs.Load(RequestsLog(projectPath)).value.items) == Some(data)
  {
    fs.Dump(RequestsLog(projectPath), LogJson(data));
    LogRoundTrip(data);
  }
}
