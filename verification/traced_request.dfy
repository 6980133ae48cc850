/**
 * `Tracy\TracedRequest`: the view of one traced request the debug panel reads,
 * built from the records of a `TraceableHttpClient` and the request's stopwatch.
 */
module TracedRequests {
  import opened Wrappers
  import opened Php
  import opened Keys
  import Tracing

  /** One record of `TraceableHttpClient::getTracedRequests()`. */
  datatype TracedData = TracedData(httpMethod: string, url: string, opts: Options, info: seq<Entry>, content: Option<Value>)

  /** A traced request: the traceable client's records and the stopwatch it timed into. */
  datatype TracedRequest = TracedRequest(records: seq<TracedData>, stopwatch: Tracing.Stopwatch)

  /** `getData`: the first record; with none, `current` gives `false` and the `array` return type rejects it. */
  function Data(t: TracedRequest): (r: Result<TracedData, Error>)
    ensures r.Success? <==> |t.records| > 0
    ensures r.Success? ==> r.value == t.records[0]
  {
    if |t.records| == 0 then Failure(TypeError("TracedRequest::getData")) else Success(t.records[0])
  }

  /** `getMethod`, `getOptions` and `getInfo`: fields of the first record. */
  function GetMethod(t: TracedRequest): (r: Result<string, Error>)
    ensures r.Success? <==> |t.records| > 0
    ensures r.Success? ==> r.value == t.records[0].httpMethod
  {
    var d :- Data(t);
    Success(d.httpMethod)
  }

  function GetOptions(t: TracedRequest): (r: Result<Options, Error>)
    ensures r.Success? <==> |t.records| > 0
    ensures r.Success? ==> r.value == t.records[0].opts
  {
    var d :- Data(t);
    Success(d.opts)
  }

  function GetInfo(t: TracedRequest): (r: Result<seq<Entry>, Error>)
    ensures r.Success? <==> |t.records| > 0
    ensures r.Success? ==> r.value == t.records[0].info
  {
    var d :- Data(t);
    Success(d.info)
  }

  /** The message `getStatus` falls back to. */
  const NoHeaders: string := "Headers not received"

  /** `getUrl`: a truthy `base_uri` is joined to the URL with exactly one slash; otherwise the URL is returned as recorded. */
  function GetUrl(t: TracedRequest): (r: Result<string, Error>)
    ensures r.Success? ==> |t.records| > 0
    ensures |t.records| > 0 && !Truthy(Coalesce(t.records[0].opts, BaseUri, Bool(false))) ==> r == Success(t.records[0].url)
  {
    var d :- Data(t);
    var base := Coalesce(d.opts, BaseUri, Bool(false));
    if !Truthy(base) then Success(d.url)
    else if base.Str? then Success(Join(base.s, d.url))
    else Failure(TypeError("rtrim"))
  }

  /** `ltrim($s, $c)` drops a run of `c` from the front: what is left is a suffix of `s` and does not start with `c`. */
  lemma {:induction false} LTrimCharSuffix(s: string, c: char)
    ensures var r := LTrimChar(s, c);
      |r| <= |s| && r == s[|s| - |r|..] && (|r| == 0 || r[0] != c) &&
      forall i :: 0 <= i < |s| - |r| ==> s[i] == c
    decreases |s|
  {
    if |s| > 0 && s[0] == c {
      LTrimCharSuffix(s[1..], c);
    }
  }

  /** `rtrim($s, $c)` drops a run of `c` from the end: what is left is a prefix of `s` and does not end with `c`. */
  lemma {:induction false} RTrimCharPrefix(s: string, c: char)
    ensures var r := RTrimChar(s, c);
      |r| <= |s| && r == s[..|r|] && (|r| == 0 || r[|r| - 1] != c) &&
      forall i :: |r| <= i < |s| ==> s[i] == c
    decreases |s|
  {
    if |s| > 0 && s[|s| - 1] == c {
      RTrimCharPrefix(s[..|s| - 1], c);
    }
  }

  /** The join `getUrl` makes: the base without trailing slashes, one slash, the URL without leading slashes. */
  function Join(base: string, url: string): string {
    RTrimChar(base, '/') + "/" + LTrimChar(url, '/')
  }

  /** With a truthy string base URI, `getUrl` is the join of the base and the recorded URL. */
  lemma UrlJoined(t: TracedRequest)
    requires |t.records| > 0
    requires var base := Coalesce(t.records[0].opts, BaseUri, Bool(false)); base.Str? && Truthy(base)
    ensures GetUrl(t) == Success(Join(Coalesce(t.records[0].opts, BaseUri, Bool(false)).s, t.records[0].url))
  {
  }

  /**
   * The join puts exactly one slash at the seam: before it a prefix of the base
   * not ending in a slash, after it a suffix of the URL not starting with one.
   */
  lemma JoinSeam(base: string, url: string)
    ensures var j := Join(base, url);
      var n := |RTrimChar(base, '/')|;
      n <= |base| && n < |j| && |j| - n - 1 <= |url| && j[n] == '/' &&
      (n == 0 || j[n - 1] != '/') && (n + 1 == |j| || j[n + 1] != '/') &&
      j[..n] == base[..n] && j[n + 1..] == url[|url| - (|j| - n - 1)..]
  {
    RTrimCharPrefix(base, '/');
    LTrimCharSuffix(url, '/');
    var p, q := RTrimChar(base, '/'), LTrimChar(url, '/');
    var j := p + "/" + q;
    assert j[..|p|] == p;
    assert j[|p| + 1..] == q;
  }

  /** A base URI of `''` or `'0'` is falsy, so the URL is returned unchanged. */
  lemma FalsyBaseKeepsUrl(t: TracedRequest, base: string)
    requires |t.records| > 0 && BaseUri in t.records[0].opts && t.records[0].opts[BaseUri] == Str(base)
    requires base == "" || base == "0"
    ensures GetUrl(t) == Success(t.records[0].url)
  {
  }

  /** `getHeaders`: `info.response_headers` when that is an array, and `[]` otherwise. */
  function GetHeaders(t: TracedRequest): (r: Result<seq<Entry>, Error>)
    ensures r.Success? <==> |t.records| > 0
    ensures r.Success? ==> match ArrayGet(t.records[0].info, StrKey("response_headers"))
      case Some(Arr(h)) => r.value == h
      case _ => r.value == []
  {
    var d :- Data(t);
    Success(HeadersOf(d))
  }

  /** `$data['info']['response_headers'] ?? []`, kept only when it is an array. */
  function HeadersOf(d: TracedData): seq<Entry> {
    match ArrayGet(d.info, StrKey("response_headers"))
    case Some(Arr(h)) => h
    case _ => []
  }

  /** `getStatus`: the first header line when it is truthy, and the fallback message otherwise. */
  function GetStatus(t: TracedRequest): (r: Result<string, Error>)
    ensures GetHeaders(t).Success? && |GetHeaders(t).value| == 0 ==> r == Success(NoHeaders)
    ensures GetHeaders(t).Success? && |GetHeaders(t).value| > 0 && GetHeaders(t).value[0].val.Str? && Truthy(GetHeaders(t).value[0].val)
      ==> r == Success(GetHeaders(t).value[0].val.s)
    ensures GetHeaders(t).Success? && |GetHeaders(t).value| > 0 && !Truthy(GetHeaders(t).value[0].val) ==> r == Success(NoHeaders)
    ensures GetHeaders(t).Failure? ==> r.Failure?
  {
    var headers :- GetHeaders(t);
    match First(headers)
    case None => Success(NoHeaders)
    case Some(v) =>
      if !Truthy(v) then Success(NoHeaders)
      else if v.Str? then Success(v.s)
      else Failure(TypeError("TracedRequest::getStatus"))
  }

  /** An empty or falsy first line reads as the fallback message, never as an empty status. */
  lemma StatusNeverEmpty(t: TracedRequest)
    requires GetStatus(t).Success?
    ensures GetStatus(t).value != "" && GetStatus(t).value != "0"
  {
  }

  /** `getEvent`: the first event of the first section that has one. */
  function GetEvent(t: TracedRequest): Option<Tracing.Event> {
    FirstEvent(t.stopwatch.sections)
  }

  function FirstEvent(sections: seq<Tracing.Section>): Option<Tracing.Event>
    decreases |sections|
  {
    if |sections| == 0 then None
    else if |sections[0].events| > 0 then Some(sections[0].events[0])
    else FirstEvent(sections[1..])
  }

  /** `getEvent` is the first of the events `getEvents` lists for that stopwatch, or null when it has none. */
  lemma {:induction false} FirstEventIsFirstListed(sections: seq<Tracing.Section>)
    ensures var all := Tracing.SectionEvents(sections);
      FirstEvent(sections) == if |all| == 0 then None else Some(all[0])
    decreases |sections|
  {
    if |sections| > 0 {
      FirstEventIsFirstListed(sections[1..]);
      SectionEventsCons(sections);
    }
  }

  /** Listing sections from the front: the first section's events, then the rest. */
  lemma {:induction false} SectionEventsCons(sections: seq<Tracing.Section>)
    requires |sections| > 0
    ensures Tracing.SectionEvents(sections) == sections[0].events + Tracing.SectionEvents(sections[1..])
    decreases |sections|
  {
    if |sections| > 1 {
      var init := sections[..|sections| - 1];
      SectionEventsCons(init);
      assert init[1..] == sections[1..][..|sections[1..]| - 1];
      assert init[0] == sections[0];
    } else {
      assert sections[..0] == [];
      assert sections[1..] == [];
    }
  }

  /**
   * `getContent` up to the point where it would read the live response: with
   * no headers recorded the stored content is returned as it is, null when
   * absent. `None` stands for the path that goes on to the response.
   */
  function ContentWithoutHeaders(t: TracedRequest): (r: Result<Option<Value>, Error>)
    ensures r.Success? <==> |t.records| > 0
    ensures r.Success? ==> (r.value.Some? <==> GetHeaders(t).value == [])
    ensures r.Success? && r.value.Some? ==> r.value.value == t.records[0].content.GetOr(Null)
  {
    var d :- Data(t);
    var content := d.content.GetOr(Null);
    var headers := HeadersOf(d);
    if headers == [] then Success(Some(content)) else Success(None)
  }
}
