/**
  The client for the upstream "CLI proxy" service: URL and query building,
  body decoding, the management and inference request builders, the
  management success/failure rule, and the relay of a streamed reply onto
  the outbound response.

  The network call itself is not modelled: a request builder yields the
  request it would send (`Outgoing`), and the upstream's reply is an input
  (`UpstreamResponse`).
 */
module CliProxyClient {
  import opened Js
  import opened Errors
  import opened Config

  /** `Object.entries(query)`, in enumeration order. */
  type Query = seq<(string, Value)>

  /** `url.searchParams`, in order. */
  type Params = seq<(string, string)>

  /** A URL: everything but the query, and the search parameters. */
  datatype Url = Url(href: string, params: Params)

  /** `new URL(pathname, base)`: relative resolution is left to the host. */
  type UrlResolver = (string, string) -> Url

  // ---------------------------------------------------------------------
  // URLSearchParams

  /** `params.get(name)`: the value of the first pair with that name. */
  function ParamValue(ps: Params, name: string): Option<string>
    decreases |ps|
  {
    if ps == [] then None
    else if ps[0].0 == name then Some(ps[0].1)
    else ParamValue(ps[1..], name)
  }

  function RemoveName(ps: Params, name: string): Params
    decreases |ps|
  {
    if ps == [] then []
    else if ps[0].0 == name then RemoveName(ps[1..], name)
    else [ps[0]] + RemoveName(ps[1..], name)
  }

  /** `params.set(name, value)`: the first pair with that name takes the
      value and the others are removed; with no such pair, one is appended. */
  function SetParam(ps: Params, name: string, value: string): Params
    decreases |ps|
  {
    if ps == [] then [(name, value)]
    else if ps[0].0 == name then [(name, value)] + RemoveName(ps[1..], name)
    else [ps[0]] + SetParam(ps[1..], name, value)
  }

  lemma {:induction false} RemoveNameKeepsOthers(ps: Params, name: string, other: string)
    requires other != name
    ensures ParamValue(RemoveName(ps, name), other) == ParamValue(ps, other)
    decreases |ps|
  {
    if ps != [] {
      RemoveNameKeepsOthers(ps[1..], name, other);
    }
  }

  /** After `set`, `get` of that name gives the new value and `get` of any
      other name is unchanged. */
  lemma {:induction false} SetParamGet(ps: Params, name: string, value: string, other: string)
    ensures ParamValue(SetParam(ps, name, value), name) == Some(value)
    ensures other != name ==> ParamValue(SetParam(ps, name, value), other) == ParamValue(ps, other)
    decreases |ps|
  {
    if ps != [] {
      if ps[0].0 == name {
        if other != name {
          RemoveNameKeepsOthers(ps[1..], name, other);
        }
      } else {
        SetParamGet(ps[1..], name, value, other);
      }
    }
  }

  // ---------------------------------------------------------------------
  // buildUrl

  /** The query values `buildUrl` leaves out: undefined, null and "". */
  predicate Skipped(v: Value) {
    v.Undefined? || v.Null? || v == Str("")
  }

  /** The URL after the loop of `buildUrl` has visited every entry of `query`. */
  function ApplyQuery(url: Url, query: Query): Url
    decreases |query|
  {
    if query == [] then url
    else
      var u := ApplyQuery(url, query[..|query| - 1]);
      var entry := query[|query| - 1];
      if Skipped(entry.1) then u else u.(params := SetParam(u.params, entry.0, ToJsString(entry.1)))
  }

  /** The keys of an object are distinct. */
  predicate DistinctKeys(q: Query) {
    forall i, j :: 0 <= i < j < |q| ==> q[i].0 != q[j].0
  }

  /** No entry of the query has this name. */
  predicate NameAbsent(q: Query, name: string) {
    forall i :: 0 <= i < |q| ==> q[i].0 != name
  }

  /** Entries with other names leave a parameter and the rest of the URL alone. */
  lemma {:induction false} ApplyQueryKeepsOthers(url: Url, q: Query, name: string)
    requires NameAbsent(q, name)
    ensures ParamValue(ApplyQuery(url, q).params, name) == ParamValue(url.params, name)
    ensures ApplyQuery(url, q).href == url.href
    decreases |q|
  {
    if q != [] {
      var p := q[..|q| - 1];
      assert NameAbsent(p, name) by {
        forall i | 0 <= i < |p| ensures p[i].0 != name {
          assert p[i] == q[i];
        }
      }
      ApplyQueryKeepsOthers(url, p, name);
      var u := ApplyQuery(url, p);
      var e := q[|q| - 1];
      if !Skipped(e.1) {
        SetParamGet(u.params, e.0, ToJsString(e.1), name);
      }
    }
  }

  /** Every query entry is either skipped (undefined, null or "") and leaves
      the parameter as the resolved URL had it, or sets it to `String(value)`;
      `false` and `0` are set as "false" and "0". */
  lemma {:induction false} QueryEntryOutcome(url: Url, q: Query, j: int)
    requires DistinctKeys(q) && 0 <= j < |q|
    ensures ParamValue(ApplyQuery(url, q).params, q[j].0) ==
      if Skipped(q[j].1) then ParamValue(url.params, q[j].0) else Some(ToJsString(q[j].1))
    decreases |q|
  {
    var p := q[..|q| - 1];
    var e := q[|q| - 1];
    var u := ApplyQuery(url, p);
    if j == |q| - 1 {
      assert NameAbsent(p, e.0) by {
        forall i | 0 <= i < |p| ensures p[i].0 != e.0 {
          assert p[i] == q[i];
        }
      }
      ApplyQueryKeepsOthers(url, p, e.0);
      if !Skipped(e.1) {
        SetParamGet(u.params, e.0, ToJsString(e.1), e.0);
      }
    } else {
      assert DistinctKeys(p) by {
        forall a, b | 0 <= a < b < |p| ensures p[a].0 != p[b].0 {
          assert p[a] == q[a] && p[b] == q[b];
        }
      }
      assert p[j] == q[j];
      QueryEntryOutcome(url, p, j);
      if !Skipped(e.1) {
        SetParamGet(u.params, e.0, ToJsString(e.1), q[j].0);
      }
    }
  }

  /** The URL `buildUrl(pathname, query)` yields, as a function. */
  function RequestUrl(cfg: AppConfig, pathname: string, query: Query, resolve: UrlResolver): Url {
    ApplyQuery(resolve(pathname, cfg.cliProxyBaseUrl + "/"), query)
  }

  /** `buildUrl(pathname, query)`: resolves the path against the base URL
      and sets one search parameter per query entry that is not
      undefined, null or "". */
  method BuildUrl(cfg: AppConfig, pathname: string, query: Query, resolve: UrlResolver) returns (url: Url)
    ensures url == RequestUrl(cfg, pathname, query, resolve)
    ensures url.href == resolve(pathname, cfg.cliProxyBaseUrl + "/").href
    ensures query == [] ==> url == resolve(pathname, cfg.cliProxyBaseUrl + "/")
    ensures DistinctKeys(query) ==> forall j :: 0 <= j < |query| ==>
      ParamValue(url.params, query[j].0) ==
        if Skipped(query[j].1) then ParamValue(resolve(pathname, cfg.cliProxyBaseUrl + "/").params, query[j].0)
        else Some(ToJsString(query[j].1))
  {
    var resolved := resolve(pathname, cfg.cliProxyBaseUrl + "/");
    url := resolved;
    var i := 0;
    while i < |query|
      invariant 0 <= i <= |query|
      invariant url == ApplyQuery(resolved, query[..i])
    {
      var (key, value) := query[i];
      assert query[..i + 1][..i] == query[..i];
      if !Skipped(value) {
        url := url.(params := SetParam(url.params, key, ToJsString(value)));
      }
      i := i + 1;
    }
    assert query[..i] == query;
    forall j | 0 <= j < |query| && DistinctKeys(query)
      ensures ParamValue(url.params, query[j].0) ==
        if Skipped(query[j].1) then ParamValue(resolved.params, query[j].0) else Some(ToJsString(query[j].1))
    {
      QueryEntryOutcome(resolved, query, j);
    }
    HrefKept(resolved, query);
  }

  /** Query entries never change the part of the URL before the query. */
  lemma {:induction false} HrefKept(url: Url, q: Query)
    ensures ApplyQuery(url, q).href == url.href
    decreases |q|
  {
    if q != [] {
      HrefKept(url, q[..|q| - 1]);
    }
  }

  // ---------------------------------------------------------------------
  // Upstream replies and decodeResponse

  /** A fetch `Response`: status, the two headers the gateway reads
      (`headers.get(...)`, None when absent) and the body, None when the
      response has no body stream. The body is seen as text. */
  datatype UpstreamResponse = UpstreamResponse(
    status: int,
    contentType: Option<string>,
    cacheControl: Option<string>,
    body: Option<string>)

  /** The result of an upstream `fetch`: a reply, or a thrown failure (a
      network error, or the abort on timeout). */
  datatype Fetched = Answered(response: UpstreamResponse) | FetchFailed(error: Thrown)

  /** `headers.get(name) || ""` */
  function HeaderText(h: Option<string>): string {
    if h.Some? then h.value else ""
  }

  /** `await response.text()` */
  function BodyText(r: UpstreamResponse): string {
    if r.body.Some? then r.body.value else ""
  }

  /** `response.ok` */
  predicate IsOk(r: UpstreamResponse) {
    200 <= r.status <= 299
  }

  /** `JSON.parse(text)`, left to the host: None when it throws. */
  type JsonParser = string -> Option<Value>

  /** `{ raw }` */
  function RawWrapper(text: string): Value {
    Obj(map["raw" := Str(text)])
  }

  /** `decodeResponse(response)`: null for an empty body; the parsed value
      for a JSON content type when parsing succeeds; otherwise `{ raw: text }`.
      It never fails. */
  function DecodeResponse(r: UpstreamResponse, parse: JsonParser): (v: Value)
    ensures BodyText(r) == "" ==> v == Null
    ensures (BodyText(r) != "" && Contains(HeaderText(r.contentType), "application/json")
              && parse(BodyText(r)).Some?) ==> v == parse(BodyText(r)).value
    ensures (BodyText(r) != "" && Contains(HeaderText(r.contentType), "application/json")
              && parse(BodyText(r)).None?) ==> v == RawWrapper(BodyText(r))
    ensures BodyText(r) != "" && !Contains(HeaderText(r.contentType), "application/json") ==>
              v == RawWrapper(BodyText(r))
  {
    var contentType := HeaderText(r.contentType);
    var raw := BodyText(r);
    if raw == "" then Null
    else if Contains(contentType, "application/json") then
      match parse(raw)
      case Some(parsed) => parsed
      case None => RawWrapper(raw)
    else RawWrapper(raw)
  }

  /** Whatever the parser does, a non-empty body that is not parsed keeps
      its text under "raw", and only the JSON content type consults the parser. */
  lemma DecodeIgnoresParserUnlessJson(r: UpstreamResponse, p1: JsonParser, p2: JsonParser)
    requires !Contains(HeaderText(r.contentType), "application/json") || BodyText(r) == ""
    ensures DecodeResponse(r, p1) == DecodeResponse(r, p2)
    ensures DecodeResponse(r, p1) == Null || Prop(DecodeResponse(r, p1), "raw") == Str(BodyText(r))
  {
  }

  // ---------------------------------------------------------------------
  // Request builders

  datatype ManagementRequest = ManagementRequest(httpMethod: Option<string>, pathname: string, query: Query, body: Value)

  datatype InferenceRequest = InferenceRequest(httpMethod: Option<string>, pathname: string, body: Value)

  /** The request handed to `fetch`, with the timeout of its abort signal. */
  datatype Outgoing = Outgoing(
    httpMethod: string,
    url: Url,
    headers: seq<(string, string)>,
    body: Option<string>,
    timeoutMs: int)

  /** `JSON.stringify(value)`, left to the host. */
  type JsonSerializer = Value -> string

  /** The value of the first header with that name. */
  function HeaderValue(hs: seq<(string, string)>, name: string): Option<string>
    decreases |hs|
  {
    if hs == [] then None
    else if hs[0].0 == name then Some(hs[0].1)
    else HeaderValue(hs[1..], name)
  }

  function JsonRequestHeaders(credential: string, body: Value): seq<(string, string)> {
    [("Authorization", "Bearer " + credential)]
      + (if Truthy(body) then [("Content-Type", "application/json")] else [])
  }

  function JsonRequestBody(body: Value, serialize: JsonSerializer): Option<string> {
    if Truthy(body) then Some(serialize(body)) else None
  }

  /** `requestManagement(...)` up to the `fetch` call: the method defaults
      to GET, the management key is the bearer credential, and the JSON
      content type and serialized body are sent only for a truthy body. */
  function ManagementCall(cfg: AppConfig, req: ManagementRequest, resolve: UrlResolver, serialize: JsonSerializer): (o: Outgoing)
    ensures o.httpMethod == (if req.httpMethod.Some? then req.httpMethod.value else "GET")
    ensures o.url == RequestUrl(cfg, req.pathname, req.query, resolve)
    ensures HeaderValue(o.headers, "Authorization") == Some("Bearer " + cfg.cliProxyManagementKey)
    ensures HeaderValue(o.headers, "Content-Type").Some? <==> Truthy(req.body)
    ensures o.body.Some? <==> Truthy(req.body)
    ensures o.body.Some? ==> o.body.value == serialize(req.body)
    ensures o.timeoutMs == cfg.requestTimeoutMs
  {
    Outgoing(
      if req.httpMethod.Some? then req.httpMethod.value else "GET",
      RequestUrl(cfg, req.pathname, req.query, resolve),
      JsonRequestHeaders(cfg.cliProxyManagementKey, req.body),
      JsonRequestBody(req.body, serialize),
      cfg.requestTimeoutMs)
  }

  /** `requestInference(...)` up to the `fetch` call: the method defaults to
      POST, the URL carries no query, the API key is the bearer credential,
      and the JSON content type and body are sent only for a truthy body. */
  function InferenceCall(cfg: AppConfig, req: InferenceRequest, resolve: UrlResolver, serialize: JsonSerializer): (o: Outgoing)
    ensures o.httpMethod == (if req.httpMethod.Some? then req.httpMethod.value else "POST")
    ensures o.url == resolve(req.pathname, cfg.cliProxyBaseUrl + "/")
    ensures HeaderValue(o.headers, "Authorization") == Some("Bearer " + cfg.cliProxyApiKey)
    ensures HeaderValue(o.headers, "Content-Type").Some? <==> Truthy(req.body)
    ensures o.body.Some? <==> Truthy(req.body)
    ensures o.body.Some? ==> o.body.value == serialize(req.body)
    ensures o.timeoutMs == cfg.requestTimeoutMs
  {
    Outgoing(
      if req.httpMethod.Some? then req.httpMethod.value else "POST",
      RequestUrl(cfg, req.pathname, [], resolve),
      JsonRequestHeaders(cfg.cliProxyApiKey, req.body),
      JsonRequestBody(req.body, serialize),
      cfg.requestTimeoutMs)
  }

  const ManagementFailure := "CLIProxyAPI management request failed"

  /** The rest of `requestManagement(...)` once the reply is in: the body is
      decoded first; a reply that is not ok becomes an `HttpError` carrying
      the upstream status and the decoded body, an ok reply yields the
      decoded body. */
  function ManagementResult(r: UpstreamResponse, parse: JsonParser): (res: Result<Value, HttpError>)
    ensures res.Success? <==> IsOk(r)
    ensures res.Success? ==> res.value == DecodeResponse(r, parse)
    ensures res.Failure? ==> res.error == NewHttpError(ManagementFailure, Some(r.status), DecodeResponse(r, parse))
    ensures res.Failure? ==> res.error.statusCode == r.status
  {
    var data := DecodeResponse(r, parse);
    if !IsOk(r) then Failure(NewHttpError(ManagementFailure, Some(r.status), data))
    else Success(data)
  }

  /** The whole of `requestManagement(...)` after the URL is built: a fetch
      that throws rejects with what it threw, untouched; a reply goes
      through `ManagementResult`, its `HttpError` thrown as such. */
  function ManagementOutcome(f: Fetched, parse: JsonParser): (res: Result<Value, Thrown>)
    ensures res.Success? <==> f.Answered? && IsOk(f.response)
    ensures res.Success? ==> res.value == DecodeResponse(f.response, parse)
    ensures f.FetchFailed? ==> res == Failure(f.error)
    ensures f.Answered? && res.Failure? ==>
      res.error == HttpErr(NewHttpError(ManagementFailure, Some(f.response.status), DecodeResponse(f.response, parse)))
      && res.error.e.statusCode == f.response.status
  {
    match f
    case FetchFailed(error) => Failure(error)
    case Answered(r) =>
      match ManagementResult(r, parse)
      case Failure(e) => Failure(HttpErr(e))
      case Success(data) => Success(data)
  }

  // ---------------------------------------------------------------------
  // pipeUpstreamResponse

  /** `if (value) ...`: a header that is present and not empty. */
  predicate Present(h: Option<string>) {
    h.Some? && h.value != ""
  }

  /** The headers `pipeUpstreamResponse` copies, in the order it sets them. */
  function ForwardedHeaders(r: UpstreamResponse): seq<(string, string)> {
    (if Present(r.contentType) then [("content-type", r.contentType.value)] else [])
      + (if Present(r.cacheControl) then [("cache-control", r.cacheControl.value)] else [])
  }

  /** Only `content-type` and `cache-control` are forwarded, each verbatim
      and exactly when the upstream sent it non-empty. */
  lemma ForwardedHeadersSpec(r: UpstreamResponse)
    ensures forall i :: 0 <= i < |ForwardedHeaders(r)| ==>
      ForwardedHeaders(r)[i].0 == "content-type" || ForwardedHeaders(r)[i].0 == "cache-control"
    ensures HeaderValue(ForwardedHeaders(r), "content-type") ==
      if Present(r.contentType) then r.contentType else None
    ensures HeaderValue(ForwardedHeaders(r), "cache-control") ==
      if Present(r.cacheControl) then r.cacheControl else None
  {
    var hs := ForwardedHeaders(r);
    if Present(r.contentType) {
      assert hs[0] == ("content-type", r.contentType.value);
      if Present(r.cacheControl) {
        assert hs[1..] == [("cache-control", r.cacheControl.value)];
      } else {
        assert hs[1..] == [];
      }
    }
  }

  /** What the streaming path puts on the outbound response: the upstream
      status, the forwarded headers, and the upstream body to pipe (None:
      end at once with no body). */
  datatype Relay = Relay(status: int, headers: seq<(string, string)>, body: Option<string>)

  function RelayOf(r: UpstreamResponse): Relay {
    Relay(r.status, ForwardedHeaders(r), r.body)
  }

  /** Headers set one after the other with `res.setHeader`. */
  function WithHeaders(m: map<string, string>, hs: seq<(string, string)>): map<string, string>
    decreases |hs|
  {
    if hs == [] then m else WithHeaders(m[hs[0].0 := hs[0].1], hs[1..])
  }

  lemma {:induction false} WithHeadersAppend(m: map<string, string>, a: seq<(string, string)>, b: seq<(string, string)>)
    ensures WithHeaders(m, a + b) == WithHeaders(WithHeaders(m, a), b)
    decreases |a|
  {
    if a == [] {
      assert a + b == b;
    } else {
      assert (a + b)[1..] == a[1..] + b;
      WithHeadersAppend(m[a[0].0 := a[0].1], a[1..], b);
    }
  }

  /** What has been sent on an outbound response so far. */
  datatype Sent = Open | Ended | Piped(source: string)

  /** Express's outbound response `res`, as far as the relay changes it. */
  class OutboundResponse {
    var statusCode: int
    var headers: map<string, string>
    var sent: Sent

    constructor ()
      ensures statusCode == 200 && headers == map[] && sent == Open
    {
      statusCode := 200;
      headers := map[];
      sent := Open;
    }

    /** `res.status(code)` */
    method Status(code: int)
      modifies this
      ensures statusCode == code && headers == old(headers) && sent == old(sent)
    {
      statusCode := code;
    }

    /** `res.setHeader(name, value)` */
    method SetHeader(name: string, value: string)
      modifies this
      ensures headers == old(headers)[name := value]
      ensures statusCode == old(statusCode) && sent == old(sent)
    {
      headers := headers[name := value];
    }

    /** `res.end()` */
    method End()
      modifies this
      ensures sent == Ended && statusCode == old(statusCode) && headers == old(headers)
    {
      sent := Ended;
    }

    /** `Readable.fromWeb(body).pipe(res)` */
    method Pipe(source: string)
      modifies this
      ensures sent == Piped(source) && statusCode == old(statusCode) && headers == old(headers)
    {
      sent := Piped(source);
    }
  }

  /** `pipeUpstreamResponse(upstream, res)`: mirrors the status, copies
      `content-type` and `cache-control` when present, and ends the response
      at once when the upstream has no body, else pipes the body through. */
  method PipeUpstreamResponse(upstream: UpstreamResponse, res: OutboundResponse)
    modifies res
    ensures res.statusCode == RelayOf(upstream).status == upstream.status
    ensures res.headers == WithHeaders(old(res.headers), RelayOf(upstream).headers)
    ensures upstream.body.None? ==> res.sent == Ended
    ensures upstream.body.Some? ==> res.sent == Piped(upstream.body.value)
  {
    var contentType := upstream.contentType;
    var cacheControl := upstream.cacheControl;
    res.Status(upstream.status);
    ghost var first := if Present(contentType) then [("content-type", contentType.value)] else [];
    ghost var second := if Present(cacheControl) then [("cache-control", cacheControl.value)] else [];
    if Present(contentType) {
      res.SetHeader("content-type", contentType.value);
    }
    assert res.headers == WithHeaders(old(res.headers), first);
    if Present(cacheControl) {
      res.SetHeader("cache-control", cacheControl.value);
    }
    WithHeadersAppend(old(res.headers), first, second);
    if upstream.body.None? {
      res.End();
      return;
    }
    res.Pipe(upstream.body.value);
  }
}
