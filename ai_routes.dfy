/**
  The `/ai` router: which upstream inference endpoint each route calls,
  and the choice between relaying the upstream stream and replying with
  one buffered JSON document.
 */
module AiRoutes {
  import opened Js
  import opened Config
  import opened Http
  import opened CliProxyClient

  /** The three routes the router declares. */
  datatype Route = Models | ChatCompletions | Responses

  /** The method and path each route is declared with. */
  function RouteMethod(r: Route): string {
    match r
    case Models => "GET"
    case ChatCompletions => "POST"
    case Responses => "POST"
  }

  function RoutePath(r: Route): string {
    match r
    case Models => "/models"
    case ChatCompletions => "/chat/completions"
    case Responses => "/responses"
  }

  /** Router dispatch on an exact method and path; None falls through to
      the application's not-found handler. */
  function RouteOf(httpMethod: string, path: string): (r: Option<Route>)
    ensures r.Some? ==> RouteMethod(r.value) == httpMethod && RoutePath(r.value) == path
  {
    if httpMethod == "GET" && path == "/models" then Some(Models)
    else if httpMethod == "POST" && path == "/chat/completions" then Some(ChatCompletions)
    else if httpMethod == "POST" && path == "/responses" then Some(Responses)
    else None
  }

  /** Every declared route is reached by its own method and path, and by no other. */
  lemma RouteOfComplete(r: Route, httpMethod: string, path: string)
    ensures RouteOf(RouteMethod(r), RoutePath(r)) == Some(r)
    ensures RouteOf(httpMethod, path).None? <==>
      forall q: Route :: !(RouteMethod(q) == httpMethod && RoutePath(q) == path)
  {
    if RouteOf(httpMethod, path).None? {
      forall q: Route ensures !(RouteMethod(q) == httpMethod && RoutePath(q) == path) {
        match q
        case Models =>
        case ChatCompletions =>
        case Responses =>
      }
    }
  }

  /** The upstream path each route calls. */
  function UpstreamPath(r: Route): string {
    match r
    case Models => "/v1/models"
    case ChatCompletions => "/v1/chat/completions"
    case Responses => "/v1/responses"
  }

  /** What each route hands to `requestInference`: `/models` sends a fixed
      GET without a body; the other two pass the inbound method and body along. */
  function ForwardRequest(route: Route, req: Request): (f: InferenceRequest)
    ensures f.pathname == UpstreamPath(route)
    ensures route == Models ==> f.httpMethod == Some("GET") && f.body == Undefined
    ensures route != Models ==> f.httpMethod == Some(req.httpMethod) && f.body == req.body
  {
    if route == Models then InferenceRequest(Some("GET"), UpstreamPath(route), Undefined)
    else InferenceRequest(Some(req.httpMethod), UpstreamPath(route), req.body)
  }

  /** The upstream call a route makes. */
  function ForwardCall(cfg: AppConfig, route: Route, req: Request, resolve: UrlResolver, serialize: JsonSerializer): Outgoing {
    InferenceCall(cfg, ForwardRequest(route, req), resolve, serialize)
  }

  /** `/models` sends GET to `/v1/models` under the base URL, with the API
      key and neither a content type nor a body, whatever the inbound request
      carried; the two proxy routes send the inbound method, and the body
      serialized exactly when it is truthy. */
  lemma ForwardCallShape(cfg: AppConfig, route: Route, req: Request, resolve: UrlResolver, serialize: JsonSerializer)
    ensures ForwardCall(cfg, route, req, resolve, serialize).url == resolve(UpstreamPath(route), cfg.cliProxyBaseUrl + "/")
    ensures route == Models ==>
      var o := ForwardCall(cfg, route, req, resolve, serialize);
      o.httpMethod == "GET" && o.body.None? && HeaderValue(o.headers, "Content-Type").None?
    ensures route != Models ==>
      var o := ForwardCall(cfg, route, req, resolve, serialize);
      o.httpMethod == req.httpMethod && (o.body.Some? <==> Truthy(req.body))
        && (o.body.Some? ==> o.body.value == serialize(req.body))
    ensures HeaderValue(ForwardCall(cfg, route, req, resolve, serialize).headers, "Authorization")
      == Some("Bearer " + cfg.cliProxyApiKey)
  {
  }

  /** `req.body?.stream === true || contentType.includes("text/event-stream")` */
  predicate IsStreaming(body: Value, upstream: UpstreamResponse) {
    Prop(body, "stream") == Bool(true) || Contains(HeaderText(upstream.contentType), "text/event-stream")
  }

  /** The reply a route produces: the upstream stream relayed, or one JSON
      document with a status. */
  datatype Reply = Streamed(relay: Relay) | Buffered(status: int, json: Value)

  /** `res.status(upstream.status).json(payload || {})` after decoding the body. */
  function BufferedReply(upstream: UpstreamResponse, parse: JsonParser): (r: Reply)
    ensures r.Buffered? && r.status == upstream.status
    ensures Truthy(r.json)
    ensures Truthy(DecodeResponse(upstream, parse)) ==> r.json == DecodeResponse(upstream, parse)
    ensures !Truthy(DecodeResponse(upstream, parse)) ==> r.json == Obj(map[])
  {
    Buffered(upstream.status, Or(DecodeResponse(upstream, parse), Obj(map[])))
  }

  /** `proxyJsonRequest`: relays the stream when the request asked for one
      or the upstream sends an event stream, and otherwise replies buffered. */
  function ProxyJsonReply(body: Value, upstream: UpstreamResponse, parse: JsonParser): (r: Reply)
    ensures r.Streamed? <==> IsStreaming(body, upstream)
    ensures r.Streamed? ==> r.relay == RelayOf(upstream)
    ensures r.Buffered? ==> r == BufferedReply(upstream, parse)
  {
    if IsStreaming(body, upstream) then Streamed(RelayOf(upstream)) else BufferedReply(upstream, parse)
  }

  /** The reply of each route once the upstream has answered. */
  function RouteReply(route: Route, req: Request, upstream: UpstreamResponse, parse: JsonParser): (r: Reply)
    ensures route == Models ==> r == BufferedReply(upstream, parse)
    ensures r.Streamed? <==> route != Models && IsStreaming(req.body, upstream)
    ensures r.Streamed? ==> r.relay == RelayOf(upstream)
    ensures r.Buffered? ==> r.status == upstream.status && Truthy(r.json)
  {
    if route == Models then BufferedReply(upstream, parse) else ProxyJsonReply(req.body, upstream, parse)
  }

  /** `/models` always replies buffered, even to an event stream. */
  lemma ModelsNeverStreams(req: Request, upstream: UpstreamResponse, parse: JsonParser)
    ensures RouteReply(Models, req, upstream, parse).Buffered?
    ensures RouteReply(Models, req, upstream, parse).status == upstream.status
  {
  }

  /** The streaming path never decodes: the relay does not depend on the
      JSON parser. The buffered path never pipes. Both mirror the upstream status. */
  lemma StreamingIgnoresBody(req: Request, upstream: UpstreamResponse, p1: JsonParser, p2: JsonParser, route: Route)
    requires route != Models && IsStreaming(req.body, upstream)
    ensures RouteReply(route, req, upstream, p1) == RouteReply(route, req, upstream, p2) == Streamed(RelayOf(upstream))
    ensures RouteReply(route, req, upstream, p1).relay.status == upstream.status
  {
  }

  /** Only the boolean `true` asks for a stream: `"true"`, `1` or any other
      truthy flag is buffered unless the upstream sends an event stream. */
  lemma StreamFlagIsStrict(req: Request, upstream: UpstreamResponse, parse: JsonParser, route: Route)
    requires route != Models
    requires Prop(req.body, "stream") != Bool(true)
    requires !Contains(HeaderText(upstream.contentType), "text/event-stream")
    ensures RouteReply(route, req, upstream, parse) == BufferedReply(upstream, parse)
  {
  }

  /** An empty upstream body is answered with `{}` and the upstream status. */
  lemma EmptyBodyGivesEmptyObject(upstream: UpstreamResponse, parse: JsonParser)
    requires BodyText(upstream) == ""
    ensures BufferedReply(upstream, parse) == Buffered(upstream.status, Obj(map[]))
  {
  }
}
