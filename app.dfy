/**
  The Express application: the CORS origin setting, the order in which a
  request meets the health check, the authentication middleware, the `/ai`
  router and the not-found fallthrough, and the terminal error handler
  that turns any failure into a status and a JSON body.
 */
module App {
  import opened Js
  import opened Errors
  import opened Config
  import opened Http
  import opened CliProxyClient
  import opened AiRoutes
  import opened Auth

  // ---------------------------------------------------------------------
  // CORS origin

  /** The `origin` option handed to the CORS middleware: `true` (reflect any
      origin), or a list of allowed origins. */
  datatype CorsOrigin = AnyOrigin | Origins(list: seq<string>)

  function TrimAll(parts: seq<string>): (r: seq<string>)
    ensures |r| == |parts|
    ensures forall i :: 0 <= i < |r| ==> r[i] == Trim(parts[i])
  {
    seq(|parts|, i requires 0 <= i < |parts| => Trim(parts[i]))
  }

  /** `corsOrigin === "*" ? true : corsOrigin.split(",").map(trim)` */
  function CorsOriginOf(setting: string): (c: CorsOrigin)
    ensures c.AnyOrigin? <==> setting == "*"
    ensures c.Origins? ==> |c.list| >= 1
    ensures c.Origins? ==> |c.list| == |Split(setting, ',')|
    ensures c.Origins? ==> forall i :: 0 <= i < |c.list| ==> c.list[i] == Trim(Split(setting, ',')[i])
    ensures c.Origins? ==> forall i :: 0 <= i < |c.list| ==> Trim(c.list[i]) == c.list[i]
  {
    if setting == "*" then AnyOrigin
    else
      var parts := Split(setting, ',');
      var origins := TrimAll(parts);
      assert forall i :: 0 <= i < |origins| ==> Trim(origins[i]) == origins[i] by {
        forall i | 0 <= i < |origins| ensures Trim(origins[i]) == origins[i] {
          TrimIdempotent(parts[i]);
        }
      }
      Origins(origins)
  }

  /** A list of trimmed origins without commas, written with "," between
      them, is read back as exactly that list. */
  lemma CorsListRoundTrip(origins: seq<string>)
    requires |origins| >= 1
    requires forall i :: 0 <= i < |origins| ==> Lacks(origins[i], ',') && Trim(origins[i]) == origins[i]
    requires Join(origins, ",") != "*"
    ensures CorsOriginOf(Join(origins, ",")) == Origins(origins)
  {
    var parts := Split(Join(origins, ","), ',');
    JoinSplit(origins, ',');
    assert parts == origins;
    var trimmed := TrimAll(parts);
    assert |trimmed| == |origins|;
    assert forall i :: 0 <= i < |trimmed| ==> trimmed[i] == origins[i];
    assert trimmed == origins;
  }

  // ---------------------------------------------------------------------
  // Terminal error handler

  /** The status and JSON body the error handler sends. */
  datatype ErrorReply = ErrorReply(status: int, body: Value)

  /** The `error` field: the message of an `Error`, else a fixed text. */
  function ErrorText(err: Thrown): string {
    if err.IsError() then err.Message() else "internal server error"
  }

  /** What `errorHandler` sends for a failure: an `HttpError`'s own status,
      500 for anything else; the `error` text; `details` from an
      `HttpError` only when truthy, and `{ message }` for every other failure. */
  function TerminalReply(err: Thrown): (r: ErrorReply)
    ensures r.status == (if err.HttpErr? then err.e.statusCode else 500)
    ensures r.body.Obj? && r.body.fields.Keys <= {"error", "details"}
    ensures Prop(r.body, "error") == Str(ErrorText(err))
    ensures err.HttpErr? ==> ("details" in r.body.fields <==> Truthy(err.e.details))
    ensures err.HttpErr? && Truthy(err.e.details) ==> Prop(r.body, "details") == err.e.details
    ensures !err.HttpErr? ==>
      Prop(r.body, "details") == Obj(map["message" := Str(if err.IsError() then err.Message() else "Unexpected error")])
  {
    var base := map["error" := Str(ErrorText(err))];
    match err
    case HttpErr(e) =>
      ErrorReply(e.statusCode, Obj(if Truthy(e.details) then base["details" := e.details] else base))
    case ErrorObj(message, _) =>
      ErrorReply(500, Obj(base["details" := Obj(map["message" := Str(message)])]))
    case NonError(_) =>
      ErrorReply(500, Obj(base["details" := Obj(map["message" := Str("Unexpected error")])]))
  }

  /** `errorHandler(err, req, res, next)`: builds the response object field
      by field and sends it with the status. */
  method ErrorHandler(err: Thrown) returns (reply: ErrorReply)
    ensures reply == TerminalReply(err)
  {
    var statusCode := if err.HttpErr? then err.e.statusCode else 500;
    var response: map<string, Value> := map["error" := Str(if err.IsError() then err.Message() else "internal server error")];
    if err.HttpErr? && Truthy(err.e.details) {
      response := response["details" := err.e.details];
    }
    if !err.HttpErr? {
      response := response["details" := Obj(map["message" := Str(if err.IsError() then err.Message() else "Unexpected error")])];
    }
    reply := ErrorReply(statusCode, Obj(response));
  }

  /** What the not-found fallthrough passes on. */
  function NotFoundError(): Thrown {
    HttpErr(NewHttpError("not found", Some(404), Undefined))
  }

  /** An unmatched request gets 404 `{ error: "not found" }`, with no details
      since the default `details` is null. */
  lemma NotFoundReply()
    ensures TerminalReply(NotFoundError()) == ErrorReply(404, Obj(map["error" := Str("not found")]))
  {
  }

  /** A failed management call reaches the client with the upstream status,
      the fixed message, and the decoded upstream body as details when it
      is truthy. */
  lemma ManagementFailureReachesClient(r: UpstreamResponse, parse: JsonParser)
    requires !IsOk(r)
    ensures
      var reply := TerminalReply(HttpErr(ManagementResult(r, parse).error));
      reply.status == r.status
      && Prop(reply.body, "error") == Str(ManagementFailure)
      && (Truthy(DecodeResponse(r, parse)) ==> Prop(reply.body, "details") == DecodeResponse(r, parse))
  {
  }

  // ---------------------------------------------------------------------
  // Request pipeline

  /** What the client ends up receiving. */
  datatype Outcome =
    | Json(status: int, body: Value)
    | Relayed(relay: Relay)
    | Preflight(status: int)
    | FinalHandler(status: int)
    | NoResponse

  /** Where Express's `next(value)` leads: to the error-handling middleware,
      on to the next matching layer, or out of the router. */
  datatype NextStep = ToErrorHandler(error: Thrown) | NextLayer | LeaveRouter

  /** How Express's router reads the value handed to `next`: a falsy value
      and the string "route" mean no error (a plain middleware goes on to
      the next layer), the string "router" leaves the router, and anything
      else is an error for the error-handling middleware. */
  function NextOf(err: Thrown): (s: NextStep)
    ensures err.IsError() ==> s == ToErrorHandler(err)
    ensures s.ToErrorHandler? <==>
      err.IsError() || (Truthy(err.value) && err.value != Str("route") && err.value != Str("router"))
    ensures s.ToErrorHandler? ==> s.error == err
    ensures s == LeaveRouter <==> err == NonError(Str("router"))
  {
    if err.IsError() then ToErrorHandler(err)
    else if !Truthy(err.value) || err.value == Str("route") then NextLayer
    else if err.value == Str("router") then LeaveRouter
    else ToErrorHandler(err)
  }

  function FromError(err: Thrown): Outcome {
    var reply := TerminalReply(err);
    Json(reply.status, reply.body)
  }

  /** The path seen by the router mounted at `/ai`, if the request is below it. */
  function AiSubpath(path: string): (sub: Option<string>)
    ensures sub.Some? ==> StartsWith(sub.value, "/")
    ensures sub.Some? ==> path == "/ai" || path == "/ai" + sub.value
    ensures sub.None? ==> path != "/ai" && !StartsWith(path, "/ai/")
  {
    if path == "/ai" then Some("/")
    else if StartsWith(path, "/ai/") then
      assert path == path[..3] + path[3..] && path[..3] == "/ai";
      assert path[3..][..1] == "/";
      Some(path[3..])
    else None
  }

  /** The route a request reaches inside the `/ai` router, if any. */
  function AiRoute(req: Request): Option<Route> {
    var sub := AiSubpath(req.path);
    if sub.Some? then RouteOf(req.httpMethod, sub.value) else None
  }

  /** The upstream services the pipeline consults. */
  datatype Services = Services(
    lookup: SessionLookup,
    fetch: Outgoing -> Fetched,
    resolve: UrlResolver,
    serialize: JsonSerializer,
    parse: JsonParser)

  /** The error the JSON body parser passes on: an `Error` carrying the
      parser's message (its `status` and `type` are never read here). */
  function BodyParseError(message: string): Thrown {
    ErrorObj(message, map["status" := Num(400)])
  }

  predicate IsHealthCheck(req: Request) {
    req.httpMethod == "GET" && req.path == "/health"
  }

  /** What a route handler's rejection leads to: `asyncHandler` hands it
      to `next`. An error reaches the error handler; a value Express reads
      as no error ("route" and "router" included) leaves the `/ai` router
      without a reply, and the not-found fallthrough answers. */
  function RouteFailure(err: Thrown): (o: Outcome)
    ensures NextOf(err).ToErrorHandler? ==> o == FromError(err)
    ensures !NextOf(err).ToErrorHandler? ==> o == FromError(NotFoundError())
  {
    match NextOf(err)
    case ToErrorHandler(e) => FromError(e)
    case _ => FromError(NotFoundError())
  }

  /** The layers after the authentication middleware: the `/ai` router,
      the upstream call and its reply, and not-found. */
  function AfterAuthentication(cfg: AppConfig, req: Request, svc: Services): (o: Outcome)
    ensures AiRoute(req).None? ==> o == FromError(NotFoundError())
    ensures AiRoute(req).Some? ==>
      match svc.fetch(ForwardCall(cfg, AiRoute(req).value, req, svc.resolve, svc.serialize))
      case FetchFailed(err) => o == RouteFailure(err)
      case Answered(upstream) =>
        match RouteReply(AiRoute(req).value, req, upstream, svc.parse)
        case Streamed(relay) => o == Relayed(relay)
        case Buffered(status, json) => o == Json(status, json)
  {
    match AiRoute(req)
    case None => FromError(NotFoundError())
    case Some(route) =>
      match svc.fetch(ForwardCall(cfg, route, req, svc.resolve, svc.serialize))
      case FetchFailed(err) => RouteFailure(err)
      case Answered(upstream) =>
        match RouteReply(route, req, upstream, svc.parse)
        case Streamed(relay) => Relayed(relay)
        case Buffered(status, json) => Json(status, json)
  }

  /** The middleware lets the request through: it calls `next()`, or it
      calls `next(error)` with a value Express reads as no error. */
  predicate Proceeds(o: AuthOutcome) {
    o == Continue || (o.PassError? && NextOf(o.error) == NextLayer)
  }

  /** One request through the application, in mounting order: the CORS
      middleware answers every preflight (`OPTIONS`) itself with 204; a body
      the JSON parser rejects goes straight to the error handler; then the
      health check, authentication, the `/ai` router and not-found. An error
      the middleware passes on goes to the error handler unless Express
      reads it as no error; "router" leaves the application for Express's
      own final 404. */
  function HandleRequest(cfg: AppConfig, req: Request, svc: Services): (o: Outcome)
    ensures req.httpMethod == "OPTIONS" ==> o == Preflight(204)
    ensures req.httpMethod != "OPTIONS" && req.bodyError.Some? ==>
      o == Json(500, Obj(map["error" := Str(req.bodyError.value),
                              "details" := Obj(map["message" := Str(req.bodyError.value)])]))
    ensures req.httpMethod != "OPTIONS" && req.bodyError.None? && IsHealthCheck(req) ==>
      o == Json(200, Obj(map["status" := Str("ok")]))
    ensures ReachesAuthentication(req) && Proceeds(Authenticate(req, svc.lookup)) ==>
      o == AfterAuthentication(cfg, req, svc)
    ensures ReachesAuthentication(req) && !Proceeds(Authenticate(req, svc.lookup)) ==>
      o == match Authenticate(req, svc.lookup)
           case Respond(status, body) => Json(status, body)
           case PassError(err) => (if NextOf(err) == LeaveRouter then FinalHandler(404) else FromError(err))
           case _ => NoResponse
  {
    if req.httpMethod == "OPTIONS" then Preflight(204)
    else if req.bodyError.Some? then FromError(BodyParseError(req.bodyError.value))
    else if IsHealthCheck(req) then Json(200, Obj(map["status" := Str("ok")]))
    else
      match Authenticate(req, svc.lookup)
      case Respond(status, body) => Json(status, body)
      case NoReply => NoResponse
      case Continue => AfterAuthentication(cfg, req, svc)
      case PassError(err) =>
        match NextOf(err)
        case ToErrorHandler(e) => FromError(e)
        case NextLayer => AfterAuthentication(cfg, req, svc)
        case LeaveRouter => FinalHandler(404)
  }

  /** What reaches the middleware: neither a preflight nor a body the
      parser rejected, nor the health check. */
  predicate ReachesAuthentication(req: Request) {
    req.httpMethod != "OPTIONS" && req.bodyError.None? && !IsHealthCheck(req)
  }

  /** A preflight is answered 204 and a rejected body 500 whatever the
      credentials, the session store or the upstream; neither is forwarded. */
  lemma ShortCircuitsPrecedeAuthentication(cfg: AppConfig, req: Request, svc1: Services, svc2: Services)
    requires req.httpMethod == "OPTIONS" || req.bodyError.Some?
    ensures HandleRequest(cfg, req, svc1) == HandleRequest(cfg, req, svc2)
    ensures req.httpMethod != "OPTIONS" ==> HandleRequest(cfg, req, svc1) == Json(500, TerminalReply(BodyParseError(req.bodyError.value)).body)
  {
  }

  /** Authentication strictly precedes forwarding: unless the middleware
      lets the request through, the outcome is the same whatever the
      upstream does, and nothing is relayed. */
  lemma NoForwardWithoutAuthentication(cfg: AppConfig, req: Request, svc: Services, fetch2: Outgoing -> Fetched)
    requires !Proceeds(Authenticate(req, svc.lookup))
    ensures HandleRequest(cfg, req, svc) == HandleRequest(cfg, req, svc.(fetch := fetch2))
    ensures !HandleRequest(cfg, req, svc).Relayed?
  {
  }

  /** A request without any key that reaches the middleware is refused with
      401 `missing_api_key` before any session lookup. */
  lemma MissingKeyRefused(cfg: AppConfig, req: Request, svc: Services)
    requires ReachesAuthentication(req)
    requires SelectApiKey(req) == ""
    ensures HandleRequest(cfg, req, svc) == Json(401, ErrorBody("missing_api_key"))
  {
  }

  /** A request the middleware lets through outside the three routes gets 404. */
  lemma UnroutedIsNotFound(cfg: AppConfig, req: Request, svc: Services)
    requires ReachesAuthentication(req)
    requires Proceeds(Authenticate(req, svc.lookup))
    requires AiRoute(req).None?
    ensures HandleRequest(cfg, req, svc) == Json(404, Obj(map["error" := Str("not found")]))
  {
    NotFoundReply();
  }

  /** A failed upstream call ends in the error handler: an `Error` that is
      not an `HttpError` (a network failure or the timeout's abort) as 500
      with its message under details. A rejection Express reads as no error
      falls through to not-found instead. */
  lemma FetchFailureOutcome(cfg: AppConfig, req: Request, svc: Services, route: Route, err: Thrown)
    requires ReachesAuthentication(req)
    requires Proceeds(Authenticate(req, svc.lookup)) && AiRoute(req) == Some(route)
    requires svc.fetch(ForwardCall(cfg, route, req, svc.resolve, svc.serialize)) == FetchFailed(err)
    ensures NextOf(err).ToErrorHandler? ==> HandleRequest(cfg, req, svc) == FromError(err)
    ensures NextOf(err).ToErrorHandler? && !err.HttpErr? ==>
      HandleRequest(cfg, req, svc).Json? && HandleRequest(cfg, req, svc).status == 500
    ensures err.ErrorObj? ==>
      HandleRequest(cfg, req, svc) == Json(500, Obj(map["error" := Str(err.message),
                                                          "details" := Obj(map["message" := Str(err.message)])]))
    ensures !NextOf(err).ToErrorHandler? ==> HandleRequest(cfg, req, svc) == Json(404, Obj(map["error" := Str("not found")]))
  {
    NotFoundReply();
  }

  /** As written, a session lookup that rejects with a value Express reads
      as no error (0, "", false, NaN or "route") lets the request through:
      the middleware hands it to `next`, and the request is routed and
      forwarded exactly as an authenticated one. */
  lemma RejectionReadAsNoErrorProceeds(cfg: AppConfig, req: Request, svc: Services, v: Value)
    requires ReachesAuthentication(req)
    requires SelectApiKey(req) != ""
    requires svc.lookup(req.(xApiKey := Some(SelectApiKey(req)))) == LookupThrew(NonError(v))
    requires v == Num(0) || v == Str("") || v == Bool(false) || v == NaN || v == Str("route")
    ensures Proceeds(Authenticate(req, svc.lookup))
    ensures HandleRequest(cfg, req, svc) == AfterAuthentication(cfg, req, svc)
  {
  }

  /** An answered proxy call mirrors the upstream status on both paths. */
  lemma UpstreamStatusMirrored(cfg: AppConfig, req: Request, svc: Services, route: Route, upstream: UpstreamResponse)
    requires ReachesAuthentication(req)
    requires Proceeds(Authenticate(req, svc.lookup)) && AiRoute(req) == Some(route)
    requires svc.fetch(ForwardCall(cfg, route, req, svc.resolve, svc.serialize)) == Answered(upstream)
    ensures HandleRequest(cfg, req, svc).Json? ==> HandleRequest(cfg, req, svc).status == upstream.status
    ensures HandleRequest(cfg, req, svc).Relayed? ==> HandleRequest(cfg, req, svc).relay == RelayOf(upstream)
    ensures HandleRequest(cfg, req, svc).Relayed? <==> route != Models && IsStreaming(req.body, upstream)
  {
  }

  /** `/ai/chat/completions` and `/ai/responses` by POST and `/ai/models` by
      GET reach their routes. */
  lemma MountedPaths(req: Request)
    ensures req.httpMethod == "POST" && req.path == "/ai/chat/completions" ==> AiRoute(req) == Some(ChatCompletions)
    ensures req.httpMethod == "POST" && req.path == "/ai/responses" ==> AiRoute(req) == Some(Responses)
    ensures req.httpMethod == "GET" && req.path == "/ai/models" ==> AiRoute(req) == Some(Models)
    ensures AiRoute(req) == Some(Models) ==> req.path == "/ai/models"
  {
    if AiRoute(req) == Some(Models) {
      assert req.path == "/ai" + "/models";
    }
  }
}
