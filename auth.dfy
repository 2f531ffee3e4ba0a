/**
  The authentication middleware: which credential a request presents, the
  session lookup's outcome, and how an error thrown by the lookup is
  classified into a reply or passed on.
 */
module Auth {
  import opened Js
  import opened Errors
  import opened Http

  const BearerPrefix := "bearer "

  /** `getApiKeyFromRequestHeader(headerValue)`: the trimmed text after a
      case-insensitive `bearer ` prefix, and "" for an absent or empty header
      or one without that prefix. */
  function ApiKeyFromHeader(headerValue: Option<string>): (k: string)
    ensures (headerValue.None? || headerValue == Some("")) ==> k == ""
    ensures headerValue.Some? && !StartsWith(Lower(headerValue.value), BearerPrefix) ==> k == ""
    ensures headerValue.Some? && StartsWith(Lower(headerValue.value), BearerPrefix) ==>
      k == Trim(headerValue.value[|BearerPrefix|..])
  {
    if headerValue.None? || headerValue.value == "" then ""
    else if StartsWith(Lower(headerValue.value), BearerPrefix) then Trim(headerValue.value[7..])
    else ""
  }

  /** A token given after `Bearer `, in any letter case of the scheme, is
      read back exactly when it has no surrounding white space. */
  lemma BearerRoundTrip(scheme: string, token: string)
    requires |scheme| == 6 && Lower(scheme) == "bearer"
    requires Trim(token) == token
    ensures ApiKeyFromHeader(Some(scheme + " " + token)) == token
  {
    var h := scheme + " " + token;
    assert Lower(h)[..7] == Lower(scheme) + " ";
    assert h[7..] == token;
  }

  /** `req.header("x-api-key")?.trim() || ""` */
  function XApiKey(req: Request): string {
    if req.xApiKey.Some? then Trim(req.xApiKey.value) else ""
  }

  /** `xApiKey || bearerKey`: the trimmed `x-api-key` header when it is not
      empty, else the bearer token of the `authorization` header. */
  function SelectApiKey(req: Request): (k: string)
    ensures XApiKey(req) != "" ==> k == XApiKey(req)
    ensures XApiKey(req) == "" ==> k == ApiKeyFromHeader(req.authorization)
  {
    var xApiKey := XApiKey(req);
    var bearerKey := ApiKeyFromHeader(if req.authorization == Some("") then None else req.authorization);
    if xApiKey != "" then xApiKey else bearerKey
  }

  /** The selected key never carries surrounding white space. */
  lemma SelectedKeyIsTrimmed(req: Request)
    ensures Trim(SelectApiKey(req)) == SelectApiKey(req)
  {
    if XApiKey(req) != "" {
      TrimIdempotent(req.xApiKey.value);
    } else if req.authorization.Some? && req.authorization.value != ""
      && StartsWith(Lower(req.authorization.value), BearerPrefix) {
      TrimIdempotent(req.authorization.value[7..]);
    }
  }

  /** What the middleware does with a request: reply with a status and a
      JSON body, continue to the next handler, pass an error to Express's
      error handling, or nothing at all (the classification itself throws,
      which escapes the detached promise: no reply is ever sent). */
  datatype AuthOutcome =
    | Respond(status: int, body: Value)
    | Continue
    | PassError(error: Thrown)
    | NoReply

  /** `{ error: code }` */
  function ErrorBody(code: string): Value {
    Obj(map["error" := Str(code)])
  }

  /** Property access on a thrown value throws only for null and undefined. */
  predicate PropertyAccessThrows(e: Thrown) {
    e.NonError? && (e.value.Undefined? || e.value.Null?)
  }

  /** `error.name` for the properties the catch block reads. An `HttpError`
      has only `statusCode` among them. */
  function ErrorProp(e: Thrown, name: string): Value {
    match e
    case HttpErr(h) => if name == "statusCode" then Num(h.statusCode) else Undefined
    case ErrorObj(_, props) => if name in props then props[name] else Undefined
    case NonError(v) => Prop(v, name)
  }

  /** `Number(status || statusCode || 500)`: the first truthy of the two
      fields as a number, else 500. */
  function DerivedStatus(e: Thrown): (r: Value)
    ensures Truthy(ErrorProp(e, "status")) ==> r == JsNumber(ErrorProp(e, "status"))
    ensures !Truthy(ErrorProp(e, "status")) && Truthy(ErrorProp(e, "statusCode")) ==> r == JsNumber(ErrorProp(e, "statusCode"))
    ensures !Truthy(ErrorProp(e, "status")) && !Truthy(ErrorProp(e, "statusCode")) ==> r == Num(500)
    ensures e.HttpErr? ==> r == Num(if e.e.statusCode != 0 then e.e.statusCode else 500)
  {
    JsNumber(Or(Or(ErrorProp(e, "status"), ErrorProp(e, "statusCode")), Num(500)))
  }

  /** `code || body?.code || ""`: the own code, else the body's, else "". */
  function DerivedCode(e: Thrown): (r: Value)
    ensures Truthy(ErrorProp(e, "code")) ==> r == ErrorProp(e, "code")
    ensures !Truthy(ErrorProp(e, "code")) && Truthy(Prop(ErrorProp(e, "body"), "code")) ==> r == Prop(ErrorProp(e, "body"), "code")
    ensures !Truthy(ErrorProp(e, "code")) && !Truthy(Prop(ErrorProp(e, "body"), "code")) ==> r == Str("")
  {
    Or(Or(ErrorProp(e, "code"), Prop(ErrorProp(e, "body"), "code")), Str(""))
  }

  /** `(error instanceof Error ? error.message : "") || body?.message || ""`:
      a non-empty message of an `Error`, else the body's message, else "". */
  function DerivedMessage(e: Thrown): (r: Value)
    ensures e.IsError() && e.Message() != "" ==> r == Str(e.Message())
    ensures !(e.IsError() && e.Message() != "") && Truthy(Prop(ErrorProp(e, "body"), "message")) ==>
      r == Prop(ErrorProp(e, "body"), "message")
    ensures !(e.IsError() && e.Message() != "") && !Truthy(Prop(ErrorProp(e, "body"), "message")) ==> r == Str("")
  {
    Or(Or(Str(if e.IsError() then e.Message() else ""), Prop(ErrorProp(e, "body"), "message")), Str(""))
  }

  /** `/rate limit/i.test(message)`: the pattern is ASCII, and a case-
      insensitive match without the `u` flag folds only ASCII letters onto
      ASCII letters, so ASCII lower-casing is exact here. */
  predicate MentionsRateLimit(message: Value) {
    Contains(Lower(ToJsString(message)), "rate limit")
  }

  predicate IsRateLimited(e: Thrown) {
    DerivedStatus(e) == Num(429) || DerivedCode(e) == Str("RATE_LIMITED") || MentionsRateLimit(DerivedMessage(e))
  }

  /** The catch block: 429 `rate_limit_exceeded` for a rate-limit signal,
      checked first; then 401 `invalid_api_key` for status 401; any other
      error goes on to `next(error)` unchanged. */
  function ClassifyError(e: Thrown): (o: AuthOutcome)
    ensures PropertyAccessThrows(e) <==> o == NoReply
    ensures !PropertyAccessThrows(e) && IsRateLimited(e) ==> o == Respond(429, ErrorBody("rate_limit_exceeded"))
    ensures !PropertyAccessThrows(e) && !IsRateLimited(e) && DerivedStatus(e) == Num(401) ==>
      o == Respond(401, ErrorBody("invalid_api_key"))
    ensures !PropertyAccessThrows(e) && !IsRateLimited(e) && DerivedStatus(e) != Num(401) ==> o == PassError(e)
  {
    if PropertyAccessThrows(e) then NoReply
    else if IsRateLimited(e) then Respond(429, ErrorBody("rate_limit_exceeded"))
    else if DerivedStatus(e) == Num(401) then Respond(401, ErrorBody("invalid_api_key"))
    else PassError(e)
  }

  /** The session lookup: it sees the request's headers with `x-api-key`
      replaced by the selected key. */
  type SessionLookup = Request -> SessionResult

  /** `authMiddleware`: 401 `missing_api_key` without any key; otherwise the
      session lookup decides: no session or no user gives 401
      `invalid_api_key`, a user continues, and a thrown error is classified. */
  function Authenticate(req: Request, lookup: SessionLookup): (o: AuthOutcome)
    ensures SelectApiKey(req) == "" ==> o == Respond(401, ErrorBody("missing_api_key"))
    ensures SelectApiKey(req) != "" ==>
      var session := lookup(req.(xApiKey := Some(SelectApiKey(req))));
      match session
      case Session(user) => o == (if Truthy(user) then Continue else Respond(401, ErrorBody("invalid_api_key")))
      case NoSession => o == Respond(401, ErrorBody("invalid_api_key"))
      case LookupThrew(err) => o == ClassifyError(err)
  {
    var apiKey := SelectApiKey(req);
    if apiKey == "" then Respond(401, ErrorBody("missing_api_key"))
    else
      match lookup(req.(xApiKey := Some(apiKey)))
      case Session(user) => if Truthy(user) then Continue else Respond(401, ErrorBody("invalid_api_key"))
      case NoSession => Respond(401, ErrorBody("invalid_api_key"))
      case LookupThrew(err) => ClassifyError(err)
  }

  /** Without a key the lookup is never consulted: any two lookups agree. */
  lemma MissingKeySkipsLookup(req: Request, l1: SessionLookup, l2: SessionLookup)
    requires SelectApiKey(req) == ""
    ensures Authenticate(req, l1) == Authenticate(req, l2) == Respond(401, ErrorBody("missing_api_key"))
  {
  }

  /** Only a session with a user continues; every other outcome that is a
      reply is an error status. */
  lemma ContinueOnlyWithUser(req: Request, lookup: SessionLookup)
    ensures Authenticate(req, lookup) == Continue <==>
      SelectApiKey(req) != "" &&
      var session := lookup(req.(xApiKey := Some(SelectApiKey(req))));
      session.Session? && Truthy(session.user)
    ensures Authenticate(req, lookup).Respond? ==> Authenticate(req, lookup).status in {401, 429}
  {
  }

  /** The rate-limit check wins over a 401 status given as `statusCode`
      together with a "Rate Limit" message. */
  lemma RateLimitPrecedesUnauthorized()
    ensures ClassifyError(ErrorObj("Rate Limit", map["statusCode" := Num(401)])) == Respond(429, ErrorBody("rate_limit_exceeded"))
  {
    var e := ErrorObj("Rate Limit", map["statusCode" := Num(401)]);
    assert DerivedMessage(e) == Str("Rate Limit");
    assert Lower("Rate Limit") == "rate limit";
    assert StartsWith(Lower("Rate Limit"), "rate limit");
  }

  /** Without a rate-limit signal, the same 401 status is an invalid key. */
  lemma UnauthorizedWithoutRateLimit()
    ensures ClassifyError(ErrorObj("denied", map["statusCode" := Num(401)])) == Respond(401, ErrorBody("invalid_api_key"))
  {
    NoLongerSubstring(Lower("denied"), "rate limit");
  }

  /** An error reporting status 429 is a rate-limit reply even when its
      message says nothing about it. */
  lemma StatusAloneSignalsRateLimit()
    ensures ClassifyError(ErrorObj("", map["status" := Num(429)])) == Respond(429, ErrorBody("rate_limit_exceeded"))
  {
  }

  /** A word that starts with a letter and has no surrounding whitespace
      is not a number. */
  lemma WordIsNotANumber(t: string)
    requires |t| > 0 && 'A' <= t[0] <= 'Z' && 'A' <= t[|t| - 1] <= 'Z'
    requires t != "Infinity"
    ensures StringToNumber(t) == NaN
  {
    assert TrimStart(t) == t && TrimEnd(t) == t;
    assert !IsDigit(t[0]);
  }

  /** A pattern longer than the text never occurs in it. */
  lemma {:induction false} NoLongerSubstring(s: string, sub: string)
    requires |sub| > |s|
    ensures !Contains(s, sub)
    decreases |s|
  {
    if s != [] {
      NoLongerSubstring(s[1..], sub);
    }
  }

  /** A status given as a word such as "UNAUTHORIZED" is truthy and hides
      the numeric `statusCode`: `Number` of the word is NaN, so such an
      error is neither a 401 nor a 429 by status and, unless its message or
      code says otherwise, is passed on. */
  lemma StringStatusHidesStatusCode(message: string, props: map<string, Value>, word: string)
    requires "status" in props && props["status"] == Str(word)
    requires |word| > 0 && 'A' <= word[0] <= 'Z' && 'A' <= word[|word| - 1] <= 'Z' && word != "Infinity"
    requires "code" !in props && "body" !in props
    requires !MentionsRateLimit(Str(message))
    ensures ClassifyError(ErrorObj(message, props)) == PassError(ErrorObj(message, props))
  {
    var e := ErrorObj(message, props);
    WordIsNotANumber(word);
    assert DerivedStatus(e) == NaN;
    if message == "" {
      NoLongerSubstring(Lower(""), "rate limit");
    }
    assert DerivedMessage(e) == Str(message);
  }
}
