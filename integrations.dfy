/**
  The integrations router: the provider table, the requests it sends to
  the upstream management API, its input checks, and how it shapes the
  replies.
 */
module Integrations {
  import opened Js
  import opened Errors
  import opened CliProxyClient

  /** `PROVIDER_AUTH_ENDPOINTS`, in declaration order. */
  const ProviderTable: seq<(string, string)> := [
    ("codex", "/v0/management/codex-auth-url"),
    ("claude", "/v0/management/anthropic-auth-url"),
    ("anthropic", "/v0/management/anthropic-auth-url"),
    ("gemini", "/v0/management/gemini-cli-auth-url"),
    ("gemini-cli", "/v0/management/gemini-cli-auth-url"),
    ("antigravity", "/v0/management/antigravity-auth-url"),
    ("qwen", "/v0/management/qwen-auth-url"),
    ("iflow", "/v0/management/iflow-auth-url")
  ]

  function Names(table: seq<(string, string)>): (r: seq<string>)
    ensures |r| == |table|
    ensures forall i :: 0 <= i < |r| ==> r[i] == table[i].0
  {
    seq(|table|, i requires 0 <= i < |table| => table[i].0)
  }

  /** `Object.keys(PROVIDER_AUTH_ENDPOINTS)` */
  function ProviderNames(): seq<string> {
    Names(ProviderTable)
  }

  function ProviderList(): Value {
    Arr(seq(|ProviderNames()|, i requires 0 <= i < |ProviderNames()| => Str(ProviderNames()[i])))
  }

  /** The `/providers` reply: every provider name, in table order. */
  function ProvidersReply(): (r: Value)
    ensures Prop(r, "providers").Arr? && |Prop(r, "providers").items| == |ProviderTable|
    ensures forall i :: 0 <= i < |ProviderTable| ==> Prop(r, "providers").items[i] == Str(ProviderTable[i].0)
  {
    Obj(map["providers" := ProviderList()])
  }

  /** An own entry of a table. */
  function Lookup(table: seq<(string, string)>, name: string): (r: Option<string>)
    ensures r.Some? <==> name in Names(table)
    ensures r.Some? ==> (name, r.value) in table
    decreases |table|
  {
    if table == [] then None
    else if table[0].0 == name then Some(table[0].1)
    else
      assert Names(table) == [table[0].0] + Names(table[1..]);
      Lookup(table[1..], name)
  }

  /** The endpoint for a provider, among the table's own keys only. */
  function ProviderEndpoint(provider: string): (r: Option<string>)
    ensures r.Some? <==> provider in ProviderNames()
    ensures r.Some? ==> (provider, r.value) in ProviderTable
  {
    Lookup(ProviderTable, provider)
  }

  /** `/providers` lists the eight table keys in declaration order. */
  lemma ProviderNamesListed()
    ensures ProviderNames() == ["codex", "claude", "anthropic", "gemini", "gemini-cli", "antigravity", "qwen", "iflow"]
  {
  }

  /** No provider is listed twice. */
  lemma ProviderNamesDistinct()
    ensures forall i, j :: 0 <= i < j < |ProviderNames()| ==> ProviderNames()[i] != ProviderNames()[j]
  {
    ProviderNamesListed();
  }

  /** `claude` and `anthropic` share an endpoint, as do `gemini` and
      `gemini-cli`; a name outside the table has none. */
  lemma SharedEndpoints()
    ensures ProviderEndpoint("claude") == ProviderEndpoint("anthropic") == Some("/v0/management/anthropic-auth-url")
    ensures ProviderEndpoint("gemini") == ProviderEndpoint("gemini-cli") == Some("/v0/management/gemini-cli-auth-url")
    ensures ProviderEndpoint("openai").None?
  {
    ProviderNamesListed();
    assert "openai" !in ProviderNames();
  }

  // ---------------------------------------------------------------------
  // The lookup as the source writes it

  /** What `PROVIDER_AUTH_ENDPOINTS[provider]` yields on a plain object
      literal: an own entry, a member inherited from `Object.prototype`
      (with the text `String` gives it), or undefined. Among the members of
      `Object.prototype`, only `constructor` and `__proto__` are spelled in
      lower case, so only they survive the lower-casing of the provider. */
  datatype Member = OwnEntry(endpoint: string) | InheritedMember(text: string) | NoMember

  function LookupAsWritten(provider: string): Member {
    var own := ProviderEndpoint(provider);
    if own.Some? then OwnEntry(own.value)
    else if provider == "constructor" then InheritedMember("function Object() { [native code] }")
    else if provider == "__proto__" then InheritedMember("[object Object]")
    else NoMember
  }

  /** `!endpoint`: an inherited member is a function or an object, truthy
      either way. */
  predicate PassesCheckAsWritten(provider: string) {
    !LookupAsWritten(provider).NoMember?
  }

  /** The two inherited names get past the unsupported-provider check as
      written, and the upstream is then asked for a path made from the
      member's text; restricted to own keys, both are rejected. For every
      other name the two lookups agree. */
  lemma PrototypeNamesPassCheck(provider: string)
    ensures PassesCheckAsWritten("constructor") && ProviderEndpoint("constructor").None?
    ensures PassesCheckAsWritten("__proto__") && ProviderEndpoint("__proto__").None?
    ensures provider != "constructor" && provider != "__proto__" ==>
      (PassesCheckAsWritten(provider) <==> ProviderEndpoint(provider).Some?)
  {
    assert "constructor" !in ProviderNames();
    assert "__proto__" !in ProviderNames();
  }

  // ---------------------------------------------------------------------
  // Helpers

  /** This router's `asObject`: any object, arrays included, else `{}`. */
  function AsObjectOrArray(v: Value): (r: Value)
    ensures IsObjectType(v) ==> r == v
    ensures !IsObjectType(v) ==> r == Obj(map[])
  {
    if Truthy(v) && IsObjectType(v) then v else Obj(map[])
  }

  /** For every field the router reads from an upstream payload, an array
      answers like `{}`. (`length` and inherited members are not among
      them, and `Prop` models own data fields only.) */
  lemma ArrayReadsLikeEmpty(items: seq<Value>, name: string)
    requires name in ["status", "url", "state", "files", "provider"]
    ensures AsObjectOrArray(Arr(items)) == Arr(items)
    ensures Prop(AsObjectOrArray(Arr(items)), name) == Prop(Obj(map[]), name) == Undefined
  {
  }

  /** `String(v || "")` */
  function TextOr(v: Value): string {
    ToJsString(Or(v, Str("")))
  }

  /** A query for `buildUrl`, keyed by name. */
  function QueryValue(q: Query, name: string): Option<Value>
    decreases |q|
  {
    if q == [] then None
    else if q[|q| - 1].0 == name then Some(q[|q| - 1].1)
    else QueryValue(q[..|q| - 1], name)
  }

  // ---------------------------------------------------------------------
  // POST /:provider/connect/start

  predicate IsGemini(provider: string) {
    provider == "gemini" || provider == "gemini-cli"
  }

  /** The query the connect-start handler builds: `is_webui` only for a
      strict `true`, `project_id` only for a Gemini provider with a truthy
      project id, in that order. */
  function StartQuery(provider: string, body: Value): (q: Query)
    ensures DistinctKeys(q)
    ensures QueryValue(q, "is_webui") == (if Prop(body, "isWebUi") == Bool(true) then Some(Bool(true)) else None)
    ensures QueryValue(q, "project_id") ==
      if IsGemini(provider) && Truthy(Prop(body, "projectId")) then Some(Str(ToJsString(Prop(body, "projectId")))) else None
    ensures forall i :: 0 <= i < |q| ==> q[i].0 == "is_webui" || q[i].0 == "project_id"
  {
    (if Prop(body, "isWebUi") == Bool(true) then [("is_webui", Bool(true))] else [])
    + (if IsGemini(provider) && Truthy(Prop(body, "projectId"))
       then [("project_id", Str(ToJsString(Prop(body, "projectId"))))] else [])
  }

  /** The handler's field-by-field assignments into `query`. */
  method BuildStartQuery(provider: string, body: Value) returns (query: Query)
    ensures query == StartQuery(provider, body)
  {
    query := [];
    if Prop(body, "isWebUi") == Bool(true) {
      query := query + [("is_webui", Bool(true))];
    }
    if IsGemini(provider) && Truthy(Prop(body, "projectId")) {
      query := query + [("project_id", Str(ToJsString(Prop(body, "projectId"))))];
    }
  }

  /** The rejection of an unknown provider: 400 with the list of providers. */
  function UnsupportedProvider(): HttpError {
    NewHttpError("unsupported provider", Some(400), Obj(map["providers" := ProviderList()]))
  }

  /** The management request for connect-start, or the 400 for an unknown
      provider. The provider is lower-cased before the lookup. */
  function ConnectStartCall(providerParam: string, body: Value): (r: Result<ManagementRequest, HttpError>)
    ensures ProviderEndpoint(Lower(providerParam)).None? <==> r.Failure?
    ensures r.Failure? ==> r.error == UnsupportedProvider() && r.error.statusCode == 400
    ensures r.Success? ==> (r.value.pathname == ProviderEndpoint(Lower(providerParam)).value
      && r.value.httpMethod.None? && r.value.body == Undefined
      && r.value.query == StartQuery(Lower(providerParam), body))
  {
    var provider := Lower(providerParam);
    match ProviderEndpoint(provider)
    case None => Failure(UnsupportedProvider())
    case Some(endpoint) => Success(ManagementRequest(None, endpoint, StartQuery(provider, body), Undefined))
  }

  /** The connect-start reply: `status` defaults to "ok", `authUrl` and
      `state` are null unless the payload has them as strings, and `raw` is
      the upstream data itself. */
  function ConnectStartReply(provider: string, data: Value): (r: Value)
    ensures Prop(r, "provider") == Str(provider)
    ensures Prop(r, "status") == (if Prop(data, "status").Str? then Prop(data, "status") else Str("ok"))
    ensures Prop(r, "authUrl") == (if Prop(data, "url").Str? then Prop(data, "url") else Null)
    ensures Prop(r, "state") == (if Prop(data, "state").Str? then Prop(data, "state") else Null)
    ensures Prop(r, "raw") == data
  {
    var payload := AsObjectOrArray(data);
    Obj(map[
      "provider" := Str(provider),
      "status" := (if Prop(payload, "status").Str? then Prop(payload, "status") else Str("ok")),
      "authUrl" := (if Prop(payload, "url").Str? then Prop(payload, "url") else Null),
      "state" := (if Prop(payload, "state").Str? then Prop(payload, "state") else Null),
      "raw" := data])
  }

  /** The upstream management API, as the handlers see it: the reply to a
      request, or what the fetch threw. */
  type ManagementApi = ManagementRequest -> Fetched

  /** A handler's rejection that came from the upstream: the fetch's own
      failure passed on as thrown, or the `HttpError` with the upstream's
      status. */
  predicate UpstreamFailure(f: Fetched, error: Thrown) {
    if f.FetchFailed? then error == f.error
    else error.HttpErr? && error.e.statusCode == f.response.status
  }

  /** The whole connect-start handler. */
  function ConnectStart(providerParam: string, body: Value, api: ManagementApi, parse: JsonParser): (r: Result<Value, Thrown>)
    ensures ConnectStartCall(providerParam, body).Failure? ==> r == Failure(HttpErr(UnsupportedProvider()))
    ensures ConnectStartCall(providerParam, body).Success? ==>
      var answer := api(ConnectStartCall(providerParam, body).value);
      (r.Success? <==> answer.Answered? && IsOk(answer.response))
      && (r.Success? ==> r.value == ConnectStartReply(Lower(providerParam), DecodeResponse(answer.response, parse)))
      && (r.Failure? ==> UpstreamFailure(answer, r.error))
  {
    match ConnectStartCall(providerParam, body)
    case Failure(e) => Failure(HttpErr(e))
    case Success(call) =>
      match ManagementOutcome(api(call), parse)
      case Failure(e) => Failure(e)
      case Success(data) => Success(ConnectStartReply(Lower(providerParam), data))
  }

  // ---------------------------------------------------------------------
  // GET /connect/status

  function StatusCall(stateParam: Value): (r: Result<ManagementRequest, HttpError>)
    ensures Trim(TextOr(stateParam)) == "" <==> r.Failure?
    ensures r.Failure? ==> r.error == NewHttpError("state is required", Some(400), Undefined)
    ensures r.Success? ==> r.value == ManagementRequest(None, "/v0/management/get-auth-status", [("state", Str(Trim(TextOr(stateParam))))], Undefined)
  {
    var state := Trim(TextOr(stateParam));
    if state == "" then Failure(NewHttpError("state is required", Some(400), Undefined))
    else Success(ManagementRequest(None, "/v0/management/get-auth-status", [("state", Str(state))], Undefined))
  }

  /** `data || fallback`, the shape of the status and delete replies: the
      upstream's data when it is truthy, the fixed fallback otherwise. */
  function DataOr(data: Value, fallback: Value): (r: Value)
    requires Truthy(fallback)
    ensures Truthy(r)
    ensures Truthy(data) ==> r == data
    ensures !Truthy(data) ==> r == fallback
  {
    Or(data, fallback)
  }

  /** The fallback of `GET /connect/status`. */
  const StatusWait := Obj(map["status" := Str("wait")])

  function ConnectStatus(stateParam: Value, api: ManagementApi, parse: JsonParser): (r: Result<Value, Thrown>)
    ensures StatusCall(stateParam).Failure? ==> r == Failure(HttpErr(StatusCall(stateParam).error))
    ensures StatusCall(stateParam).Success? ==>
      var answer := api(StatusCall(stateParam).value);
      (r.Success? <==> answer.Answered? && IsOk(answer.response))
      && (r.Success? ==> Truthy(r.value) && (Truthy(DecodeResponse(answer.response, parse)) ==> r.value == DecodeResponse(answer.response, parse)))
      && (r.Success? && !Truthy(DecodeResponse(answer.response, parse)) ==> r.value == StatusWait)
      && (r.Failure? ==> UpstreamFailure(answer, r.error))
  {
    match StatusCall(stateParam)
    case Failure(e) => Failure(HttpErr(e))
    case Success(call) =>
      match ManagementOutcome(api(call), parse)
      case Failure(e) => Failure(e)
      case Success(data) => Success(DataOr(data, StatusWait))
  }

  // ---------------------------------------------------------------------
  // GET /accounts

  /** The request for the account files. */
  const AccountsCall := ManagementRequest(None, "/v0/management/auth-files", [], Undefined)

  /** `String(item.provider || "").toLowerCase() === provider` */
  predicate FileMatches(file: Value, provider: string) {
    Lower(TextOr(Prop(AsObjectOrArray(file), "provider"))) == provider
  }

  /** `sourceFiles.filter(...)`: exactly the matching files, each as often
      as it occurs and in the order the upstream listed them. */
  function FilterByProvider(files: seq<Value>, provider: string): (r: seq<Value>)
    ensures |r| <= |files|
    ensures forall i :: 0 <= i < |r| ==> r[i] in files && FileMatches(r[i], provider)
    ensures forall i :: 0 <= i < |files| && FileMatches(files[i], provider) ==> files[i] in r
    ensures forall x :: multiset(r)[x] == (if FileMatches(x, provider) then multiset(files)[x] else 0)
  {
    var r := Filter(files, f => FileMatches(f, provider));
    FilterCounts(files, f => FileMatches(f, provider));
    assert forall i :: 0 <= i < |files| && FileMatches(files[i], provider) ==> multiset(files)[files[i]] > 0;
    r
  }

  /** The filter keeps the upstream's order. */
  lemma FilterKeepsOrder(front: seq<Value>, back: seq<Value>, provider: string)
    ensures FilterByProvider(front + back, provider) == FilterByProvider(front, provider) + FilterByProvider(back, provider)
  {
    FilterConcat(front, back, f => FileMatches(f, provider));
  }

  /** `Array.isArray(payload.files) ? payload.files : []` */
  function SourceFiles(data: Value): seq<Value> {
    var files := Prop(AsObjectOrArray(data), "files");
    if files.Arr? then files.items else []
  }

  /** The `/accounts` reply: the files, filtered when a provider is given,
      and their count. */
  function AccountsReply(providerParam: Value, data: Value): (r: Value)
    ensures Prop(r, "files").Arr?
    ensures Prop(r, "count") == Num(|Prop(r, "files").items|)
    ensures Lower(TextOr(providerParam)) == "" ==> Prop(r, "files") == Arr(SourceFiles(data))
    ensures Lower(TextOr(providerParam)) != "" ==>
      Prop(r, "files") == Arr(FilterByProvider(SourceFiles(data), Lower(TextOr(providerParam))))
  {
    var provider := Lower(TextOr(providerParam));
    var sourceFiles := SourceFiles(data);
    var files := if provider != "" then FilterByProvider(sourceFiles, provider) else sourceFiles;
    Obj(map["count" := Num(|files|), "files" := Arr(files)])
  }

  /** A reply without a `files` array lists nothing. */
  lemma NoFilesArrayListsNothing(providerParam: Value, data: Value)
    requires !Prop(AsObjectOrArray(data), "files").Arr?
    ensures AccountsReply(providerParam, data) == Obj(map["count" := Num(0), "files" := Arr([])])
  {
  }

  function Accounts(providerParam: Value, api: ManagementApi, parse: JsonParser): (r: Result<Value, Thrown>)
    ensures r.Success? <==> api(AccountsCall).Answered? && IsOk(api(AccountsCall).response)
    ensures r.Success? ==> r.value == AccountsReply(providerParam, DecodeResponse(api(AccountsCall).response, parse))
    ensures r.Failure? ==> UpstreamFailure(api(AccountsCall), r.error)
  {
    match ManagementOutcome(api(AccountsCall), parse)
    case Failure(e) => Failure(e)
    case Success(data) => Success(AccountsReply(providerParam, data))
  }

  // ---------------------------------------------------------------------
  // DELETE /accounts/:name

  function DeleteCall(nameParam: string): (r: Result<ManagementRequest, HttpError>)
    ensures Trim(nameParam) == "" <==> r.Failure?
    ensures r.Failure? ==> r.error == NewHttpError("account name is required", Some(400), Undefined)
    ensures r.Success? ==> r.value == ManagementRequest(Some("DELETE"), "/v0/management/auth-files", [("name", Str(Trim(nameParam)))], Undefined)
  {
    var name := Trim(TextOr(Str(nameParam)));
    if name == "" then Failure(NewHttpError("account name is required", Some(400), Undefined))
    else Success(ManagementRequest(Some("DELETE"), "/v0/management/auth-files", [("name", Str(name))], Undefined))
  }

  /** The fallback of `DELETE /accounts/:name`. */
  const DeleteOk := Obj(map["status" := Str("ok")])

  function DeleteAccount(nameParam: string, api: ManagementApi, parse: JsonParser): (r: Result<Value, Thrown>)
    ensures DeleteCall(nameParam).Failure? ==> r == Failure(HttpErr(DeleteCall(nameParam).error))
    ensures DeleteCall(nameParam).Success? ==>
      var answer := api(DeleteCall(nameParam).value);
      (r.Success? <==> answer.Answered? && IsOk(answer.response))
      && (r.Success? ==> Truthy(r.value) && (Truthy(DecodeResponse(answer.response, parse)) ==> r.value == DecodeResponse(answer.response, parse)))
      && (r.Success? && !Truthy(DecodeResponse(answer.response, parse)) ==> r.value == DeleteOk)
      && (r.Failure? ==> UpstreamFailure(answer, r.error))
  {
    match DeleteCall(nameParam)
    case Failure(e) => Failure(HttpErr(e))
    case Success(call) =>
      match ManagementOutcome(api(call), parse)
      case Failure(e) => Failure(e)
      case Success(data) => Success(DataOr(data, DeleteOk))
  }

  // ---------------------------------------------------------------------
  // POST /iflow/connect/cookie

  function CookieCall(body: Value): (r: Result<ManagementRequest, HttpError>)
    ensures Trim(TextOr(Prop(body, "cookie"))) == "" <==> r.Failure?
    ensures r.Failure? ==> r.error == NewHttpError("cookie is required", Some(400), Undefined)
    ensures r.Success? ==> r.value == ManagementRequest(Some("POST"), "/v0/management/iflow-auth-url", [],
      Obj(map["cookie" := Str(Trim(TextOr(Prop(body, "cookie"))))]))
  {
    var cookie := Trim(TextOr(Prop(body, "cookie")));
    if cookie == "" then Failure(NewHttpError("cookie is required", Some(400), Undefined))
    else Success(ManagementRequest(Some("POST"), "/v0/management/iflow-auth-url", [], Obj(map["cookie" := Str(cookie)])))
  }

  function IflowCookie(body: Value, api: ManagementApi, parse: JsonParser): (r: Result<Value, Thrown>)
    ensures CookieCall(body).Failure? ==> r == Failure(HttpErr(CookieCall(body).error))
    ensures CookieCall(body).Success? ==>
      var answer := api(CookieCall(body).value);
      (r.Success? <==> answer.Answered? && IsOk(answer.response))
      && (r.Success? ==> r.value == DecodeResponse(answer.response, parse))
      && (r.Failure? ==> UpstreamFailure(answer, r.error))
  {
    match CookieCall(body)
    case Failure(e) => Failure(HttpErr(e))
    case Success(call) => ManagementOutcome(api(call), parse)
  }

  // ---------------------------------------------------------------------
  // Properties across the handlers

  /** Invalid input is rejected with 400 before any upstream call: the
      outcome is the same whatever the management API would answer. */
  lemma UnknownProviderPrecedesUpstream(providerParam: string, body: Value, a1: ManagementApi, a2: ManagementApi, parse: JsonParser)
    requires ProviderEndpoint(Lower(providerParam)).None?
    ensures ConnectStart(providerParam, body, a1, parse) == ConnectStart(providerParam, body, a2, parse) == Failure(HttpErr(UnsupportedProvider()))
  {
  }

  lemma MissingStatePrecedesUpstream(stateParam: Value, a1: ManagementApi, a2: ManagementApi, parse: JsonParser)
    requires Trim(TextOr(stateParam)) == ""
    ensures ConnectStatus(stateParam, a1, parse) == ConnectStatus(stateParam, a2, parse)
    ensures ConnectStatus(stateParam, a1, parse).Failure? && ConnectStatus(stateParam, a1, parse).error.HttpErr? && ConnectStatus(stateParam, a1, parse).error.e.statusCode == 400
  {
  }

  lemma MissingNamePrecedesUpstream(nameParam: string, a1: ManagementApi, a2: ManagementApi, parse: JsonParser)
    requires Trim(nameParam) == ""
    ensures DeleteAccount(nameParam, a1, parse) == DeleteAccount(nameParam, a2, parse)
    ensures DeleteAccount(nameParam, a1, parse).Failure? && DeleteAccount(nameParam, a1, parse).error.HttpErr? && DeleteAccount(nameParam, a1, parse).error.e.statusCode == 400
  {
  }

  lemma MissingCookiePrecedesUpstream(body: Value, a1: ManagementApi, a2: ManagementApi, parse: JsonParser)
    requires Trim(TextOr(Prop(body, "cookie"))) == ""
    ensures IflowCookie(body, a1, parse) == IflowCookie(body, a2, parse)
    ensures IflowCookie(body, a1, parse).Failure? && IflowCookie(body, a1, parse).error.HttpErr? && IflowCookie(body, a1, parse).error.e.statusCode == 400
  {
  }

  /** The 400 for an unknown provider lists the same names as `/providers`. */
  lemma UnsupportedListsProviders()
    ensures Prop(UnsupportedProvider().details, "providers") == Prop(ProvidersReply(), "providers") == ProviderList()
    ensures UnsupportedProvider().message == "unsupported provider"
  {
  }

  /** The `/providers` list is exactly the set of names connect-start
      accepts. */
  lemma ListedIffAccepted(provider: string)
    ensures Str(provider) in Prop(ProvidersReply(), "providers").items <==> ProviderEndpoint(provider).Some?
  {
    var items := Prop(ProvidersReply(), "providers").items;
    if Str(provider) in items {
      var i :| 0 <= i < |items| && items[i] == Str(provider);
      assert ProviderNames()[i] == provider;
    }
    if ProviderEndpoint(provider).Some? {
      var i :| 0 <= i < |ProviderNames()| && ProviderNames()[i] == provider;
      assert items[i] == Str(provider);
    }
  }

  /** Provider names are matched without regard to letter case: a name and
      its lower-case spelling give the same request or the same rejection. */
  lemma ProviderCaseInsensitive(providerParam: string, body: Value)
    ensures ConnectStartCall(providerParam, body) == ConnectStartCall(Lower(providerParam), body)
  {
    LowerIdempotent(providerParam);
  }

  /** A strict `isWebUi: true` reaches the URL as `is_webui=true`. */
  lemma WebUiFlagOnUrl(cfg: Config.AppConfig, pathname: string, provider: string, body: Value, resolve: UrlResolver)
    requires Prop(body, "isWebUi") == Bool(true)
    ensures ParamValue(RequestUrl(cfg, pathname, StartQuery(provider, body), resolve).params, "is_webui") == Some("true")
  {
    var q := StartQuery(provider, body);
    assert q[0] == ("is_webui", Bool(true));
    QueryEntryOutcome(resolve(pathname, cfg.cliProxyBaseUrl + "/"), q, 0);
  }

  /** Only Gemini providers forward a project id: for any other provider,
      whatever the body, `project_id` stays as the resolved URL has it. */
  lemma StartQueryOnUrl(cfg: Config.AppConfig, pathname: string, provider: string, body: Value, resolve: UrlResolver)
    ensures !IsGemini(provider) ==>
      ParamValue(RequestUrl(cfg, pathname, StartQuery(provider, body), resolve).params, "project_id")
      == ParamValue(resolve(pathname, cfg.cliProxyBaseUrl + "/").params, "project_id")
  {
    if !IsGemini(provider) {
      ApplyQueryKeepsOthers(resolve(pathname, cfg.cliProxyBaseUrl + "/"), StartQuery(provider, body), "project_id");
    }
  }

}
