# DekadansAI gateway — a Dafny model

DekadansAI is an Express gateway in front of a CLIProxyAPI backend.
- Clients authenticate with an API key: the `x-api-key` header or an `Authorization: Bearer` token, checked by a session lookup.
- `/ai/*` inference calls (`/models`, `/chat/completions`, `/responses`) are forwarded upstream with the gateway's own API key. Their replies are relayed either as a stream or as buffered JSON.
- Management calls go upstream with the management key. They back the OAuth-style provider connection flow (`/integrations/...`) and an account view of per-key rate-limit usage (`/account/rate-limit`).
- Every failure passed to Express's `next` ends in one terminal error handler, unless Express reads the passed value as no error. Express reads a falsy value or the string "route" as no error, and then it goes on routing. So a session lookup that rejects with such a value lets the request through unauthenticated (`App.RejectionReadAsNoErrorProceeds`).

The model covers the request shaping and decision logic of those pieces, one Dafny module per source file:

| module | source |
|---|---|
| `Js` | the JavaScript semantics the code relies on, shared by every module: truthiness, `\|\|`, `String()`, `Number()`, `parseInt`, `trim`, ASCII `toLowerCase`, `includes`, `split`/`join`, own-property reads |
| `Errors` | `src/lib/errors.ts`, and the shapes a thrown value can take |
| `Config` | `src/config.ts` |
| `Http` | the inbound request and session-lookup result, as the handlers read them |
| `CliProxyClient` | `src/services/cliproxy-client.ts` |
| `AiRoutes` | `src/routes/ai.ts` |
| `Auth` | `src/middleware/auth.ts` |
| `RateLimit` | `src/middleware/rate-limit.ts` |
| `App` | `src/app.ts`: CORS origin parsing, the error handler, and the request pipeline |
| `Account` | `src/routes/account.ts` |
| `Integrations` | `src/routes/integrations.ts` |

How the source's forms are kept:
- Pure code becomes functions with postconditions and lemmas.
- `buildUrl`'s loop over query entries, the account handler's `for` loop and its `reduce`, the connect-start query assignments, and `assertRequiredConfig`'s pushes are methods with loops or assignments. Each method is proved equal to a specification function, and the properties are proved about that function.
- The Express response that `pipeUpstreamResponse` mutates is the class `OutboundResponse`. Its methods have `modifies` clauses.

Host functions the code calls but does not define are parameters of the model, left uninterpreted:
- `JSON.parse` and `JSON.stringify`
- `new URL(path, base)`
- `Date.parse`, the ISO text of a timestamp, and `Date.now()`
- the sort with `localeCompare`
- better-auth's session lookup and key listing
- `fetch`
- the `express-rate-limit` counter's verdict

Configuration that the code reads but `AppConfig` (src/config.ts:12-20) does not define:
- `rate-limit.ts` reads `config.rateLimitWindowMs`, `config.rateLimitAiMax` and `config.rateLimitCodex53Max`.
- `account.ts` reads `config.apiKeyRateLimitWindowMs` and `config.apiKeyRateLimitMax`.
- None of these fields exists in the `AppConfig` of `config.ts`. The model therefore takes these values as parameters (`windowMs`, `max`, `KeyDefaults`) instead of inventing defaults.

## Model

| member | source | states |
|---|---|---|
| Errors.NewHttpError | src/lib/errors.ts:1-11 | name is always "HttpError"; message kept; statusCode is the given one or 500; details is the given one or null when omitted |
| Config.ToInt | src/config.ts:7-10 | the integer `parseInt` reads, or the fallback when it reads none, including for an absent value |
| Config.StripTrailingSlash | src/config.ts:26 | at most one trailing `/` is removed, and one is removed exactly when the text ends with `/` |
| Config.LoadConfig | src/config.ts:22-30 | PORT and REQUEST_TIMEOUT_MS are `parseInt` of the setting, or 3000 and 120000 when absent or unreadable; an absent or empty CORS_ORIGIN gives "*" and any other is kept; each key is its setting or ""; the base URL is the setting or the default, less one trailing slash |
| Config.EmptyEnvDefaults | src/config.ts:22-30 | an empty environment gives port 3000, origin "*", base `http://127.0.0.1:8317`, timeout 120000 and empty keys |
| Config.DecimalSettingsReadBack | src/config.ts:7-10 | a PORT or timeout written in decimal is read back exactly |
| Config.BaseUrlLosesOneSlash | src/config.ts:26 | a base URL given with a trailing slash loses exactly that one slash |
| Config.AssertRequiredConfig | src/config.ts:32-41 | fails exactly when a key is empty; the message lists the management key before the API key |
| Js.ParseIntDecimal | src/config.ts:8 | `parseInt` reads back the decimal text of every integer |
| Js.TrimSpec | src/middleware/auth.ts:19 | `trim` removes exactly the leading and trailing ECMAScript whitespace |
| Js.TrimIdempotent | src/middleware/auth.ts:19 | trimming twice is trimming once |
| Js.TrimEmptyIffAllSpace | src/routes/integrations.ts:68-71 | a text trims to "" exactly when every character is whitespace |
| Js.ContainsAt | src/middleware/auth.ts:52 | `includes` holds exactly when the pattern occurs at some offset |
| Js.SplitJoin | src/app.ts:15 | joining the pieces of a `split` with the separator gives the text back |
| Js.JoinSplit | src/app.ts:15 | splitting a join of separator-free pieces gives the pieces back |
| Js.NumberDecimal | src/middleware/auth.ts:47 | `Number` reads back the decimal text of every integer |
| Js.LowerIdempotent | src/routes/integrations.ts:37 | lower-casing twice is lower-casing once |
| CliProxyClient.RemoveNameKeepsOthers | src/services/cliproxy-client.ts:29 | removing one search-parameter name leaves every other name's value alone |
| CliProxyClient.SetParamGet | src/services/cliproxy-client.ts:29 | after `searchParams.set(k, v)`, `get(k)` is v and every other name is unchanged |
| CliProxyClient.BuildUrl | src/services/cliproxy-client.ts:24-33 | the loop's URL equals the left fold of the query over the resolved URL; href kept; an empty query leaves the URL as resolved |
| CliProxyClient.ApplyQueryKeepsOthers | src/services/cliproxy-client.ts:27-30 | a name absent from the query keeps the value it had in the resolved URL |
| CliProxyClient.QueryEntryOutcome | src/services/cliproxy-client.ts:27-30 | with distinct keys, an entry that is undefined, null or "" leaves the parameter as resolved; any other entry, `false` and 0 included, ends as `String(value)` |
| CliProxyClient.HrefKept | src/services/cliproxy-client.ts:24-33 | setting search parameters never changes the resolved path |
| CliProxyClient.DecodeResponse | src/services/cliproxy-client.ts:35-52 | empty body gives null; JSON content type gives the parsed value or `{raw}` on a parse failure; any other type gives `{raw}` |
| CliProxyClient.DecodeIgnoresParserUnlessJson | src/services/cliproxy-client.ts:39-51 | the parser is consulted only for a non-empty body with a JSON content type |
| CliProxyClient.ManagementCall | src/services/cliproxy-client.ts:54-69 | default method GET; Bearer management key; Content-Type and serialized body only for a truthy body; configured timeout |
| CliProxyClient.InferenceCall | src/services/cliproxy-client.ts:80-96 | default method POST; Bearer API key; the URL carries no query; Content-Type and body only for a truthy body |
| CliProxyClient.ManagementResult | src/services/cliproxy-client.ts:71-77 | the decoded body on a 2xx status; otherwise HttpError "CLIProxyAPI management request failed" with the upstream status and the decoded body as details |
| CliProxyClient.ManagementOutcome | src/services/cliproxy-client.ts:54-78 | a fetch that throws (network error, timeout abort) rejects with that same value; a reply resolves to its decoded body exactly when 2xx, otherwise rejects with the management HttpError carrying the upstream status |
| CliProxyClient.ForwardedHeadersSpec | src/services/cliproxy-client.ts:102-107 | only content-type and cache-control are relayed, each only when present and non-empty |
| CliProxyClient.WithHeadersAppend | src/services/cliproxy-client.ts:106-107 | setting two header lists in turn is setting their concatenation |
| CliProxyClient.OutboundResponse.Status | src/services/cliproxy-client.ts:105 | sets the status and nothing else |
| CliProxyClient.OutboundResponse.SetHeader | src/services/cliproxy-client.ts:106-107 | sets one header and nothing else |
| CliProxyClient.OutboundResponse.End | src/services/cliproxy-client.ts:110 | marks the response ended and nothing else |
| CliProxyClient.OutboundResponse.Pipe | src/services/cliproxy-client.ts:114 | marks the response piped from the given source and nothing else |
| CliProxyClient.PipeUpstreamResponse | src/services/cliproxy-client.ts:98-115 | the response gets the upstream status and the relayed headers; it is ended without piping when there is no body, else piped |
| AiRoutes.RouteOf | src/routes/ai.ts:31-52 | a matched route has exactly the request's method and path |
| AiRoutes.RouteOfComplete | src/routes/ai.ts:31-52 | every route is reached by its own method and path, and nothing else matches |
| AiRoutes.ForwardRequest | src/routes/ai.ts:12-17 | `/models` forwards GET `/v1/models` without a body; the others forward the inbound method and body to their `/v1` path |
| AiRoutes.ForwardCallShape | src/routes/ai.ts:12-17 | the upstream URL is the route's path on the base URL, authorised with the API key |
| AiRoutes.BufferedReply | src/routes/ai.ts:27-28 | mirrors the upstream status; the body is the decoded payload when truthy, else `{}`, so it is always truthy |
| AiRoutes.ProxyJsonReply | src/routes/ai.ts:12-29 | streams exactly when `body.stream === true` or the content type has `text/event-stream` (the predicate `IsStreaming`); a streamed reply is the relay, a buffered one the decoded reply |
| AiRoutes.RouteReply | src/routes/ai.ts:31-52 | `/models` takes the buffered path; the other two stream exactly when `IsStreaming` holds; a buffered reply mirrors the upstream status with a truthy body |
| AiRoutes.ModelsNeverStreams | src/routes/ai.ts:31-38 | `/models` is buffered and mirrors the upstream status whatever the content type |
| AiRoutes.StreamingIgnoresBody | src/routes/ai.ts:22-25 | on the streaming path the body is never decoded: the reply is the same for any parser |
| AiRoutes.StreamFlagIsStrict | src/routes/ai.ts:19-20 | a `stream` value other than `true` (such as "true" or 1) without an event-stream type is buffered |
| AiRoutes.EmptyBodyGivesEmptyObject | src/routes/ai.ts:27-28 | an empty upstream body is sent as `{}` with the upstream status |
| Auth.ApiKeyFromHeader | src/middleware/auth.ts:6-16 | "" for a missing, empty or non-bearer header; otherwise the trimmed text after the first 7 characters |
| Auth.BearerRoundTrip | src/middleware/auth.ts:6-16 | a header made of any casing of "bearer " and a token gives the trimmed token back |
| Auth.SelectApiKey | src/middleware/auth.ts:19-21 | a non-empty trimmed `x-api-key` wins over the bearer token |
| Auth.SelectedKeyIsTrimmed | src/middleware/auth.ts:19-21 | the selected key has no surrounding whitespace |
| Auth.DerivedStatus | src/middleware/auth.ts:47 | `Number` of the first truthy of `status` and `statusCode`, else 500; an HttpError's own status code, 0 counting as absent |
| Auth.DerivedCode | src/middleware/auth.ts:48 | the error's truthy `code`, else the body's truthy `code`, else "" |
| Auth.DerivedMessage | src/middleware/auth.ts:49-50 | a non-empty message of an `Error`, else the body's truthy `message`, else "" |
| Auth.ClassifyError | src/middleware/auth.ts:39-61 | 429 when status is 429, code is RATE_LIMITED or the message mentions "rate limit" in any case, checked first; then 401 for status 401; else the error passes on; null or undefined thrown gives no reply |
| Auth.Authenticate | src/middleware/auth.ts:18-63 | 401 missing_api_key without a key; otherwise the lookup, given the selected key, decides: no user gives 401 invalid_api_key, a user continues, a thrown error is classified |
| Auth.MissingKeySkipsLookup | src/middleware/auth.ts:23-25 | without a key the outcome is the same for any session lookup |
| Auth.ContinueOnlyWithUser | src/middleware/auth.ts:32-38 | the request continues exactly when a key is present and the session has a truthy user; every reply is 401 or 429 |
| Auth.RateLimitPrecedesUnauthorized | src/middleware/auth.ts:52-58 | a "Rate Limit" message with statusCode 401 gives 429, not 401 |
| Auth.UnauthorizedWithoutRateLimit | src/middleware/auth.ts:56-58 | statusCode 401 without a rate-limit signal gives 401 invalid_api_key |
| Auth.StatusAloneSignalsRateLimit | src/middleware/auth.ts:47-54 | status 429 alone gives 429 |
| Auth.StringStatusHidesStatusCode | src/middleware/auth.ts:47 | a word-valued `status` hides any `statusCode`: `Number` of it is NaN, so the error is passed on |
| RateLimit.ReadBearerToken | src/middleware/rate-limit.ts:6-13 | "" unless the header starts with "bearer " in any case; otherwise the trimmed text after 7 characters |
| RateLimit.BearerTokenAgreesWithAuth | src/middleware/rate-limit.ts:6-13 | the limiter reads the same bearer token as the auth middleware |
| RateLimit.ClientIdentityOf | src/middleware/rate-limit.ts:15-24 | the trimmed `x-api-key` if non-empty, else the bearer token if non-empty, else the IP or "unknown" |
| RateLimit.BuildClientKey | src/middleware/rate-limit.ts:15-24 | `key:` and the trimmed x-api-key when non-empty; else `bearer:` and the token when non-empty; else `ip:` and the IP or "unknown" |
| RateLimit.KeyTextInjective | src/middleware/rate-limit.ts:17-23 | the prefixes `key:`, `bearer:` and `ip:` keep keys from different sources apart: equal key texts come from equal identities |
| RateLimit.BucketFollowsAuthenticatedKey | src/middleware/rate-limit.ts:16-17 | a request with a selected API key is counted under `key:` and that key, never under its IP |
| RateLimit.SameBucket | src/middleware/rate-limit.ts:15-24 | equal API keys share a bucket, and equal bucket keys mean equal client identities |
| RateLimit.CreateRateLimiter | src/middleware/rate-limit.ts:26-48 | a pass-through exactly when max <= 0; otherwise it keeps max, bucket and window |
| RateLimit.Decide | src/middleware/rate-limit.ts:26-48 | pass-through admits; a limited client is rejected with 429 `{error, bucket, max, windowMs}` when over its limit |
| RateLimit.DisabledNeverRejects | src/middleware/rate-limit.ts:27-31 | max <= 0 never rejects; a rejection is always 429 |
| RateLimit.LimitersRejectDistinctly | src/middleware/rate-limit.ts:50-51 | a rejection by either limiter names its own bucket ("ai-default" or "ai-codex-5.3") and its own maximum, so the two rejections of one request always differ |
| App.CorsOriginOf | src/app.ts:15 | "*" means any origin, and only "*" does; anything else is the list of its comma-separated pieces, each trimmed, one entry per piece |
| App.CorsListRoundTrip | src/app.ts:15 | a comma-joined list of trimmed origins is parsed back to exactly that list |
| App.TerminalReply | src/app.ts:31-48 | status is the HttpError's own or 500; `error` is the message or "internal server error"; an HttpError carries details only when truthy; anything else carries `{message}` or "Unexpected error" |
| App.ErrorHandler | src/app.ts:31-48 | the handler's step-by-step response building gives the terminal reply |
| App.NotFoundReply | src/app.ts:27-29 | an unmatched request ends as 404 `{error: "not found"}` with no details |
| App.ManagementFailureReachesClient | src/services/cliproxy-client.ts:73-75 | a failed management call reaches the client with the upstream status and, when truthy, the decoded body as details |
| App.AiSubpath | src/app.ts:25 | the router mounted at `/ai` sees the rest of the path, starting with `/` |
| App.NoForwardWithoutAuthentication | src/app.ts:24-25 | unless the middleware lets the request through (`next()`, or `next` of a value Express reads as no error), the outcome does not depend on the upstream and nothing is relayed |
| App.NextOf | src/middleware/auth.ts:60 | an `Error` goes to the error handler as it is; a falsy value or "route" goes on to the next layer; "router" leaves the router; any other value is an error |
| App.RouteFailure | src/lib/async-handler.ts:9-13 | a route handler's rejection is answered by the error handler when Express reads it as an error, else by the not-found fallthrough |
| App.AfterAuthentication | src/app.ts:25-29 | off the three routes, 404; a failed upstream call goes through `RouteFailure`; an answered one is relayed or sent buffered as `RouteReply` decides |
| App.HandleRequest | src/app.ts:12-50 | a preflight gets 204; a body the JSON parser rejects gets 500 with its message; the health check gets 200 `{status: "ok"}`; a request the middleware lets through continues as `AfterAuthentication`; otherwise the middleware's reply is sent, a passed-on error goes to the error handler, and "router" ends in Express's final 404 |
| App.RejectionReadAsNoErrorProceeds | src/middleware/auth.ts:39-60 | a session lookup rejecting with 0, "", false, NaN or "route" is passed to `next`, and the request continues exactly as an authenticated one |
| App.ShortCircuitsPrecedeAuthentication | src/app.ts:13-18 | a preflight or a rejected body is answered the same whatever the session store and the upstream do, and a rejected body ends as 500 through the error handler |
| App.MissingKeyRefused | src/middleware/auth.ts:23-25 | a request without a key that reaches the middleware (not a preflight, a rejected body or the health check) gets 401 missing_api_key |
| App.UnroutedIsNotFound | src/app.ts:27-29 | a request the middleware lets through that no route matches gets 404 |
| App.FetchFailureOutcome | src/lib/async-handler.ts:9-13 | a failed upstream call that Express reads as an error reaches the error handler, so an `Error` that is not an `HttpError` gives 500 with its message; any other rejection gives the not-found 404 |
| App.UpstreamStatusMirrored | src/routes/ai.ts:12-38 | a forwarded reply mirrors the upstream status; it is relayed exactly on the streaming path |
| App.MountedPaths | src/app.ts:25 | `/ai/chat/completions`, `/ai/responses` and `/ai/models` reach their routes |
| Account.AsObject | src/routes/account.ts:25-31 | the value itself for a non-array object, else `{}` |
| Account.AsObjectKeepsFields | src/routes/account.ts:25-31 | reading a field through `asObject` gives what an optional read of the value gives |
| Account.ToBoolean | src/routes/account.ts:33-43 | booleans as they are; a number is true unless 0; a string by its trimmed lower-case word; else the fallback |
| Account.ToBooleanIgnoresSurroundingSpace | src/routes/account.ts:36-38 | a string reads as the same boolean with or without surrounding whitespace |
| Account.ToBooleanIgnoresCase | src/routes/account.ts:36-38 | a string reads as the same boolean as its lower-case spelling |
| Account.ToNumber | src/routes/account.ts:45-58 | a finite number as it is, a string by `parseInt`, else the fallback |
| Account.ToNumberDecimal | src/routes/account.ts:45-58 | a number, or its decimal text, reads back as itself |
| Account.ToTimestamp | src/routes/account.ts:60-83 | a Date's time; a number; null for a blank string or other types; an integer-prefixed string by its integer; else `Date.parse` |
| Account.ToTimestampDecimal | src/routes/account.ts:60-83 | a decimal string is read as its integer, never given to `Date.parse` |
| Account.ToIso | src/routes/account.ts:85-88 | null for null; the ISO text inside the Date range; a RangeError outside it |
| Account.UsageOf | src/routes/account.ts:109-123 | enabled and rateLimitEnabled read by `toBoolean` with true as default; the window (at least 1) and max (at least 0) are the key's fields or the configured defaults; requestCount at least 0; lastRequest by `toTimestamp`; used is the count only if enabled, limited and within the window; remaining is in [0, max]; reset at last request or now, plus the window |
| Account.ResetAtText | src/routes/account.ts:123 | the ISO text of the reset time, or a thrown RangeError outside the Date range |
| Account.NormalizeKey | src/routes/account.ts:105-136 | skipped exactly when the id is empty; fails exactly when a non-skipped key's reset time or last request lies outside the Date range; an emitted key has the id, name, start, the usage numbers and both ISO texts, and is well formed |
| Account.NormalizeAll | src/routes/account.ts:104-137 | at most one key per record, every key well formed; the only failure is the RangeError |
| Account.FailureSticks | src/routes/account.ts:104-137 | once a record throws, the loop's outcome is that failure |
| Account.NormalizeKeys | src/routes/account.ts:104-137 | the `for` loop computes the specification of the normalisation |
| Account.NormalizeAllKeepsIds | src/routes/account.ts:106-107 | the emitted ids are the records' non-empty ids, in order: exactly the records with an empty id are dropped |
| Account.EnabledKeys | src/routes/account.ts:171 | the filter keeps only enabled keys |
| Account.ComputeOverview | src/routes/account.ts:145-171 | the two loops (reduce, then filter-and-count) compute `OverviewOf`, the fold of `Step` over the keys; the next rows state what that overview is |
| Account.OverviewSumsEnabledKeys | src/routes/account.ts:145-171 | activeKeys counts the enabled keys; each total sums its field over the enabled keys only |
| Account.TotalsBounds | src/routes/account.ts:145-171 | the totals are non-negative, activeKeys is at most the key count, and remaining is at most max |
| Account.NextResetIsEarliest | src/routes/account.ts:153-158 | nextResetAt is null exactly when no enabled key has a parseable reset; otherwise it is such a key's reset and the earliest one |
| Account.SumTotalsPermutation | src/routes/account.ts:139-169 | the totals do not depend on the order of the keys |
| Account.OverviewOrderIndependent | src/routes/account.ts:139-171 | any reordering, and so the sort, gives the same counts, totals and earliest reset time |
| Account.RateLimitOverview | src/routes/account.ts:90-183 | a thrown lookup or listing is passed on; no user gives 401 unauthorized; a signed-in user whose listing succeeds, whose keys normalise and whose clock is within the Date range gets the view, and only then; the view lists the sorted normalised keys, their overview, the defaults, and generatedAt as the ISO text of now; any other failure is the RangeError of an out-of-range time |
| Account.RateLimitOverviewSpec | src/routes/account.ts:90-183 | without a user the reply is 401 unauthorized; when the sort only reorders, a view reports the totals of the enabled keys, within bounds, and every listed key is well formed |
| Account.OverviewListsKeysByName | src/routes/account.ts:139-143 | with a sort by name or start under `localeCompare`, the view lists every normalised key as often as it was normalised, in that order |
| Integrations.Lookup | src/routes/integrations.ts:38 | an endpoint is found exactly for a table key, and it is that key's endpoint |
| Integrations.ProviderEndpoint | src/routes/integrations.ts:38-44 | a provider has an endpoint exactly when it is one of the listed names, and it is the table's endpoint for it (own keys only) |
| Integrations.ProvidersReply | src/routes/integrations.ts:30-32 | the reply's `providers` are the table's names, one per entry, in table order |
| Integrations.ListedIffAccepted | src/routes/integrations.ts:30-44 | a name is listed by `/providers` exactly when connect-start accepts it |
| Integrations.ProviderNamesListed | src/routes/integrations.ts:30-32 | `/providers` lists the eight table keys in order |
| Integrations.ProviderNamesDistinct | src/routes/integrations.ts:9-18 | no provider name appears twice |
| Integrations.SharedEndpoints | src/routes/integrations.ts:9-18 | claude/anthropic and gemini/gemini-cli share endpoints; an unknown name has none |
| Integrations.PrototypeNamesPassCheck | src/routes/integrations.ts:38-44 | as written, "constructor" and "__proto__" pass the unsupported-provider check; on all other names the as-written and own-key lookups agree |
| Integrations.AsObjectOrArray | src/routes/integrations.ts:22-28 | any object, arrays included, as it is; else `{}` |
| Integrations.ArrayReadsLikeEmpty | src/routes/integrations.ts:22-28 | an array is kept, and each field the router reads from a payload (status, url, state, files, provider) is undefined on it, as on `{}` |
| Integrations.StartQuery | src/routes/integrations.ts:46-50 | `is_webui` only for a strict `true`; `project_id` only for gemini/gemini-cli with a truthy id, as its string; no other entries |
| Integrations.BuildStartQuery | src/routes/integrations.ts:46-50 | the field-by-field assignments build the start query |
| Integrations.WebUiFlagOnUrl | src/routes/integrations.ts:46-52 | for any endpoint pathname, a strict `isWebUi: true` reaches the URL as `is_webui=true` |
| Integrations.StartQueryOnUrl | src/routes/integrations.ts:46-52 | for any endpoint pathname, a non-Gemini provider and any body, `project_id` stays as the resolved URL has it |
| Integrations.ConnectStartCall | src/routes/integrations.ts:37-52 | rejected with 400 exactly when the lower-cased provider has no endpoint; otherwise a GET to that endpoint with the start query |
| Integrations.ProviderCaseInsensitive | src/routes/integrations.ts:37 | a provider name and its lower-case spelling give the same outcome |
| Integrations.UnsupportedListsProviders | src/routes/integrations.ts:41-43 | the 400 for an unknown provider lists the same names as `/providers` |
| Integrations.ConnectStartReply | src/routes/integrations.ts:53-61 | status defaults to "ok"; authUrl and state are null unless strings; raw is the data unchanged |
| Integrations.ConnectStart | src/routes/integrations.ts:36-62 | an unsupported provider is the 400; otherwise success exactly when the upstream answers (does not throw) with a 2xx, with the shaped reply, and a failure is the fetch's own thrown value, or an HttpError carrying the upstream status |
| Integrations.StatusCall | src/routes/integrations.ts:68-76 | 400 "state is required" exactly for an empty trimmed state; otherwise a GET get-auth-status with that state |
| Integrations.DataOr | src/routes/integrations.ts:78 | `data \|\| fallback`: the data when truthy, else the fallback, always truthy |
| Integrations.ConnectStatus | src/routes/integrations.ts:64-80 | a blank state is the 400; otherwise success exactly when the upstream answers (does not throw) with a 2xx, the truthy decoded data or `{status: "wait"}`; a failure is the fetch's own thrown value, or an HttpError carrying the upstream status |
| Integrations.FilterByProvider | src/routes/integrations.ts:90-95 | keeps exactly the files whose lower-cased provider equals the query, every copy of each |
| Integrations.FilterKeepsOrder | src/routes/integrations.ts:90-95 | filtering a concatenation is concatenating the filtered parts, so the files keep their order |
| Integrations.AccountsReply | src/routes/integrations.ts:85-97 | files are all source files for an empty provider, else the filtered ones; count is their number |
| Integrations.NoFilesArrayListsNothing | src/routes/integrations.ts:88 | a payload without a `files` array gives count 0 and no files |
| Integrations.Accounts | src/routes/integrations.ts:84-99 | success exactly when the upstream answers (does not throw) with a 2xx, with the filtered reply; a failure is the fetch's own thrown value, or an HttpError carrying the upstream status |
| Integrations.DeleteCall | src/routes/integrations.ts:104-113 | 400 "account name is required" exactly for an empty trimmed name; otherwise DELETE auth-files with that name |
| Integrations.DeleteAccount | src/routes/integrations.ts:101-117 | a blank name is the 400; otherwise success exactly when the upstream answers (does not throw) with a 2xx, the truthy decoded data or `{status: "ok"}`; a failure is the fetch's own thrown value, or an HttpError carrying the upstream status |
| Integrations.CookieCall | src/routes/integrations.ts:122-131 | 400 "cookie is required" exactly for an empty trimmed cookie; otherwise POST iflow-auth-url with `{cookie}` |
| Integrations.IflowCookie | src/routes/integrations.ts:119-134 | a blank cookie is the 400; otherwise success exactly when the upstream answers (does not throw) with a 2xx, with the decoded data; a failure is the fetch's own thrown value, or an HttpError carrying the upstream status |
| Integrations.UnknownProviderPrecedesUpstream | src/routes/integrations.ts:40-44 | an unknown provider is the 400 HttpError whatever the upstream would answer or throw |
| Integrations.MissingStatePrecedesUpstream | src/routes/integrations.ts:68-71 | a missing state is a 400 HttpError whatever the upstream would answer or throw |
| Integrations.MissingNamePrecedesUpstream | src/routes/integrations.ts:104-107 | a missing account name is a 400 HttpError whatever the upstream would answer or throw |
| Integrations.MissingCookiePrecedesUpstream | src/routes/integrations.ts:122-125 | a missing cookie is a 400 HttpError whatever the upstream would answer or throw |

## Left out

- The `fetch` call, `AbortSignal.timeout`, `Readable.fromWeb(...).pipe(res)`, backpressure and client disconnects are left out: they are network and stream I/O. Each fetch, the inference one and the management one alike, is an oracle returning a reply or a thrown failure, and piping is recorded as a state of the response.
- The fixed-window counter inside `express-rate-limit` is left out, as is its `standardHeaders` output. The library's verdict for a client key is a parameter.
- better-auth (`src/auth.ts`, `getSession`, `listApiKeys`) and its database are left out. A session lookup is an abstract result: a user, no session, or a thrown value.
- `src/server.ts` is not part of this model: it is process start-up. Of `src/lib/async-handler.ts`, only the hand-over of a rejection to `next` is modelled (`App.RouteFailure`).
- Express's final handler, which answers a request that leaves the application router, is modelled only by its status, 404. Its HTML body is not modelled.
- helmet, and the inner workings of the `cors` middleware and `express.json`, are left out: they are library wiring. The model keeps the origin-string parsing and the two ways these middlewares answer ahead of authentication: a preflight (`OPTIONS`) gets 204, and a body the parser rejects (malformed or over 2 MB) ends in the error handler as 500. Which bodies the parser rejects is an input of the request.
- `Date.parse`, ISO formatting, `Date.now()`, `localeCompare` ordering, `JSON.parse`, `JSON.stringify` and `new URL` base resolution are uninterpreted parameters. The sort is assumed only to reorder, and the overview is proved the same for every reordering.
- Numbers are integers. Fractional values, `-0`, and precision loss beyond 2^53 are not modelled. `Number()` of a string covers only blank, decimal integers and `Infinity`; hex, fraction and exponent literals are read as NaN.
- `toLowerCase` is modelled on ASCII letters. This is exact wherever the result is compared with the code's ASCII literals. It is inexact only for non-ASCII text in an echoed provider name or in the `/accounts` provider filter.
- Express routing details are left out: case-insensitive paths, trailing slashes, HEAD-as-GET, and parsing query strings into arrays. Routes match the exact method and path.
- The config fields `rateLimitWindowMs`, `rateLimitAiMax`, `rateLimitCodex53Max`, `apiKeyRateLimitWindowMs` and `apiKeyRateLimitMax` are absent from `AppConfig`. Their values are parameters.
- The codex-5.3 payload normaliser, and rate limiting as mounted on any route, are not part of this model. `app.ts` mounts neither limiter.
- The account and integrations routers are not mounted in `app.ts`. They are modelled as standalone handlers behind their own session check or the management client.
- null or undefined thrown inside the auth middleware's classification is an unhandled rejection; the model records it only as "no reply".
- The headers handed to the session lookup are modelled as the request with `x-api-key` replaced, not as better-auth's header object.

## Findings

| source | as written | input that shows it | evidently intended | confidence | as-written member | corrected member |
|---|---|---|---|---|---|---|
| src/routes/integrations.ts:38-44 | `PROVIDER_AUTH_ENDPOINTS[provider]` reads through the prototype chain of a plain object literal, so the inherited `constructor` and `__proto__` are truthy and pass the `!endpoint` check | `POST /constructor/connect/start` on the integrations router asks the upstream for a path built from `function Object() { [native code] }` instead of being rejected with 400 (Integrations.PrototypeNamesPassCheck) | only the eight own table keys are providers; every other name gets 400 "unsupported provider" | not executed | Integrations.LookupAsWritten | Integrations.ProviderEndpoint |
