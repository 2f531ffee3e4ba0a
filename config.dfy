/**
  The configuration snapshot the gateway reads once from its environment at
  start-up, and the start-up check for the two upstream credentials.
 */
module Config {
  import opened Js
  import opened Errors

  datatype AppConfig = AppConfig(
    port: int,
    appApiKey: string,
    corsOrigin: string,
    cliProxyBaseUrl: string,
    cliProxyManagementKey: string,
    cliProxyApiKey: string,
    requestTimeoutMs: int)

  /** `process.env`: a variable is either absent or holds a string. */
  type Env = map<string, string>

  function EnvVar(env: Env, name: string): Option<string> {
    if name in env then Some(env[name]) else None
  }

  /** `process.env[name] || fallback`: an absent or empty variable gives the fallback. */
  function EnvOr(env: Env, name: string, fallback: string): string {
    if name in env && env[name] != "" then env[name] else fallback
  }

  /** `toInt(value, fallback)`: the integer `parseInt` reads from the value,
      or the fallback when it reads none (an absent value reads as ""). */
  function ToInt(value: Option<string>, fallback: int): (r: int)
    ensures value.None? ==> r == fallback
    ensures value.Some? && ParseInt(value.value).Some? ==> r == ParseInt(value.value).value
    ensures value.Some? && ParseInt(value.value).None? ==> r == fallback
  {
    ParseIntBlank("");
    var parsed := ParseInt(if value.Some? then value.value else "");
    if parsed.None? then fallback else parsed.value
  }

  /** `s.replace(/\/$/, "")`: removes one `/` at the very end, if there is one. */
  function StripTrailingSlash(s: string): (r: string)
    ensures s == r || s == r + "/"
    ensures |s| > 0 && s[|s| - 1] == '/' <==> s == r + "/"
  {
    if |s| > 0 && s[|s| - 1] == '/' then s[..|s| - 1] else s
  }

  const DefaultPort := 3000
  const DefaultCorsOrigin := "*"
  const DefaultBaseUrl := "http://127.0.0.1:8317"
  const DefaultTimeoutMs := 120000

  /** The configuration snapshot read from the environment. */
  function LoadConfig(env: Env): (c: AppConfig)
    ensures "PORT" !in env ==> c.port == DefaultPort
    ensures c.port == (if "PORT" in env && ParseInt(env["PORT"]).Some? then ParseInt(env["PORT"]).value else DefaultPort)
    ensures "REQUEST_TIMEOUT_MS" !in env ==> c.requestTimeoutMs == DefaultTimeoutMs
    ensures c.requestTimeoutMs ==
      (if "REQUEST_TIMEOUT_MS" in env && ParseInt(env["REQUEST_TIMEOUT_MS"]).Some?
       then ParseInt(env["REQUEST_TIMEOUT_MS"]).value else DefaultTimeoutMs)
    ensures c.corsOrigin != ""
    ensures c.corsOrigin == (if "CORS_ORIGIN" in env && env["CORS_ORIGIN"] != "" then env["CORS_ORIGIN"] else "*")
    ensures c.appApiKey == (if "APP_API_KEY" in env then env["APP_API_KEY"] else "")
    ensures c.cliProxyManagementKey == (if "CLI_PROXY_MANAGEMENT_KEY" in env then env["CLI_PROXY_MANAGEMENT_KEY"] else "")
    ensures c.cliProxyApiKey == (if "CLI_PROXY_API_KEY" in env then env["CLI_PROXY_API_KEY"] else "")
    ensures var url := if "CLI_PROXY_BASE_URL" in env && env["CLI_PROXY_BASE_URL"] != ""
                       then env["CLI_PROXY_BASE_URL"] else "http://127.0.0.1:8317";
      if url[|url| - 1] == '/' then c.cliProxyBaseUrl + "/" == url else c.cliProxyBaseUrl == url
  {
    AppConfig(
      port := ToInt(EnvVar(env, "PORT"), DefaultPort),
      appApiKey := EnvOr(env, "APP_API_KEY", ""),
      corsOrigin := EnvOr(env, "CORS_ORIGIN", DefaultCorsOrigin),
      cliProxyBaseUrl := StripTrailingSlash(EnvOr(env, "CLI_PROXY_BASE_URL", DefaultBaseUrl)),
      cliProxyManagementKey := EnvOr(env, "CLI_PROXY_MANAGEMENT_KEY", ""),
      cliProxyApiKey := EnvOr(env, "CLI_PROXY_API_KEY", ""),
      requestTimeoutMs := ToInt(EnvVar(env, "REQUEST_TIMEOUT_MS"), DefaultTimeoutMs))
  }

  /** An empty environment yields the documented defaults. */
  lemma EmptyEnvDefaults()
    ensures LoadConfig(map[]) == AppConfig(3000, "", "*", "http://127.0.0.1:8317", "", "", 120000)
  {
    assert DefaultBaseUrl[|DefaultBaseUrl| - 1] == '7';
  }

  /** A PORT or REQUEST_TIMEOUT_MS written as a decimal integer is read back exactly. */
  lemma DecimalSettingsReadBack(env: Env, port: int, timeoutMs: int)
    requires "PORT" in env && env["PORT"] == IntToDecimal(port)
    requires "REQUEST_TIMEOUT_MS" in env && env["REQUEST_TIMEOUT_MS"] == IntToDecimal(timeoutMs)
    ensures LoadConfig(env).port == port
    ensures LoadConfig(env).requestTimeoutMs == timeoutMs
  {
    ParseIntDecimal(port);
    ParseIntDecimal(timeoutMs);
  }

  /** A base URL ending in one or more slashes loses exactly one of them. */
  lemma BaseUrlLosesOneSlash(env: Env, url: string)
    requires "CLI_PROXY_BASE_URL" in env && env["CLI_PROXY_BASE_URL"] == url + "/"
    ensures LoadConfig(env).cliProxyBaseUrl == url
  {
    assert (url + "/")[..|url|] == url;
  }

  const ManagementKeyVar := "CLI_PROXY_MANAGEMENT_KEY"
  const ApiKeyVar := "CLI_PROXY_API_KEY"
  const MissingPrefix := "Missing required env values: "

  /** `assertRequiredConfig()`: throws an `Error` naming the missing upstream
      credentials, the management key before the API key; None when both are set. */
  method AssertRequiredConfig(c: AppConfig) returns (failure: Option<Thrown>)
    ensures failure.None? <==> c.cliProxyManagementKey != "" && c.cliProxyApiKey != ""
    ensures c.cliProxyManagementKey == "" && c.cliProxyApiKey == "" ==>
      failure == Some(ErrorObj(MissingPrefix + ManagementKeyVar + ", " + ApiKeyVar, map[]))
    ensures c.cliProxyManagementKey == "" && c.cliProxyApiKey != "" ==>
      failure == Some(ErrorObj(MissingPrefix + ManagementKeyVar, map[]))
    ensures c.cliProxyManagementKey != "" && c.cliProxyApiKey == "" ==>
      failure == Some(ErrorObj(MissingPrefix + ApiKeyVar, map[]))
  {
    var missing: seq<string> := [];
    if c.cliProxyManagementKey == "" {
      missing := missing + [ManagementKeyVar];
    }
    if c.cliProxyApiKey == "" {
      missing := missing + [ApiKeyVar];
    }
    if |missing| > 0 {
      if |missing| == 2 {
        assert missing == [ManagementKeyVar, ApiKeyVar];
        assert missing[1..] == [ApiKeyVar];
        assert Join(missing, ", ") == ManagementKeyVar + ", " + ApiKeyVar;
        assert MissingPrefix + Join(missing, ", ") == MissingPrefix + ManagementKeyVar + ", " + ApiKeyVar;
      }
      failure := Some(ErrorObj(MissingPrefix + Join(missing, ", "), map[]));
    } else {
      failure := None;
    }
  }
}
