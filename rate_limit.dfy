/**
  The rate-limit middleware's decisions: the bucket key a request is
  counted under, the rule that a non-positive maximum disables a limiter,
  and the rejection reply. The counting itself belongs to the
  rate-limiting library and is an input here.
 */
module RateLimit {
  import opened Js
  import opened Http
  import Auth

  /** `readBearerToken(header)`: the trimmed text after a case-insensitive
      `bearer ` prefix, else "". */
  function ReadBearerToken(authorizationHeader: string): (t: string)
    ensures !StartsWith(Lower(authorizationHeader), "bearer ") ==> t == ""
    ensures StartsWith(Lower(authorizationHeader), "bearer ") ==> t == Trim(authorizationHeader[7..])
  {
    var lower := Lower(authorizationHeader);
    if !StartsWith(lower, "bearer ") then "" else Trim(authorizationHeader[7..])
  }

  /** The rate limiter reads the same token as the authentication middleware. */
  lemma BearerTokenAgreesWithAuth(authorization: Option<string>)
    ensures ReadBearerToken(if authorization.Some? then authorization.value else "")
      == Auth.ApiKeyFromHeader(authorization)
  {
  }

  /** The three kinds of bucket key, in priority order. */
  datatype ClientIdentity = ApiKeyId(key: string) | BearerId(token: string) | IpId(ip: string)

  /** The identity a request is counted under: a non-empty trimmed
      `x-api-key`, else a non-empty bearer token, else the client address
      (`req.ip || "unknown"`). */
  function ClientIdentityOf(req: Request): (id: ClientIdentity)
    ensures Auth.XApiKey(req) != "" ==> id == ApiKeyId(Auth.XApiKey(req))
    ensures Auth.XApiKey(req) == "" && Auth.ApiKeyFromHeader(req.authorization) != "" ==>
      id == BearerId(Auth.ApiKeyFromHeader(req.authorization))
    ensures Auth.XApiKey(req) == "" && Auth.ApiKeyFromHeader(req.authorization) == "" ==>
      id == IpId(if req.ip.Some? && req.ip.value != "" then req.ip.value else "unknown")
  {
    BearerTokenAgreesWithAuth(req.authorization);
    var apiKey := Auth.XApiKey(req);
    if apiKey != "" then ApiKeyId(apiKey)
    else
      var bearerToken := ReadBearerToken(if req.authorization.Some? then req.authorization.value else "");
      if bearerToken != "" then BearerId(bearerToken)
      else IpId(if req.ip.Some? && req.ip.value != "" then req.ip.value else "unknown")
  }

  /** The text form of a bucket key. */
  function KeyText(id: ClientIdentity): string {
    match id
    case ApiKeyId(key) => "key:" + key
    case BearerId(token) => "bearer:" + token
    case IpId(ip) => "ip:" + ip
  }

  /** `buildClientKey(req)` */
  function BuildClientKey(req: Request): (k: string)
    ensures Auth.XApiKey(req) != "" ==> k == "key:" + Auth.XApiKey(req)
    ensures Auth.XApiKey(req) == "" && Auth.ApiKeyFromHeader(req.authorization) != "" ==>
      k == "bearer:" + Auth.ApiKeyFromHeader(req.authorization)
    ensures Auth.XApiKey(req) == "" && Auth.ApiKeyFromHeader(req.authorization) == "" ==>
      k == "ip:" + (if req.ip.Some? && req.ip.value != "" then req.ip.value else "unknown")
  {
    KeyText(ClientIdentityOf(req))
  }

  /** Distinct identities give distinct keys: the `key:`, `bearer:` and
      `ip:` prefixes never collide, so the text form can be read back. */
  lemma KeyTextInjective(a: ClientIdentity, b: ClientIdentity)
    requires KeyText(a) == KeyText(b)
    ensures a == b
  {
    var t := KeyText(a);
    match a {
      case ApiKeyId(k) =>
        assert t[0] == 'k' && t[4..] == k;
        if b.ApiKeyId? {
          assert t[4..] == b.key;
        }
      case BearerId(k) =>
        assert t[0] == 'b' && t[7..] == k;
        if b.BearerId? {
          assert t[7..] == b.token;
        }
      case IpId(k) =>
        assert t[0] == 'i' && t[3..] == k;
        if b.IpId? {
          assert t[3..] == b.ip;
        }
    }
  }

  /** A request that authenticates with a key is counted under that same
      key: as `key:` when it came from `x-api-key`, as `bearer:` otherwise. */
  lemma BucketFollowsAuthenticatedKey(req: Request)
    requires Auth.SelectApiKey(req) != ""
    ensures BuildClientKey(req) == "key:" + Auth.SelectApiKey(req)
         || BuildClientKey(req) == "bearer:" + Auth.SelectApiKey(req)
    ensures !ClientIdentityOf(req).IpId?
  {
  }

  /** Requests with the same key header share a bucket whatever their bearer
      token or address; without keys, requests share a bucket exactly when
      their addresses agree. */
  lemma SameBucket(r1: Request, r2: Request)
    ensures Auth.XApiKey(r1) != "" && Auth.XApiKey(r1) == Auth.XApiKey(r2) ==> BuildClientKey(r1) == BuildClientKey(r2)
    ensures BuildClientKey(r1) == BuildClientKey(r2) ==> ClientIdentityOf(r1) == ClientIdentityOf(r2)
  {
    if BuildClientKey(r1) == BuildClientKey(r2) {
      KeyTextInjective(ClientIdentityOf(r1), ClientIdentityOf(r2));
    }
  }

  /** A limiter: disabled (every request passes), or limited with its
      maximum, bucket name and window length. */
  datatype Limiter = PassThrough | Limited(max: int, bucket: string, windowMs: int)

  /** `createRateLimiter(max, bucket)` with the configured window. */
  function CreateRateLimiter(max: int, bucket: string, windowMs: int): (l: Limiter)
    ensures l.PassThrough? <==> max <= 0
    ensures l.Limited? ==> l.max == max && l.bucket == bucket && l.windowMs == windowMs
  {
    if max <= 0 then PassThrough else Limited(max, bucket, windowMs)
  }

  /** The limiter's verdict on one request. */
  datatype Gate = Admit | Reject(status: int, body: Value)

  /** `{ error: "rate_limit_exceeded", bucket, max, windowMs }` */
  function RejectionBody(bucket: string, max: int, windowMs: int): Value {
    Obj(map["error" := Str("rate_limit_exceeded"), "bucket" := Str(bucket), "max" := Num(max), "windowMs" := Num(windowMs)])
  }

  /** A limiter's decision. `withinLimit` is the library's answer for a
      bucket key (whether its counter still admits a request). */
  function Decide(l: Limiter, req: Request, withinLimit: string -> bool): (g: Gate)
    ensures l.PassThrough? ==> g == Admit
    ensures l.Limited? && withinLimit(BuildClientKey(req)) ==> g == Admit
    ensures l.Limited? && !withinLimit(BuildClientKey(req)) ==>
      g == Reject(429, RejectionBody(l.bucket, l.max, l.windowMs))
  {
    match l
    case PassThrough => Admit
    case Limited(max, bucket, windowMs) =>
      if withinLimit(BuildClientKey(req)) then Admit else Reject(429, RejectionBody(bucket, max, windowMs))
  }

  /** A non-positive maximum never rejects, whatever the counter says; a
      rejection always names the limiter's bucket, maximum and window. */
  lemma DisabledNeverRejects(max: int, bucket: string, windowMs: int, req: Request, withinLimit: string -> bool)
    ensures max <= 0 ==> Decide(CreateRateLimiter(max, bucket, windowMs), req, withinLimit) == Admit
    ensures Decide(CreateRateLimiter(max, bucket, windowMs), req, withinLimit).Reject? ==>
      max > 0 &&
      Prop(Decide(CreateRateLimiter(max, bucket, windowMs), req, withinLimit).body, "bucket") == Str(bucket) &&
      Prop(Decide(CreateRateLimiter(max, bucket, windowMs), req, withinLimit).body, "max") == Num(max) &&
      Prop(Decide(CreateRateLimiter(max, bucket, windowMs), req, withinLimit).body, "windowMs") == Num(windowMs)
  {
  }

  const AiBucket := "ai-default"
  const Codex53Bucket := "ai-codex-5.3"

  /** The two limiters, each with its own maximum and bucket name. */
  function AiRateLimiter(max: int, windowMs: int): Limiter {
    CreateRateLimiter(max, AiBucket, windowMs)
  }

  function Codex53RateLimiter(max: int, windowMs: int): Limiter {
    CreateRateLimiter(max, Codex53Bucket, windowMs)
  }

  /** Both limiters count a request under the same key, but a rejection
      tells them apart: each names its own bucket and maximum, so the two
      rejection replies for one request always differ. */
  lemma LimitersRejectDistinctly(aiMax: int, codexMax: int, windowMs: int, req: Request,
                                 aiWithin: string -> bool, codexWithin: string -> bool)
    ensures Decide(AiRateLimiter(aiMax, windowMs), req, aiWithin).Reject? ==>
      Prop(Decide(AiRateLimiter(aiMax, windowMs), req, aiWithin).body, "bucket") == Str("ai-default") &&
      Prop(Decide(AiRateLimiter(aiMax, windowMs), req, aiWithin).body, "max") == Num(aiMax)
    ensures Decide(Codex53RateLimiter(codexMax, windowMs), req, codexWithin).Reject? ==>
      Prop(Decide(Codex53RateLimiter(codexMax, windowMs), req, codexWithin).body, "bucket") == Str("ai-codex-5.3") &&
      Prop(Decide(Codex53RateLimiter(codexMax, windowMs), req, codexWithin).body, "max") == Num(codexMax)
    ensures (Decide(AiRateLimiter(aiMax, windowMs), req, aiWithin).Reject?
             && Decide(Codex53RateLimiter(codexMax, windowMs), req, codexWithin).Reject?) ==>
      Decide(AiRateLimiter(aiMax, windowMs), req, aiWithin) != Decide(Codex53RateLimiter(codexMax, windowMs), req, codexWithin)
  {
    var a := Decide(AiRateLimiter(aiMax, windowMs), req, aiWithin);
    var c := Decide(Codex53RateLimiter(codexMax, windowMs), req, codexWithin);
    if a.Reject? && c.Reject? {
      assert AiBucket[3] != Codex53Bucket[3];
      assert Prop(a.body, "bucket") != Prop(c.body, "bucket");
    }
  }
}
