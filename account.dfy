/**
  The account rate-limit overview (`GET /account/rate-limit`): the
  coercion helpers that read loosely typed API-key records, the per-key
  usage arithmetic, and the aggregation over enabled keys.

  The key records come from the authentication backend; the clock,
  `Date.parse`, ISO formatting and the sort order are inputs.
 */
module Account {
  import opened Js
  import opened Errors
  import opened Http

  // ---------------------------------------------------------------------
  // Coercion helpers

  /** `value && typeof value === "object" && !Array.isArray(value)` */
  predicate IsNonArrayObject(v: Value) {
    v.Obj? || v.DateObj?
  }

  /** `asObject(value)`: the value itself when it is a non-array object, else `{}`. */
  function AsObject(v: Value): (r: Value)
    ensures IsNonArrayObject(r)
    ensures IsNonArrayObject(v) ==> r == v
    ensures !IsNonArrayObject(v) ==> r == Obj(map[])
  {
    if IsNonArrayObject(v) then v else Obj(map[])
  }

  /** Reading a field through `asObject` gives what `value?.field` gives. */
  lemma AsObjectKeepsFields(v: Value, name: string)
    ensures Prop(AsObject(v), name) == Prop(v, name)
  {
  }

  const TrueWords: seq<string> := ["true", "1", "yes", "on"]
  const FalseWords: seq<string> := ["false", "0", "no", "off"]

  /** The word a string stands for: `value.trim().toLowerCase()`. Lower-casing
      is ASCII here. Of the non-ASCII characters, only the Kelvin sign (to
      `k`) and the dotted capital I (to `i` and a combining dot) lower-case
      to text with ASCII letters in it; no word contains a `k` or an `i`, so
      the comparisons with the words are exact. */
  function NormalizedWord(s: string): string {
    Lower(Trim(s))
  }

  /** `toBoolean(value, fallback)` */
  function ToBoolean(v: Value, fallback: bool): (r: bool)
    ensures v.Bool? ==> r == v.b
    ensures v.Num? ==> r == (v.n != 0)
    ensures v.NaN? || v.Infinity? ==> r
    ensures v.Str? && NormalizedWord(v.s) in TrueWords ==> r
    ensures v.Str? && NormalizedWord(v.s) in FalseWords ==> !r
    ensures !(v.Bool? || v.Num? || v.NaN? || v.Infinity?)
            && !(v.Str? && (NormalizedWord(v.s) in TrueWords || NormalizedWord(v.s) in FalseWords))
            ==> r == fallback
  {
    match v
    case Bool(b) => b
    case Num(n) => n != 0
    case NaN => true
    case Infinity(_) => true
    case Str(s) =>
      var normalized := NormalizedWord(s);
      if normalized in TrueWords then true
      else if normalized in FalseWords then false
      else fallback
    case _ => fallback
  }

  /** Surrounding whitespace never changes how a string reads. */
  lemma ToBooleanIgnoresSurroundingSpace(s: string, fallback: bool)
    ensures ToBoolean(Str(s), fallback) == ToBoolean(Str(Trim(s)), fallback)
  {
    TrimIdempotent(s);
  }

  /** Nor does letter case: `"TRUE"`, `" Yes "` and `"oN"` all read as true. */
  lemma ToBooleanIgnoresCase(s: string, fallback: bool)
    ensures ToBoolean(Str(s), fallback) == ToBoolean(Str(Lower(s)), fallback)
  {
    TrimLower(s);
    LowerIdempotent(Trim(s));
  }

  /** `toNumber(value, fallback)`: a finite number as it is, a string that
      `parseInt` reads, else the fallback. */
  function ToNumber(v: Value, fallback: int): (r: int)
    ensures v.Num? ==> r == v.n
    ensures v.Str? && ParseInt(v.s).Some? ==> r == ParseInt(v.s).value
    ensures !v.Num? && !(v.Str? && ParseInt(v.s).Some?) ==> r == fallback
  {
    match v
    case Num(n) => n
    case Str(s) => var parsed := ParseInt(s); if parsed.Some? then parsed.value else fallback
    case _ => fallback
  }

  /** A number written in decimal reads back as itself. */
  lemma ToNumberDecimal(n: int, fallback: int)
    ensures ToNumber(Str(IntToDecimal(n)), fallback) == n
    ensures ToNumber(Num(n), fallback) == n
  {
    ParseIntDecimal(n);
  }

  /** `Date.parse(text)`, left to the host: None stands for NaN. */
  type DateParser = string -> Option<int>

  /** `toTimestamp(value)`: milliseconds, or None for null. */
  function ToTimestamp(v: Value, dateParse: DateParser): (r: Option<int>)
    ensures v.DateObj? ==> r == v.time
    ensures v.Num? ==> r == Some(v.n)
    ensures v.Str? && AllSpace(v.s) ==> r == None
    ensures v.Str? && !AllSpace(v.s) && ParseInt(Trim(v.s)).Some? ==> r == ParseInt(Trim(v.s))
    ensures v.Str? && !AllSpace(v.s) && ParseInt(Trim(v.s)).None? ==> r == dateParse(Trim(v.s))
    ensures !(v.DateObj? || v.Num? || v.Str?) ==> r == None
  {
    TrimEmptyIffAllSpace(if v.Str? then v.s else "");
    match v
    case DateObj(time, _) => time
    case Num(n) => Some(n)
    case Str(s) =>
      var trimmed := Trim(s);
      if trimmed == "" then None
      else
        var asNumber := ParseInt(trimmed);
        if asNumber.Some? then asNumber else dateParse(trimmed)
    case _ => None
  }

  /** A decimal string is read as its integer, never handed to `Date.parse`. */
  lemma ToTimestampDecimal(n: int, dateParse: DateParser)
    ensures ToTimestamp(Str(IntToDecimal(n)), dateParse) == Some(n)
  {
    var d := IntToDecimal(n);
    var m := NatToDecimal(if n < 0 then -n else n);
    assert d[|d| - 1] == m[|m| - 1];
    assert IsDigit(d[|d| - 1]);
    assert !IsJsSpace(d[0]);
    assert TrimStart(d) == d;
    assert Trim(d) == d;
    ParseIntDecimal(n);
  }

  /** The time range of a JavaScript `Date`. */
  const MaxTime := 8640000000000000

  /** `toIso(value)`: None for null, the host's ISO text for a representable
      time, and the `RangeError` `toISOString` throws for any other. */
  function ToIso(t: Option<int>, isoText: int -> string): (r: Result<Option<string>, Thrown>)
    ensures t.None? ==> r == Success(None)
    ensures t.Some? && -MaxTime <= t.value <= MaxTime ==> r == Success(Some(isoText(t.value)))
    ensures t.Some? && !(-MaxTime <= t.value <= MaxTime) ==> r == Failure(InvalidTimeValue)
  {
    if t.None? then Success(None)
    else if -MaxTime <= t.value <= MaxTime then Success(Some(isoText(t.value)))
    else Failure(InvalidTimeValue)
  }

  // ---------------------------------------------------------------------
  // Per-key normalisation

  /** The routines the handler takes from the host. */
  datatype Host = Host(dateParse: DateParser, isoText: int -> string)

  /** The configured per-key window and maximum, used when a key has none. */
  datatype KeyDefaults = KeyDefaults(windowMs: int, max: int)

  /** One entry of the reply's `keys`. */
  datatype RateLimitKey = RateLimitKey(
    id: string,
    name: Option<string>,
    start: Option<string>,
    enabled: bool,
    windowMs: int,
    max: int,
    used: int,
    remaining: int,
    lastRequestAt: Option<string>,
    resetAt: string)

  /** `String(keyAsObject.id || "")` */
  function IdText(o: Value): string {
    ToJsString(Or(Prop(o, "id"), Str("")))
  }

  function Max(a: int, b: int): int {
    if a >= b then a else b
  }

  /** The numbers derived for one key. */
  datatype Usage = Usage(
    enabled: bool,
    limited: bool,
    windowMs: int,
    max: int,
    requestCount: int,
    last: Option<int>,
    within: bool,
    used: int,
    remaining: int,
    resetTime: int)

  /** The arithmetic of the loop body, from the key's fields and the clock. */
  function UsageOf(o: Value, now: int, defaults: KeyDefaults, dateParse: DateParser): (u: Usage)
    ensures u.enabled == ToBoolean(Prop(o, "enabled"), true)
    ensures u.limited == ToBoolean(Prop(o, "rateLimitEnabled"), true)
    ensures u.windowMs == Max(1, ToNumber(Prop(o, "rateLimitTimeWindow"), defaults.windowMs))
    ensures u.max == Max(0, ToNumber(Prop(o, "rateLimitMax"), defaults.max))
    ensures u.requestCount == Max(0, ToNumber(Prop(o, "requestCount"), 0))
    ensures u.last == ToTimestamp(Prop(o, "lastRequest"), dateParse)
    ensures u.windowMs >= 1 && u.max >= 0 && u.requestCount >= 0
    ensures u.within <==> u.last.Some? && now - u.last.value <= u.windowMs
    ensures u.used == (if u.enabled && u.limited && u.within then u.requestCount else 0)
    ensures 0 <= u.used <= u.requestCount
    ensures 0 <= u.remaining <= u.max
    ensures u.enabled && u.limited ==> u.remaining == Max(0, u.max - u.used)
    ensures !(u.enabled && u.limited) ==> u.remaining == u.max
    ensures u.resetTime == (if u.within then u.last.value else now) + u.windowMs
    ensures u.resetTime >= now
  {
    var enabled := ToBoolean(Prop(o, "enabled"), true);
    var limited := ToBoolean(Prop(o, "rateLimitEnabled"), true);
    var windowMs := Max(1, ToNumber(Prop(o, "rateLimitTimeWindow"), defaults.windowMs));
    var max := Max(0, ToNumber(Prop(o, "rateLimitMax"), defaults.max));
    var requestCount := Max(0, ToNumber(Prop(o, "requestCount"), 0));
    var last := ToTimestamp(Prop(o, "lastRequest"), dateParse);
    var within := last.Some? && now - last.value <= windowMs;
    var used := if enabled && limited && within then requestCount else 0;
    var remaining := if enabled && limited then Max(0, max - used) else max;
    var resetBase := if within && last.Some? then last.value else now;
    Usage(enabled, limited, windowMs, max, requestCount, last, within, used, remaining, resetBase + windowMs)
  }

  /** `toIso(resetBase + windowMs) || new Date(now + windowMs).toISOString()` */
  function ResetAtText(resetTime: int, now: int, windowMs: int, isoText: int -> string): (r: Result<string, Thrown>)
    ensures -MaxTime <= resetTime <= MaxTime && isoText(resetTime) != "" ==> r == Success(isoText(resetTime))
    ensures !(-MaxTime <= resetTime <= MaxTime) ==> r == Failure(InvalidTimeValue)
  {
    var first := ToIso(Some(resetTime), isoText);
    if first.Failure? then Failure(first.error)
    else if first.value.Some? && first.value.value != "" then Success(first.value.value)
    else
      var second := ToIso(Some(now + windowMs), isoText);
      if second.Failure? then Failure(second.error)
      else Success(if second.value.Some? then second.value.value else "")
  }

  /** `typeof field === "string" ? field : null` */
  function StringField(o: Value, name: string): Option<string> {
    if Prop(o, name).Str? then Some(Prop(o, name).s) else None
  }

  /** The bounds every emitted key satisfies. */
  predicate WellFormed(k: RateLimitKey) {
    k.id != "" && k.windowMs >= 1 && k.max >= 0 && k.used >= 0 && 0 <= k.remaining <= k.max
    && (!k.enabled ==> k.used == 0)
  }

  /** One pass of the loop body: a key whose id is empty is skipped (None);
      otherwise its entry, or the `RangeError` of a time outside a `Date`'s range. */
  function NormalizeKey(raw: Value, now: int, defaults: KeyDefaults, host: Host): (r: Result<Option<RateLimitKey>, Thrown>)
    ensures r == Success(None) <==> IdText(AsObject(raw)) == ""
    ensures r.Failure? ==> r.error == InvalidTimeValue
    ensures r.Success? && r.value.Some? ==>
      var k := r.value.value;
      var u := UsageOf(AsObject(raw), now, defaults, host.dateParse);
      WellFormed(k) && k.id == IdText(AsObject(raw))
      && k.enabled == u.enabled && k.windowMs == u.windowMs && k.max == u.max
      && k.used == u.used && k.remaining == u.remaining
      && k.name == StringField(AsObject(raw), "name") && k.start == StringField(AsObject(raw), "start")
      && ResetAtText(u.resetTime, now, u.windowMs, host.isoText) == Success(k.resetAt)
      && ToIso(u.last, host.isoText) == Success(k.lastRequestAt)
    ensures r.Failure? <==>
      var u := UsageOf(AsObject(raw), now, defaults, host.dateParse);
      IdText(AsObject(raw)) != ""
      && (ResetAtText(u.resetTime, now, u.windowMs, host.isoText).Failure? || ToIso(u.last, host.isoText).Failure?)
  {
    var o := AsObject(raw);
    var id := IdText(o);
    if id == "" then Success(None)
    else
      var u := UsageOf(o, now, defaults, host.dateParse);
      var resetAt := ResetAtText(u.resetTime, now, u.windowMs, host.isoText);
      if resetAt.Failure? then Failure(resetAt.error)
      else
        var lastRequestAt := ToIso(u.last, host.isoText);
        if lastRequestAt.Failure? then Failure(lastRequestAt.error)
        else
          Success(Some(RateLimitKey(
            id, StringField(o, "name"), StringField(o, "start"), u.enabled, u.windowMs, u.max,
            u.used, u.remaining, lastRequestAt.value, resetAt.value)))
  }

  /** The keys the loop has pushed after visiting every record of `raws`,
      or what the first failing record threw. */
  function NormalizeAll(raws: seq<Value>, now: int, defaults: KeyDefaults, host: Host): (r: Result<seq<RateLimitKey>, Thrown>)
    ensures r.Success? ==> |r.value| <= |raws|
    ensures r.Success? ==> forall i :: 0 <= i < |r.value| ==> WellFormed(r.value[i])
    ensures r.Failure? ==> r.error == InvalidTimeValue
    decreases |raws|
  {
    if raws == [] then Success([])
    else
      match NormalizeAll(raws[..|raws| - 1], now, defaults, host)
      case Failure(e) => Failure(e)
      case Success(keys) =>
        match NormalizeKey(raws[|raws| - 1], now, defaults, host)
        case Failure(e) => Failure(e)
        case Success(None) => Success(keys)
        case Success(Some(k)) => Success(keys + [k])
  }

  /** Once a record throws, the loop has thrown for good. */
  lemma {:induction false} FailureSticks(raws: seq<Value>, j: nat, now: int, defaults: KeyDefaults, host: Host)
    requires j <= |raws|
    requires NormalizeAll(raws[..j], now, defaults, host).Failure?
    ensures NormalizeAll(raws, now, defaults, host) == NormalizeAll(raws[..j], now, defaults, host)
    decreases |raws| - j
  {
    if j < |raws| {
      assert raws[..j + 1][..j] == raws[..j];
      FailureSticks(raws, j + 1, now, defaults, host);
    } else {
      assert raws[..j] == raws;
    }
  }

  /** The `for ... of` loop over the backend's key records. */
  method NormalizeKeys(raws: seq<Value>, now: int, defaults: KeyDefaults, host: Host) returns (r: Result<seq<RateLimitKey>, Thrown>)
    ensures r == NormalizeAll(raws, now, defaults, host)
  {
    var normalizedKeys: seq<RateLimitKey> := [];
    var i := 0;
    while i < |raws|
      invariant 0 <= i <= |raws|
      invariant NormalizeAll(raws[..i], now, defaults, host) == Success(normalizedKeys)
    {
      assert raws[..i + 1][..i] == raws[..i];
      var entry := NormalizeKey(raws[i], now, defaults, host);
      if entry.Failure? {
        FailureSticks(raws, i + 1, now, defaults, host);
        return Failure(entry.error);
      }
      if entry.value.Some? {
        normalizedKeys := normalizedKeys + [entry.value.value];
      }
      i := i + 1;
    }
    assert raws[..i] == raws;
    r := Success(normalizedKeys);
  }

  function Ids(keys: seq<RateLimitKey>): seq<string> {
    seq(|keys|, i requires 0 <= i < |keys| => keys[i].id)
  }

  /** The ids of the records whose id is not empty, in order. */
  function NonEmptyIds(raws: seq<Value>): seq<string>
    decreases |raws|
  {
    if raws == [] then []
    else
      var id := IdText(AsObject(raws[|raws| - 1]));
      NonEmptyIds(raws[..|raws| - 1]) + (if id == "" then [] else [id])
  }

  /** Exactly the records with an empty id are dropped: the emitted ids are
      the non-empty ids of the records, in order, so without empty ids there
      is one key per record. */
  lemma {:induction false} NormalizeAllKeepsIds(raws: seq<Value>, now: int, defaults: KeyDefaults, host: Host)
    requires NormalizeAll(raws, now, defaults, host).Success?
    ensures Ids(NormalizeAll(raws, now, defaults, host).value) == NonEmptyIds(raws)
    ensures (forall i :: 0 <= i < |raws| ==> IdText(AsObject(raws[i])) != "") ==>
      |NormalizeAll(raws, now, defaults, host).value| == |raws|
    decreases |raws|
  {
    if raws != [] {
      var p := raws[..|raws| - 1];
      assert forall i :: 0 <= i < |p| ==> p[i] == raws[i];
      NormalizeAllKeepsIds(p, now, defaults, host);
    }
  }

  /** The sort key: `key.name || key.start || ""`. */
  function SortName(k: RateLimitKey): string {
    if k.name.Some? && k.name.value != "" then k.name.value
    else if k.start.Some? && k.start.value != "" then k.start.value
    else ""
  }

  // ---------------------------------------------------------------------
  // Overview

  datatype Overview = Overview(
    activeKeys: int,
    totalMax: int,
    totalUsed: int,
    totalRemaining: int,
    nextResetAt: Option<string>)

  const InitialOverview := Overview(0, 0, 0, 0, None)

  /** `resetTimestamp < Date.parse(acc.nextResetAt)`: false against NaN. */
  predicate Earlier(t: int, current: Option<int>) {
    current.Some? && t < current.value
  }

  /** The reducer: a disabled key leaves the accumulator alone; an enabled
      key adds its numbers, and becomes `nextResetAt` when its reset time
      parses and is earlier than the current one. */
  function Step(acc: Overview, key: RateLimitKey, dateParse: DateParser): Overview {
    if !key.enabled then acc
    else
      var summed := acc.(totalMax := acc.totalMax + key.max, totalUsed := acc.totalUsed + key.used,
                         totalRemaining := acc.totalRemaining + key.remaining);
      var resetTimestamp := dateParse(key.resetAt);
      if resetTimestamp.Some?
         && (acc.nextResetAt.None? || Earlier(resetTimestamp.value, dateParse(acc.nextResetAt.value)))
      then summed.(nextResetAt := Some(key.resetAt))
      else summed
  }

  /** `keys.reduce(step, initial)` */
  function Reduce(keys: seq<RateLimitKey>, dateParse: DateParser): Overview
    decreases |keys|
  {
    if keys == [] then InitialOverview
    else Step(Reduce(keys[..|keys| - 1], dateParse), keys[|keys| - 1], dateParse)
  }

  /** `keys.filter((key) => key.enabled)` */
  function EnabledKeys(keys: seq<RateLimitKey>): (r: seq<RateLimitKey>)
    ensures |r| <= |keys|
    ensures forall i :: 0 <= i < |r| ==> r[i].enabled
    decreases |keys|
  {
    if keys == [] then []
    else
      var rest := EnabledKeys(keys[..|keys| - 1]);
      if keys[|keys| - 1].enabled then rest + [keys[|keys| - 1]] else rest
  }

  /** The `overview` object of the reply. */
  function OverviewOf(keys: seq<RateLimitKey>, dateParse: DateParser): Overview {
    Reduce(keys, dateParse).(activeKeys := |EnabledKeys(keys)|)
  }

  /** The reduction as the handler runs it: a loop over the sorted keys that
      updates the accumulator's fields, then the count of enabled keys. */
  method ComputeOverview(keys: seq<RateLimitKey>, dateParse: DateParser) returns (overview: Overview)
    ensures overview == OverviewOf(keys, dateParse)
  {
    var acc := InitialOverview;
    var i := 0;
    while i < |keys|
      invariant 0 <= i <= |keys|
      invariant acc == Reduce(keys[..i], dateParse)
    {
      var key := keys[i];
      assert keys[..i + 1][..i] == keys[..i];
      if key.enabled {
        var before := acc.nextResetAt;
        acc := acc.(totalMax := acc.totalMax + key.max);
        acc := acc.(totalUsed := acc.totalUsed + key.used);
        acc := acc.(totalRemaining := acc.totalRemaining + key.remaining);
        var resetTimestamp := dateParse(key.resetAt);
        if resetTimestamp.Some? {
          if before.None? || Earlier(resetTimestamp.value, dateParse(before.value)) {
            acc := acc.(nextResetAt := Some(key.resetAt));
          }
        }
      }
      i := i + 1;
    }
    assert keys[..i] == keys;
    var enabled: seq<RateLimitKey> := [];
    var j := 0;
    while j < |keys|
      invariant 0 <= j <= |keys|
      invariant enabled == EnabledKeys(keys[..j])
    {
      assert keys[..j + 1][..j] == keys[..j];
      if keys[j].enabled {
        enabled := enabled + [keys[j]];
      }
      j := j + 1;
    }
    assert keys[..j] == keys;
    overview := acc.(activeKeys := |enabled|);
  }

  /** What the enabled keys add up to. */
  datatype Totals = Totals(count: int, max: int, used: int, remaining: int)

  function Contribution(k: RateLimitKey): Totals {
    if k.enabled then Totals(1, k.max, k.used, k.remaining) else Totals(0, 0, 0, 0)
  }

  function Plus(a: Totals, b: Totals): Totals {
    Totals(a.count + b.count, a.max + b.max, a.used + b.used, a.remaining + b.remaining)
  }

  function SumTotals(keys: seq<RateLimitKey>): Totals
    decreases |keys|
  {
    if keys == [] then Totals(0, 0, 0, 0)
    else Plus(SumTotals(keys[..|keys| - 1]), Contribution(keys[|keys| - 1]))
  }

  /** `activeKeys` counts the enabled keys, and the three totals are sums
      over the enabled keys only. */
  lemma {:induction false} OverviewSumsEnabledKeys(keys: seq<RateLimitKey>, dateParse: DateParser)
    ensures OverviewOf(keys, dateParse).activeKeys == SumTotals(keys).count
    ensures OverviewOf(keys, dateParse).totalMax == SumTotals(keys).max
    ensures OverviewOf(keys, dateParse).totalUsed == SumTotals(keys).used
    ensures OverviewOf(keys, dateParse).totalRemaining == SumTotals(keys).remaining
    decreases |keys|
  {
    if keys != [] {
      OverviewSumsEnabledKeys(keys[..|keys| - 1], dateParse);
    }
  }

  /** Over well-formed keys the totals are bounded: nothing is negative, at
      most every key is active, and the remaining total never exceeds the
      total maximum. */
  lemma {:induction false} TotalsBounds(keys: seq<RateLimitKey>)
    requires forall i :: 0 <= i < |keys| ==> WellFormed(keys[i])
    ensures 0 <= SumTotals(keys).count <= |keys|
    ensures SumTotals(keys).used >= 0
    ensures 0 <= SumTotals(keys).remaining <= SumTotals(keys).max
    decreases |keys|
  {
    if keys != [] {
      var p := keys[..|keys| - 1];
      assert forall i :: 0 <= i < |p| ==> p[i] == keys[i];
      TotalsBounds(p);
    }
  }

  /** A key takes part in `nextResetAt` when it is enabled and its reset
      time parses. */
  predicate Candidate(k: RateLimitKey, dateParse: DateParser) {
    k.enabled && dateParse(k.resetAt).Some?
  }

  /** `nextResetAt` is null exactly when no key is a candidate; otherwise it
      is the reset time of a candidate, and no candidate resets earlier. */
  lemma {:induction false} NextResetIsEarliest(keys: seq<RateLimitKey>, dateParse: DateParser)
    ensures Reduce(keys, dateParse).nextResetAt.None? <==>
      forall i :: 0 <= i < |keys| ==> !Candidate(keys[i], dateParse)
    ensures Reduce(keys, dateParse).nextResetAt.Some? ==>
      var s := Reduce(keys, dateParse).nextResetAt.value;
      dateParse(s).Some?
      && (exists i :: 0 <= i < |keys| && Candidate(keys[i], dateParse) && keys[i].resetAt == s)
      && forall i :: 0 <= i < |keys| && Candidate(keys[i], dateParse) ==>
           dateParse(s).value <= dateParse(keys[i].resetAt).value
    decreases |keys|
  {
    if keys != [] {
      var p := keys[..|keys| - 1];
      var k := keys[|keys| - 1];
      NextResetIsEarliest(p, dateParse);
      assert forall i :: 0 <= i < |p| ==> p[i] == keys[i];
      var before := Reduce(p, dateParse).nextResetAt;
      var after := Reduce(keys, dateParse).nextResetAt;
      if after.Some? {
        var s := after.value;
        if before.Some? && s == before.value {
          var i :| 0 <= i < |p| && Candidate(p[i], dateParse) && p[i].resetAt == s;
          assert keys[i] == p[i];
        } else {
          assert s == k.resetAt && Candidate(k, dateParse);
          assert keys[|keys| - 1] == k;
        }
      }
    }
  }

  lemma {:induction false} SumTotalsAppend(a: seq<RateLimitKey>, b: seq<RateLimitKey>)
    ensures SumTotals(a + b) == Plus(SumTotals(a), SumTotals(b))
    decreases |b|
  {
    if b == [] {
      assert a + b == a;
    } else {
      assert (a + b)[..|a + b| - 1] == a + b[..|b| - 1];
      SumTotalsAppend(a, b[..|b| - 1]);
    }
  }

  lemma PlusSwap(p: Totals, q: Totals, r: Totals)
    ensures Plus(Plus(p, q), r) == Plus(Plus(p, r), q)
  {
  }

  /** Taking one key out of a list takes its contribution out of the totals. */
  lemma {:induction false} SumTotalsRemove(a: seq<RateLimitKey>, x: RateLimitKey, b: seq<RateLimitKey>)
    ensures SumTotals(a + [x] + b) == Plus(SumTotals(a + b), Contribution(x))
  {
    SumTotalsAppend(a + [x], b);
    SumTotalsAppend(a, b);
    assert (a + [x])[..|a + [x]| - 1] == a;
    PlusSwap(SumTotals(a), Contribution(x), SumTotals(b));
  }

  lemma {:induction false} MultisetRemove(ys: seq<RateLimitKey>, i: int)
    requires 0 <= i < |ys|
    ensures multiset(ys[..i] + ys[i + 1..]) == multiset(ys) - multiset{ys[i]}
  {
    assert ys == ys[..i] + [ys[i]] + ys[i + 1..];
  }

  /** The totals do not depend on the order of the keys. */
  lemma {:induction false} SumTotalsPermutation(xs: seq<RateLimitKey>, ys: seq<RateLimitKey>)
    requires multiset(xs) == multiset(ys)
    ensures SumTotals(xs) == SumTotals(ys)
    decreases |xs|
  {
    if xs == [] {
      assert |ys| == |multiset(ys)| == 0;
    } else {
      var x := xs[|xs| - 1];
      var p := xs[..|xs| - 1];
      assert xs == p + [x];
      assert multiset(p) == multiset(xs) - multiset{x};
      assert x in multiset(ys);
      var i :| 0 <= i < |ys| && ys[i] == x;
      assert ys == ys[..i] + [x] + ys[i + 1..];
      SumTotalsRemove(ys[..i], x, ys[i + 1..]);
      MultisetRemove(ys, i);
      SumTotalsPermutation(p, ys[..i] + ys[i + 1..]);
    }
  }

  /** Every element of one sequence occurs in any reordering of it. */
  lemma ReorderedMember(xs: seq<RateLimitKey>, ys: seq<RateLimitKey>, i: int) returns (j: int)
    requires multiset(xs) == multiset(ys)
    requires 0 <= i < |xs|
    ensures 0 <= j < |ys| && ys[j] == xs[i]
  {
    assert xs[i] in multiset(xs);
    assert xs[i] in multiset(ys);
    j :| 0 <= j < |ys| && ys[j] == xs[i];
  }

  /** The earliest reset time found in one order is no later than the one
      found in any reordering. */
  lemma EarliestNoLater(xs: seq<RateLimitKey>, ys: seq<RateLimitKey>, dateParse: DateParser)
    requires multiset(xs) == multiset(ys)
    requires Reduce(xs, dateParse).nextResetAt.Some? && Reduce(ys, dateParse).nextResetAt.Some?
    ensures dateParse(Reduce(xs, dateParse).nextResetAt.value).Some?
    ensures dateParse(Reduce(ys, dateParse).nextResetAt.value).Some?
    ensures dateParse(Reduce(xs, dateParse).nextResetAt.value).value
      <= dateParse(Reduce(ys, dateParse).nextResetAt.value).value
  {
    NextResetIsEarliest(xs, dateParse);
    NextResetIsEarliest(ys, dateParse);
    var t := Reduce(ys, dateParse).nextResetAt.value;
    var j :| 0 <= j < |ys| && Candidate(ys[j], dateParse) && ys[j].resetAt == t;
    var i := ReorderedMember(ys, xs, j);
    assert Candidate(xs[i], dateParse);
  }

  /** Without a candidate in one order there is none in any reordering. */
  lemma NoResetReordered(xs: seq<RateLimitKey>, ys: seq<RateLimitKey>, dateParse: DateParser)
    requires multiset(xs) == multiset(ys)
    requires Reduce(xs, dateParse).nextResetAt.None?
    ensures Reduce(ys, dateParse).nextResetAt.None?
  {
    NextResetIsEarliest(xs, dateParse);
    NextResetIsEarliest(ys, dateParse);
    forall j | 0 <= j < |ys| ensures !Candidate(ys[j], dateParse) {
      var i := ReorderedMember(ys, xs, j);
    }
  }

  /** Sorting cannot change the overview: for any reordering of the keys
      the counts and totals are the same, `nextResetAt` is null for both or
      for neither, and otherwise both denote the same time. */
  lemma OverviewOrderIndependent(xs: seq<RateLimitKey>, ys: seq<RateLimitKey>, dateParse: DateParser)
    requires multiset(xs) == multiset(ys)
    ensures OverviewOf(xs, dateParse).activeKeys == OverviewOf(ys, dateParse).activeKeys
    ensures OverviewOf(xs, dateParse).totalMax == OverviewOf(ys, dateParse).totalMax
    ensures OverviewOf(xs, dateParse).totalUsed == OverviewOf(ys, dateParse).totalUsed
    ensures OverviewOf(xs, dateParse).totalRemaining == OverviewOf(ys, dateParse).totalRemaining
    ensures OverviewOf(xs, dateParse).nextResetAt.None? <==> OverviewOf(ys, dateParse).nextResetAt.None?
    ensures OverviewOf(xs, dateParse).nextResetAt.Some? ==>
      dateParse(OverviewOf(xs, dateParse).nextResetAt.value) == dateParse(OverviewOf(ys, dateParse).nextResetAt.value)
  {
    SumTotalsPermutation(xs, ys);
    OverviewSumsEnabledKeys(xs, dateParse);
    OverviewSumsEnabledKeys(ys, dateParse);
    var rx := Reduce(xs, dateParse).nextResetAt;
    var ry := Reduce(ys, dateParse).nextResetAt;
    if rx.None? {
      NoResetReordered(xs, ys, dateParse);
    } else if ry.None? {
      NoResetReordered(ys, xs, dateParse);
    } else {
      EarliestNoLater(xs, ys, dateParse);
      EarliestNoLater(ys, xs, dateParse);
    }
  }

  // ---------------------------------------------------------------------
  // The route

  /** The reply document. */
  datatype AccountView = AccountView(
    generatedAt: string,
    defaults: KeyDefaults,
    overview: Overview,
    keys: seq<RateLimitKey>)

  /** What the handler ends with: an error reply, the view, or a thrown
      value handed to the error handler. */
  datatype AccountReply = Respond(status: int, body: Value) | View(view: AccountView) | Failed(error: Thrown)

  /** The sort, left to the host (an ordering by `SortName` with `localeCompare`). */
  type KeySorter = seq<RateLimitKey> -> seq<RateLimitKey>

  /** What the host's sort promises: a reordering of the keys in which no
      key's sort name compares after the next one's under `compare`
      (`localeCompare`, negative, zero or positive). */
  predicate SortsByName(sorted: seq<RateLimitKey>, keys: seq<RateLimitKey>, compare: (string, string) -> int) {
    multiset(sorted) == multiset(keys)
    && forall i :: 0 <= i < |sorted| - 1 ==> compare(SortName(sorted[i]), SortName(sorted[i + 1])) <= 0
  }

  /** `GET /account/rate-limit` once the session lookup and the key listing
      have answered. */
  function RateLimitOverview(session: SessionResult, apiKeys: Result<seq<Value>, Thrown>, now: int,
                             defaults: KeyDefaults, host: Host, sortKeys: KeySorter): (r: AccountReply)
    ensures session.LookupThrew? ==> r == Failed(session.error)
    ensures (session.NoSession? || (session.Session? && !Truthy(session.user))) ==>
      r == Respond(401, Obj(map["error" := Str("unauthorized")]))
    ensures session.Session? && Truthy(session.user) && apiKeys.Failure? ==> r == Failed(apiKeys.error)
    ensures r.Respond? ==> r.status == 401
    ensures r.Failed? ==> session.LookupThrew? || (apiKeys.Failure? && r.error == apiKeys.error) || r.error == InvalidTimeValue
    ensures r.View? ==>
      session.Session? && Truthy(session.user) && apiKeys.Success?
      && NormalizeAll(apiKeys.value, now, defaults, host).Success?
      && r.view.keys == sortKeys(NormalizeAll(apiKeys.value, now, defaults, host).value)
      && r.view.overview == OverviewOf(r.view.keys, host.dateParse)
      && r.view.defaults == defaults
      && -MaxTime <= now <= MaxTime
      && r.view.generatedAt == host.isoText(now)
    ensures (session.Session? && Truthy(session.user) && apiKeys.Success?
             && NormalizeAll(apiKeys.value, now, defaults, host).Success? && -MaxTime <= now <= MaxTime)
      ==> r.View? && r.view.generatedAt == host.isoText(now)
    ensures r.Failed? && session.Session? && apiKeys.Success? ==>
      r.error == InvalidTimeValue
      && (NormalizeAll(apiKeys.value, now, defaults, host).Failure? || !(-MaxTime <= now <= MaxTime))
  {
    match session
    case LookupThrew(e) => Failed(e)
    case NoSession => Respond(401, Obj(map["error" := Str("unauthorized")]))
    case Session(user) =>
      if !Truthy(user) then Respond(401, Obj(map["error" := Str("unauthorized")]))
      else
        match apiKeys
        case Failure(e) => Failed(e)
        case Success(raws) =>
          match NormalizeAll(raws, now, defaults, host)
          case Failure(e) => Failed(e)
          case Success(keys) =>
            var sorted := sortKeys(keys);
            var overview := OverviewOf(sorted, host.dateParse);
            match ToIso(Some(now), host.isoText)
            case Failure(e) => Failed(e)
            case Success(generatedAt) =>
              View(AccountView(if generatedAt.Some? then generatedAt.value else "", defaults, overview, sorted))
  }

  /** Without a user the reply is 401 `unauthorized` and the keys are never
      read; when the sort only reorders, the overview's totals are those of
      the keys as listed, and every listed key is well formed; when it sorts
      by name, the reply lists the keys in that order (as the next lemma
      states). */
  lemma RateLimitOverviewSpec(session: SessionResult, apiKeys: Result<seq<Value>, Thrown>, now: int,
                              defaults: KeyDefaults, host: Host, sortKeys: KeySorter)
    ensures (session.NoSession? || (session.Session? && !Truthy(session.user))) ==>
      RateLimitOverview(session, apiKeys, now, defaults, host, sortKeys) == Respond(401, Obj(map["error" := Str("unauthorized")]))
    ensures
      var r := RateLimitOverview(session, apiKeys, now, defaults, host, sortKeys);
      r.View? && apiKeys.Success? && NormalizeAll(apiKeys.value, now, defaults, host).Success?
      && multiset(sortKeys(NormalizeAll(apiKeys.value, now, defaults, host).value))
           == multiset(NormalizeAll(apiKeys.value, now, defaults, host).value)
      ==>
        var keys := NormalizeAll(apiKeys.value, now, defaults, host).value;
        r.view.overview.totalMax == SumTotals(keys).max
        && r.view.overview.totalUsed == SumTotals(keys).used
        && r.view.overview.totalRemaining == SumTotals(keys).remaining
        && r.view.overview.activeKeys == SumTotals(keys).count
        && 0 <= r.view.overview.totalRemaining <= r.view.overview.totalMax
        && forall k :: k in r.view.keys ==> WellFormed(k)
  {
    var r := RateLimitOverview(session, apiKeys, now, defaults, host, sortKeys);
    if r.View? && apiKeys.Success? && NormalizeAll(apiKeys.value, now, defaults, host).Success? {
      var keys := NormalizeAll(apiKeys.value, now, defaults, host).value;
      var sorted := sortKeys(keys);
      if multiset(sorted) == multiset(keys) {
        SumTotalsPermutation(sorted, keys);
        OverviewSumsEnabledKeys(sorted, host.dateParse);
        TotalsBounds(keys);
        forall k | k in sorted
          ensures WellFormed(k)
        {
          assert k in multiset(sorted);
          var i :| 0 <= i < |keys| && keys[i] == k;
        }
      }
    }
  }

  /** A sort by name under `compare` lists every normalised key exactly as
      often as it was normalised, each sort name comparing no later than the
      next. */
  lemma OverviewListsKeysByName(session: SessionResult, apiKeys: Result<seq<Value>, Thrown>, now: int,
                                defaults: KeyDefaults, host: Host, sortKeys: KeySorter,
                                compare: (string, string) -> int)
    requires forall keys :: SortsByName(sortKeys(keys), keys, compare)
    ensures
      var r := RateLimitOverview(session, apiKeys, now, defaults, host, sortKeys);
      r.View? ==>
        && multiset(r.view.keys) == multiset(NormalizeAll(apiKeys.value, now, defaults, host).value)
        && forall i :: 0 <= i < |r.view.keys| - 1 ==> compare(SortName(r.view.keys[i]), SortName(r.view.keys[i + 1])) <= 0
  {
    var r := RateLimitOverview(session, apiKeys, now, defaults, host, sortKeys);
    if r.View? {
      assert SortsByName(sortKeys(NormalizeAll(apiKeys.value, now, defaults, host).value),
                         NormalizeAll(apiKeys.value, now, defaults, host).value, compare);
    }
  }
}
