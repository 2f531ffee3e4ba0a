/**
  JavaScript value semantics that every part of the gateway relies on:
  the values a handler can receive, truthiness (`if (x)`, `x || y`), property
  access, `String(x)`, `Number(x)`, `Number.parseInt(x, 10)`, `trim`,
  `toLowerCase`, `startsWith`, `includes`, `split` and `join`.

  Numbers are integers: a JavaScript number is `Num(n)` when it is a finite
  integer, `NaN`, or `Infinity(negative)`. Fractional numbers are not values
  of this model.
 */
module Js {

  datatype Option<+T> = None | Some(value: T)

  /** The outcome of an operation that may throw. */
  datatype Result<+T, +E> = Success(value: T) | Failure(error: E)

  /** A JavaScript value as the gateway's handlers see it. A `Date` carries
      its time value (None for an invalid date) and the text `String(date)`
      gives for it, which depends on the host's time zone. */
  datatype Value =
    | Undefined
    | Null
    | Bool(b: bool)
    | Num(n: int)
    | NaN
    | Infinity(negative: bool)
    | Str(s: string)
    | Arr(items: seq<Value>)
    | Obj(fields: map<string, Value>)
    | DateObj(time: Option<int>, text: string)

  /** `Boolean(v)`: the falsy values are undefined, null, false, 0, NaN and "". */
  predicate Truthy(v: Value) {
    match v
    case Undefined => false
    case Null => false
    case Bool(b) => b
    case Num(n) => n != 0
    case NaN => false
    case Str(s) => s != ""
    case _ => true
  }

  /** `a || b` */
  function Or(a: Value, b: Value): Value {
    if Truthy(a) then a else b
  }

  /** `typeof v === "object" && v !== null`: plain objects, arrays and dates. */
  predicate IsObjectType(v: Value) {
    v.Arr? || v.Obj? || v.DateObj?
  }

  /** `v?.name` for every property name the gateway reads. Only own fields
      of plain objects are modelled; none of the names the core reads is a
      property of arrays, strings, dates or Object.prototype. */
  function Prop(v: Value, name: string): Value {
    if v.Obj? && name in v.fields then v.fields[name] else Undefined
  }

  /** An object literal built from an ordered list of fields. */
  function ObjOf(fields: seq<(string, Value)>): map<string, Value>
    decreases |fields|
  {
    if fields == [] then map[]
    else ObjOf(fields[..|fields| - 1])[fields[|fields| - 1].0 := fields[|fields| - 1].1]
  }

  // ---------------------------------------------------------------------
  // Characters and strings

  /** ECMAScript WhiteSpace and LineTerminator code points: what `trim`
      removes and what `parseInt` skips. */
  predicate IsJsSpace(c: char) {
    || c == '\t' || c == '\n' || c == '\U{B}' || c == '\U{C}' || c == '\r' || c == ' '
    || c == '\U{A0}' || c == '\U{1680}' || ('\U{2000}' <= c <= '\U{200A}')
    || c == '\U{2028}' || c == '\U{2029}' || c == '\U{202F}' || c == '\U{205F}'
    || c == '\U{3000}' || c == '\U{FEFF}'
  }

  predicate AllSpace(s: string) {
    forall i :: 0 <= i < |s| ==> IsJsSpace(s[i])
  }

  function TrimStart(s: string): string
    decreases |s|
  {
    if |s| > 0 && IsJsSpace(s[0]) then TrimStart(s[1..]) else s
  }

  function TrimEnd(s: string): string
    decreases |s|
  {
    if |s| > 0 && IsJsSpace(s[|s| - 1]) then TrimEnd(s[..|s| - 1]) else s
  }

  /** `s.trim()` */
  function Trim(s: string): string {
    TrimEnd(TrimStart(s))
  }

  /** TrimStart drops exactly the leading whitespace. */
  lemma {:induction false} TrimStartSpec(s: string)
    ensures |TrimStart(s)| <= |s|
    ensures TrimStart(s) == s[|s| - |TrimStart(s)|..]
    ensures AllSpace(s[..|s| - |TrimStart(s)|])
    ensures TrimStart(s) != "" ==> !IsJsSpace(TrimStart(s)[0])
    decreases |s|
  {
    if |s| > 0 && IsJsSpace(s[0]) {
      TrimStartSpec(s[1..]);
      var k := |s| - |TrimStart(s)|;
      assert s[1..][..k - 1] == s[1..k];
      assert s[..k] == [s[0]] + s[1..k];
    }
  }

  /** TrimEnd drops exactly the trailing whitespace. */
  lemma {:induction false} TrimEndSpec(s: string)
    ensures |TrimEnd(s)| <= |s|
    ensures TrimEnd(s) == s[..|TrimEnd(s)|]
    ensures AllSpace(s[|TrimEnd(s)|..])
    ensures TrimEnd(s) != "" ==> !IsJsSpace(TrimEnd(s)[|TrimEnd(s)| - 1])
    decreases |s|
  {
    if |s| > 0 && IsJsSpace(s[|s| - 1]) {
      var p := s[..|s| - 1];
      TrimEndSpec(p);
      var k := |TrimEnd(s)|;
      assert p[k..] + [s[|s| - 1]] == s[k..];
    }
  }

  /** `trim` keeps a contiguous part of its input, that part neither starts
      nor ends with whitespace, and everything it removes is whitespace. */
  lemma TrimSpec(s: string)
    ensures |Trim(s)| <= |s|
    ensures exists i :: (0 <= i <= |s| - |Trim(s)|
      && s[i..i + |Trim(s)|] == Trim(s) && AllSpace(s[..i]) && AllSpace(s[i + |Trim(s)|..]))
    ensures Trim(s) != "" ==> !IsJsSpace(Trim(s)[0]) && !IsJsSpace(Trim(s)[|Trim(s)| - 1])
  {
    TrimStartSpec(s);
    var t := TrimStart(s);
    TrimEndSpec(t);
    var r := Trim(s);
    var i := |s| - |t|;
    assert t == s[i..];
    assert r == t[..|r|];
    assert s[i..i + |r|] == r;
    assert t[|r|..] == s[i + |r|..];
    if r != "" {
      assert r[0] == t[0];
    }
  }

  /** A string trims to "" exactly when it is all whitespace. */
  lemma TrimEmptyIffAllSpace(s: string)
    ensures Trim(s) == "" <==> AllSpace(s)
  {
    TrimStartSpec(s);
    TrimEndSpec(TrimStart(s));
    if Trim(s) == "" {
      // TrimStart(s) starts with a non-space, yet TrimEnd removes all of it
      assert TrimStart(s) == "";
      assert s[..|s|] == s;
    }
  }

  /** `trim` is idempotent. */
  lemma TrimIdempotent(s: string)
    ensures Trim(Trim(s)) == Trim(s)
  {
    TrimSpec(s);
    var r := Trim(s);
    if r != "" {
      assert TrimStart(r) == r;
      assert TrimEnd(r) == r;
    }
  }

  function LowerChar(c: char): char {
    if 'A' <= c <= 'Z' then (c as int + 32) as char else c
  }

  /** `s.toLowerCase()` on ASCII letters. */
  function Lower(s: string): string {
    seq(|s|, i requires 0 <= i < |s| => LowerChar(s[i]))
  }

  /** Lower-casing twice is lower-casing once. */
  lemma LowerIdempotent(s: string)
    ensures Lower(Lower(s)) == Lower(s)
  {
    assert forall i :: 0 <= i < |s| ==> LowerChar(LowerChar(s[i])) == LowerChar(s[i]);
  }

  /** Lower-casing changes no whitespace, so trimming and lower-casing
      commute. */
  lemma {:induction false} TrimStartLower(s: string)
    ensures TrimStart(Lower(s)) == Lower(TrimStart(s))
    decreases |s|
  {
    if |s| > 0 {
      assert Lower(s)[0] == LowerChar(s[0]);
      assert IsJsSpace(LowerChar(s[0])) == IsJsSpace(s[0]);
      if IsJsSpace(s[0]) {
        assert Lower(s)[1..] == Lower(s[1..]);
        TrimStartLower(s[1..]);
      }
    }
  }

  lemma {:induction false} TrimEndLower(s: string)
    ensures TrimEnd(Lower(s)) == Lower(TrimEnd(s))
    decreases |s|
  {
    if |s| > 0 {
      var n := |s| - 1;
      assert Lower(s)[n] == LowerChar(s[n]);
      assert IsJsSpace(LowerChar(s[n])) == IsJsSpace(s[n]);
      if IsJsSpace(s[n]) {
        assert Lower(s)[..n] == Lower(s[..n]);
        TrimEndLower(s[..n]);
      }
    }
  }

  lemma TrimLower(s: string)
    ensures Trim(Lower(s)) == Lower(Trim(s))
  {
    TrimStartLower(s);
    TrimEndLower(TrimStart(s));
  }

  /** `s.startsWith(p)` */
  predicate StartsWith(s: string, p: string) {
    |p| <= |s| && s[..|p|] == p
  }

  /** `s.includes(sub)` */
  predicate Contains(s: string, sub: string)
    decreases |s|
  {
    StartsWith(s, sub) || (|s| > 0 && Contains(s[1..], sub))
  }

  predicate OccursAt(s: string, sub: string, i: int) {
    0 <= i <= |s| - |sub| && s[i..i + |sub|] == sub
  }

  /** `s.includes(sub)` holds exactly when `sub` occurs at some offset. */
  lemma {:induction false} ContainsAt(s: string, sub: string)
    ensures Contains(s, sub) <==> exists i :: OccursAt(s, sub, i)
    decreases |s|
  {
    if StartsWith(s, sub) {
      assert OccursAt(s, sub, 0);
    } else if |s| > 0 {
      ContainsAt(s[1..], sub);
      if Contains(s[1..], sub) {
        var i :| OccursAt(s[1..], sub, i);
        assert OccursAt(s, sub, i + 1);
      }
      if exists i :: OccursAt(s, sub, i) {
        var i :| OccursAt(s, sub, i);
        assert i != 0;
        assert OccursAt(s[1..], sub, i - 1);
      }
    }
  }

  /** `parts.join(sep)` */
  function Join(parts: seq<string>, sep: string): string
    decreases |parts|
  {
    if parts == [] then ""
    else if |parts| == 1 then parts[0]
    else parts[0] + sep + Join(parts[1..], sep)
  }

  /** `s.split(sep)` with a one-character separator. */
  function Split(s: string, sep: char): (parts: seq<string>)
    ensures |parts| >= 1
    decreases |s|
  {
    if s == [] then [""]
    else
      var rest := Split(s[1..], sep);
      if s[0] == sep then [""] + rest else [[s[0]] + rest[0]] + rest[1..]
  }

  predicate Lacks(p: string, c: char) {
    c !in p
  }

  /** Joining the pieces of a split with the separator gives back the input,
      and no piece contains the separator. */
  lemma {:induction false} SplitJoin(s: string, sep: char)
    ensures Join(Split(s, sep), [sep]) == s
    ensures forall k :: 0 <= k < |Split(s, sep)| ==> Lacks(Split(s, sep)[k], sep)
    decreases |s|
  {
    if s != [] {
      var rest := Split(s[1..], sep);
      SplitJoin(s[1..], sep);
      if s[0] == sep {
        assert Split(s, sep) == [""] + rest;
        assert Split(s, sep)[1..] == rest;
        assert s == [s[0]] + s[1..];
      } else {
        var parts := Split(s, sep);
        assert parts == [[s[0]] + rest[0]] + rest[1..];
        assert parts[1..] == rest[1..];
        if |rest| == 1 {
          assert Join(rest, [sep]) == rest[0];
        } else {
          assert Join(rest, [sep]) == rest[0] + [sep] + Join(rest[1..], [sep]);
        }
        assert s == [s[0]] + s[1..];
        forall k | 0 <= k < |parts| ensures Lacks(parts[k], sep) {
          if k == 0 {
            assert Lacks(rest[0], sep);
          } else {
            assert parts[k] == rest[k];
          }
        }
      }
    }
  }

  lemma {:induction false} SplitNoSeparator(a: string, sep: char)
    requires Lacks(a, sep)
    ensures Split(a, sep) == [a]
    decreases |a|
  {
    if a != [] {
      SplitNoSeparator(a[1..], sep);
      assert [a[0]] + a[1..] == a;
    }
  }

  lemma {:induction false} SplitAfterPiece(a: string, rest: string, sep: char)
    requires Lacks(a, sep)
    ensures Split(a + [sep] + rest, sep) == [a] + Split(rest, sep)
    decreases |a|
  {
    var s := a + [sep] + rest;
    if a == [] {
      assert s[1..] == rest;
    } else {
      assert s[1..] == a[1..] + [sep] + rest;
      SplitAfterPiece(a[1..], rest, sep);
      assert [a[0]] + a[1..] == a;
    }
  }

  /** Splitting a join of pieces free of the separator gives the pieces back. */
  lemma {:induction false} JoinSplit(parts: seq<string>, sep: char)
    requires |parts| >= 1
    requires forall k :: 0 <= k < |parts| ==> Lacks(parts[k], sep)
    ensures Split(Join(parts, [sep]), sep) == parts
    decreases |parts|
  {
    if |parts| == 1 {
      SplitNoSeparator(parts[0], sep);
    } else {
      assert forall k :: 0 <= k < |parts[1..]| ==> parts[1..][k] == parts[k + 1];
      JoinSplit(parts[1..], sep);
      SplitAfterPiece(parts[0], Join(parts[1..], [sep]), sep);
      assert [parts[0]] + parts[1..] == parts;
    }
  }

  // ---------------------------------------------------------------------
  // Arrays

  /** `items.filter(keep)`: the items `keep` accepts, each as often as in
      `items` and in their original order. */
  function Filter<T(!new)>(items: seq<T>, keep: T -> bool): (r: seq<T>)
    ensures |r| <= |items|
    ensures forall i :: 0 <= i < |r| ==> r[i] in items && keep(r[i])
    decreases |items|
  {
    if items == [] then []
    else
      var init, last := items[..|items| - 1], items[|items| - 1];
      var rest := Filter(init, keep);
      if keep(last) then rest + [last] else rest
  }

  /** Every accepted item is kept as often as it occurs; nothing else is. */
  lemma {:induction false} FilterCounts<T(!new)>(items: seq<T>, keep: T -> bool)
    ensures forall x :: multiset(Filter(items, keep))[x] == (if keep(x) then multiset(items)[x] else 0)
    decreases |items|
  {
    if items != [] {
      var init, last := items[..|items| - 1], items[|items| - 1];
      assert items == init + [last];
      FilterCounts(init, keep);
    }
  }

  /** Filtering a concatenation filters each part in turn, so the order of
      the kept items is the order they had. */
  lemma {:induction false} FilterConcat<T(!new)>(front: seq<T>, back: seq<T>, keep: T -> bool)
    ensures Filter(front + back, keep) == Filter(front, keep) + Filter(back, keep)
    decreases |back|
  {
    if back == [] {
      assert front + back == front;
    } else {
      var both, init, last := front + back, back[..|back| - 1], back[|back| - 1];
      assert both[..|both| - 1] == front + init;
      assert both[|both| - 1] == last;
      FilterConcat(front, init, keep);
      var kept := if keep(last) then [last] else [];
      assert Filter(back, keep) == Filter(init, keep) + kept;
      assert Filter(both, keep) == Filter(front + init, keep) + kept;
      assert Filter(front, keep) + Filter(init, keep) + kept == Filter(front, keep) + (Filter(init, keep) + kept);
    }
  }

  // ---------------------------------------------------------------------
  // Decimal numbers

  predicate IsDigit(c: char) {
    '0' <= c <= '9'
  }

  predicate AllDigits(s: string) {
    forall i :: 0 <= i < |s| ==> IsDigit(s[i])
  }

  function DigitVal(c: char): nat
    requires IsDigit(c)
  {
    c as int - '0' as int
  }

  function DigitChar(d: nat): char
    requires d < 10
  {
    ('0' as int + d) as char
  }

  /** The number a string of decimal digits denotes. */
  function DigitsValue(d: string): nat
    requires AllDigits(d)
    decreases |d|
  {
    if d == [] then 0 else DigitsValue(d[..|d| - 1]) * 10 + DigitVal(d[|d| - 1])
  }

  /** The longest prefix of `s` made of decimal digits. */
  function DigitPrefix(s: string): (r: string)
    ensures AllDigits(r) && r <= s
    ensures |r| == |s| || !IsDigit(s[|r|])
    decreases |s|
  {
    if |s| > 0 && IsDigit(s[0]) then [s[0]] + DigitPrefix(s[1..]) else []
  }

  /** The decimal text of a natural number, without leading zeros. */
  function NatToDecimal(n: nat): (r: string)
    ensures |r| > 0 && AllDigits(r) && DigitsValue(r) == n
    ensures |r| > 1 ==> r[0] != '0'
    decreases n
  {
    if n < 10 then [DigitChar(n)]
    else
      var r := NatToDecimal(n / 10) + [DigitChar(n % 10)];
      assert r[..|r| - 1] == NatToDecimal(n / 10);
      r
  }

  /** `String(n)` for an integer. */
  function IntToDecimal(n: int): string {
    if n < 0 then "-" + NatToDecimal(-n) else NatToDecimal(n)
  }

  /** `Number.parseInt(s, 10)`: skip leading whitespace, read an optional
      sign and the longest run of decimal digits; None stands for NaN.
      A result of -0 is read as 0. */
  function ParseInt(s: string): Option<int> {
    var t := TrimStart(s);
    var negative := |t| > 0 && t[0] == '-';
    var u := if |t| > 0 && (t[0] == '-' || t[0] == '+') then t[1..] else t;
    var z := DigitPrefix(u);
    if z == [] then None
    else
      var magnitude: int := DigitsValue(z);
      Some(if negative then -magnitude else magnitude)
  }

  lemma DigitPrefixOfDigits(s: string)
    requires AllDigits(s)
    ensures DigitPrefix(s) == s
  {
  }

  /** `parseInt` reads back the decimal text of every integer. */
  lemma ParseIntDecimal(n: int)
    ensures ParseInt(IntToDecimal(n)) == Some(n)
  {
    var d := NatToDecimal(if n < 0 then -n else n);
    DigitPrefixOfDigits(d);
    if n < 0 {
      var s := "-" + d;
      assert TrimStart(s) == s;
      assert s[1..] == d;
    } else {
      assert !IsJsSpace(d[0]);
      assert TrimStart(d) == d;
      assert d[0] != '-' && d[0] != '+';
    }
  }

  /** `parseInt` gives NaN for an empty or all-whitespace string. */
  lemma ParseIntBlank(s: string)
    requires AllSpace(s)
    ensures ParseInt(s) == None
  {
    TrimStartSpec(s);
  }

  /** `Number(s)` for a string: blank is 0, "Infinity" with an optional sign,
      and an optionally signed run of decimal digits; every other string
      (including fractions, exponents and 0x/0o/0b literals) is read as NaN. */
  function StringToNumber(s: string): Value {
    var t := Trim(s);
    if t == "" then Num(0)
    else if t == "Infinity" || t == "+Infinity" then Infinity(false)
    else if t == "-Infinity" then Infinity(true)
    else
      var u := if t[0] == '-' || t[0] == '+' then t[1..] else t;
      if u != "" && AllDigits(u) then
        var magnitude: int := DigitsValue(u);
        Num(if t[0] == '-' then -magnitude else magnitude)
      else NaN
  }

  /** `String(v)` */
  function ToJsString(v: Value): string
    decreases v
  {
    match v
    case Undefined => "undefined"
    case Null => "null"
    case Bool(b) => if b then "true" else "false"
    case Num(n) => IntToDecimal(n)
    case NaN => "NaN"
    case Infinity(negative) => if negative then "-Infinity" else "Infinity"
    case Str(s) => s
    case Arr(items) => JoinItems(items)
    case Obj(_) => "[object Object]"
    case DateObj(_, text) => text
  }

  /** `items.join(",")` as `String` of an array does it: null and undefined
      elements become empty strings. */
  function JoinItems(items: seq<Value>): string
    decreases items
  {
    if items == [] then ""
    else
      var head := if items[0].Null? || items[0].Undefined? then "" else ToJsString(items[0]);
      if |items| == 1 then head else head + "," + JoinItems(items[1..])
  }

  /** `Number(v)` */
  function JsNumber(v: Value): Value {
    match v
    case Undefined => NaN
    case Null => Num(0)
    case Bool(b) => Num(if b then 1 else 0)
    case Num(n) => v
    case NaN => NaN
    case Infinity(_) => v
    case Str(s) => StringToNumber(s)
    case Arr(_) => StringToNumber(ToJsString(v))
    case Obj(_) => NaN
    case DateObj(time, _) => if time.Some? then Num(time.value) else NaN
  }

  /** The decimal text of an integer has no surrounding whitespace. */
  lemma DecimalIsTrimmed(n: int)
    ensures Trim(IntToDecimal(n)) == IntToDecimal(n)
  {
    var t := IntToDecimal(n);
    assert !IsJsSpace(t[0]) && !IsJsSpace(t[|t| - 1]);
    assert TrimStart(t) == t;
    assert TrimEnd(t) == t;
  }

  /** `Number` reads back the decimal text of every integer. */
  lemma NumberDecimal(n: int)
    ensures StringToNumber(IntToDecimal(n)) == Num(n)
  {
    var d := NatToDecimal(if n < 0 then -n else n);
    var t := IntToDecimal(n);
    DecimalIsTrimmed(n);
    assert t != "Infinity" && t != "+Infinity" && t != "-Infinity" by {
      assert t[0] == '-' ==> t[1] == d[0] && IsDigit(t[1]);
    }
    if n < 0 {
      assert t[1..] == d;
    } else {
      assert IsDigit(t[0]);
    }
  }
}
