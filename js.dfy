/**
 * The fragment of JavaScript value semantics that the handlers depend on:
 * JSON values, truthiness, conversion to string (template literals, `String(x)`,
 * `URLSearchParams` values, `RegExp.prototype.test`) and `parseInt`.
 */
module Js {
  import opened Wrappers

  /** A JSON value as produced by `JSON.parse`. Numbers are modelled as integers. */
  datatype Json =
    | JNull
    | JBool(b: bool)
    | JNum(n: int)
    | JStr(s: string)
    | JArr(items: seq<Json>)
    | JObj(fields: map<string, Json>)

  /** A JavaScript number as far as the handlers distinguish it: an integer or NaN. */
  datatype Num = Int(value: int) | NaN

  /** JavaScript truthiness of a defined value. */
  predicate Truthy(v: Json) {
    match v
    case JNull => false
    case JBool(b) => b
    case JNum(n) => n != 0
    case JStr(s) => s != ""
    case JArr(_) => true
    case JObj(_) => true
  }

  /** Truthiness of a value that may be undefined (None). */
  predicate TruthyOpt(v: Option<Json>) {
    v.Some? && Truthy(v.value)
  }

  /** Truthiness of a string that may be null or undefined. */
  predicate TruthyString(s: Option<string>) {
    s.Some? && s.value != ""
  }

  /**
   * Property read `v.key` on a value that is not null. None is undefined.
   * Only objects carry the property names the handlers read.
   */
  function Prop(v: Json, key: string): (r: Option<Json>)
    ensures r.Some? <==> v.JObj? && key in v.fields
    ensures r.Some? ==> r.value == v.fields[key]
  {
    match v
    case JObj(m) => if key in m then Some(m[key]) else None
    case _ => None
  }

  /** The fields of a value read as a record: a non-object has none of the names read here. */
  function Fields(v: Json): map<string, Json> {
    match v
    case JObj(m) => m
    case _ => map[]
  }

  /** `const { key = default } = record`: the default applies only when the field is undefined. */
  function Destructure(fields: map<string, Json>, key: string, default: Json): (r: Json)
    ensures key in fields ==> r == fields[key]
    ensures key !in fields ==> r == default
  {
    if key in fields then fields[key] else default
  }

  /** The decimal digits of a natural number. */
  function NatToString(n: nat): (r: string)
    ensures |r| > 0
    ensures forall i :: 0 <= i < |r| ==> '0' <= r[i] <= '9'
  {
    var d := ['0' + (n % 10) as char];
    if n < 10 then d else NatToString(n / 10) + d
  }

  /** `String(n)` for an integer. */
  function IntToString(n: int): string {
    if n < 0 then "-" + NatToString(-n) else NatToString(n)
  }

  /** `String(v)` / template-literal conversion of a JSON value. */
  function ToJsString(v: Json): string {
    match v
    case JNull => "null"
    case JBool(b) => if b then "true" else "false"
    case JNum(n) => IntToString(n)
    case JStr(s) => s
    case JArr(xs) => Join(xs)
    case JObj(_) => "[object Object]"
  }

  /** `Array.prototype.join` with the default separator: null elements print as "". */
  function Join(xs: seq<Json>): string {
    if xs == [] then ""
    else
      (if xs[0].JNull? then "" else ToJsString(xs[0]))
      + (if |xs| == 1 then "" else "," + Join(xs[1..]))
  }

  /** The characters that `\s` matches and that `parseInt` skips (WhiteSpace and LineTerminator). */
  predicate IsJsWhitespace(c: char) {
    c == '\t' || c == '\n' || c == '\U{000B}' || c == '\U{000C}' || c == '\r' || c == ' '
    || c == '\U{00A0}' || c == '\U{1680}' || ('\U{2000}' <= c <= '\U{200A}')
    || c == '\U{2028}' || c == '\U{2029}' || c == '\U{202F}' || c == '\U{205F}'
    || c == '\U{3000}' || c == '\U{FEFF}'
  }

  /** The value of `c` as a digit in `radix` (10 or 16), or -1 when it is not one. */
  function DigitValue(c: char, radix: nat): (r: int)
    requires radix == 10 || radix == 16
    ensures -1 <= r < radix
  {
    if '0' <= c <= '9' then (c - '0') as int
    else if radix == 16 && 'a' <= c <= 'f' then (c - 'a') as int + 10
    else if radix == 16 && 'A' <= c <= 'F' then (c - 'A') as int + 10
    else -1
  }

  /** The length of the longest prefix of `s` made of digits in `radix`. */
  function DigitRun(s: string, radix: nat): (n: nat)
    requires radix == 10 || radix == 16
    ensures n <= |s|
    ensures forall i :: 0 <= i < n ==> DigitValue(s[i], radix) >= 0
    ensures n < |s| ==> DigitValue(s[n], radix) < 0
  {
    if s == [] || DigitValue(s[0], radix) < 0 then 0 else 1 + DigitRun(s[1..], radix)
  }

  /** The value of a string of digits in `radix`, most significant first. */
  function DigitsValue(s: string, radix: nat): nat
    requires radix == 10 || radix == 16
    requires forall i :: 0 <= i < |s| ==> DigitValue(s[i], radix) >= 0
  {
    if s == [] then 0
    else DigitsValue(s[..|s| - 1], radix) * radix + DigitValue(s[|s| - 1], radix)
  }

  /** Leading JavaScript whitespace removed. */
  function TrimStart(s: string): (r: string)
    ensures |r| <= |s| && r == s[|s| - |r|..]
    ensures r != [] ==> !IsJsWhitespace(r[0])
  {
    if s != [] && IsJsWhitespace(s[0]) then TrimStart(s[1..]) else s
  }

  /**
   * The unsigned part of `parseInt`: a "0x" prefix selects radix 16, then the
   * longest run of digits is read; None when that run is empty.
   */
  function ParseMagnitude(u: string): Option<nat> {
    var hex := |u| >= 2 && u[0] == '0' && (u[1] == 'x' || u[1] == 'X');
    var radix := if hex then 16 else 10;
    var w := if hex then u[2..] else u;
    var n := DigitRun(w, radix);
    if n == 0 then None
    else Some(DigitsValue(w[..n], radix))
  }

  /**
   * `parseInt(s)` with no radix: leading whitespace, an optional sign, then
   * the unsigned part; NaN when there are no digits.
   */
  function ParseInt(s: string): Num {
    var t := TrimStart(s);
    var negative := t != [] && t[0] == '-';
    var u := if t != [] && (t[0] == '-' || t[0] == '+') then t[1..] else t;
    match ParseMagnitude(u)
    case None => NaN
    case Some(v) => Int(if negative then -(v as int) else v)
  }

  /** The decimal digits of `n` read back give `n`. */
  lemma {:induction false} DigitsValueOfNat(n: nat)
    ensures DigitsValue(NatToString(n), 10) == n
  {
    var s := NatToString(n);
    if n >= 10 {
      DigitsValueOfNat(n / 10);
      assert s[..|s| - 1] == NatToString(n / 10);
    }
  }

  predicate AllDecimal(d: string) {
    forall i :: 0 <= i < |d| ==> '0' <= d[i] <= '9'
  }

  /** A non-empty run of decimal digits has no hex prefix and reads as its value. */
  lemma MagnitudeOfDigits(d: string)
    requires |d| > 0 && AllDecimal(d)
    ensures ParseMagnitude(d) == Some(DigitsValue(d, 10))
  {
    assert !(|d| >= 2 && d[0] == '0' && (d[1] == 'x' || d[1] == 'X')) by {
      if |d| >= 2 {
        assert '0' <= d[1] <= '9';
      }
    }
    DigitRunOfDecimal(d);
    assert d[..|d|] == d;
  }

  /** The digit run of a string of decimal digits is all of it. */
  lemma DigitRunOfDecimal(d: string)
    requires AllDecimal(d)
    ensures DigitRun(d, 10) == |d|
  {
  }

  /** A string that starts with a digit or a sign has no leading whitespace to skip. */
  lemma TrimStartKeeps(s: string)
    requires |s| > 0 && ('0' <= s[0] <= '9' || s[0] == '-')
    ensures TrimStart(s) == s
  {
    assert !IsJsWhitespace(s[0]);
  }

  /** A non-empty run of decimal digits parses to its value. */
  lemma ParseIntOfDigits(d: string)
    requires |d| > 0 && AllDecimal(d)
    ensures ParseInt(d) == Int(DigitsValue(d, 10))
  {
    MagnitudeOfDigits(d);
    TrimStartKeeps(d);
  }

  /** A '-' followed by a non-empty run of decimal digits parses to minus its value. */
  lemma ParseIntOfNegative(d: string)
    requires |d| > 0 && AllDecimal(d)
    ensures ParseInt("-" + d) == Int(-(DigitsValue(d, 10) as int))
  {
    var t := "-" + d;
    TrimStartKeeps(t);
    assert t[0] == '-';
    assert t[1..] == d;
    MagnitudeOfDigits(t[1..]);
  }

  /** `parseInt(String(n))` is `n` for every integer: the two conversions are inverse. */
  lemma ParseIntOfIntToString(n: int)
    ensures ParseInt(IntToString(n)) == Int(n)
  {
    var a := if n < 0 then -n else n;
    DigitsValueOfNat(a);
    if n < 0 {
      ParseIntOfNegative(NatToString(a));
    } else {
      ParseIntOfDigits(NatToString(a));
    }
  }
}
