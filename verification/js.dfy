/**
 The slice of JavaScript value semantics the two controllers depend on: the JSON values a
 request body can carry, truthiness, property reads, and the loose equality `==` between a
 value and a string (route parameters are always strings).
 */
module Js {
  import opened Optional

  /** A JSON value as the controllers see it after body parsing.
      Numbers are split into integers and non-integers; a non-integer keeps the spelling
      JavaScript prints for it (`"2.5"`, `"-0.25"`), which is all the controllers ever use. */
  datatype JsVal =
    | Undefined
    | Null
    | Bool(b: bool)
    | Int(i: int)
    | Frac(spelling: string)
    | Str(s: string)
    | Arr(items: seq<JsVal>)
    | Obj(fields: map<string, JsVal>)

  /** The values `if (v)` accepts: everything except undefined, null, false, 0 and "". */
  predicate Truthy(v: JsVal) {
    match v
    case Undefined => false
    case Null => false
    case Bool(b) => b
    case Int(i) => i != 0
    case Frac(_) => true
    case Str(s) => s != []
    case Arr(_) => true
    case Obj(_) => true
  }

  /** Reading any property of these throws a TypeError. */
  predicate Nullish(v: JsVal) {
    v.Undefined? || v.Null?
  }

  /** `v[name]`. The property names the controllers read (deliverTo, dishes, price, id, …) are
      not built-in properties of strings, arrays or numbers, so only an object's own fields
      contribute. */
  function Prop(v: JsVal, name: string): (r: JsVal)
    ensures !v.Obj? ==> r == Undefined
  {
    if v.Obj? && name in v.fields then v.fields[name] else Undefined
  }

  /** `typeof v == "number"` */
  predicate IsNumber(v: JsVal) {
    v.Int? || v.Frac?
  }

  /** A number greater than 0, i.e. one for which `typeof v != "number" || v <= 0` is false. */
  predicate IsPositiveNumber(v: JsVal) {
    match v
    case Int(i) => i > 0
    case Frac(t) => !(|t| > 0 && t[0] == '-')
    case _ => false
  }

  /** `Number.isInteger(v) && v > 0` */
  predicate IsPositiveInteger(v: JsVal) {
    v.Int? && v.i > 0
  }

  // ---------------------------------------------------------------------------
  // Decimal spellings of integers

  predicate IsDigit(c: char) {
    '0' <= c <= '9'
  }

  predicate AllDigits(s: string) {
    forall k :: 0 <= k < |s| ==> IsDigit(s[k])
  }

  function DigitChar(d: nat): (c: char)
    requires d < 10
    ensures IsDigit(c) && c as int - '0' as int == d
  {
    ('0' as int + d) as char
  }

  /** The number a string of decimal digits denotes. */
  function DigitsValue(ds: string): nat
    requires AllDigits(ds)
    decreases |ds|
  {
    if |ds| == 0 then 0
    else DigitsValue(ds[..|ds| - 1]) * 10 + (ds[|ds| - 1] as int - '0' as int)
  }

  /** The shortest decimal spelling of a natural number: non-empty, digits only, no leading
      zero, and denoting `n`. */
  function NatToDecimal(n: nat): (r: string)
    ensures |r| > 0 && AllDigits(r) && DigitsValue(r) == n
    ensures |r| == 1 || r[0] != '0'
    decreases n
  {
    if n < 10 then [DigitChar(n)]
    else
      var prefix := NatToDecimal(n / 10);
      var r := prefix + [DigitChar(n % 10)];
      assert r[..|r| - 1] == prefix;
      r
  }

  /** How JavaScript prints an integer (`String(i)`, template literals, `Array.prototype.join`)
      below 10^21 in magnitude; from there on JavaScript switches to exponent notation. */
  function IntToDecimal(i: int): string {
    if i < 0 then "-" + NatToDecimal(-i) else NatToDecimal(i)
  }

  // ---------------------------------------------------------------------------
  // String to number, as far as loose equality needs it

  /** White space and line terminators, which `Number(s)` ignores around the numeral. */
  predicate IsJsSpace(c: char) {
    || c == '\t' || c == '\n' || c == '\U{000B}' || c == '\U{000C}' || c == '\r' || c == ' '
    || c == '\U{00A0}' || c == '\U{1680}' || ('\U{2000}' <= c <= '\U{200A}')
    || c == '\U{2028}' || c == '\U{2029}' || c == '\U{202F}' || c == '\U{205F}' || c == '\U{3000}'
    || c == '\U{FEFF}'
  }

  function TrimStart(s: string): (r: string)
    decreases |s|
  {
    if |s| > 0 && IsJsSpace(s[0]) then TrimStart(s[1..]) else s
  }

  function TrimEnd(s: string): (r: string)
    decreases |s|
  {
    if |s| > 0 && IsJsSpace(s[|s| - 1]) then TrimEnd(s[..|s| - 1]) else s
  }

  /** `Number(s)` when it is an integer written in decimal: optional sign, digits, surrounding
      white space; a blank string is 0. None for every other string. */
  function StringToInteger(s: string): Option<int> {
    var t := TrimEnd(TrimStart(s));
    if |t| == 0 then Some(0)
    else if AllDigits(t) then Some(DigitsValue(t))
    else if |t| > 1 && (t[0] == '+' || t[0] == '-') && AllDigits(t[1..]) then
      var magnitude: int := DigitsValue(t[1..]);
      Some(if t[0] == '-' then -magnitude else magnitude)
    else None
  }

  /** Reading back the way JavaScript prints an integer gives the integer. */
  lemma DecimalRoundTrip(i: int)
    ensures StringToInteger(IntToDecimal(i)) == Some(i)
  {

  }

  // ---------------------------------------------------------------------------
  // String conversion and loose equality

  /** `String(v)`, as a template literal `${v}` prints it. Arrays print as their elements
      joined with commas; plain objects as "[object Object]". */
  function ToStr(v: JsVal): string
    decreases v, 1
  {
    match v
    case Undefined => "undefined"
    case Null => "null"
    case Bool(b) => if b then "true" else "false"
    case Int(i) => IntToDecimal(i)
    case Frac(t) => t
    case Str(s) => s
    case Arr(_) => Join(v, 0)
    case Obj(_) => "[object Object]"
  }

  /** `a.join(",")` from element `k` on; undefined and null elements print as nothing. */
  function Join(a: JsVal, k: nat): string
    requires a.Arr? && k <= |a.items|
    decreases a, 0, |a.items| - k
  {
    if k == |a.items| then ""
    else
      var e := a.items[k];
      var piece := if Nullish(e) then "" else ToStr(e);
      if k + 1 == |a.items| then piece else piece + "," + Join(a, k + 1)
  }

  /** `v == s` for a string `s` (the abstract equality comparison of ECMAScript). A string
      compares as a string; a number or boolean compares with the number `s` spells; an array
      or object compares through its string form; undefined and null equal no string. */
  predicate LooseEqualsString(v: JsVal, s: string) {
    match v
    case Undefined => false
    case Null => false
    case Bool(b) => StringToInteger(s) == Some(if b then 1 else 0)
    case Int(i) => StringToInteger(s) == Some(i)
    case Frac(t) => TrimEnd(TrimStart(s)) == t
    case Str(t) => t == s
    case Arr(_) => ToStr(v) == s
    case Obj(_) => ToStr(v) == s
  }

  /** An integer is loosely equal to its own printed form, and to no other integer's. */
  lemma IntLooselyEqualsItsSpelling(i: int, j: int)
    ensures LooseEqualsString(Int(i), IntToDecimal(j)) <==> i == j
  {

  }
}
