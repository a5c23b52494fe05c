/**
  The JavaScript values that cross the system's boundaries: request and
  socket payloads, parsed response bodies and thrown error objects, with
  the parts of JavaScript's semantics the core relies on (truthiness,
  `typeof`, property access, `||`, `Number(...)` and number-to-string).

  Numbers are restricted to NaN and the integers; see README "Left out".
*/
module JsValue {

  /** A JavaScript number, restricted to NaN and the integers. */
  datatype Number = NaN | Int(i: int)

  /** A JavaScript value as produced by JSON parsing (plus `undefined`). */
  datatype Value =
    | Undefined
    | Null
    | Bool(b: bool)
    | Num(n: Number)
    | Str(s: string)
    | Arr(items: seq<Value>)
    | Obj(fields: map<string, Value>)

  /** JavaScript truthiness: `undefined`, `null`, `false`, `0`, `NaN` and `''` are falsy. */
  predicate Truthy(v: Value) {
    match v
    case Undefined => false
    case Null => false
    case Bool(b) => b
    case Num(n) => n.Int? && n.i != 0
    case Str(s) => s != ""
    case Arr(_) => true
    case Obj(_) => true
  }

  /** `typeof v === 'object'` (true of `null` and of arrays too). */
  predicate IsObjectType(v: Value) {
    v.Null? || v.Arr? || v.Obj?
  }

  /** Property access `v.key` on a value that is neither `undefined` nor `null`
      (on those two JavaScript throws). Only plain objects carry the keys the
      core reads; on every other value the property is `undefined`. */
  function Get(v: Value, key: string): (r: Value)
    requires !v.Undefined? && !v.Null?
    ensures !v.Obj? ==> r == Undefined
    ensures v.Obj? ==> r == if key in v.fields then v.fields[key] else Undefined
  {
    if v.Obj? && key in v.fields then v.fields[key] else Undefined
  }

  /** JavaScript's `a || b`. */
  function Or(a: Value, b: Value): (r: Value)
    ensures Truthy(a) ==> r == a
    ensures !Truthy(a) ==> r == b
  {
    if Truthy(a) then a else b
  }

  /* ---------- decimal digits ---------- */

  predicate IsDigit(c: char) {
    '0' <= c <= '9'
  }

  predicate AllDigits(s: string) {
    forall k | 0 <= k < |s| :: IsDigit(s[k])
  }

  function DigitChar(d: nat): (c: char)
    requires d < 10
    ensures IsDigit(c) && c as int - '0' as int == d
  {
    (('0' as int) + d) as char
  }

  /** The value of a string of decimal digits, most significant first. */
  function DigitsValue(s: string): nat
    requires AllDigits(s)
    decreases |s|
  {
    if |s| == 0 then 0
    else DigitsValue(s[..|s| - 1]) * 10 + (s[|s| - 1] as int - '0' as int)
  }

  /** The shortest decimal notation of a natural number. */
  function NatToDecimal(n: nat): (s: string)
    ensures |s| > 0 && AllDigits(s)
    decreases n
  {
    if n < 10 then [DigitChar(n)] else NatToDecimal(n / 10) + [DigitChar(n % 10)]
  }

  /** JavaScript's `String(n)` (and `${n}`) of an integral number below
      1e21 in magnitude; larger doubles print in exponent form. */
  function IntToDecimal(i: int): (s: string)
    ensures |s| > 0 && (IsDigit(s[0]) || s[0] == '-') && IsDigit(s[|s| - 1])
  {
    if i < 0 then "-" + NatToDecimal(-i) else NatToDecimal(i)
  }

  /** `String(n)` for a number. */
  function NumberToString(n: Number): string {
    match n
    case NaN => "NaN"
    case Int(i) => IntToDecimal(i)
  }

  lemma {:induction false} DigitsValueOfDecimal(n: nat)
    ensures DigitsValue(NatToDecimal(n)) == n
    decreases n
  {
    if n >= 10 {
      var s := NatToDecimal(n);
      assert s[..|s| - 1] == NatToDecimal(n / 10);
      DigitsValueOfDecimal(n / 10);
    }
  }

  /* ---------- Number(...) ---------- */

  /** The ASCII characters that `Number(string)` trims. */
  predicate IsSpace(c: char) {
    c == ' ' || c == '\t' || c == '\n' || c == '\r' || c == '\U{B}' || c == '\U{C}'
  }

  function TrimStart(s: string): (r: string)
    ensures |r| <= |s| && r == s[|s| - |r|..]
    ensures r == "" || !IsSpace(r[0])
    decreases |s|
  {
    if |s| > 0 && IsSpace(s[0]) then TrimStart(s[1..]) else s
  }

  function TrimEnd(s: string): (r: string)
    ensures |r| <= |s| && r == s[..|r|]
    ensures r == "" || !IsSpace(r[|r| - 1])
    decreases |s|
  {
    if |s| > 0 && IsSpace(s[|s| - 1]) then TrimEnd(s[..|s| - 1]) else s
  }

  /** `Number(s)` for a string: surrounding white space is ignored, the empty
      string is 0, an optionally signed run of decimal digits is its value,
      anything else is NaN. */
  function StringToNumber(s: string): Number {
    var t := TrimEnd(TrimStart(s));
    if t == "" then Int(0) else SignedDigitsValue(t)
  }

  /** The value of a non-empty, trimmed numeric string. */
  function SignedDigitsValue(t: string): Number
    requires t != ""
  {
    if t[0] == '-' || t[0] == '+' then
      var digits := t[1..];
      if digits != "" && AllDigits(digits) then
        var d: int := DigitsValue(digits);
        Int(if t[0] == '-' then -d else d)
      else NaN
    else if AllDigits(t) then Int(DigitsValue(t))
    else NaN
  }

  /** `Number(v)` for any value. An array converts through its string form:
      `[]` and `[null]` give "", a single element gives its own string form,
      two or more elements give a string with a comma (NaN). */
  function ToNumber(v: Value): Number {
    match v
    case Undefined => NaN
    case Null => Int(0)
    case Bool(b) => Int(if b then 1 else 0)
    case Num(n) => n
    case Str(s) => StringToNumber(s)
    case Obj(_) => NaN
    case Arr(items) =>
      if |items| == 0 then Int(0)
      else if |items| > 1 then NaN
      else
        match items[0]
        case Undefined => Int(0)
        case Null => Int(0)
        case Bool(_) => NaN
        case Obj(_) => NaN
        case _ => ToNumber(items[0])
  }

  /** String-to-number conversion inverts number-to-string conversion. */
  lemma DecimalRoundTrip(i: int)
    ensures StringToNumber(IntToDecimal(i)) == Int(i)
  {
    if i < 0 {
      var n: nat := -i;
      assert IntToDecimal(i) == "-" + NatToDecimal(n);
      NegativeRoundTrip(n);
    } else {
      assert IntToDecimal(i) == NatToDecimal(i);
      NaturalRoundTrip(i);
    }
  }

  lemma NaturalRoundTrip(n: nat)
    ensures StringToNumber(NatToDecimal(n)) == Int(n)
  {
    var s := NatToDecimal(n);
    NothingToTrim(s);
    assert IsDigit(s[0]);
    DigitsValueOfDecimal(n);
    assert SignedDigitsValue(s) == Int(n);
  }

  lemma NegativeRoundTrip(n: nat)
    requires n > 0
    ensures StringToNumber("-" + NatToDecimal(n)) == Int(-(n as int))
  {
    var d := NatToDecimal(n);
    NegativeNeedsNoTrim(d);
    NegatedDigits(d);
    DigitsValueOfDecimal(n);
  }

  /** A minus sign followed by digits has no white space to trim. */
  lemma NegativeNeedsNoTrim(d: string)
    requires |d| > 0 && AllDigits(d)
    ensures StringToNumber("-" + d) == SignedDigitsValue("-" + d)
  {
    var s := "-" + d;
    assert s[0] == '-' && s[|s| - 1] == d[|d| - 1];
    NothingToTrim(s);
  }

  lemma NegatedDigits(d: string)
    requires |d| > 0 && AllDigits(d)
    ensures SignedDigitsValue("-" + d) == Int(-(DigitsValue(d) as int))
  {
    assert ("-" + d)[1..] == d;
  }

  lemma NothingToTrim(s: string)
    requires |s| > 0 && !IsSpace(s[0]) && !IsSpace(s[|s| - 1])
    ensures TrimEnd(TrimStart(s)) == s
  {
    assert TrimStart(s) == s;
  }

  /** Distinct integers have distinct decimal forms. */
  lemma DecimalInjective(a: int, b: int)
    requires IntToDecimal(a) == IntToDecimal(b)
    ensures a == b
  {
    DecimalRoundTrip(a);
    DecimalRoundTrip(b);
  }
}
