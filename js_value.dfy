/**
  JavaScript values as `JSON.parse` produces them, and the conversions the front end
  applies to them: `String(v)` (ECMA-262 ToString), truthiness, `Number.parseInt` with
  radix 10 (ECMA-262 section 19.2.5), `Number.isFinite` and `Math.round`.
*/
module JsValue {
  import opened Wrappers
  import opened JsString

  /**
    A value of RFC 8259 JSON text after parsing. A number is the finite decimal
    `mantissa / 10^scale`; object properties are a map from names to values.
  */
  datatype Json =
    | JNull
    | JBool(b: bool)
    | JNumber(mantissa: int, scale: nat)
    | JString(s: string)
    | JArray(items: seq<Json>)
    | JObject(props: map<string, Json>)

  function Pow10(k: nat): (r: nat)
    ensures r >= 1
  {
    if k == 0 then 1 else 10 * Pow10(k - 1)
  }

  lemma DivisionByPositive(a: nat, d: nat)
    requires d >= 1
    ensures 0 <= a / d <= a
  {
    assert a == d * (a / d) + a % d;
  }

  /** The integer part of `mantissa / 10^scale`, rounded toward zero. */
  function Trunc(mantissa: int, scale: nat): int {
    if mantissa < 0 then -((-mantissa) / Pow10(scale)) else mantissa / Pow10(scale)
  }

  function PadLeft(s: string, width: nat): string
    decreases width - |s|
  {
    if |s| >= width then s else PadLeft("0" + s, width)
  }

  function StripTrailingZeros(s: string): string {
    if |s| > 0 && s[|s| - 1] == '0' then StripTrailingZeros(s[..|s| - 1]) else s
  }

  /** The digits after the decimal point of a fraction `f / 10^scale`, nothing when it is 0. */
  function FractionString(f: nat, scale: nat): (r: string)
    ensures r == [] || r[0] == '.'
  {
    if f == 0 then "" else "." + StripTrailingZeros(PadLeft(DecimalString(f), scale))
  }

  /**
    `String(x)` for the number `mantissa / 10^scale` in plain decimal notation: a minus
    sign for negative values, the integer digits, then the fraction digits if any.
  */
  function NumberString(mantissa: int, scale: nat): (r: string)
    ensures |r| > 0 && (r[0] == '-' <==> mantissa < 0)
  {
    var a: nat := if mantissa < 0 then -mantissa else mantissa;
    DivisionByPositive(a, Pow10(scale));
    (if mantissa < 0 then "-" else "") + DecimalString(a / Pow10(scale)) + FractionString(a % Pow10(scale), scale)
  }

  /**
    `Number.parseInt(s, 10)` on the mathematical integers, `None` standing for NaN:
    skip leading white space, read an optional sign, then the longest run of decimal
    digits; no digits at all gives NaN.
  */
  function ParseInt(s: string): (r: Option<int>)
    ensures AllSpaces(s) ==> r.None?
    ensures |s| > 0 && IsDigit(s[0]) ==> r.Some? && r.value >= 0
  {
    TrimStartIsSuffix(s);
    ParseSigned(TrimStart(s))
  }

  /** `parseInt` after the leading white space: an optional sign, then digits. */
  function ParseSigned(t: string): (r: Option<int>)
    ensures t == [] || (!IsDigit(t[0]) && t[0] != '-' && t[0] != '+') ==> r.None?
    ensures |t| > 0 && IsDigit(t[0]) ==> r.Some? && r.value >= 0
    ensures |t| > 0 && (t[0] == '-' || t[0] == '+') ==> (r.Some? <==> |t| > 1 && IsDigit(t[1]))
    ensures |t| > 0 && t[0] == '-' && r.Some? ==> r.value <= 0
    ensures |t| > 0 && t[0] == '+' && r.Some? ==> r.value >= 0
  {
    var negative := |t| > 0 && t[0] == '-';
    var u := if |t| > 0 && (t[0] == '-' || t[0] == '+') then t[1..] else t;
    var z := DigitPrefix(u);
    var magnitude: int := if z == [] then 0 else DigitsValue(z);
    if z == [] then None else Some(if negative then -magnitude else magnitude)
  }

  /** White space in front of a text that starts with a non-space does not change what `parseInt` reads. */
  lemma {:induction false} ParseIntSkipsSpaces(ws: string, body: string)
    requires AllSpaces(ws)
    requires body != [] && !IsSpace(body[0])
    ensures ParseInt(ws + body) == ParseInt(body)
  {
    TrimStartSkipsSpaces(ws, body);
    assert TrimStart(body) == body;
  }

  /** An unsigned run of digits in front of a non-digit is read as its value. */
  lemma {:induction false} ParseIntOfDigits(digits: string, rest: string)
    requires digits != [] && AllDigits(digits)
    requires rest == [] || !IsDigit(rest[0])
    ensures ParseInt(digits + rest) == Some(DigitsValue(digits) as int)
  {
    var s := digits + rest;
    assert s[0] == digits[0];
    assert IsDigit(s[0]);
    assert !IsSpace(s[0]);
    assert TrimStart(s) == s;
    DigitPrefixOfDigits(digits, rest);
  }

  /** A minus sign in front of a run of digits negates its value. */
  lemma {:induction false} ParseIntOfNegativeDigits(digits: string, rest: string)
    requires digits != [] && AllDigits(digits)
    requires rest == [] || !IsDigit(rest[0])
    ensures ParseInt("-" + digits + rest) == Some(-(DigitsValue(digits) as int))
  {
    var s := "-" + digits + rest;
    assert s[0] == '-';
    assert !IsSpace(s[0]);
    assert TrimStart(s) == s;
    assert s[1..] == digits + rest;
    DigitPrefixOfDigits(digits, rest);
  }

  /** `parseInt` reads back the decimal digits of a signed integer in front of any non-digit. */
  lemma {:induction false} ParseIntReadsLeadingInteger(negative: bool, n: nat, rest: string)
    requires rest == [] || !IsDigit(rest[0])
    ensures ParseInt((if negative then "-" else "") + DecimalString(n) + rest)
         == Some(if negative then -(n as int) else n as int)
  {
    var digits := DecimalString(n);
    DigitsValueOfDecimalString(n);
    if negative {
      ParseIntOfNegativeDigits(digits, rest);
    } else {
      assert "" + digits + rest == digits + rest;
      ParseIntOfDigits(digits, rest);
    }
  }

  /** `parseInt(String(x))` is the integer part of `x`, truncated toward zero. */
  lemma {:induction false} ParseIntOfNumberString(mantissa: int, scale: nat)
    ensures ParseInt(NumberString(mantissa, scale)) == Some(Trunc(mantissa, scale))
  {
    var a: nat := if mantissa < 0 then -mantissa else mantissa;
    DivisionByPositive(a, Pow10(scale));
    var q: nat := a / Pow10(scale);
    var frac := FractionString(a % Pow10(scale), scale);
    var str := (if mantissa < 0 then "-" else "") + DecimalString(q) + frac;
    assert NumberString(mantissa, scale) == str;
    ParseIntReadsLeadingInteger(mantissa < 0, q, frac);
    assert ParseInt(str) == Some(if mantissa < 0 then -(q as int) else q as int);
    assert Trunc(mantissa, scale) == if mantissa < 0 then -(q as int) else q as int;
  }

  /** A whole number is written as its decimal digits. */
  lemma NumberStringOfInteger(n: nat)
    ensures NumberString(n, 0) == DecimalString(n)
  {
    assert Pow10(0) == 1;
    assert FractionString(n % 1, 0) == "";
    assert "" + DecimalString(n) + "" == DecimalString(n);
  }

  /**
    An integer converts to a finite double exactly when its magnitude is below
    2^1024 - 2^970; from there on round-to-nearest gives an infinity.
  */
  const OverflowBound: int := 179769313486231580793728971405303415079934132710037826936173778980444968292764750946649017977587207096330286416692887910946555547851940402630657488671505820681908902000708383676273854845817711531764475730270069855571366959622842914819860834936475292719074168444365510704342711559699508093042880177904174497792

  /** `Number.isFinite` of the double that the integer `n` converts to. */
  predicate IsFinite(n: int)
    ensures -0x1F_FFFF_FFFF_FFFF <= n <= 0x1F_FFFF_FFFF_FFFF ==> IsFinite(n)
    ensures n >= OverflowBound || n <= -OverflowBound ==> !IsFinite(n)
  {
    -OverflowBound < n < OverflowBound
  }

  /** `Math.round`: the nearest integer, halves rounded up. */
  function MathRound(x: real): (r: int)
    ensures x - (1.0 / 2.0) < r as real <= x + (1.0 / 2.0)
  {
    (x + 1.0 / 2.0).Floor
  }

  /**
    Whether ECMA-262 ToString of the value throws a TypeError. An object from JSON text
    with an own `toString` property has nothing callable there, and `valueOf` gives the
    object back, so it throws; an array throws when one of its elements does.
  */
  ghost predicate ThrowsOnToString(j: Json) {
    match j
    case JObject(props) => "toString" in props
    case JArray(items) => exists i :: 0 <= i < |items| && ThrowsOnToString(items[i])
    case _ => false
  }

  /** `String(v)` on a property read, `None` being `undefined`; `None` as result is the TypeError. */
  function PropertyString(v: Option<Json>): (r: Option<string>)
    ensures v.None? ==> r == Some("undefined")
    ensures r.None? <==> v.Some? && ThrowsOnToString(v.value)
  {
    match v
    case None => Some("undefined")
    case Some(j) => ToString(j)
  }

  /** ECMA-262 ToString of a parsed JSON value; `None` when it throws. */
  function ToString(j: Json): (r: Option<string>)
    decreases j, 1
    ensures r.None? <==> ThrowsOnToString(j)
  {
    match j
    case JNull => Some("null")
    case JBool(b) => Some(if b then "true" else "false")
    case JNumber(m, scale) => Some(NumberString(m, scale))
    case JString(s) => Some(s)
    case JArray(items) => JoinItems(items, ",")
    case JObject(props) => if "toString" in props then None else Some("[object Object]")
  }

  /**
    `Array.prototype.join(sep)`: `null` elements are written as the empty string, and
    the join throws when converting an element throws.
  */
  function JoinItems(items: seq<Json>, sep: string): (r: Option<string>)
    decreases items, 0
    ensures r.None? <==> exists i :: 0 <= i < |items| && ThrowsOnToString(items[i])
    ensures r.Some? && sep != [] ==>
      (r.value == [] <==> items == [] || (|items| == 1 && (items[0].JNull? || ToString(items[0]) == Some([]))))
  {
    if items == [] then Some("")
    else
      var head := if items[0].JNull? then Some("") else ToString(items[0]);
      if |items| == 1 then head
      else
        assert forall i :: 1 <= i < |items| ==> items[1..][i - 1] == items[i];
        match (head, JoinItems(items[1..], sep))
        case (Some(h), Some(t)) => Some(h + sep + t)
        case _ => None
  }

  /** JavaScript truthiness of a property read, `None` being `undefined`. */
  predicate Truthy(v: Option<Json>)
    ensures Truthy(v) ==> v.Some? && !v.value.JNull?
    ensures v.Some? && (v.value.JArray? || v.value.JObject?) ==> Truthy(v)
  {
    match v
    case None => false
    case Some(JNull) => false
    case Some(JBool(b)) => b
    case Some(JNumber(m, _)) => m != 0
    case Some(JString(s)) => s != ""
    case Some(_) => true
  }
}
