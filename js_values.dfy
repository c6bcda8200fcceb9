/** The JavaScript values a tool call's argument bag can hold, and the
    coercions the request handler applies to them: truthiness (`!x`, `x || ""`),
    `String(x)`, `Number(x)`, `Boolean(x)` and `String.prototype.trim`. */
module JsValues {

  /** A JavaScript number. Only integral values and NaN are modelled. */
  datatype JsNumber = Int(i: int) | NaN

  /** A JavaScript value as found in a tool call's `arguments` object. */
  datatype Value =
    | Undefined
    | Null
    | Bool(b: bool)
    | Num(n: JsNumber)
    | Str(s: string)
    | Arr(elems: seq<Value>)
    | Obj(fields: map<string, Value>)

  // ---------------------------------------------------------------------------
  // Truthiness

  predicate NumberTruthy(n: JsNumber) {
    n.Int? && n.i != 0
  }

  /** ToBoolean: `undefined`, `null`, `false`, `0`, `NaN` and `""` are falsy;
      everything else, including every array and object, is truthy. */
  predicate Truthy(v: Value) {
    match v
    case Undefined => false
    case Null => false
    case Bool(b) => b
    case Num(n) => NumberTruthy(n)
    case Str(s) => s != ""
    case Arr(_) => true
    case Obj(_) => true
  }

  // ---------------------------------------------------------------------------
  // Whitespace and trim

  /** The code points `String.prototype.trim` removes: WhiteSpace and
      LineTerminator of ECMAScript (tab, VT, FF, space, NBSP, BOM, the
      space separators of Unicode category Zs, LF, CR, LS and PS). */
  predicate IsJsWhitespace(c: char) {
    || c == '\t' || c == '\n' || c == '\U{000B}' || c == '\U{000C}' || c == '\r'
    || c == ' ' || c == '\U{00A0}' || c == '\U{1680}'
    || ('\U{2000}' <= c <= '\U{200A}')
    || c == '\U{2028}' || c == '\U{2029}' || c == '\U{202F}' || c == '\U{205F}'
    || c == '\U{3000}' || c == '\U{FEFF}'
  }

  predicate AllWhitespace(s: string) {
    forall k | 0 <= k < |s| :: IsJsWhitespace(s[k])
  }

  /** The index of the first non-whitespace character of `s` at or after
      `i`, or `|s|` when there is none. */
  function SkipLeading(s: string, i: nat): (r: nat)
    requires i <= |s|
    ensures i <= r <= |s|
    decreases |s| - i
  {
    if i < |s| && IsJsWhitespace(s[i]) then SkipLeading(s, i + 1) else i
  }

  /** Everything skipped is whitespace, and the skip stops at the first
      character that is not. */
  lemma {:induction false} SkipLeadingShape(s: string, i: nat)
    requires i <= |s|
    ensures var r := SkipLeading(s, i);
      && (forall k | i <= k < r :: IsJsWhitespace(s[k]))
      && (r < |s| ==> !IsJsWhitespace(s[r]))
    decreases |s| - i
  {
    if i < |s| && IsJsWhitespace(s[i]) {
      SkipLeadingShape(s, i + 1);
    }
  }

  /** The index just past the last non-whitespace character of `s[lo..j]`,
      or `lo` when there is none. */
  function SkipTrailing(s: string, lo: nat, j: nat): (r: nat)
    requires lo <= j <= |s|
    ensures lo <= r <= j
    decreases j
  {
    if j > lo && IsJsWhitespace(s[j - 1]) then SkipTrailing(s, lo, j - 1) else j
  }

  /** Everything dropped from the end is whitespace, and the drop stops
      after the last character that is not. */
  lemma {:induction false} SkipTrailingShape(s: string, lo: nat, j: nat)
    requires lo <= j <= |s|
    ensures var r := SkipTrailing(s, lo, j);
      && (forall k | r <= k < j :: IsJsWhitespace(s[k]))
      && (r > lo ==> !IsJsWhitespace(s[r - 1]))
    decreases j
  {
    if j > lo && IsJsWhitespace(s[j - 1]) {
      SkipTrailingShape(s, lo, j - 1);
    }
  }

  /** The length of the whitespace run at the start of `s`. */
  function LeadingWhitespace(s: string): nat
    ensures LeadingWhitespace(s) <= |s|
  {
    SkipLeading(s, 0)
  }

  /** `String.prototype.trim`. */
  function Trim(s: string): string {
    var a := SkipLeading(s, 0);
    s[a..SkipTrailing(s, a, |s|)]
  }

  /** The trim of `s` is the infix that starts after its leading whitespace
      and stops before its trailing whitespace; it neither starts nor ends
      with whitespace. */
  lemma TrimShape(s: string)
    ensures var r := Trim(s);
      var a := LeadingWhitespace(s);
      && a + |r| <= |s|
      && r == s[a..a + |r|]
      && (forall k | 0 <= k < a :: IsJsWhitespace(s[k]))
      && (forall k | a + |r| <= k < |s| :: IsJsWhitespace(s[k]))
      && (r == [] || (!IsJsWhitespace(r[0]) && !IsJsWhitespace(r[|r| - 1])))
  {
    var a := SkipLeading(s, 0);
    SkipLeadingShape(s, 0);
    SkipTrailingShape(s, a, |s|);
  }

  /** Trimming leaves nothing exactly when the string is all whitespace. */
  lemma TrimEmptyIff(s: string)
    ensures Trim(s) == [] <==> AllWhitespace(s)
  {
    TrimShape(s);
    var r := Trim(s);
    if r != [] {
      assert r[0] == s[LeadingWhitespace(s)];
    }
  }

  /** A string without whitespace is its own trim. */
  lemma NoWhitespaceTrimmed(s: string)
    requires forall k | 0 <= k < |s| :: !IsJsWhitespace(s[k])
    ensures Trim(s) == s
  {
    SkipLeadingShape(s, 0);
    SkipTrailingShape(s, 0, |s|);
  }

  /** Trimming a trimmed string changes nothing. */
  lemma TrimIdempotent(s: string)
    ensures Trim(Trim(s)) == Trim(s)
  {
    TrimShape(s);
    var r := Trim(s);
    SkipLeadingShape(r, 0);
    SkipTrailingShape(r, 0, |r|);
    assert SkipLeading(r, 0) == 0;
    assert SkipTrailing(r, 0, |r|) == |r|;
  }

  // ---------------------------------------------------------------------------
  // Decimal notation

  predicate IsDigit(c: char) {
    '0' <= c <= '9'
  }

  predicate AllDigits(s: string) {
    forall k | 0 <= k < |s| :: IsDigit(s[k])
  }

  function DigitChar(d: nat): (c: char)
    requires d < 10
    ensures IsDigit(c) && c as int - '0' as int == d
  {
    (d + '0' as int) as char
  }

  function DigitValue(c: char): (d: nat)
    requires IsDigit(c)
    ensures d < 10
  {
    c as int - '0' as int
  }

  /** The shortest decimal notation of `n`: digits only, and no leading zero
      unless `n` is zero itself. */
  function NatToDecimal(n: nat): (r: string)
    ensures |r| >= 1 && AllDigits(r)
    ensures r[0] == '0' ==> n == 0 && r == "0"
  {
    if n < 10 then [DigitChar(n)] else NatToDecimal(n / 10) + [DigitChar(n % 10)]
  }

  /** The value of a string of decimal digits, read left to right. */
  function DecimalValue(s: string): nat
    requires AllDigits(s)
  {
    if s == [] then 0 else DecimalValue(s[..|s| - 1]) * 10 + DigitValue(s[|s| - 1])
  }

  /** Reading back the decimal notation of `n` gives `n`. */
  lemma {:induction false} DecimalRoundTrip(n: nat)
    ensures DecimalValue(NatToDecimal(n)) == n
  {
    var r := NatToDecimal(n);
    if n >= 10 {
      DecimalRoundTrip(n / 10);
      assert r[..|r| - 1] == NatToDecimal(n / 10);
    }
  }

  /** `String(i)` for an integral number: an optional minus sign, then the
      shortest decimal notation of its magnitude. */
  function IntToDecimal(i: int): string {
    if i < 0 then "-" + NatToDecimal(-i) else NatToDecimal(i)
  }

  /** The notation of `i` starts with `-` exactly when `i` is negative and is
      otherwise made of digits, with no leading zero after the sign. */
  lemma IntToDecimalShape(i: int)
    ensures var r := IntToDecimal(i);
      && |r| >= 1
      && (i < 0 <==> r[0] == '-')
      && (i >= 0 ==> AllDigits(r))
      && (i < 0 ==> |r| >= 2 && AllDigits(r[1..]) && r[1] != '0')
  {
    if i < 0 {
      assert IntToDecimal(i)[1..] == NatToDecimal(-i);
    }
  }

  /** `Number.prototype.toString()` for the modelled numbers. */
  function NumberToString(n: JsNumber): string {
    match n
    case Int(i) => IntToDecimal(i)
    case NaN => "NaN"
  }

  /** StringToNumber for decimal integers: after trimming, the empty string is
      0, an optional sign followed by one or more digits is that integer, and
      anything else is NaN. */
  function StringToNumber(s: string): JsNumber {
    var t := Trim(s);
    if t == [] then Int(0)
    else if t[0] == '-' && |t| > 1 && AllDigits(t[1..]) then Int(0 - DecimalValue(t[1..]))
    else if t[0] == '+' && |t| > 1 && AllDigits(t[1..]) then Int(DecimalValue(t[1..]))
    else if AllDigits(t) then Int(DecimalValue(t))
    else NaN
  }

  /** `Number(String(i)) === i` for every integral number. */
  lemma {:induction false} NumberOfStringRoundTrip(i: int)
    ensures StringToNumber(IntToDecimal(i)) == Int(i)
  {
    var r := IntToDecimal(i);
    IntToDecimalShape(i);
    forall k | 0 <= k < |r| ensures !IsJsWhitespace(r[k]) {
      if k > 0 || i >= 0 {
        assert IsDigit(r[k]) by {
          if i < 0 { assert r[k] == r[1..][k - 1]; }
        }
      }
    }
    NoWhitespaceTrimmed(r);
    if i < 0 {
      var m := NatToDecimal(-i);
      assert r[1..] == m;
      DecimalRoundTrip(-i);
      assert DecimalValue(m) == -i;
      assert StringToNumber(r) == Int(0 - DecimalValue(m));
      assert StringToNumber(r) == Int(i);
    } else {
      DecimalRoundTrip(i);
      assert r[0] != '-' && r[0] != '+';
      assert StringToNumber(r) == Int(DecimalValue(r));
      assert StringToNumber(r) == Int(i);
    }
  }

  // ---------------------------------------------------------------------------
  // String(x), Number(x), Boolean(x)

  /** `String(v)`. An array is its elements joined with ",", where `null`
      and `undefined` elements stand for the empty string. An object is
      taken to be a plain one; one with an own `toString` key, which makes
      `String` throw, is not modelled. */
  function ToJsString(v: Value): string
    decreases v, 1
  {
    match v
    case Undefined => "undefined"
    case Null => "null"
    case Bool(b) => if b then "true" else "false"
    case Num(n) => NumberToString(n)
    case Str(s) => s
    case Arr(_) => JoinFrom(v, 0)
    case Obj(_) => "[object Object]"
  }

  /** `Array.prototype.join(",")` on the elements of the array `v` from index
      `i` on. */
  function JoinFrom(v: Value, i: nat): string
    requires v.Arr? && i <= |v.elems|
    decreases v, 0, |v.elems| - i
  {
    if i == |v.elems| then ""
    else
      var e := v.elems[i];
      var text := if e.Undefined? || e.Null? then "" else ToJsString(e);
      if i + 1 == |v.elems| then text else text + "," + JoinFrom(v, i + 1)
  }

  /** `Number(v)`, for a plain object `NaN`; an object with an own `toString`
      key, which makes `Number` throw, is not modelled. */
  function ToNumber(v: Value): JsNumber {
    match v
    case Undefined => NaN
    case Null => Int(0)
    case Bool(b) => Int(if b then 1 else 0)
    case Num(n) => n
    case Str(s) => StringToNumber(s)
    case Arr(_) => StringToNumber(ToJsString(v))
    case Obj(_) => NaN
  }

  /** Stringifying a number and converting back gives the number itself,
      NaN included. */
  lemma NumberStringRoundTrip(n: JsNumber)
    ensures ToNumber(Str(ToJsString(Num(n)))) == n
  {
    match n
    case Int(i) => NumberOfStringRoundTrip(i);
    case NaN =>
  }
}
