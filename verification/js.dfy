/**
 * The few pieces of JavaScript semantics the SIP codec leans on: the regular
 * expression character classes, ASCII case mapping, decimal text and the
 * `Number(string)` conversion used for header values such as Content-Length,
 * and the global `unescape` applied to header names.
 */
module Js {

  /** JavaScript's `\s`: WhiteSpace and LineTerminator code points. */
  predicate IsSpace(c: char) {
    c == ' ' || ('\t' <= c <= '\r') || ('\U{00A0}' <= c && IsWideSpace(c))
  }

  /** The white space of `\s` beyond ASCII (the tab to carriage-return range is above). */
  predicate IsWideSpace(c: char) {
    || c == '\U{00A0}' || c == '\U{1680}' || ('\U{2000}' <= c <= '\U{200A}')
    || c == '\U{2028}' || c == '\U{2029}' || c == '\U{202F}' || c == '\U{205F}'
    || c == '\U{3000}' || c == '\U{FEFF}'
  }

  /** The characters a regular-expression `.` does not match. */
  predicate IsLineTerminator(c: char) {
    c == '\n' || c == '\r' || c == '\U{2028}' || c == '\U{2029}'
  }

  predicate IsDigit(c: char) { '0' <= c <= '9' }

  /** JavaScript's `\w`. */
  predicate IsWordChar(c: char) {
    ('a' <= c <= 'z') || ('A' <= c <= 'Z') || IsDigit(c) || c == '_'
  }

  /** The class `[\w\-.!%*_+`'~]` that the codec uses for SIP tokens. */
  predicate IsTokenChar(c: char) {
    IsWordChar(c) || c == '-' || c == '.' || c == '!' || c == '%' || c == '*' || c == '+' || c == '`' || c == '\'' || c == '~'
  }

  /** `s` has a decimal digit at index `i`. */
  predicate DigitAt(s: string, i: int) { 0 <= i < |s| && IsDigit(s[i]) }

  /** Every character of `s` is a decimal digit (the quantifier is triggered by `DigitAt` only). */
  predicate AllDigits(s: string) { forall i :: 0 <= i < |s| ==> DigitAt(s, i) }

  // ---------------------------------------------------------------- case

  function LowerChar(c: char): char {
    if 'A' <= c <= 'Z' then (c as int + 32) as char else c
  }

  function UpperChar(c: char): char {
    if 'a' <= c <= 'z' then (c as int - 32) as char else c
  }

  /** `String.prototype.toLowerCase`, restricted to ASCII letters. */
  function Lower(s: string): (r: string)
    ensures |r| == |s|
    ensures forall k :: 0 <= k < |s| ==> r[k] == LowerChar(s[k])
  {
    if s == [] then [] else [LowerChar(s[0])] + Lower(s[1..])
  }

  /** `String.prototype.toUpperCase`, restricted to ASCII letters. */
  function Upper(s: string): (r: string)
    ensures |r| == |s|
    ensures forall k :: 0 <= k < |s| ==> r[k] == UpperChar(s[k])
  {
    if s == [] then [] else [UpperChar(s[0])] + Upper(s[1..])
  }

  predicate IsLower(s: string) { Lower(s) == s }

  predicate IsUpper(s: string) { Upper(s) == s }

  // ---------------------------------------------------------------- decimal text

  function DigitChar(d: nat): (c: char)
    requires d < 10
    ensures IsDigit(c)
  {
    ('0' as int + d) as char
  }

  /** The value of one decimal digit (0 for any other character). */
  function DigitValue(c: char): (d: nat)
    ensures d < 10
  {
    if IsDigit(c) then c as int - '0' as int else 0
  }

  /** The value of a run of decimal digits (JavaScript's `+s` on such a run). */
  function DigitsValue(s: string): nat {
    if s == [] then 0 else DigitsValue(s[..|s| - 1]) * 10 + DigitValue(s[|s| - 1])
  }

  /** `String(n)` for a non-negative integer. */
  function NatToString(n: nat): (r: string)
    ensures |r| > 0 && AllDigits(r)
  {
    if n < 10 then
      var r := [DigitChar(n)];
      assert DigitAt(r, 0);
      r
    else
      var high := NatToString(n / 10);
      var r := high + [DigitChar(n % 10)];
      assert forall i | 0 <= i < |r| :: DigitAt(r, i) by {
        forall i | 0 <= i < |r| ensures DigitAt(r, i) {
          if i < |high| { assert DigitAt(high, i); }
        }
      }
      r
  }

  lemma {:induction false} DigitsOfNatToString(n: nat)
    ensures DigitsValue(NatToString(n)) == n
  {
    var r := NatToString(n);
    if n >= 10 {
      DigitsOfNatToString(n / 10);
      assert r[..|r| - 1] == NatToString(n / 10);
    }
  }

  // ---------------------------------------------------------------- Number()

  /** A JavaScript number as far as the stack uses one: an integer or NaN. */
  datatype JsNumber = Num(value: int) | NaN

  /** Index of the first character of `s` that is not JavaScript white space. */
  function SkipSpace(s: string, i: nat): (j: nat)
    requires i <= |s|
    ensures i <= j <= |s|
    ensures forall k :: i <= k < j ==> IsSpace(s[k])
    ensures j < |s| ==> !IsSpace(s[j])
    decreases |s| - i
  {
    if i < |s| && IsSpace(s[i]) then SkipSpace(s, i + 1) else i
  }

  /** `s` without trailing JavaScript white space. */
  function TrimEnd(s: string): (r: string)
    ensures r <= s
    ensures r == [] || !IsSpace(r[|r| - 1])
    ensures forall k :: |r| <= k < |s| ==> IsSpace(s[k])
  {
    if s != [] && IsSpace(s[|s| - 1]) then TrimEnd(s[..|s| - 1]) else s
  }

  /**
   * `Number(s)` for the decimal forms: surrounding white space is ignored, the
   * empty string is 0, an optional sign may precede the digits. Every other
   * form (hexadecimal, fractions, exponents, "Infinity") is read as NaN.
   */
  function ToNumber(s: string): (r: JsNumber)
    ensures s != [] && AllDigits(s) ==> r == Num(DigitsValue(s))
    ensures s == [] ==> r == Num(0)
  {
    var t := TrimEnd(s[SkipSpace(s, 0)..]);
    assert s != [] && AllDigits(s) ==> t == s && DigitAt(t, 0) by {
      if s != [] && AllDigits(s) {
        DigitsUntrimmed(s);
      }
    }
    if t == [] then Num(0)
    else if t[0] == '-' && |t| > 1 && AllDigits(t[1..]) then Num(0 - DigitsValue(t[1..]) as int)
    else if t[0] == '+' && |t| > 1 && AllDigits(t[1..]) then Num(DigitsValue(t[1..]))
    else if AllDigits(t) then Num(DigitsValue(t))
    else NaN
  }

  /** A text of digits has no white space to skip or trim. */
  lemma {:induction false} DigitsUntrimmed(s: string)
    requires s != [] && AllDigits(s)
    ensures SkipSpace(s, 0) == 0 && TrimEnd(s) == s
  {
    assert DigitAt(s, 0) && DigitAt(s, |s| - 1);
  }

  /** `String(x)` for a number. */
  function NumberToString(x: JsNumber): string {
    match x
    case NaN => "NaN"
    case Num(v) => if v < 0 then "-" + NatToString(-v) else NatToString(v)
  }

  /** Reading back the text of a non-negative integer gives the integer. */
  lemma NumberOfNatToString(n: nat)
    ensures ToNumber(NatToString(n)) == Num(n)
  {
    var s := NatToString(n);
    assert DigitAt(s, 0) && DigitAt(s, |s| - 1);
    assert SkipSpace(s, 0) == 0;
    assert s[0..] == s;
    assert TrimEnd(s) == s;
    DigitsOfNatToString(n);
  }

  // ---------------------------------------------------------------- unescape()

  predicate IsHexDigit(c: char) {
    IsDigit(c) || 'a' <= c <= 'f' || 'A' <= c <= 'F'
  }

  /** The value of one hexadecimal digit. */
  function HexValue(c: char): (d: nat)
    requires IsHexDigit(c)
    ensures d < 16
  {
    if IsDigit(c) then c as int - '0' as int
    else if 'a' <= c <= 'f' then c as int - 'a' as int + 10
    else c as int - 'A' as int + 10
  }

  /** The upper-case hexadecimal digit of a value below 16. */
  function HexChar(d: nat): (c: char)
    requires d < 16
    ensures IsHexDigit(c) && HexValue(c) == d && c != 'u'
  {
    if d < 10 then DigitChar(d) else ('A' as int + d - 10) as char
  }

  /** `%XX` at the head of `s`: two hexadecimal digits after the percent sign. */
  predicate ByteEscapeAt(s: string) {
    |s| >= 3 && s[0] == '%' && IsHexDigit(s[1]) && IsHexDigit(s[2])
  }

  /**
   * `%uXXXX` at the head of `s`, naming a code unit that is a character of its
   * own (not half of a surrogate pair).
   */
  predicate UnitEscapeAt(s: string) {
    && |s| >= 6 && s[0] == '%' && s[1] == 'u'
    && IsHexDigit(s[2]) && IsHexDigit(s[3]) && IsHexDigit(s[4]) && IsHexDigit(s[5])
    && !(0xD800 <= UnitValue(s) < 0xE000)
  }

  function UnitValue(s: string): (n: nat)
    requires |s| >= 6 && IsHexDigit(s[2]) && IsHexDigit(s[3]) && IsHexDigit(s[4]) && IsHexDigit(s[5])
    ensures n < 0x1_0000
  {
    ((HexValue(s[2]) * 16 + HexValue(s[3])) * 16 + HexValue(s[4])) * 16 + HexValue(s[5])
  }

  /**
   * The global `unescape` (section B.2.1.2 of ECMA-262): `%uXXXX` and `%XX`
   * become the character they name; every other character, a lone `%`
   * included, is kept.
   */
  function Unescape(s: string): (r: string)
    ensures |r| <= |s|
    ensures '%' !in s ==> r == s
    decreases |s|
  {
    if s == [] then []
    else if UnitEscapeAt(s) then [UnitValue(s) as char] + Unescape(s[6..])
    else if ByteEscapeAt(s) then [(HexValue(s[1]) * 16 + HexValue(s[2])) as char] + Unescape(s[3..])
    else
      assert '%' !in s ==> '%' !in s[1..] by {
        if '%' in s[1..] { var k :| 0 <= k < |s[1..]| && s[1..][k] == '%'; assert s[k + 1] == '%'; }
      }
      [s[0]] + Unescape(s[1..])
  }

  /** Every character of `s`, each below 256, written as a `%XX` escape. */
  function PercentEscaped(s: string): (r: string)
    requires forall i :: 0 <= i < |s| ==> s[i] as int < 256
    ensures |r| == 3 * |s|
  {
    if s == [] then []
    else ['%', HexChar(s[0] as int / 16), HexChar(s[0] as int % 16)] + PercentEscaped(s[1..])
  }

  /** `unescape` reads back every character written as `%XX`. */
  lemma {:induction false} UnescapePercentEscaped(s: string)
    requires forall i :: 0 <= i < |s| ==> s[i] as int < 256
    ensures Unescape(PercentEscaped(s)) == s
  {
    if s != [] {
      var e := PercentEscaped(s);
      assert e[..3] == ['%', HexChar(s[0] as int / 16), HexChar(s[0] as int % 16)] && e[3..] == PercentEscaped(s[1..]);
      assert !UnitEscapeAt(e) && ByteEscapeAt(e);
      UnescapePercentEscaped(s[1..]);
      assert Unescape(e) == [s[0]] + s[1..];
    }
  }

  // ---------------------------------------------------------------- arrays of text

  /** `Array.prototype.join(sep)`. */
  function Join(parts: seq<string>, sep: string): string {
    if parts == [] then ""
    else if |parts| == 1 then parts[0]
    else parts[0] + sep + Join(parts[1..], sep)
  }
}
