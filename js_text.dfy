/**
 * The few pieces of JavaScript's built-in string and number behaviour that the
 * application logic depends on: the whitespace set of `String.prototype.trim`,
 * the UTF-16 `length` of a string, `String(n)` for integers,
 * `padStart(2, "0")` and `parseInt(text)` without a radix.
 */
module JsText {
  import opened Wrappers

  /** WhiteSpace and LineTerminator code points as ECMAScript defines them
      (the set `trim` removes and `parseInt` skips). */
  predicate IsJsWhitespace(c: char) {
    || c == '\t' || c == '\n' || c == '\U{000B}' || c == '\U{000C}' || c == '\r' || c == ' '
    || c == '\U{00A0}' || c == '\U{1680}' || ('\U{2000}' <= c <= '\U{200A}')
    || c == '\U{2028}' || c == '\U{2029}' || c == '\U{202F}' || c == '\U{205F}'
    || c == '\U{3000}' || c == '\U{FEFF}'
  }

  predicate AllWhitespace(s: string) {
    forall i :: 0 <= i < |s| ==> IsJsWhitespace(s[i])
  }

  /** The number of whitespace characters `s` starts with. */
  function LeadingWhitespace(s: string): (n: nat)
    ensures n <= |s|
    ensures forall i :: 0 <= i < n ==> IsJsWhitespace(s[i])
    ensures n < |s| ==> !IsJsWhitespace(s[n])
  {
    if s != [] && IsJsWhitespace(s[0]) then
      var n := 1 + LeadingWhitespace(s[1..]);
      assert forall i :: 1 <= i < n ==> s[i] == s[1..][i - 1];
      n
    else 0
  }

  /** The number of whitespace characters `s` ends with. */
  function TrailingWhitespace(s: string): (n: nat)
    ensures n <= |s|
    ensures forall i :: |s| - n <= i < |s| ==> IsJsWhitespace(s[i])
    ensures n < |s| ==> !IsJsWhitespace(s[|s| - n - 1])
  {
    if s != [] && IsJsWhitespace(s[|s| - 1]) then
      var n := 1 + TrailingWhitespace(s[..|s| - 1]);
      assert forall i :: |s| - n <= i < |s| - 1 ==> s[i] == s[..|s| - 1][i];
      n
    else 0
  }

  /** `s` with its leading whitespace removed. */
  function TrimStart(s: string): (r: string)
    ensures |r| <= |s| && r == s[|s| - |r|..]
    ensures AllWhitespace(s[..|s| - |r|])
    ensures r != [] ==> !IsJsWhitespace(r[0])
  {
    var n := LeadingWhitespace(s);
    assert forall i :: 0 <= i < n ==> s[..n][i] == s[i];
    s[n..]
  }

  /** `s` with its trailing whitespace removed. */
  function TrimEnd(s: string): (r: string)
    ensures |r| <= |s| && r == s[..|r|]
    ensures AllWhitespace(s[|r|..])
    ensures r != [] ==> !IsJsWhitespace(r[|r| - 1])
  {
    var n := TrailingWhitespace(s);
    s[..|s| - n]
  }

  /** `s.trim()`. */
  function Trim(s: string): string {
    TrimEnd(TrimStart(s))
  }

  /** `s.trim() === ""` exactly when every character of `s` is whitespace. */
  lemma TrimEmptyIffAllWhitespace(s: string)
    ensures Trim(s) == "" <==> AllWhitespace(s)
  {
    var t := TrimStart(s);
    if AllWhitespace(s) {
      assert AllWhitespace(t);
    }
    if Trim(s) == "" {
      assert t[0..] == t;
      assert AllWhitespace(t);
      assert |t| == 0;
      assert s[..|s|] == s;
    }
  }

  /** A string's `length` in JavaScript: the number of UTF-16 code units, so a
      code point outside the Basic Multilingual Plane counts twice. */
  function Utf16Length(s: string): (n: nat)
    ensures |s| <= n <= 2 * |s|
    ensures (forall i :: 0 <= i < |s| ==> s[i] as int <= 0xFFFF) ==> n == |s|
    ensures (exists i :: 0 <= i < |s| && s[i] as int > 0xFFFF) ==> n > |s|
  {
    if s == [] then 0
    else
      assert forall i :: 1 <= i < |s| ==> s[i] == s[1..][i - 1];
      (if s[0] as int > 0xFFFF then 2 else 1) + Utf16Length(s[1..])
  }

  /** One character is one code unit, or two (a surrogate pair) outside the Basic
      Multilingual Plane. */
  lemma Utf16OfChar(c: char)
    ensures Utf16Length([c]) == if c as int > 0xFFFF then 2 else 1
  {
    assert [c][1..] == [];
  }

  /** The length of a concatenation is the sum of the lengths. */
  lemma {:induction false} Utf16Append(a: string, b: string)
    ensures Utf16Length(a + b) == Utf16Length(a) + Utf16Length(b)
  {
    if a == [] {
      assert a + b == b;
    } else {
      assert (a + b)[1..] == a[1..] + b;
      Utf16Append(a[1..], b);
    }
  }

  // ---------------------------------------------------------------- digits

  predicate IsDecimalDigit(c: char) { '0' <= c <= '9' }

  predicate IsHexDigit(c: char) {
    IsDecimalDigit(c) || 'a' <= c <= 'f' || 'A' <= c <= 'F'
  }

  function DigitValue(c: char): (d: nat)
    requires IsHexDigit(c)
    ensures IsDecimalDigit(c) ==> d < 10
    ensures d < 16
  {
    if IsDecimalDigit(c) then c as int - '0' as int
    else if 'a' <= c <= 'f' then c as int - 'a' as int + 10
    else c as int - 'A' as int + 10
  }

  predicate AllDecimal(s: string) {
    forall i :: 0 <= i < |s| ==> IsDecimalDigit(s[i])
  }

  predicate AllHex(s: string) {
    forall i :: 0 <= i < |s| ==> IsHexDigit(s[i])
  }

  /** The number a string of decimal digits denotes. */
  function DecimalValue(s: string): nat
    requires AllDecimal(s)
  {
    if s == [] then 0 else 10 * DecimalValue(s[..|s| - 1]) + DigitValue(s[|s| - 1])
  }

  /** The number a string of hexadecimal digits denotes. */
  function HexValue(s: string): nat
    requires AllHex(s)
  {
    if s == [] then 0 else 16 * HexValue(s[..|s| - 1]) + DigitValue(s[|s| - 1])
  }

  function DecimalDigit(d: nat): (c: char)
    requires d < 10
    ensures IsDecimalDigit(c) && DigitValue(c) == d
  {
    (d + '0' as int) as char
  }

  /** `String(n)` for a non-negative integer: its shortest decimal numeral. */
  function NatToString(n: nat): (s: string)
    ensures |s| >= 1 && AllDecimal(s)
    ensures s[0] == '0' ==> s == "0"
  {
    if n < 10 then [DecimalDigit(n)] else NatToString(n / 10) + [DecimalDigit(n % 10)]
  }

  /** The numeral of `n` denotes `n`. */
  lemma {:induction false} NatToStringValue(n: nat)
    ensures DecimalValue(NatToString(n)) == n
  {
    if n >= 10 {
      var s := NatToString(n);
      assert s[..|s| - 1] == NatToString(n / 10);
      NatToStringValue(n / 10);
    }
  }

  /** `String(n)` for any integer. */
  function IntToString(n: int): (s: string)
    ensures |s| >= 1
  {
    if n < 0 then "-" + NatToString(-n) else NatToString(n)
  }

  /** `s.padStart(2, "0")`. */
  function PadStart2(s: string): (r: string)
    ensures |r| == if |s| < 2 then 2 else |s|
    ensures r[|r| - |s|..] == s
    ensures forall i :: 0 <= i < |r| - |s| ==> r[i] == '0'
  {
    if |s| == 0 then "00" else if |s| == 1 then "0" + s else s
  }

  /** Leading zeros do not change the value of a numeral. */
  lemma {:induction false} ZeroPaddingKeepsValue(z: string, s: string)
    requires forall i :: 0 <= i < |z| ==> z[i] == '0'
    requires AllDecimal(s)
    ensures AllDecimal(z + s) && DecimalValue(z + s) == DecimalValue(s)
    decreases |s|
  {
    if s == [] {
      assert z + s == z;
      ZerosAreZero(z);
    } else {
      var s' := s[..|s| - 1];
      assert (z + s)[..|z + s| - 1] == z + s';
      ZeroPaddingKeepsValue(z, s');
    }
  }

  lemma {:induction false} ZerosAreZero(z: string)
    requires forall i :: 0 <= i < |z| ==> z[i] == '0'
    ensures AllDecimal(z) && DecimalValue(z) == 0
  {
    if z != [] {
      ZerosAreZero(z[..|z| - 1]);
    }
  }

  // ---------------------------------------------------------------- parseInt

  predicate IsDigitIn(c: char, hex: bool) {
    if hex then IsHexDigit(c) else IsDecimalDigit(c)
  }

  /** The longest prefix of `s` made of hexadecimal digits (`hex`) or decimal ones. */
  function DigitPrefix(s: string, hex: bool): (p: string)
    ensures |p| <= |s| && p == s[..|p|]
    ensures forall i :: 0 <= i < |p| ==> IsDigitIn(p[i], hex)
    ensures |p| < |s| ==> !IsDigitIn(s[|p|], hex)
  {
    if s != [] && IsDigitIn(s[0], hex) then
      var p := [s[0]] + DigitPrefix(s[1..], hex);
      assert p == s[..|p|];
      p
    else []
  }

  /** What follows an optional leading sign. */
  function UnsignedPart(s: string): string {
    if s != [] && (s[0] == '-' || s[0] == '+') then s[1..] else s
  }

  predicate HasHexPrefix(u: string) {
    |u| >= 2 && u[0] == '0' && (u[1] == 'x' || u[1] == 'X')
  }

  /** The magnitude `parseInt` reads after the sign: a `0x`/`0X` prefix selects base 16,
      then the longest run of digits; no digits gives `NaN`, shown here as `None`. */
  function ParseUnsigned(u: string): Option<nat> {
    if HasHexPrefix(u) then
      var digits := DigitPrefix(u[2..], true);
      if digits == [] then None
      else
        assert AllHex(digits);
        Some(HexValue(digits))
    else
      var digits := DigitPrefix(u, false);
      if digits == [] then None
      else
        assert AllDecimal(digits);
        Some(DecimalValue(digits))
  }

  /** `parseInt(text)` with no radix argument: skip leading whitespace, read an
      optional sign, then the magnitude. (`-0` and `0` are the same integer here.) */
  function ParseInt(text: string): Option<int> {
    var s := TrimStart(text);
    var negative := s != [] && s[0] == '-';
    match ParseUnsigned(UnsignedPart(s))
    case None => None
    case Some(m) =>
      var magnitude: int := m;
      Some(if negative then -magnitude else magnitude)
  }

  /** `parseInt(text) || 0`: `NaN` and zero both become 0. */
  function ParseIntOrZero(text: string): int {
    ParseInt(text).GetOr(0)
  }

  /** A numeral reads back as its number: `String(n)` never looks like a hex prefix. */
  lemma ParseUnsignedOfNumeral(n: nat)
    ensures ParseUnsigned(NatToString(n)) == Some(n)
  {
    var s := NatToString(n);
    assert !HasHexPrefix(s);
    DigitPrefixOfDigits(s, false);
    NatToStringValue(n);
  }

  /** `parseInt(String(n)) === n`: the numeral of an integer reads back as that integer. */
  lemma ParseIntOfIntToString(n: int)
    ensures ParseInt(IntToString(n)) == Some(n)
  {
    var s := IntToString(n);
    var magnitude: nat := if n < 0 then -n else n;
    var digits := NatToString(magnitude);
    assert s[0] == '-' || IsDecimalDigit(s[0]);
    assert LeadingWhitespace(s) == 0;
    assert TrimStart(s) == s;
    assert UnsignedPart(s) == digits by {
      if n < 0 {
        assert s == "-" + digits;
      } else {
        assert s == digits;
      }
    }
    ParseUnsignedOfNumeral(magnitude);
    assert (s[0] == '-') == (n < 0);
  }

  lemma {:induction false} DigitPrefixOfDigits(s: string, hex: bool)
    requires forall i :: 0 <= i < |s| ==> IsDigitIn(s[i], hex)
    ensures DigitPrefix(s, hex) == s
  {
    if s != [] {
      assert forall i :: 0 <= i < |s| - 1 ==> s[1..][i] == s[i + 1];
      DigitPrefixOfDigits(s[1..], hex);
    }
  }

  /** Text that does not start (after whitespace and a sign) with a digit reads as `NaN`. */
  lemma ParseIntWithoutDigits(text: string)
    requires var u := UnsignedPart(TrimStart(text)); u == [] || !IsDecimalDigit(u[0])
    ensures ParseInt(text) == None && ParseIntOrZero(text) == 0
  {
  }
}
