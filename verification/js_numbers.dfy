/** The two JavaScript number conversions the nonce watermark goes through:
    a stored number is rendered as decimal text, and read back with `parseInt`. */
module JsNumbers {
  import opened Common

  /** ECMAScript StrWhiteSpaceChar: white space and line terminators that
      `parseInt` skips before the number. */
  predicate IsWhiteSpace(c: char) {
    c == '\t' || c == '\n' || c == '\U{000B}' || c == '\U{000C}' || c == '\r' ||
    c == ' ' || c == '\U{00A0}' || c == '\U{1680}' || ('\U{2000}' <= c <= '\U{200A}') ||
    c == '\U{2028}' || c == '\U{2029}' || c == '\U{202F}' || c == '\U{205F}' ||
    c == '\U{3000}' || c == '\U{FEFF}'
  }

  /** Value of `c` as a digit in radix 36; 36 for a character that is no digit. */
  function DigitValue(c: char): (d: nat)
    ensures d <= 36
    ensures d < 10 <==> '0' <= c <= '9'
  {
    if '0' <= c <= '9' then c as nat - '0' as nat
    else if 'a' <= c <= 'z' then c as nat - 'a' as nat + 10
    else if 'A' <= c <= 'Z' then c as nat - 'A' as nat + 10
    else 36
  }

  predicate IsDigit(c: char, radix: nat) {
    DigitValue(c) < radix
  }

  /** `s` without its leading white space. */
  function TrimStart(s: string): (t: string)
    ensures |t| <= |s| && t == s[|s| - |t|..]
    ensures t != [] ==> !IsWhiteSpace(t[0])
    ensures s != [] && !IsWhiteSpace(s[0]) ==> t == s
  {
    if s != [] && IsWhiteSpace(s[0]) then TrimStart(s[1..]) else s
  }

  /** The longest prefix of `s` made of digits of `radix`. */
  function LeadingDigits(s: string, radix: nat): (d: string)
    ensures |d| <= |s| && d == s[..|d|]
    ensures forall i :: 0 <= i < |d| ==> IsDigit(d[i], radix)
    ensures |d| < |s| ==> !IsDigit(s[|d|], radix)
  {
    if s == [] || !IsDigit(s[0], radix) then [] else [s[0]] + LeadingDigits(s[1..], radix)
  }

  /** The number that the digit string `d` denotes in `radix`. */
  function DigitsValue(d: string, radix: nat): (v: nat)
    decreases |d|
  {
    if d == [] then 0 else DigitsValue(d[..|d| - 1], radix) * radix + DigitValue(d[|d| - 1])
  }

  /** JavaScript's `parseInt(s)` with no radix; `None` stands for `NaN`.
      Leading white space is skipped, then one sign and the magnitude are read. */
  function ParseInt(s: string): (r: Option<int>)
    ensures r.Some? ==> exists i :: 0 <= i < |s| && '0' <= s[i] <= '9'
  {
    ParseSign(TrimStart(s))
  }

  /** A leading "-" negates the magnitude, a leading "+" is dropped. */
  function ParseSign(t: string): (r: Option<int>)
    ensures r.Some? ==> exists i :: 0 <= i < |t| && '0' <= t[i] <= '9'
  {
    if t != [] && (t[0] == '-' || t[0] == '+') then
      match ParseMagnitude(t[1..])
      case None => None
      case Some(m) =>
        assert forall i :: 0 <= i < |t[1..]| ==> t[1..][i] == t[i + 1];
        var value: int := if t[0] == '-' then -(m as int) else m;
        Some(value)
    else
      ParseMagnitude(t)
  }

  /** The magnitude: a `0x`/`0X` prefix selects radix 16, otherwise radix 10;
      reading stops at the first character that is no digit of the radix. */
  function ParseMagnitude(u: string): (r: Option<nat>)
    ensures r.Some? ==> exists i :: 0 <= i < |u| && '0' <= u[i] <= '9'
  {
    var hex := |u| >= 2 && u[0] == '0' && (u[1] == 'x' || u[1] == 'X');
    var radix := if hex then 16 else 10;
    var digits := LeadingDigits(if hex then u[2..] else u, radix);
    if digits == [] then None
    else
      assert hex ==> u[0] == '0';
      assert !hex ==> u[0] == digits[0];
      Some(DigitsValue(digits, radix))
  }

  function DigitChar(d: nat): (c: char)
    requires d < 10
    ensures '0' <= c <= '9' && DigitValue(c) == d
  {
    ('0' as nat + d) as char
  }

  /** `String(n)` for a non-negative integer: its decimal rendering without
      leading zeros. */
  function DecimalText(n: nat): (t: string)
    ensures t != []
    ensures forall i :: 0 <= i < |t| ==> '0' <= t[i] <= '9'
    ensures t[0] == '0' ==> n == 0 && |t| == 1
    ensures DigitsValue(t, 10) == n
  {
    if n < 10 then [DigitChar(n)]
    else
      var t := DecimalText(n / 10) + [DigitChar(n % 10)];
      assert t[..|t| - 1] == DecimalText(n / 10);
      t
  }

  /** Digits followed by a non-digit (or by nothing): the digits are the longest digit prefix. */
  lemma {:induction false} LeadingDigitsOf(d: string, rest: string, radix: nat)
    requires forall i :: 0 <= i < |d| ==> IsDigit(d[i], radix)
    requires rest == [] || !IsDigit(rest[0], radix)
    ensures LeadingDigits(d + rest, radix) == d
    decreases |d|
  {
    if d != [] {
      assert (d + rest)[1..] == d[1..] + rest;
      LeadingDigitsOf(d[1..], rest, radix);
    }
  }

  /** Leading white space is skipped. */
  lemma ParseSkipsWhiteSpace(c: char, s: string)
    requires IsWhiteSpace(c)
    ensures ParseInt([c] + s) == ParseInt(s)
  {
    assert ([c] + s)[1..] == s;
  }

  /** Parsing stops at the first character that is not a digit: the decimal
      text of `n`, followed by anything that neither continues the number nor
      turns a lone "0" into a `0x` prefix, reads as `n`. */
  lemma ParseStopsAtNonDigit(n: nat, rest: string)
    requires rest == [] || !IsDigit(rest[0], 10)
    requires n == 0 && rest != [] ==> rest[0] != 'x' && rest[0] != 'X'
    ensures ParseInt(DecimalText(n) + rest) == Some(n)
  {
    var t := DecimalText(n);
    var s := t + rest;
    assert s[0] == t[0] && !IsWhiteSpace(s[0]);
    assert TrimStart(s) == s;
    assert |s| >= 2 && s[0] == '0' ==> s[1] == rest[0];
    LeadingDigitsOf(t, rest, 10);
    assert ParseMagnitude(s) == Some(n);
  }

  /** Reading back the decimal text of a number gives that number:
      `parseInt(String(n)) == n`. */
  lemma ParseDecimalText(n: nat)
    ensures ParseInt(DecimalText(n)) == Some(n)
  {
    ParseStopsAtNonDigit(n, []);
    assert DecimalText(n) + [] == DecimalText(n);
  }

  /** Text that starts with neither white space nor a sign is read as a magnitude. */
  lemma ParseUnsignedText(s: string)
    requires s != [] && !IsWhiteSpace(s[0]) && s[0] != '-' && s[0] != '+'
    ensures ParseInt(s) == ParseMagnitude(s)
  {
    assert TrimStart(s) == s;
  }

  /** One leading sign is taken: "-" negates the magnitude that follows, "+" keeps it. */
  lemma ParseSignedText(c: char, u: string)
    requires c == '-' || c == '+'
    ensures ParseInt([c] + u) ==
      if ParseMagnitude(u).None? then None
      else Some(if c == '-' then -(ParseMagnitude(u).value as int) else ParseMagnitude(u).value)
  {
    var s := [c] + u;
    SignSplit(c, u);
    assert TrimStart(s) == s;
    assert ParseSign(s) == match ParseMagnitude(u)
      case None => None
      case Some(m) => Some(if c == '-' then -(m as int) else m);
  }

  lemma SignSplit(c: char, u: string)
    ensures var s := [c] + u; s != [] && s[0] == c && s[1..] == u
  {
  }

  /** A signed decimal number reads as itself. */
  lemma ParseSigned(n: nat)
    ensures ParseInt(['-'] + DecimalText(n)) == Some(-(n as int))
    ensures ParseInt(['+'] + DecimalText(n)) == Some(n)
  {
    MagnitudeOfDecimal(n);
    ParseSignedText('-', DecimalText(n));
    ParseSignedText('+', DecimalText(n));
  }

  lemma MagnitudeOfDecimal(n: nat)
    ensures ParseMagnitude(DecimalText(n)) == Some(n)
  {
    var t := DecimalText(n);
    LeadingDigitsOf(t, [], 10);
    assert t + [] == t;
    assert |t| >= 2 ==> t[0] != '0';
  }

  /** A `0x` prefix selects radix 16; the hexadecimal digits after it, up to
      the first non-digit, give the value. */
  lemma ParseHex(d: string, rest: string)
    requires d != [] && forall i :: 0 <= i < |d| ==> IsDigit(d[i], 16)
    requires rest == [] || !IsDigit(rest[0], 16)
    ensures ParseInt(['0', 'x'] + d + rest) == Some(DigitsValue(d, 16))
  {
    var s := ['0', 'x'] + d + rest;
    HexPrefixSplit(d, rest);
    MagnitudeOfHex(s, d, rest);
    ParseUnsignedText(s);
  }

  lemma HexPrefixSplit(d: string, rest: string)
    ensures var s := ['0', 'x'] + d + rest; |s| >= 2 && s[0] == '0' && s[1] == 'x' && s[2..] == d + rest
  {
    var s := ['0', 'x'] + d + rest;
    assert s == ['0', 'x'] + (d + rest);
  }

  lemma MagnitudeOfHex(s: string, d: string, rest: string)
    requires d != [] && forall i :: 0 <= i < |d| ==> IsDigit(d[i], 16)
    requires rest == [] || !IsDigit(rest[0], 16)
    requires |s| >= 2 && s[0] == '0' && s[1] == 'x' && s[2..] == d + rest
    ensures ParseMagnitude(s) == Some(DigitsValue(d, 16))
  {
    LeadingDigitsOf(d, rest, 16);
  }
}
