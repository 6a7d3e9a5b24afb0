/** Characters spelled as \uXXXX, one escape per UTF-16 code unit (RFC 2781). */
module PropertiesUnicode {
  import opened Wrappers
  import opened Text
  import opened PropertiesText

  function HexChar(d: nat): (c: char)
    requires d < 16
    ensures HexDigit(c) == Some(d)
  {
    if d < 10 then ('0' as int + d) as char else ('a' as int + d - 10) as char
  }

  function Hex4(unit: nat): string
    requires unit < 0x1_0000
  {
    [HexChar(unit / 0x1000), HexChar(unit / 0x100 % 16), HexChar(unit / 16 % 16), HexChar(unit % 16)]
  }

  /** How Java writes a character it cannot carry literally, section 2.1 of RFC 2781. */
  function Units(c: char): seq<nat>
    ensures forall i :: 0 <= i < |Units(c)| ==> Units(c)[i] < 0x1_0000
  {
    if c as int < 0x1_0000 then [c as int]
    else
      var u := c as int - 0x1_0000;
      [0xD800 + u / 0x400, 0xDC00 + u % 0x400]
  }

  function Escapes(units: seq<nat>): string
    requires forall i :: 0 <= i < |units| ==> units[i] < 0x1_0000
  {
    if units == [] then "" else "\\u" + Hex4(units[0]) + Escapes(units[1..])
  }

  /** Four digits, in either case, after the 'u'. */
  predicate QuadOf(digits: string, unit: nat) {
    |digits| == 4 && HexQuad("u" + digits) == Some(unit)
  }

  lemma HexQuadOf(digits: string, unit: nat, rest: string)
    requires QuadOf(digits, unit)
    ensures HexQuad("u" + digits + rest) == Some(unit)
  {
    var s, t := "u" + digits + rest, "u" + digits;
    assert s[1] == t[1] && s[2] == t[2] && s[3] == t[3] && s[4] == t[4];
  }

  lemma {:induction false} Hex4Reads(unit: nat)
    requires unit < 0x1_0000
    ensures QuadOf(Hex4(unit), unit)
  {
    var s := "u" + Hex4(unit);
    assert s[1] == HexChar(unit / 0x1000) && s[2] == HexChar(unit / 0x100 % 16);
    assert s[3] == HexChar(unit / 16 % 16) && s[4] == HexChar(unit % 16);
    assert unit == ((unit / 0x1000 * 16 + unit / 0x100 % 16) * 16 + unit / 16 % 16) * 16 + unit % 16;
  }

  /** One escape, whatever the case of its digits, reads as its character. */
  lemma SingleUnit(digits: string, unit: nat, rest: string)
    requires QuadOf(digits, unit) && !IsSurrogate(unit)
    ensures Unescape("\\u" + digits + rest) == [unit as char] + Unescape(rest)
  {
    var s := "\\u" + digits + rest;
    HexQuadOf(digits, unit, rest);
    assert s[1..] == "u" + digits + rest;
    assert s[6..] == rest;
  }

  /** A high surrogate followed by a low one reads as the one character they stand for. */
  lemma PairOfUnits(high: string, h: nat, low: string, l: nat, rest: string)
    requires QuadOf(high, h) && QuadOf(low, l) && 0xD800 <= h < 0xDC00 && 0xDC00 <= l < 0xE000
    ensures Unescape("\\u" + high + ("\\u" + low + rest)) ==
      [(0x1_0000 + (h - 0xD800) * 0x400 + (l - 0xDC00)) as char] + Unescape(rest)
  {
    var tail := "\\u" + low + rest;
    var s := "\\u" + high + tail;
    HexQuadOf(high, h, tail);
    HexQuadOf(low, l, rest);
    var u := s[1..];
    assert u == "u" + high + tail;
    assert u[5] == '\\' && u[6] == 'u' && u[6..] == "u" + low + rest;
    assert s[12..] == rest;
  }

  /** A low surrogate on its own is not a character: the backslash is kept as it stands. */
  lemma LoneLowSurrogate(digits: string, unit: nat, rest: string)
    requires QuadOf(digits, unit) && 0xDC00 <= unit < 0xE000
    ensures Unescape("\\u" + digits + rest) == "\\" + Unescape("u" + digits + rest)
  {
    var s := "\\u" + digits + rest;
    HexQuadOf(digits, unit, rest);
    assert s[1..] == "u" + digits + rest;
  }

  lemma PairCode(c: char)
    requires c as int >= 0x1_0000
    ensures var u := Units(c);
      |u| == 2 && 0xD800 <= u[0] < 0xDC00 && 0xDC00 <= u[1] < 0xE000 &&
      0x1_0000 + (u[0] - 0xD800) * 0x400 + (u[1] - 0xDC00) == c as int
  {
  }

  lemma EscapesOne(a: nat)
    requires a < 0x1_0000
    ensures Escapes([a]) == "\\u" + Hex4(a)
  {
    assert [a][1..] == [];
  }

  lemma EscapesTwo(a: nat, b: nat, rest: string)
    requires a < 0x1_0000 && b < 0x1_0000
    ensures Escapes([a, b]) + rest == "\\u" + Hex4(a) + ("\\u" + Hex4(b) + rest)
  {
    assert [a, b][1..] == [b];
    EscapesOne(b);
    assert Escapes([a, b]) == "\\u" + Hex4(a) + Escapes([b]);
  }

  /** Every character written as its UTF-16 units reads as itself. */
  lemma {:induction false} UnicodeRoundTrip(c: char, rest: string)
    ensures Unescape(Escapes(Units(c)) + rest) == [c] + Unescape(rest)
  {
    var units := Units(c);
    Hex4Reads(units[0]);
    if c as int < 0x1_0000 {
      EscapesOne(units[0]);
      SingleUnit(Hex4(units[0]), units[0], rest);
    } else {
      PairCode(c);
      Hex4Reads(units[1]);
      EscapesTwo(units[0], units[1], rest);
      PairOfUnits(Hex4(units[0]), units[0], Hex4(units[1]), units[1], rest);
    }
  }

  function AllEscaped(s: string): string {
    if s == "" then "" else Escapes(Units(s[0])) + AllEscaped(s[1..])
  }

  /** A text may be written entirely in escapes. */
  lemma {:induction false} AsciiRoundTrip(s: string)
    ensures Unescape(AllEscaped(s)) == s
  {
    if s != "" {
      UnicodeRoundTrip(s[0], AllEscaped(s[1..]));
      AsciiRoundTrip(s[1..]);
    }
  }

  /** The same digit, in either case. */
  predicate SameDigit(a: char, b: char) {
    || a == b
    || ('A' <= a <= 'F' && b as int == a as int + 32)
    || ('A' <= b <= 'F' && a as int == b as int + 32)
  }

  predicate IsHexDigit(c: char) {
    48 <= c as int < 58 || 65 <= c as int < 71 || 97 <= c as int < 103
  }

  /** Escapes may be spelled in either case, and nothing but hexadecimal digits makes one. */
  lemma EitherCase(a: string, b: string)
    requires |a| == |b| == 4 && forall i :: 0 <= i < 4 ==> SameDigit(a[i], b[i])
    ensures HexQuad("u" + a) == HexQuad("u" + b)
    ensures HexQuad("u" + a).Some? <==> forall i :: 0 <= i < 4 ==> IsHexDigit(a[i])
  {
    var s, t := "u" + a, "u" + b;
    forall i | 0 <= i < 4
      ensures s[i + 1] == a[i] && t[i + 1] == b[i]
      ensures HexDigit(a[i]) == HexDigit(b[i]) && (HexDigit(a[i]).Some? <==> IsHexDigit(a[i]))
    {
    }
    assert s[1] == a[0] && s[2] == a[1] && s[3] == a[2] && s[4] == a[3];
    assert t[1] == b[0] && t[2] == b[1] && t[3] == b[2] && t[4] == b[3];
  }
}
