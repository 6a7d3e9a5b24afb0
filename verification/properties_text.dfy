/**
 The text form of a .properties file: escapes, layout, separators, continuation lines and Unicode
 escapes. Strings are sequences of Unicode scalar values.
 */
module PropertiesText {
  import opened Wrappers
  import opened Text

  // ---------------------------------------------------------------------------------------------
  // Writing
  // ---------------------------------------------------------------------------------------------

  function EscapeKey(s: string): string {
    var s1 := ReplaceAll(s, '\\', "\\\\");
    var s2 := ReplaceAll(s1, '=', "\\=");
    var s3 := ReplaceAll(s2, ':', "\\:");
    var s4 := ReplaceAll(s3, ' ', "\\ ");
    var s5 := ReplaceAll(s4, '#', "\\#");
    var s6 := ReplaceAll(s5, '!', "\\!");
    var s7 := ReplaceAll(s6, '\n', "\\n");
    var s8 := ReplaceAll(s7, '\r', "\\r");
    ReplaceAll(s8, '\t', "\\t")
  }

  function EscapeBreaks(s: string): string {
    var s1 := ReplaceAll(s, '\\', "\\\\");
    var s2 := ReplaceAll(s1, '\n', "\\n");
    var s3 := ReplaceAll(s2, '\r', "\\r");
    ReplaceAll(s3, '\t', "\\t")
  }

  function LeadingSpaces(s: string): (n: nat)
    ensures n <= |s| && (forall i :: 0 <= i < n ==> s[i] == ' ') && (n < |s| ==> s[n] != ' ')
  {
    if s != "" && s[0] == ' ' then 1 + LeadingSpaces(s[1..]) else 0
  }

  function TrailingSpaces(s: string): (n: nat)
    ensures n <= |s| && (forall i :: |s| - n <= i < |s| ==> s[i] == ' ') && (n < |s| ==> s[|s| - 1 - n] != ' ')
  {
    if s != "" && s[|s| - 1] == ' ' then 1 + TrailingSpaces(s[..|s| - 1]) else 0
  }

  function Repeat(s: string, n: nat): string {
    if n == 0 then "" else s + Repeat(s, n - 1)
  }

  /** Escapes the spaces at both edges. */
  function EscapeEdges(s: string): string {
    var lead := LeadingSpaces(s);
    var trail := TrailingSpaces(s[lead..]);
    Repeat("\\ ", lead) + s[lead..|s| - trail] + Repeat("\\ ", trail)
  }

  function EscapeValue(s: string): string {
    EscapeEdges(EscapeBreaks(s))
  }

  function Entry(key: string, value: string, separator: string): string {
    EscapeKey(key) + separator + EscapeValue(value)
  }

  function Entries(keys: seq<string>, data: map<string, string>, separator: string): (lines: seq<string>)
    requires forall k :: k in keys ==> k in data
    ensures |lines| == |keys|
    ensures forall i :: 0 <= i < |keys| ==> lines[i] == Entry(keys[i], data[keys[i]], separator)
  {
    seq(|keys|, i requires 0 <= i < |keys| => Entry(keys[i], data[keys[i]], separator))
  }

  function MarshalText(keys: seq<string>, data: map<string, string>, separator: string): string
    requires forall k :: k in keys ==> k in data
  {
    Terminated(Entries(keys, data, separator))
  }

  // ---------------------------------------------------------------------------------------------
  // Reading
  // ---------------------------------------------------------------------------------------------

  predicate IsBlank(c: char) {
    c == ' ' || c == '\t'
  }

  predicate AllBlank(s: string) {
    forall i :: 0 <= i < |s| ==> IsBlank(s[i])
  }

  function TrimLeft(s: string): (r: string)
    ensures |r| <= |s| && (r != "" ==> !IsBlank(r[0]))
  {
    if s != "" && IsBlank(s[0]) then TrimLeft(s[1..]) else s
  }

  function TrailingBackslashes(s: string): (n: nat)
    ensures n <= |s|
  {
    if s == "" || s[|s| - 1] != '\\' then 0 else 1 + TrailingBackslashes(s[..|s| - 1])
  }

  /** Drops blanks from the end, up to one that is escaped. */
  function TrimRight(s: string): (r: string)
    ensures |r| <= |s|
  {
    if s != "" && IsBlank(s[|s| - 1]) && TrailingBackslashes(s[..|s| - 1]) % 2 == 0
    then TrimRight(s[..|s| - 1])
    else s
  }

  function Trim(s: string): string {
    TrimRight(TrimLeft(s))
  }

  /** The first unescaped separator at or after `i`. */
  function SeparatorFrom(s: string, i: nat, escaped: bool): (index: Option<nat>)
    requires i <= |s|
    ensures index.Some? ==> i <= index.value < |s|
    decreases |s| - i
  {
    if i == |s| then None
    else if escaped then SeparatorFrom(s, i + 1, false)
    else if s[i] == '\\' then SeparatorFrom(s, i + 1, true)
    else if s[i] == '=' || s[i] == ':' || (s[i] == ' ' && i > 0) then Some(i)
    else SeparatorFrom(s, i + 1, false)
  }

  function HexDigit(c: char): (v: Option<nat>)
    ensures v.Some? ==> v.value < 16
  {
    if '0' <= c <= '9' then Some(c as nat - '0' as nat)
    else if 'a' <= c <= 'f' then Some(c as nat - 'a' as nat + 10)
    else if 'A' <= c <= 'F' then Some(c as nat - 'A' as nat + 10)
    else None
  }

  /** The value of the four hexadecimal digits after `s[0] == 'u'`. */
  function HexQuad(s: string): (v: Option<nat>)
    ensures v.Some? ==> v.value < 0x1_0000
  {
    if |s| < 5 || s[0] != 'u' then None
    else
      var a, b, c, d := HexDigit(s[1]), HexDigit(s[2]), HexDigit(s[3]), HexDigit(s[4]);
      if a.None? || b.None? || c.None? || d.None? then None
      else Some(((a.value * 16 + b.value) * 16 + c.value) * 16 + d.value)
  }

  predicate IsSurrogate(unit: nat) {
    0xD800 <= unit < 0xE000
  }

  /** The scalar value of a surrogate pair, section 2.2 of RFC 2781. */
  function DecodePair(high: nat, low: nat): (c: Option<char>) {
    if 0xD800 <= high < 0xDC00 && 0xDC00 <= low < 0xE000
    then Some((0x1_0000 + (high - 0xD800) * 0x400 + (low - 0xDC00)) as char)
    else None
  }

  /** Decodes the escape whose 'u' is `s[0]`: the character, and how many to skip from the 'u' on. */
  function DecodeUnicode(s: string): (r: Option<(char, nat)>)
    ensures r.Some? ==> 0 < r.value.1 <= |s|
  {
    var unit := HexQuad(s);
    if unit.None? then None
    else if !IsSurrogate(unit.value) then Some((unit.value as char, 5))
    else if |s| < 7 || s[5] != '\\' || s[6] != 'u' then None
    else
      var low := HexQuad(s[6..]);
      if low.None? then None
      else
        var c := DecodePair(unit.value, low.value);
        if c.None? then None else Some((c.value, 11))
  }

  predicate EscapesItself(c: char) {
    c in {'\\', '=', ':', ' ', '#', '!'}
  }

  function Unescape(s: string): string {
    if s == "" then ""
    else if s[0] != '\\' || |s| == 1 then [s[0]] + Unescape(s[1..])
    else if s[1] == 'n' then "\n" + Unescape(s[2..])
    else if s[1] == 'r' then "\r" + Unescape(s[2..])
    else if s[1] == 't' then "\t" + Unescape(s[2..])
    else if s[1] == 'u' then
      var decoded := DecodeUnicode(s[1..]);
      if decoded.None? then [s[0]] + Unescape(s[1..])
      else [decoded.value.0] + Unescape(s[1 + decoded.value.1..])
    else if EscapesItself(s[1]) then [s[1]] + Unescape(s[2..])
    else [s[0]] + Unescape(s[1..])
  }

  /** A key or a value, without its layout and its escapes. */
  function Token(s: string): string {
    Unescape(Trim(s))
  }

  /** One trimmed line into the entries read so far. */
  function ParseText(text: string, result: map<string, string>): map<string, string> {
    if text == "" || text[0] == '#' || text[0] == '!' then result
    else
      match SeparatorFrom(text, 0, false)
      case None => result[Unescape(text) := ""]
      case Some(i) => result[Token(text[..i]) := Token(text[i + 1..])]
  }

  /** One logical line into the entries read so far. */
  function ParseLine(line: string, result: map<string, string>): map<string, string> {
    ParseText(Trim(line), result)
  }

  /** The rest of the entries, with `pending` the unfinished logical line. */
  function ParseLines(lines: seq<string>, pending: Option<string>, result: map<string, string>): map<string, string> {
    if lines == [] then
      if pending.Some? then ParseLine(pending.value, result) else result
    else
      var line := if pending.Some? then TrimLeft(lines[0]) else lines[0];
      var before := if pending.Some? then pending.value else "";
      if TrailingBackslashes(line) % 2 == 1 then ParseLines(lines[1..], Some(before + line[..|line| - 1]), result)
      else ParseLines(lines[1..], None, ParseLine(before + line, result))
  }

  // ---------------------------------------------------------------------------------------------
  // Physical lines
  // ---------------------------------------------------------------------------------------------

  /** The pieces between the line feeds; a final line feed starts no piece. */
  function RawLines(data: string): seq<string>
    decreases |data|
  {
    if data == "" then []
    else
      var n := LineEnd(data);
      if n == |data| then [data] else [data[..n]] + RawLines(data[n + 1..])
  }

  function DropCarriageReturn(line: string): string {
    if line != "" && line[|line| - 1] == '\r' then line[..|line| - 1] else line
  }

  function TextLines(raw: seq<string>): (lines: seq<string>)
    ensures |lines| == |raw|
    ensures forall i :: 0 <= i < |raw| ==> lines[i] == DropCarriageReturn(raw[i])
  {
    if raw == [] then [] else [DropCarriageReturn(raw[0])] + TextLines(raw[1..])
  }

  function Utf8Width(c: char): nat {
    if c as int < 0x80 then 1 else if c as int < 0x800 then 2 else if c as int < 0x1_0000 then 3 else 4
  }

  function Utf8Length(s: string): nat {
    if s == "" then 0 else Utf8Width(s[0]) + Utf8Length(s[1..])
  }

  /** The longest line a scanner with its default buffer of 64 KiB can return, in bytes. */
  const MAX_LINE: nat := 0x1_0000 - 1

  predicate Fits(line: string) {
    Utf8Length(line) <= MAX_LINE
  }

  predicate AllFit(raw: seq<string>) {
    forall i :: 0 <= i < |raw| ==> Fits(raw[i])
  }

  /** The entries of a .properties file; a line the scanner cannot hold is an error. */
  function UnmarshalText(data: string): Option<map<string, string>> {
    if AllFit(RawLines(data)) then Some(ParseLines(TextLines(RawLines(data)), None, map[])) else None
  }
}
