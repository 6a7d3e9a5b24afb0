/** The text form of an environment file, and how a POSIX shell reads it. */
module EnvText {
  import opened Wrappers
  import opened Text

  // ---------------------------------------------------------------------------------------------
  // Writing
  // ---------------------------------------------------------------------------------------------

  predicate NameStart(c: char) {
    'A' <= c <= 'Z' || 'a' <= c <= 'z' || c == '_'
  }

  predicate NameChar(c: char) {
    NameStart(c) || '0' <= c <= '9'
  }

  /** A portable name of a shell variable. */
  predicate IsName(s: string) {
    s != "" && NameStart(s[0]) && forall i :: 0 <= i < |s| ==> NameChar(s[i])
  }

  predicate BareChar(c: char) {
    NameChar(c) || c in {'@', '%', '+', '=', ':', ',', '.', '/', '-'}
  }

  /** A value that needs no quotes. */
  predicate IsBare(s: string) {
    s != "" && forall i :: 0 <= i < |s| ==> BareChar(s[i])
  }

  function EscapeQuoted(s: string): string {
    var s1 := ReplaceAll(s, '\\', "\\\\");
    var s2 := ReplaceAll(s1, '"', "\\\"");
    var s3 := ReplaceAll(s2, '$', "\\$");
    var s4 := ReplaceAll(s3, '`', "\\`");
    var s5 := ReplaceAll(s4, '\n', "\\n");
    var s6 := ReplaceAll(s5, '\r', "\\r");
    ReplaceAll(s6, '\t', "\\t")
  }

  function EscapeEnvValue(s: string): string {
    if IsBare(s) then s else "\"" + EscapeQuoted(s) + "\""
  }

  function EnvLine(key: string, value: string, exported: bool): string {
    (if exported then "export " else "") + (key + ("=" + EscapeEnvValue(value)))
  }

  function EnvLines(keys: seq<string>, data: map<string, string>, exported: bool): (lines: seq<string>)
    requires forall k :: k in keys ==> k in data
    ensures |lines| == |keys|
    ensures forall i :: 0 <= i < |keys| ==> lines[i] == EnvLine(keys[i], data[keys[i]], exported)
  {
    seq(|keys|, i requires 0 <= i < |keys| => EnvLine(keys[i], data[keys[i]], exported))
  }

  // ---------------------------------------------------------------------------------------------
  // Reading
  // ---------------------------------------------------------------------------------------------

  /** White space as Go's strings package trims it. */
  predicate IsSpace(c: char) {
    || '\t' <= c <= '\r' || c == ' ' || c == '\U{85}' || c == '\U{A0}'
    || c == '\U{1680}' || '\U{2000}' <= c <= '\U{200A}' || c == '\U{2028}' || c == '\U{2029}'
    || c == '\U{202F}' || c == '\U{205F}' || c == '\U{3000}'
  }

  /** The letters and digits of names and the characters that are trimmed, by their code points. */
  lemma CharacterClasses(c: char)
    ensures var n := c as int;
      && (NameStart(c) <==> 65 <= n < 91 || n == 95 || 97 <= n < 123)
      && (NameChar(c) <==> NameStart(c) || 48 <= n < 58)
      && (BareChar(c) <==> NameChar(c) || n in {37, 43, 44, 45, 46, 47, 58, 61, 64})
      && (IsSpace(c) <==>
            || 9 <= n < 14 || n in {0x20, 0x85, 0xA0, 0x1680} || 0x2000 <= n < 0x200B
            || n in {0x2028, 0x2029, 0x202F, 0x205F, 0x3000})
  {
  }

  function TrimStart(s: string): string {
    if s != "" && IsSpace(s[0]) then TrimStart(s[1..]) else s
  }

  function TrimEnd(s: string): string {
    if s != "" && IsSpace(s[|s| - 1]) then TrimEnd(s[..|s| - 1]) else s
  }

  function TrimSpace(s: string): string {
    TrimEnd(TrimStart(s))
  }

  /** The pieces between line feeds, the last one possibly empty. */
  function Pieces(data: string): seq<string>
    decreases |data|
  {
    var n := LineEnd(data);
    if n == |data| then [data] else [data[..n]] + Pieces(data[n + 1..])
  }

  function IndexOf(s: string, c: char): (index: Option<nat>)
    ensures index.Some? ==> index.value < |s|
  {
    if s == "" then None
    else if s[0] == c then Some(0)
    else
      match IndexOf(s[1..], c)
      case None => None
      case Some(i) => Some(i + 1)
  }

  predicate HasPrefix(s: string, prefix: string) {
    |prefix| <= |s| && s[..|prefix|] == prefix
  }

  function TrimPrefix(s: string, prefix: string): string {
    if HasPrefix(s, prefix) then s[|prefix|..] else s
  }

  predicate Quotable(c: char) {
    c in {'\\', '"', '\'', '$', '`'}
  }

  function UnescapeEnv(s: string): string {
    if s == "" then ""
    else if s[0] != '\\' || |s| == 1 then [s[0]] + UnescapeEnv(s[1..])
    else if s[1] == 'n' then "\n" + UnescapeEnv(s[2..])
    else if s[1] == 'r' then "\r" + UnescapeEnv(s[2..])
    else if s[1] == 't' then "\t" + UnescapeEnv(s[2..])
    else if Quotable(s[1]) then [s[1]] + UnescapeEnv(s[2..])
    else [s[0]] + UnescapeEnv(s[1..])
  }

  predicate Quoted(s: string, quote: char) {
    |s| >= 2 && s[0] == quote && s[|s| - 1] == quote
  }

  /** The value a word stands for; between single quotes nothing is an escape. */
  function WordValue(word: string): string {
    if Quoted(word, '"') then UnescapeEnv(word[1..|word| - 1])
    else if Quoted(word, '\'') then word[1..|word| - 1]
    else UnescapeEnv(word)
  }

  /** One line without its edge spaces and its export prefix. */
  function ParseAssignment(line: string, result: map<string, string>): map<string, string> {
    match IndexOf(line, '=')
    case None => result
    case Some(i) => result[TrimSpace(line[..i]) := WordValue(TrimSpace(line[i + 1..]))]
  }

  function ParseEnvLine(line: string, result: map<string, string>): map<string, string> {
    var text := TrimSpace(line);
    if text == "" || text[0] == '#' then result
    else ParseAssignment(TrimSpace(TrimPrefix(text, "export ")), result)
  }

  function ParseEnvLines(lines: seq<string>, result: map<string, string>): map<string, string> {
    if lines == [] then result else ParseEnvLines(lines[1..], ParseEnvLine(lines[0], result))
  }

  function UnmarshalEnv(data: string): map<string, string> {
    ParseEnvLines(Pieces(data), map[])
  }

  // ---------------------------------------------------------------------------------------------
  // A POSIX shell
  // ---------------------------------------------------------------------------------------------

  /** The rest of a word between double quotes, up to its closing quote, which must end the word
      (section 2.2.3 of the POSIX Shell Command Language). None when something would be expanded or
      the quote ends early or not at all. */
  function ShellQuoted(s: string): Option<string> {
    if s == "" then None
    else if s[0] == '"' then (if |s| == 1 then Some("") else None)
    else if s[0] == '$' || s[0] == '`' then None
    else if s[0] == '\\' && |s| > 1 && s[1] in {'$', '`', '"', '\\'} then Prepend([s[1]], ShellQuoted(s[2..]))
    else if s[0] == '\\' && |s| > 1 && s[1] == '\n' then ShellQuoted(s[2..])
    else Prepend([s[0]], ShellQuoted(s[1..]))
  }

  function Prepend(s: string, rest: Option<string>): Option<string> {
    match rest
    case None => None
    case Some(t) => Some(s + t)
  }

  /** A character that never means anything to a shell in an unquoted assignment. */
  predicate Ordinary(c: char) {
    c !in {'|', '&', ';', '<', '>', '(', ')', '$', '`', '\\', '"', '\'', ' ', '\t', '\n', '*', '?', '[', '#', '~'}
  }

  /** What a shell assigns when it reads the word; None when it would expand or run anything. */
  function ShellWord(word: string): Option<string> {
    if word != "" && word[0] == '"' then ShellQuoted(word[1..])
    else if forall i :: 0 <= i < |word| ==> Ordinary(word[i]) then Some(word)
    else None
  }
}
