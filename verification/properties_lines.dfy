/** What each kind of line means to a reader of .properties, wherever it stands. */
module PropertiesLines {
  // A file is read line by line, and a later line overrides an earlier one. So a file means what its
  // complete lines mean, one after the other; comments and blank lines mean nothing.

  import opened Wrappers
  import opened Text
  import opened PropertiesText
  import opened PropertiesRoundTrip
  import opened PropertiesLayout

  // ---------------------------------------------------------------------------------------------
  // One file after another
  // ---------------------------------------------------------------------------------------------

  lemma ParseLineOverrides(line: string, result: map<string, string>)
    ensures ParseLine(line, result) == result + ParseLine(line, map[])
  {
  }

  lemma OverridesAssociate(a: map<string, string>, b: map<string, string>, c: map<string, string>)
    ensures a + b + c == a + (b + c)
  {
  }

  lemma {:induction false} ParseLinesOverride(lines: seq<string>, pending: Option<string>, result: map<string, string>)
    ensures ParseLines(lines, pending, result) == result + ParseLines(lines, pending, map[])
  {
    if lines == [] {
      if pending.Some? {
        ParseLineOverrides(pending.value, result);
      }
    } else {
      var line := if pending.Some? then TrimLeft(lines[0]) else lines[0];
      var before := if pending.Some? then pending.value else "";
      if TrailingBackslashes(line) % 2 == 1 {
        ParseLinesOverride(lines[1..], Some(before + line[..|line| - 1]), result);
      } else {
        var one := ParseLine(before + line, map[]);
        ParseLineOverrides(before + line, result);
        ParseLinesOverride(lines[1..], None, result + one);
        ParseLinesOverride(lines[1..], None, one);
        OverridesAssociate(result, one, ParseLines(lines[1..], None, map[]));
      }
    }
  }

  /** The last line does not continue on a next one. */
  predicate EndsClosed(lines: seq<string>) {
    lines == [] || TrailingBackslashes(lines[|lines| - 1]) % 2 == 0
  }

  lemma TrimmedParity(line: string)
    ensures TrailingBackslashes(TrimLeft(line)) % 2 == TrailingBackslashes(line) % 2
  {
    TrimLeftKeepsParity(line);
    ParityTells(line);
    ParityTells(TrimLeft(line));
  }

  lemma {:induction false} ClosedSplit(a: seq<string>, b: seq<string>, pending: Option<string>, result: map<string, string>)
    requires EndsClosed(a) && (a == [] ==> pending.None?)
    ensures ParseLines(a + b, pending, result) == ParseLines(b, None, ParseLines(a, pending, result))
    decreases |a|, 0
  {
    if a == [] {
      assert a + b == b;
    } else {
      var head, tail := a[0], a[1..];
      Regroup([head], tail, b);
      assert a == [head] + tail;
      TrimmedParity(head);
      FirstOfLines(head, tail + b, pending, result);
      FirstOfLines(head, tail, pending, result);
      var line := if pending.Some? then TrimLeft(head) else head;
      ContinueSplits(if pending.Some? then pending.value else "", line, tail, b, result);
    }
  }

  lemma {:induction false} ContinueSplits(before: string, line: string, a: seq<string>, b: seq<string>, result: map<string, string>)
    requires EndsClosed(a) && (a == [] ==> TrailingBackslashes(line) % 2 == 0)
    ensures Continue(before, line, a + b, result) == ParseLines(b, None, Continue(before, line, a, result))
    decreases |a|, 1
  {
    if TrailingBackslashes(line) % 2 == 1 {
      ClosedSplit(a, b, Some(before + line[..|line| - 1]), result);
    } else {
      ClosedSplit(a, b, None, ParseLine(before + line, result));
    }
  }

  /** Complete lines of which the last does not continue. */
  predicate Closed(text: string) {
    Complete(text) && EndsClosed(TextLines(RawLines(text)))
  }

  /** What two readings in a row come to: the second overrides the first, and both must succeed. */
  function Then(a: Option<map<string, string>>, b: Option<map<string, string>>): Option<map<string, string>> {
    if a.Some? && b.Some? then Some(a.value + b.value) else None
  }

  /** A file reads as its complete lines read, followed by what the rest reads as; on a key that both have,
      the later one wins. */
  lemma Concatenated(a: string, b: string)
    requires Closed(a)
    ensures UnmarshalText(a + b) == Then(UnmarshalText(a), UnmarshalText(b))
  {
    LinesConcat(a, b);
    TextLinesConcat(RawLines(a), RawLines(b));
    FitBoth(RawLines(a), RawLines(b));
    ClosedSplit(TextLines(RawLines(a)), TextLines(RawLines(b)), None, map[]);
    ParseLinesOverride(TextLines(RawLines(b)), None, ParseLines(TextLines(RawLines(a)), None, map[]));
  }

  lemma FitBoth(a: seq<string>, b: seq<string>)
    ensures AllFit(a + b) <==> AllFit(a) && AllFit(b)
  {
    assert forall i :: 0 <= i < |a| ==> (a + b)[i] == a[i];
    assert forall i :: 0 <= i < |b| ==> (a + b)[|a| + i] == b[i];
  }

  // ---------------------------------------------------------------------------------------------
  // One line
  // ---------------------------------------------------------------------------------------------

  /** A line as it stands in the file, without its line feed: not split, and closed. */
  predicate Single(line: string) {
    NoBreak(line) && TrailingBackslashes(line) % 2 == 0
  }

  lemma SingleReads(line: string)
    requires Single(line)
    ensures Closed(line + "\n")
    ensures UnmarshalText(line + "\n") == if Fits(line) then Some(ParseLine(line, map[])) else None
  {
    FirstLine(line, "");
    assert line + "\n" + "" == line + "\n" && RawLines("") == [];
    assert RawLines(line + "\n") == [line] && DropCarriageReturn(line) == line;
    TextLinesConcat([line], []);
    assert TextLines([line]) == [line];
    FirstOfLines(line, [], None, map[]);
    assert [line] + [] == [line] && "" + line == line;
  }

  lemma SkippedParses(indent: string, rest: string, result: map<string, string>)
    requires AllBlank(indent) && (rest == "" || rest[0] == '#' || rest[0] == '!')
    ensures ParseLine(indent + rest, result) == result
  {
    TrimLeftBlanks(indent, rest);
    TrimRightKeepsFirst(rest);
  }

  lemma {:induction false} TrimRightKeepsFirst(s: string)
    ensures TrimRight(s) != "" ==> s != "" && TrimRight(s)[0] == s[0]
    decreases |s|
  {
    if s != "" && IsBlank(s[|s| - 1]) && TrailingBackslashes(s[..|s| - 1]) % 2 == 0 {
      TrimRightKeepsFirst(s[..|s| - 1]);
    }
  }

  /** A blank line and a comment read as nothing. */
  lemma CommentAlone(indent: string, rest: string)
    requires AllBlank(indent) && (rest == "" || rest[0] == '#' || rest[0] == '!') && Single(indent + rest)
    ensures UnmarshalText(indent + rest + "\n") == if Fits(indent + rest) then Some(map[]) else None
  {
    SkippedParses(indent, rest, map[]);
    SingleReads(indent + rest);
  }

  /** A blank line or a comment anywhere between complete lines changes nothing that is read. */
  lemma {:induction false} CommentAnywhere(pre: string, indent: string, rest: string, post: string)
    requires Closed(pre)
    requires AllBlank(indent) && (rest == "" || rest[0] == '#' || rest[0] == '!') && Single(indent + rest)
    ensures UnmarshalText(pre + ((indent + rest + "\n") + post)) ==
      if Fits(indent + rest) then UnmarshalText(pre + post) else None
  {
    CommentAlone(indent, rest);
    SingleReads(indent + rest);
    NothingBetween(pre, indent + rest + "\n", post);
  }

  lemma {:induction false} NothingBetween(pre: string, line: string, post: string)
    requires Closed(pre) && Closed(line) && (UnmarshalText(line).Some? ==> UnmarshalText(line).value == map[])
    ensures UnmarshalText(pre + (line + post)) == if UnmarshalText(line).Some? then UnmarshalText(pre + post) else None
  {
    Concatenated(line, post);
    Concatenated(pre, line + post);
    Concatenated(pre, post);
    ThenNothing(UnmarshalText(pre), UnmarshalText(line), UnmarshalText(post));
  }

  lemma ThenNothing(a: Option<map<string, string>>, b: Option<map<string, string>>, c: Option<map<string, string>>)
    requires b.Some? ==> b.value == map[]
    ensures Then(a, Then(b, c)) == if b.Some? then Then(a, c) else None
  {
    if b.Some? && c.Some? {
      assert b.value + c.value == c.value;
    }
  }

  /** A comment that ends in an odd number of backslashes swallows the line after it. */
  lemma {:induction false} CommentSwallows(rest: string, next: string)
    requires rest != "" && (rest[0] == '#' || rest[0] == '!') && Single(rest)
    requires next != "" && !IsBlank(next[0]) && Single(next)
    ensures var text := UnmarshalText("" + (rest + "\\") + ("\n" + (("" + next) + "\n")));
      Fits(rest + next) && text.Some? ==> text == Some(map[])
  {
    WrappedText("", rest, next, "", "\n");
    ClosedPrefix(rest, next);
    var line := rest + next;
    assert "" + line == line;
    assert Single(line);
    CommentAlone("", line);
  }

  lemma {:induction false} KeyParses(indent: string, k: string, result: map<string, string>)
    requires AllBlank(indent) && k != ""
    ensures ParseLine(indent + KeyCodes(k), result) == result[k := ""]
  {
    KeyTight(k);
    KeyNonempty(k);
    TrimLeftBlanks(indent, KeyCodes(k));
    TightTrimRight(KeyCodes(k));
    KeyTextParses(k, result);
  }

  lemma {:induction false} KeyTextParses(k: string, result: map<string, string>)
    requires k != ""
    ensures ParseText(KeyCodes(k), result) == result[k := ""]
  {
    KeyNonempty(k);
    KeyNoBreak(k);
    NoSeparatorIn(k);
    UnescapeKeyCodes(k);
    LoneKeyParses(KeyCodes(k), k, result);
  }

  lemma {:induction false} NoSeparatorIn(k: string)
    ensures SeparatorFrom(KeyCodes(k), 0, false) == None
  {
    var code := KeyCodes(k);
    SkipKey("", k, "");
    assert "" + code + "" == code;
    assert SeparatorFrom(code, |code|, false) == None;
  }

  lemma LoneKeyParses(code: string, k: string, result: map<string, string>)
    requires code != "" && code[0] != '#' && code[0] != '!'
    requires SeparatorFrom(code, 0, false) == None && Unescape(code) == k
    ensures ParseText(code, result) == result[k := ""]
  {
  }

  lemma IndentedSingle(indent: string, text: string)
    requires AllBlank(indent) && NoBreak(text) && !Escaping(false, text)
    ensures Single(indent + text)
  {
    BlanksClosed(indent);
    EscapingAppend(false, indent, text);
    ParityTells(indent + text);
  }

  /** A line without a separator is a key with the empty value, whatever its indentation. */
  lemma KeyAlone(indent: string, k: string)
    requires AllBlank(indent) && k != ""
    ensures var line := indent + EscapeKey(k);
      UnmarshalText(line + "\n") == if Fits(line) then Some(map[k := ""]) else None
  {
    KeySpelled(k);
    KeyNoBreak(k);
    KeyClosed(k);
    IndentedSingle(indent, KeyCodes(k));
    KeyParses(indent, k, map[]);
    SingleReads(indent + KeyCodes(k));
  }

  lemma EntryTight(k: string, mark: char, text: string, v: string)
    requires k != "" && mark in {'=', ':', ' '} && text != "" && Spells(text, v)
    ensures TightEnd([mark] + text) && Trim(KeyCodes(k) + ([mark] + text)) == KeyCodes(k) + ([mark] + text)
    ensures NoBreak(KeyCodes(k) + ([mark] + text)) && !Escaping(false, KeyCodes(k) + ([mark] + text))
  {
    assert [mark][1..] == "";
    TightEndAppend([mark], text);
    PaddedTrim(k, [mark] + text);
    KeyNoBreak(k);
    KeyClosed(k);
    EscapingAppend(false, [mark], text);
    EscapingAppend(false, KeyCodes(k), [mark] + text);
  }

  lemma IndentedParses(indent: string, line: string, result: map<string, string>)
    requires AllBlank(indent) && line != "" && !IsBlank(line[0])
    ensures ParseLine(indent + line, result) == ParseLine(line, result)
  {
    TrimLeftBlanks(indent, line);
  }

  lemma {:induction false} EntryParses(k: string, mark: char, text: string, v: string, result: map<string, string>)
    requires k != "" && mark in {'=', ':', ' '} && text != "" && Spells(text, v)
    ensures ParseLine(KeyCodes(k) + ([mark] + text), result) == result[k := v]
  {
    EntryTight(k, mark, text, v);
    TokenOf(text, v);
    var post := [mark] + text;
    assert "" + post == post;
    PaddedParses(k, "", mark, text, result);
  }

  /** A key, one of the three separators and a value are that entry, whatever the indentation. */
  lemma EntryAlone(indent: string, k: string, mark: char, v: string)
    requires AllBlank(indent) && k != "" && v != "" && mark in {'=', ':', ' '}
    ensures var line := indent + (EscapeKey(k) + ([mark] + EscapeValue(v)));
      UnmarshalText(line + "\n") == if Fits(line) then Some(map[k := v]) else None
  {
    var text := EscapeValue(v);
    KeySpelled(k);
    KeyNonempty(k);
    KeyTight(k);
    ValueSpells(v);
    ValueNonempty(v);
    EntryTight(k, mark, text, v);
    IndentedSingle(indent, KeyCodes(k) + ([mark] + text));
    IndentedParses(indent, KeyCodes(k) + ([mark] + text), map[]);
    EntryParses(k, mark, text, v, map[]);
    SingleReads(indent + (KeyCodes(k) + ([mark] + text)));
  }

  lemma ValueNonempty(v: string)
    requires v != ""
    ensures EscapeValue(v) != ""
  {
    UnescapeInverts(v);
  }

  lemma LineBetween(pre: string, line: string, post: string)
    requires Complete(pre) && '\n' !in line
    ensures TextLines(RawLines(pre + (line + "\n" + post))) ==
      TextLines(RawLines(pre)) + [DropCarriageReturn(line)] + TextLines(RawLines(post))
  {
    LinesConcat(pre, line + "\n" + post);
    FirstLine(line, post);
    TextLinesAround(RawLines(pre), line, RawLines(post));
  }

  /** A line that ends with a carriage return reads as it does without. */
  lemma {:induction false} CarriageReturn(pre: string, line: string, post: string)
    requires Complete(pre) && NoBreak(line)
    ensures var dos, unix := UnmarshalText(pre + ((line + "\r") + "\n" + post)), UnmarshalText(pre + (line + "\n" + post));
      dos.Some? && unix.Some? ==> dos == unix
  {
    LineBetween(pre, line + "\r", post);
    LineBetween(pre, line, post);
    ReturnStays(line, "\r");
    assert DropCarriageReturn("\r") == "" && line + "" == line;
    ReadsAlike(pre + ((line + "\r") + "\n" + post), pre + (line + "\n" + post));
  }

  /** A backslash before a character it does not escape stands for itself. */
  lemma OtherEscape(c: char, rest: string)
    requires c !in {'n', 'r', 't', 'u', '\\', '=', ':', ' ', '#', '!'}
    ensures Unescape(['\\', c] + rest) == ['\\', c] + Unescape(rest)
  {
    var s := ['\\', c] + rest;
    assert s[1..] == [c] + rest && ([c] + rest)[1..] == rest;
  }

  /** A line of ASCII fits the reader's buffer exactly if it is shorter than 64 KiB. */
  lemma AsciiFits(line: string)
    requires forall i :: 0 <= i < |line| ==> line[i] as int < 128
    ensures Fits(line) <==> |line| < 65536
  {
    AsciiLength(line);
  }

  lemma {:induction false} AsciiLength(line: string)
    requires forall i :: 0 <= i < |line| ==> line[i] as int < 128
    ensures Utf8Length(line) == |line|
  {
    if line != "" {
      AsciiLength(line[1..]);
    }
  }
}
