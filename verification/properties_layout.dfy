/** What a reader of .properties makes of layout: wrapped lines and padding around the separator. */
module PropertiesLayout {
  import opened Wrappers
  import opened Text
  import opened PropertiesText
  import opened PropertiesRoundTrip

  // ---------------------------------------------------------------------------------------------
  // Wrapped lines
  // ---------------------------------------------------------------------------------------------

  lemma {:induction false} TrimLeftKeepsParity(x: string)
    ensures Escaping(false, TrimLeft(x)) == Escaping(false, x)
  {
    if x != "" && IsBlank(x[0]) {
      TrimLeftKeepsParity(x[1..]);
    }
  }

  lemma {:induction false} TrimLeftAppend(x: string, y: string)
    requires y == "" || !IsBlank(y[0])
    ensures TrimLeft(x + y) == TrimLeft(x) + y
  {
    if x == "" {
      assert x + y == y;
    } else {
      assert (x + y)[1..] == x[1..] + y;
      if IsBlank(x[0]) {
        TrimLeftAppend(x[1..], y);
      }
    }
  }

  lemma {:induction false} TrimLeftBlanks(indent: string, y: string)
    requires AllBlank(indent) && (y == "" || !IsBlank(y[0]))
    ensures TrimLeft(indent + y) == y
  {
    if indent == "" {
      assert indent + y == y;
    } else {
      assert (indent + y)[1..] == indent[1..] + y;
      TrimLeftBlanks(indent[1..], y);
    }
  }

  /** The first of two physical lines joined by a backslash leaves the logical line open. */
  lemma OpenLine(x: string)
    requires TrailingBackslashes(x) % 2 == 0
    ensures TrailingBackslashes(x + "\\") % 2 == 1 && (x + "\\")[..|x|] == x
  {
    CutBackslash(x);
    OneMore(x + "\\");
  }

  lemma CutBackslash(x: string)
    ensures |x + "\\"| == |x| + 1 && (x + "\\")[..|x|] == x && (x + "\\")[|x|] == '\\'
  {
  }

  lemma OneMore(s: string)
    requires s != "" && s[|s| - 1] == '\\'
    ensures TrailingBackslashes(s) == 1 + TrailingBackslashes(s[..|s| - 1])
  {
  }

  lemma ClosedPrefix(x: string, y: string)
    requires TrailingBackslashes(x) % 2 == 0
    ensures TrailingBackslashes(x + y) % 2 == TrailingBackslashes(y) % 2
  {
    ParityTells(x);
    ParityTells(y);
    ParityTells(x + y);
    EscapingAppend(false, x, y);
  }

  /** The logical line `x + y`, with `before` what stands in front of it. */
  function Continue(before: string, line: string, lines: seq<string>, result: map<string, string>): map<string, string> {
    if TrailingBackslashes(line) % 2 == 1 then ParseLines(lines, Some(before + line[..|line| - 1]), result)
    else ParseLines(lines, None, ParseLine(before + line, result))
  }

  lemma CutLast(x: string, y: string)
    requires y != ""
    ensures (x + y)[..|x + y| - 1] == x + y[..|y| - 1]
  {
  }

  lemma {:induction false} ContinueSplit(before: string, x: string, y: string, lines: seq<string>, result: map<string, string>)
    requires TrailingBackslashes(x) % 2 == 0
    ensures Continue(before, x + y, lines, result) == Continue(before + x, y, lines, result)
  {
    ClosedPrefix(x, y);
    Regroup(before, x, y);
    if TrailingBackslashes(y) % 2 == 1 {
      CutLast(x, y);
      Regroup(before, x, y[..|y| - 1]);
    }
  }

  lemma FirstOfLines(line: string, lines: seq<string>, pending: Option<string>, result: map<string, string>)
    ensures ParseLines([line] + lines, pending, result) ==
      if pending.Some? then Continue(pending.value, TrimLeft(line), lines, result) else Continue("", line, lines, result)
  {
    var all := [line] + lines;
    assert all != [] && all[0] == line && all[1..] == lines;
  }

  lemma {:induction false} OpenThenRest(x: string, y: string, indent: string, lines: seq<string>, before: string, result: map<string, string>)
    requires TrailingBackslashes(x) % 2 == 0 && AllBlank(indent) && (y == "" || !IsBlank(y[0]))
    ensures Continue(before, x + "\\", [indent + y] + lines, result) == Continue(before, x + y, lines, result)
  {
    OpenLine(x);
    assert before + (x + "\\")[..|x + "\\"| - 1] == before + x;
    FirstOfLines(indent + y, lines, Some(before + x), result);
    TrimLeftBlanks(indent, y);
    ContinueSplit(before, x, y, lines, result);
  }

  lemma WrappedFirst(x: string, y: string, indent: string, after: seq<string>,
                     pending: Option<string>, result: map<string, string>)
    requires TrailingBackslashes(x) % 2 == 0 && AllBlank(indent) && (y == "" || !IsBlank(y[0]))
    ensures ParseLines([x + "\\"] + ([indent + y] + after), pending, result) == ParseLines([x + y] + after, pending, result)
  {
    FirstOfLines(x + "\\", [indent + y] + after, pending, result);
    FirstOfLines(x + y, after, pending, result);
    if pending.None? {
      OpenThenRest(x, y, indent, after, "", result);
    } else {
      TrimLeftAppend(x, "\\");
      TrimLeftAppend(x, y);
      TrimLeftKeepsParity(x);
      ParityTells(x);
      ParityTells(TrimLeft(x));
      OpenThenRest(TrimLeft(x), y, indent, after, pending.value, result);
    }
  }

  lemma SameTail(head: string, a: seq<string>, b: seq<string>, pending: Option<string>, result: map<string, string>)
    requires forall p, r :: ParseLines(a, p, r) == ParseLines(b, p, r)
    ensures ParseLines([head] + a, pending, result) == ParseLines([head] + b, pending, result)
  {
    FirstOfLines(head, a, pending, result);
    FirstOfLines(head, b, pending, result);
  }

  /** Wrapping a line outside an escape and not before a blank changes nothing, wherever the line
      stands and whatever the indentation. */
  lemma {:induction false} WrappedLine(before: seq<string>, x: string, y: string, indent: string, after: seq<string>,
                                       pending: Option<string>, result: map<string, string>)
    requires TrailingBackslashes(x) % 2 == 0 && AllBlank(indent) && (y == "" || !IsBlank(y[0]))
    ensures ParseLines(before + [x + "\\", indent + y] + after, pending, result) ==
            ParseLines(before + [x + y] + after, pending, result)
    decreases |before|
  {
    var wrapped, plain := before + [x + "\\", indent + y] + after, before + [x + y] + after;
    if before == [] {
      assert wrapped == [x + "\\"] + ([indent + y] + after) && plain == [x + y] + after;
      WrappedFirst(x, y, indent, after, pending, result);
    } else {
      var head, tail := before[0], before[1..];
      var wrappedTail, plainTail := tail + [x + "\\", indent + y] + after, tail + [x + y] + after;
      forall p, r
        ensures ParseLines(wrappedTail, p, r) == ParseLines(plainTail, p, r)
      {
        WrappedLine(tail, x, y, indent, after, p, r);
      }
      assert wrapped == [head] + wrappedTail && plain == [head] + plainTail;
      SameTail(head, wrappedTail, plainTail, pending, result);
    }
  }

  lemma {:induction false} OpenAtEnd(before: string, x: string, result: map<string, string>)
    requires TrailingBackslashes(x) % 2 == 0
    ensures Continue(before, x + "\\", [], result) == Continue(before, x, [], result)
  {
    OpenLine(x);
  }

  lemma DanglingLast(x: string, pending: Option<string>, result: map<string, string>)
    requires TrailingBackslashes(x) % 2 == 0
    ensures ParseLines([x + "\\"] + [], pending, result) == ParseLines([x] + [], pending, result)
  {
    FirstOfLines(x + "\\", [], pending, result);
    FirstOfLines(x, [], pending, result);
    if pending.None? {
      OpenAtEnd("", x, result);
    } else {
      TrimLeftAppend(x, "\\");
      TrimLeftKeepsParity(x);
      ParityTells(x);
      ParityTells(TrimLeft(x));
      OpenAtEnd(pending.value, TrimLeft(x), result);
    }
  }

  /** A continuation that never comes still ends the entry. */
  lemma {:induction false} DanglingLine(before: seq<string>, x: string, pending: Option<string>, result: map<string, string>)
    requires TrailingBackslashes(x) % 2 == 0
    ensures ParseLines(before + [x + "\\"], pending, result) == ParseLines(before + [x], pending, result)
    decreases |before|
  {
    var dangling, plain := before + [x + "\\"], before + [x];
    if before == [] {
      assert dangling == [x + "\\"] + [] && plain == [x] + [];
      DanglingLast(x, pending, result);
    } else {
      var head, tail := before[0], before[1..];
      var danglingTail, plainTail := tail + [x + "\\"], tail + [x];
      forall p, r
        ensures ParseLines(danglingTail, p, r) == ParseLines(plainTail, p, r)
      {
        DanglingLine(tail, x, p, r);
      }
      assert dangling == [head] + danglingTail && plain == [head] + plainTail;
      SameTail(head, danglingTail, plainTail, pending, result);
    }
  }

  // ---------------------------------------------------------------------------------------------
  // Wrapped texts
  // ---------------------------------------------------------------------------------------------

  /** Complete lines: nothing, or text up to and including a line feed. */
  predicate Complete(text: string) {
    text == "" || text[|text| - 1] == '\n'
  }

  lemma SplitFirst(text: string) returns (line: string, tail: string)
    requires text != "" && Complete(text)
    ensures text == line + "\n" + tail && '\n' !in line && Complete(tail)
  {
    var n := LineEnd(text);
    line, tail := text[..n], text[n + 1..];
  }

  lemma {:induction false} LinesConcat(text: string, rest: string)
    requires Complete(text)
    ensures RawLines(text + rest) == RawLines(text) + RawLines(rest)
    decreases |text|
  {
    if text == "" {
      assert text + rest == rest;
    } else {
      var line, tail := SplitFirst(text);
      FirstLine(line, tail);
      Regroup(line + "\n", tail, rest);
      FirstLine(line, tail + rest);
      LinesConcat(tail, rest);
      Regroup([line], RawLines(tail), RawLines(rest));
    }
  }

  lemma LastLine(line: string)
    requires '\n' !in line && line != ""
    ensures RawLines(line) == [line]
  {
  }

  /** The lines after the one before `post`. */
  function LinesAfter(post: string): seq<string> {
    if post == "" then [] else RawLines(post[1..])
  }

  /** What follows a line: the end of the input, or a line feed and more. */
  lemma LineThen(line: string, post: string)
    requires '\n' !in line && line != "" && (post == "" || post[0] == '\n')
    ensures RawLines(line + post) == [line] + LinesAfter(post)
  {
    if post == "" {
      assert line + post == line;
      LastLine(line);
    } else {
      assert line + post == line + "\n" + post[1..];
      FirstLine(line, post[1..]);
    }
  }

  lemma TextLinesConcat(a: seq<string>, b: seq<string>)
    ensures TextLines(a + b) == TextLines(a) + TextLines(b)
  {
    assert TextLines(a + b) == TextLines(a) + TextLines(b);
  }

  lemma ReturnStays(x: string, y: string)
    requires y != ""
    ensures DropCarriageReturn(x + y) == x + DropCarriageReturn(y)
  {
  }

  lemma TextLinesAround(a: seq<string>, line: string, b: seq<string>)
    ensures TextLines(a + ([line] + b)) == TextLines(a) + [DropCarriageReturn(line)] + TextLines(b)
  {
    TextLinesConcat(a, [line] + b);
    TextLinesConcat([line], b);
    assert TextLines([line]) == [DropCarriageReturn(line)];
  }

  /** The lines of a text around one of them. */
  lemma LinesAround(pre: string, line: string, post: string)
    requires Complete(pre) && '\n' !in line && line != "" && (post == "" || post[0] == '\n')
    ensures TextLines(RawLines(pre + line + post)) ==
      TextLines(RawLines(pre)) + [DropCarriageReturn(line)] + TextLines(LinesAfter(post))
  {
    Regroup(pre, line, post);
    LinesConcat(pre, line + post);
    LineThen(line, post);
    TextLinesAround(RawLines(pre), line, LinesAfter(post));
  }

  lemma TextOfLine(line: string, post: string)
    requires '\n' !in line && line != "" && (post == "" || post[0] == '\n')
    ensures TextLines(RawLines(line + post)) == [DropCarriageReturn(line)] + TextLines(LinesAfter(post))
  {
    LineThen(line, post);
    TextLinesConcat([line], LinesAfter(post));
    assert TextLines([line]) == [DropCarriageReturn(line)];
  }

  lemma AfterBreak(text: string)
    ensures LinesAfter("\n" + text) == RawLines(text)
  {
    assert ("\n" + text)[1..] == text;
  }

  lemma TwoLines(a: seq<string>, first: string, second: string, b: seq<string>)
    ensures a + [first] + ([second] + b) == a + [first, second] + b
  {
  }

  lemma {:induction false} WrappedLines(pre: string, first: string, second: string, post: string)
    requires Complete(pre) && '\n' !in first && first != "" && '\n' !in second && second != ""
    requires post == "" || post[0] == '\n'
    ensures TextLines(RawLines(pre + first + ("\n" + (second + post)))) ==
      TextLines(RawLines(pre)) + [DropCarriageReturn(first), DropCarriageReturn(second)] + TextLines(LinesAfter(post))
  {
    LinesAround(pre, first, "\n" + (second + post));
    AfterBreak(second + post);
    TextOfLine(second, post);
    TwoLines(TextLines(RawLines(pre)), DropCarriageReturn(first), DropCarriageReturn(second), TextLines(LinesAfter(post)));
  }

  lemma {:induction false} PlainParts(pre: string, x: string, y: string, post: string)
    requires Complete(pre) && '\n' !in x && '\n' !in y && y != "" && (post == "" || post[0] == '\n')
    ensures TextLines(RawLines(pre + (x + y) + post)) ==
      TextLines(RawLines(pre)) + [x + DropCarriageReturn(y)] + TextLines(LinesAfter(post))
  {
    LinesAround(pre, x + y, post);
    ReturnStays(x, y);
  }

  lemma {:induction false} WrappedParts(pre: string, x: string, y: string, indent: string, post: string)
    requires Complete(pre) && '\n' !in x && '\n' !in y && y != "" && (post == "" || post[0] == '\n')
    requires AllBlank(indent)
    ensures TextLines(RawLines(pre + (x + "\\") + ("\n" + ((indent + y) + post)))) ==
      TextLines(RawLines(pre)) + [x + "\\", indent + DropCarriageReturn(y)] + TextLines(LinesAfter(post))
  {
    WrappedLines(pre, x + "\\", indent + y, post);
    assert DropCarriageReturn(x + "\\") == x + "\\";
    ReturnStays(indent, y);
  }

  /** Splitting a line of a file with a backslash, a line feed and any indentation, outside an escape
      and not before a blank, does not change what is read, as long as every line fits. */
  lemma {:induction false} WrappedText(pre: string, x: string, y: string, indent: string, post: string)
    requires Complete(pre) && '\n' !in x && '\n' !in y && (post == "" || post[0] == '\n')
    requires TrailingBackslashes(x) % 2 == 0 && y != "" && !IsBlank(y[0]) && AllBlank(indent)
    ensures var plain := UnmarshalText(pre + (x + y) + post);
      var wrapped := UnmarshalText(pre + (x + "\\") + ("\n" + ((indent + y) + post)));
      plain.Some? && wrapped.Some? ==> plain == wrapped
  {
    PlainParts(pre, x, y, post);
    WrappedParts(pre, x, y, indent, post);
    WrappedLine(TextLines(RawLines(pre)), x, DropCarriageReturn(y), indent, TextLines(LinesAfter(post)), None, map[]);
  }

  lemma LastLineOf(pre: string, line: string)
    requires Complete(pre) && '\n' !in line && line != ""
    ensures TextLines(RawLines(pre + line)) == TextLines(RawLines(pre)) + [DropCarriageReturn(line)]
  {
    LinesAround(pre, line, "");
    assert pre + line + "" == pre + line;
  }

  lemma BackslashLast(x: string)
    requires '\n' !in x && x != "" && x[|x| - 1] != '\r'
    ensures '\n' !in x + "\\" && DropCarriageReturn(x) == x && DropCarriageReturn(x + "\\") == x + "\\"
  {
  }

  lemma ReadsAlike(a: string, b: string)
    requires ParseLines(TextLines(RawLines(a)), None, map[]) == ParseLines(TextLines(RawLines(b)), None, map[])
    ensures UnmarshalText(a).Some? && UnmarshalText(b).Some? ==> UnmarshalText(a) == UnmarshalText(b)
  {
  }

  /** A backslash at the very end of the input is dropped, and its entry is kept. */
  lemma {:induction false} DanglingText(pre: string, x: string)
    requires Complete(pre) && '\n' !in x && x != "" && x[|x| - 1] != '\r' && TrailingBackslashes(x) % 2 == 0
    ensures var plain, dangling := UnmarshalText(pre + x), UnmarshalText(pre + (x + "\\"));
      plain.Some? && dangling.Some? ==> plain == dangling
  {
    BackslashLast(x);
    LastLineOf(pre, x);
    LastLineOf(pre, x + "\\");
    DanglingLine(TextLines(RawLines(pre)), x, None, map[]);
    ReadsAlike(pre + x, pre + (x + "\\"));
  }

  // ---------------------------------------------------------------------------------------------
  // Padding around the separator
  // ---------------------------------------------------------------------------------------------

  lemma {:induction false} SkipTabs(pre: string, tabs: string, post: string)
    requires forall i :: 0 <= i < |tabs| ==> tabs[i] == '\t'
    ensures SeparatorFrom(pre + tabs + post, |pre|, false) == SeparatorFrom(pre + tabs + post, |pre| + |tabs|, false)
    decreases |tabs|
  {
    if tabs != "" {
      assert tabs == ['\t'] + tabs[1..];
      Regroup(pre, ['\t'], tabs[1..]);
      SkipTabs(pre + ['\t'], tabs[1..], post);
      assert (pre + tabs + post)[|pre|] == '\t';
    }
  }

  lemma {:induction false} TrimRightTabs(code: string, tabs: string)
    requires Tight(code) && !Escaping(false, code) && (forall i :: 0 <= i < |tabs| ==> tabs[i] == '\t')
    ensures TrimRight(code + tabs) == code
    decreases |tabs|
  {
    if tabs == "" {
      assert code + tabs == code;
      if code != "" {
        ParityTells(code[..|code| - 1]);
      }
    } else {
      var front := tabs[..|tabs| - 1];
      assert (code + tabs)[..|code + tabs| - 1] == code + front;
      TabsClosed(code, front);
      ParityTells(code + front);
      TrimRightTabs(code, front);
    }
  }

  lemma {:induction false} TabsClosed(code: string, tabs: string)
    requires !Escaping(false, code) && (forall i :: 0 <= i < |tabs| ==> tabs[i] == '\t')
    ensures !Escaping(false, code + tabs)
    decreases |tabs|
  {
    if tabs == "" {
      assert code + tabs == code;
    } else {
      var front := tabs[..|tabs| - 1];
      assert code + tabs == code + front + ['\t'];
      TabsClosed(code, front);
      EscapingAppend(false, code + front, ['\t']);
      assert ['\t'][1..] == "";
    }
  }

  predicate AllTabs(s: string) {
    forall i :: 0 <= i < |s| ==> s[i] == '\t'
  }

  lemma {:induction false} SplitTabs(p: string) returns (tabs: string, rest: string)
    requires AllBlank(p)
    ensures p == tabs + rest && AllTabs(tabs) && AllBlank(rest) && (rest == "" || rest[0] == ' ')
    ensures rest == "" <==> ' ' !in p
  {
    if p == "" || p[0] == ' ' {
      tabs, rest := "", p;
    } else {
      tabs, rest := SplitTabs(p[1..]);
      tabs := ['\t'] + tabs;
    }
  }

  lemma {:induction false} UnescapeBlanks(q: string, text: string)
    requires AllBlank(q)
    ensures Unescape(q + text) == q + Unescape(text)
  {
    if q == "" {
      assert q + text == text && q + Unescape(text) == Unescape(text);
    } else {
      assert q + text == [q[0]] + (q[1..] + text);
      UnescapePlain(q[0], q[1..] + text);
      UnescapeBlanks(q[1..], text);
      Regroup([q[0]], q[1..], Unescape(text));
      assert [q[0]] + q[1..] == q;
    }
  }

  lemma {:induction false} BlanksClosed(q: string)
    requires AllBlank(q)
    ensures !Escaping(false, q)
  {
    if q != "" {
      BlanksClosed(q[1..]);
    }
  }

  lemma TightTrimRight(s: string)
    requires TightEnd(s)
    ensures TrimRight(s) == s
  {
    if s != "" {
      ParityTells(s[..|s| - 1]);
    }
  }

  /** A padded value reads as the value. */
  lemma TokenOfPadded(q: string, text: string, v: string)
    requires AllBlank(q) && text != "" && Spells(text, v)
    ensures Token(q + text) == v
  {
    TrimLeftBlanks(q, text);
    TightTrimRight(text);
  }

  /** A separator that is taken for a part of the value stays in front of it, padding and all. */
  lemma TokenOfLateSeparator(more: string, separator: string, q: string, text: string, v: string)
    requires AllBlank(more) && IsSeparator(separator) && AllBlank(q) && text != "" && Spells(text, v)
    ensures Token(more + (separator + (q + text))) == separator + (q + v)
  {
    TrimLeftBlanks(more, separator + (q + text));
    BlanksClosed(q);
    TightEndAppend(q, text);
    assert separator == [separator[0]] && separator[1..] == "";
    TightEndAppend(separator, q + text);
    TightTrimRight(separator + (q + text));
    UnescapePlain(separator[0], q + text);
    UnescapeBlanks(q, text);
  }

  lemma TokenOfKey(k: string, tabs: string)
    requires k != "" && AllTabs(tabs)
    ensures Token(KeyCodes(k) + tabs) == k
  {
    KeyTight(k);
    KeyClosed(k);
    KeyNonempty(k);
    TrimRightTabs(KeyCodes(k), tabs);
    UnescapeKeyCodes(k);
  }

  /** The first separator after a key and tabs is whatever separator comes next. */
  lemma FirstSeparator(k: string, tabs: string, post: string)
    requires k != "" && AllTabs(tabs) && post != "" && post[0] in {'=', ':', ' '}
    ensures SeparatorFrom(KeyCodes(k) + tabs + post, 0, false) == Some(|KeyCodes(k) + tabs|)
  {
    var line := KeyCodes(k) + tabs + post;
    KeyNonempty(k);
    assert line == "" + KeyCodes(k) + (tabs + post);
    SkipKey("", k, tabs + post);
    SkipTabs(KeyCodes(k), tabs, post);
    assert line[|KeyCodes(k) + tabs|] == post[0];
  }

  lemma PaddedTrim(k: string, post: string)
    requires k != "" && post != "" && TightEnd(post)
    ensures Trim(KeyCodes(k) + post) == KeyCodes(k) + post
  {
    KeyTight(k);
    KeyClosed(k);
    KeyNonempty(k);
    TightEndAppend(KeyCodes(k), post);
    TightTrimRight(KeyCodes(k) + post);
  }

  lemma PaddedParses(k: string, tabs: string, mark: char, tail: string, result: map<string, string>)
    requires k != "" && AllTabs(tabs) && mark in {'=', ':', ' '}
    requires Trim(KeyCodes(k) + (tabs + ([mark] + tail))) == KeyCodes(k) + (tabs + ([mark] + tail))
    ensures ParseLine(KeyCodes(k) + (tabs + ([mark] + tail)), result) == result[k := Token(tail)]
  {
    var line := KeyCodes(k) + (tabs + ([mark] + tail));
    var front := KeyCodes(k) + tabs;
    Regroup(KeyCodes(k), tabs, [mark] + tail);
    FirstSeparator(k, tabs, [mark] + tail);
    KeyNoBreak(k);
    KeyNonempty(k);
    assert line[0] == KeyCodes(k)[0];
    assert line[..|front|] == front && line[|front| + 1..] == tail;
    TextParses(line, |front|, front, tail, result);
    TokenOfKey(k, tabs);
  }

  lemma PaddingTight(p: string, separator: string, q: string, text: string)
    requires AllBlank(p) && IsSeparator(separator) && AllBlank(q) && text != "" && TightEnd(text)
    ensures TightEnd(p + (separator + (q + text)))
  {
    BlanksClosed(p);
    BlanksClosed(q);
    TightEndAppend(q, text);
    assert separator == [separator[0]] && separator[1..] == "";
    TightEndAppend(separator, q + text);
    TightEndAppend(p, separator + (q + text));
  }

  /** Padding after the separator is always dropped. Padding before it is dropped exactly when it holds
      no space: the first space is itself taken for the separator, and the one the author wrote
      becomes the beginning of the value. */
  lemma Padding(k: string, p: string, separator: string, q: string, text: string, v: string, result: map<string, string>)
    requires k != "" && AllBlank(p) && IsSeparator(separator) && AllBlank(q) && text != "" && Spells(text, v)
    ensures ParseLine(KeyCodes(k) + (p + (separator + (q + text))), result) ==
      if ' ' in p then result[k := separator + (q + v)] else result[k := v]
  {
    PaddingTight(p, separator, q, text);
    PaddedTrim(k, p + (separator + (q + text)));
    var tabs, rest := SplitTabs(p);
    if ' ' !in p {
      assert p == tabs && separator == [separator[0]];
      PaddedParses(k, tabs, separator[0], q + text, result);
      TokenOfPadded(q, text, v);
    } else {
      var more, late := rest[1..], separator + (q + text);
      assert rest == [' '] + more;
      Regroup(tabs, rest, late);
      Regroup([' '], more, late);
      PaddedParses(k, tabs, ' ', more + late, result);
      TokenOfLateSeparator(more, separator, q, text, v);
    }
  }

  /** `a = b` reads as the value `= b`. */
  lemma SpacedEquals()
    ensures ParseLine("a = b", map[]) == map["a" := "= b"]
  {
    Padding("a", " ", "=", " ", "b", "b", map[]);
    assert KeyCodes("a") == "a";
    assert "a" + (" " + ("=" + (" " + "b"))) == "a = b";
    assert "=" + (" " + "b") == "= b";
  }
}
