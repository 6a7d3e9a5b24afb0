/** Writing a map as .properties text and reading it back. */
module PropertiesRoundTrip {
  import opened Wrappers
  import opened Text
  import opened PropertiesText

  // ---------------------------------------------------------------------------------------------
  // What the chains of replacements do to one character
  // ---------------------------------------------------------------------------------------------

  function BreakCode(c: char): string {
    if c == '\\' then "\\\\"
    else if c == '\n' then "\\n"
    else if c == '\r' then "\\r"
    else if c == '\t' then "\\t"
    else [c]
  }

  function KeyCode(c: char): string {
    if EscapesItself(c) then ['\\', c] else BreakCode(c)
  }

  lemma BreaksOfOne(c: char)
    ensures EscapeBreaks([c]) == BreakCode(c)
  {
    ReplaceOne(c, '\\', "\\\\");
    var s1 := ReplaceAll([c], '\\', "\\\\");
    if c == '\\' {
      ReplaceAbsent(s1, '\n', "\\n");
      ReplaceAbsent(s1, '\r', "\\r");
      ReplaceAbsent(s1, '\t', "\\t");
    } else {
      ReplaceOne(c, '\n', "\\n");
      var s2 := ReplaceAll(s1, '\n', "\\n");
      if c == '\n' {
        ReplaceAbsent(s2, '\r', "\\r");
        ReplaceAbsent(s2, '\t', "\\t");
      } else {
        ReplaceOne(c, '\r', "\\r");
        var s3 := ReplaceAll(s2, '\r', "\\r");
        if c == '\r' {
          ReplaceAbsent(s3, '\t', "\\t");
        } else {
          ReplaceOne(c, '\t', "\\t");
        }
      }
    }
  }

  /** The first part of a key's chain, up to the comment markers. */
  function EscapeMarks(s: string): string {
    var s1 := ReplaceAll(s, '\\', "\\\\");
    var s2 := ReplaceAll(s1, '=', "\\=");
    var s3 := ReplaceAll(s2, ':', "\\:");
    var s4 := ReplaceAll(s3, ' ', "\\ ");
    var s5 := ReplaceAll(s4, '#', "\\#");
    ReplaceAll(s5, '!', "\\!")
  }

  lemma MarksOfOne(c: char)
    ensures EscapeMarks([c]) == if EscapesItself(c) then ['\\', c] else [c]
  {
    ReplaceOne(c, '\\', "\\\\");
    var s1 := ReplaceAll([c], '\\', "\\\\");
    StepOfOne(s1, c, '=', c == '\\');
    var s2 := ReplaceAll(s1, '=', "\\=");
    StepOfOne(s2, c, ':', c in {'\\', '='});
    var s3 := ReplaceAll(s2, ':', "\\:");
    StepOfOne(s3, c, ' ', c in {'\\', '=', ':'});
    var s4 := ReplaceAll(s3, ' ', "\\ ");
    StepOfOne(s4, c, '#', c in {'\\', '=', ':', ' '});
    var s5 := ReplaceAll(s4, '#', "\\#");
    StepOfOne(s5, c, '!', c in {'\\', '=', ':', ' ', '#'});
  }

  lemma KeyOfOne(c: char)
    ensures EscapeKey([c]) == KeyCode(c)
  {
    MarksOfOne(c);
    var s6 := EscapeMarks([c]);
    if EscapesItself(c) {
      ReplaceEscaped(c, '\n', "\\n");
      ReplaceEscaped(c, '\r', "\\r");
      ReplaceEscaped(c, '\t', "\\t");
    } else {
      BreaksOfOne(c);
      ReplaceOne(c, '\\', "\\\\");
    }
  }

  lemma BreaksAppend(a: string, b: string)
    ensures EscapeBreaks(a + b) == EscapeBreaks(a) + EscapeBreaks(b)
  {
    ReplaceAllAppends(a, b, '\\', "\\\\");
    var a1, b1 := ReplaceAll(a, '\\', "\\\\"), ReplaceAll(b, '\\', "\\\\");
    ReplaceAllAppends(a1, b1, '\n', "\\n");
    var a2, b2 := ReplaceAll(a1, '\n', "\\n"), ReplaceAll(b1, '\n', "\\n");
    ReplaceAllAppends(a2, b2, '\r', "\\r");
    var a3, b3 := ReplaceAll(a2, '\r', "\\r"), ReplaceAll(b2, '\r', "\\r");
    ReplaceAllAppends(a3, b3, '\t', "\\t");
  }

  lemma MarksAppend(a: string, b: string)
    ensures EscapeMarks(a + b) == EscapeMarks(a) + EscapeMarks(b)
  {
    ReplaceAllAppends(a, b, '\\', "\\\\");
    var a1, b1 := ReplaceAll(a, '\\', "\\\\"), ReplaceAll(b, '\\', "\\\\");
    ReplaceAllAppends(a1, b1, '=', "\\=");
    var a2, b2 := ReplaceAll(a1, '=', "\\="), ReplaceAll(b1, '=', "\\=");
    ReplaceAllAppends(a2, b2, ':', "\\:");
    var a3, b3 := ReplaceAll(a2, ':', "\\:"), ReplaceAll(b2, ':', "\\:");
    ReplaceAllAppends(a3, b3, ' ', "\\ ");
    var a4, b4 := ReplaceAll(a3, ' ', "\\ "), ReplaceAll(b3, ' ', "\\ ");
    ReplaceAllAppends(a4, b4, '#', "\\#");
    var a5, b5 := ReplaceAll(a4, '#', "\\#"), ReplaceAll(b4, '#', "\\#");
    ReplaceAllAppends(a5, b5, '!', "\\!");
  }

  lemma KeyAppend(a: string, b: string)
    ensures EscapeKey(a + b) == EscapeKey(a) + EscapeKey(b)
  {
    MarksAppend(a, b);
    var a6, b6 := EscapeMarks(a), EscapeMarks(b);
    ReplaceAllAppends(a6, b6, '\n', "\\n");
    var a7, b7 := ReplaceAll(a6, '\n', "\\n"), ReplaceAll(b6, '\n', "\\n");
    ReplaceAllAppends(a7, b7, '\r', "\\r");
    var a8, b8 := ReplaceAll(a7, '\r', "\\r"), ReplaceAll(b7, '\r', "\\r");
    ReplaceAllAppends(a8, b8, '\t', "\\t");
  }

  function KeyCodes(s: string): string {
    if s == "" then "" else KeyCode(s[0]) + KeyCodes(s[1..])
  }

  function BreakCodes(s: string): string {
    if s == "" then "" else BreakCode(s[0]) + BreakCodes(s[1..])
  }

  /** The nine replacements together spell a key character by character. */
  lemma {:induction false} KeySpelled(s: string)
    ensures EscapeKey(s) == KeyCodes(s)
  {
    if s != "" {
      assert s == [s[0]] + s[1..];
      KeyAppend([s[0]], s[1..]);
      KeyOfOne(s[0]);
      KeySpelled(s[1..]);
    }
  }

  lemma {:induction false} BreaksSpelled(s: string)
    ensures EscapeBreaks(s) == BreakCodes(s)
  {
    if s != "" {
      assert s == [s[0]] + s[1..];
      BreaksAppend([s[0]], s[1..]);
      BreaksOfOne(s[0]);
      BreaksSpelled(s[1..]);
    }
  }

  lemma {:induction false} BreakCodesAppend(a: string, b: string)
    ensures BreakCodes(a + b) == BreakCodes(a) + BreakCodes(b)
  {
    if a == "" {
      assert a + b == b;
    } else {
      assert (a + b)[1..] == a[1..] + b;
      BreakCodesAppend(a[1..], b);
    }
  }

  // ---------------------------------------------------------------------------------------------
  // Whether a text ends inside an escape
  // ---------------------------------------------------------------------------------------------

  /** Whether the next character is escaped after reading `s`, given whether its first one is. */
  function Escaping(escaped: bool, s: string): bool
    decreases |s|
  {
    if s == "" then escaped else Escaping(!escaped && s[0] == '\\', s[1..])
  }

  lemma {:induction false} EscapingAppend(escaped: bool, a: string, b: string)
    ensures Escaping(escaped, a + b) == Escaping(Escaping(escaped, a), b)
    decreases |a|
  {
    if a == "" {
      assert a + b == b;
    } else {
      assert (a + b)[1..] == a[1..] + b;
      EscapingAppend(!escaped && a[0] == '\\', a[1..], b);
    }
  }

  /** Counting the backslashes at the end tells the same. */
  lemma {:induction false} ParityTells(s: string)
    ensures Escaping(false, s) <==> TrailingBackslashes(s) % 2 == 1
  {
    if s != "" {
      var n := |s| - 1;
      assert s == s[..n] + [s[n]];
      EscapingAppend(false, s[..n], [s[n]]);
      assert [s[n]][1..] == "";
      ParityTells(s[..n]);
    }
  }

  lemma CodesClosed(c: char)
    ensures !Escaping(false, KeyCode(c)) && !Escaping(false, BreakCode(c))
  {
    EscapingPair('\\', c);
    EscapingPair('\\', 'n');
    EscapingPair('\\', 'r');
    EscapingPair('\\', 't');
    EscapingPair('\\', '\\');
    assert [c][1..] == "";
  }

  lemma EscapingPair(a: char, b: char)
    ensures Escaping(false, [a, b]) == (a != '\\' && b == '\\')
  {
    assert [a, b][1..] == [b] && [b][1..] == "";
    assert Escaping(false, [a, b]) == Escaping(a == '\\', [b]);
    assert Escaping(a == '\\', [b]) == Escaping(a != '\\' && b == '\\', "");
  }

  lemma {:induction false} KeyClosed(s: string)
    ensures !Escaping(false, KeyCodes(s))
  {
    if s != "" {
      CodesClosed(s[0]);
      KeyClosed(s[1..]);
      EscapingAppend(false, KeyCode(s[0]), KeyCodes(s[1..]));
    }
  }

  lemma {:induction false} BreaksClosed(s: string)
    ensures !Escaping(false, BreakCodes(s))
  {
    if s != "" {
      CodesClosed(s[0]);
      BreaksClosed(s[1..]);
      EscapingAppend(false, BreakCode(s[0]), BreakCodes(s[1..]));
    }
  }

  lemma {:induction false} SpacesClosed(n: nat)
    ensures !Escaping(false, Repeat("\\ ", n))
  {
    if n > 0 {
      EscapingPair('\\', ' ');
      SpacesClosed(n - 1);
      EscapingAppend(false, "\\ ", Repeat("\\ ", n - 1));
    }
  }

  // ---------------------------------------------------------------------------------------------
  // The edges of a value
  // ---------------------------------------------------------------------------------------------

  function Spaces(n: nat): string {
    seq(n, _ => ' ')
  }

  /** Neither edge is a space. */
  predicate Core(s: string) {
    s == "" || (s[0] != ' ' && s[|s| - 1] != ' ')
  }

  lemma {:induction false} BreaksOfSpaces(n: nat)
    ensures BreakCodes(Spaces(n)) == Spaces(n)
  {
    if n > 0 {
      assert Spaces(n)[1..] == Spaces(n - 1);
      BreaksOfSpaces(n - 1);
    }
  }

  lemma BreaksOfCore(s: string)
    requires Core(s)
    ensures Core(BreakCodes(s)) && (s != "" ==> BreakCodes(s) != "")
  {
    if s != "" {
      var n := |s| - 1;
      assert s == s[..n] + [s[n]];
      BreakCodesAppend(s[..n], [s[n]]);
      assert [s[n]][1..] == "";
      var code := BreakCode(s[n]);
      assert BreakCodes(s) == BreakCodes(s[..n]) + code && code[|code| - 1] != ' ';
    }
  }

  lemma LeadFound(lead: nat, rest: string)
    requires rest != "" ==> rest[0] != ' '
    ensures LeadingSpaces(Spaces(lead) + rest) == lead
  {
    var s := Spaces(lead) + rest;
    var n := LeadingSpaces(s);
    assert rest != "" ==> s[lead] == rest[0];
  }

  lemma TrailFound(rest: string, trail: nat)
    requires rest != "" ==> rest[|rest| - 1] != ' '
    ensures TrailingSpaces(rest + Spaces(trail)) == trail
  {
    var s := rest + Spaces(trail);
    var n := TrailingSpaces(s);
    assert rest != "" ==> s[|s| - 1 - trail] == rest[|rest| - 1];
  }

  lemma {:induction false} EdgesFound(lead: nat, core: string, trail: nat)
    requires Core(core) && (core == "" ==> trail == 0)
    ensures EscapeEdges(Spaces(lead) + core + Spaces(trail)) == Repeat("\\ ", lead) + core + Repeat("\\ ", trail)
  {
    var s := Spaces(lead) + core + Spaces(trail);
    assert s == Spaces(lead) + (core + Spaces(trail));
    LeadFound(lead, core + Spaces(trail));
    assert s[lead..] == core + Spaces(trail);
    TrailFound(core, trail);
    assert s[lead..|s| - trail] == core;
  }

  lemma SplitLead(v: string) returns (lead: nat, rest: string)
    ensures v == Spaces(lead) + rest && (rest != "" ==> rest[0] != ' ')
  {
    lead := LeadingSpaces(v);
    rest := v[lead..];
    assert v[..lead] == Spaces(lead);
  }

  lemma SplitTrail(v: string) returns (rest: string, trail: nat)
    ensures v == rest + Spaces(trail) && (rest != "" ==> rest[|rest| - 1] != ' ')
  {
    trail := TrailingSpaces(v);
    rest := v[..|v| - trail];
    assert v[|v| - trail..] == Spaces(trail);
  }

  /** What EscapeValue writes: escaped spaces at the edges, and the rest with its breaks escaped. */
  lemma {:induction false} ValueShape(v: string) returns (lead: nat, core: string, trail: nat)
    ensures v == Spaces(lead) + core + Spaces(trail) && Core(core)
    ensures EscapeValue(v) == Repeat("\\ ", lead) + BreakCodes(core) + Repeat("\\ ", trail)
  {
    var rest;
    lead, rest := SplitLead(v);
    core, trail := SplitTrail(rest);
    assert core != "" ==> core[0] == rest[0];
    assert v == Spaces(lead) + core + Spaces(trail);
    BreaksSpelled(v);
    BreakCodesAppend(Spaces(lead) + core, Spaces(trail));
    BreakCodesAppend(Spaces(lead), core);
    BreaksOfSpaces(lead);
    BreaksOfSpaces(trail);
    BreaksOfCore(core);
    EdgesFound(lead, BreakCodes(core), trail);
  }

  // ---------------------------------------------------------------------------------------------
  // Reading the escapes back
  // ---------------------------------------------------------------------------------------------

  lemma UnescapePair(c: char, rest: string)
    requires EscapesItself(c) || c in {'n', 'r', 't'}
    ensures Unescape(['\\', c] + rest) ==
      [if c == 'n' then '\n' else if c == 'r' then '\r' else if c == 't' then '\t' else c] + Unescape(rest)
  {
    var s := ['\\', c] + rest;
    assert s[2..] == rest;
  }

  lemma UnescapePlain(c: char, rest: string)
    requires c != '\\'
    ensures Unescape([c] + rest) == [c] + Unescape(rest)
  {
    assert ([c] + rest)[1..] == rest;
  }

  lemma UnescapeBreakCode(c: char, rest: string)
    ensures Unescape(BreakCode(c) + rest) == [c] + Unescape(rest)
  {
    if c == '\\' {
      UnescapePair('\\', rest);
    } else if c == '\n' {
      UnescapePair('n', rest);
    } else if c == '\r' {
      UnescapePair('r', rest);
    } else if c == '\t' {
      UnescapePair('t', rest);
    } else {
      UnescapePlain(c, rest);
    }
  }

  /** What reading does to one more piece in front of what it already handles. */
  lemma {:induction false} UnescapeLonger(code: string, c: char, codes: string, text: string, rest: string)
    requires Unescape(codes + rest) == text + Unescape(rest)
    requires Unescape(code + (codes + rest)) == [c] + Unescape(codes + rest)
    ensures Unescape(code + codes + rest) == [c] + text + Unescape(rest)
  {
    Regroup(code, codes, rest);
    Regroup([c], text, Unescape(rest));
  }

  lemma {:induction false} UnescapeBreaks(s: string, rest: string)
    ensures Unescape(BreakCodes(s) + rest) == s + Unescape(rest)
  {
    if s == "" {
      assert BreakCodes(s) + rest == rest;
    } else {
      UnescapeBreaks(s[1..], rest);
      UnescapeBreakCode(s[0], BreakCodes(s[1..]) + rest);
      UnescapeLonger(BreakCode(s[0]), s[0], BreakCodes(s[1..]), s[1..], rest);
      assert [s[0]] + s[1..] == s;
    }
  }

  lemma {:induction false} UnescapeSpaces(n: nat, rest: string)
    ensures Unescape(Repeat("\\ ", n) + rest) == Spaces(n) + Unescape(rest)
  {
    if n == 0 {
      assert Repeat("\\ ", n) + rest == rest;
    } else {
      UnescapeSpaces(n - 1, rest);
      UnescapePair(' ', Repeat("\\ ", n - 1) + rest);
      UnescapeLonger("\\ ", ' ', Repeat("\\ ", n - 1), Spaces(n - 1), rest);
      assert Spaces(n) == [' '] + Spaces(n - 1);
    }
  }

  lemma {:induction false} UnescapeKeyCodes(s: string)
    ensures Unescape(KeyCodes(s)) == s
  {
    if s != "" {
      if EscapesItself(s[0]) {
        UnescapePair(s[0], KeyCodes(s[1..]));
      } else {
        UnescapeBreakCode(s[0], KeyCodes(s[1..]));
      }
      UnescapeKeyCodes(s[1..]);
    }
  }

  lemma UnescapeValue(lead: nat, core: string, trail: nat)
    ensures Unescape(Repeat("\\ ", lead) + BreakCodes(core) + Repeat("\\ ", trail)) == Spaces(lead) + core + Spaces(trail)
  {
    var tail := Repeat("\\ ", trail);
    UnescapeSpaces(trail, "");
    assert tail + "" == tail && Spaces(trail) + "" == Spaces(trail);
    UnescapeBreaks(core, tail);
    UnescapeSpaces(lead, BreakCodes(core) + tail);
    Regroup(Repeat("\\ ", lead), BreakCodes(core), tail);
    Regroup(Spaces(lead), core, Spaces(trail));
  }

  /** Reading undoes writing, for keys and for values. */
  lemma UnescapeInverts(s: string)
    ensures Unescape(EscapeKey(s)) == s
    ensures Unescape(EscapeValue(s)) == s
  {
    KeySpelled(s);
    UnescapeKeyCodes(s);
    var lead, core, trail := ValueShape(s);
    UnescapeValue(lead, core, trail);
  }

  // ---------------------------------------------------------------------------------------------
  // Layout and separators leave a written entry alone
  // ---------------------------------------------------------------------------------------------

  /** Neither edge is a blank that a reader would strip. */
  predicate Tight(s: string) {
    s == "" || (!IsBlank(s[0]) && (IsBlank(s[|s| - 1]) ==> Escaping(false, s[..|s| - 1])))
  }

  lemma TightKept(s: string)
    requires Tight(s)
    ensures Trim(s) == s
  {
    if s != "" {
      ParityTells(s[..|s| - 1]);
    }
  }

  /** No blank stands unescaped at the end. */
  predicate TightEnd(s: string) {
    s == "" || (IsBlank(s[|s| - 1]) ==> Escaping(false, s[..|s| - 1]))
  }

  lemma TightEndAppend(a: string, b: string)
    requires !Escaping(false, a) && b != "" && TightEnd(b)
    ensures TightEnd(a + b)
  {
    assert (a + b)[..|a + b| - 1] == a + b[..|b| - 1];
    EscapingAppend(false, a, b[..|b| - 1]);
  }

  lemma TightPair(c: char)
    ensures TightEnd(['\\', c])
  {
    assert ['\\', c][..1] == "\\";
    assert "\\"[1..] == "";
  }

  lemma TightCodes(c: char)
    ensures TightEnd(KeyCode(c)) && (!IsBlank(c) || c == '\t' ==> TightEnd(BreakCode(c)))
    ensures !IsBlank(KeyCode(c)[0]) && (c != ' ' ==> !IsBlank(BreakCode(c)[0]))
  {
    TightPair(c);
    TightPair('n');
    TightPair('r');
    TightPair('t');
  }

  lemma {:induction false} KeyTight(s: string)
    ensures Tight(KeyCodes(s)) && TightEnd(KeyCodes(s))
  {
    if s != "" {
      TightCodes(s[0]);
      CodesClosed(s[0]);
      KeyTight(s[1..]);
      if s[1..] == "" {
        assert KeyCodes(s) == KeyCode(s[0]);
      } else {
        KeyNonempty(s[1..]);
        TightEndAppend(KeyCode(s[0]), KeyCodes(s[1..]));
      }
    }
  }

  lemma KeyNonempty(s: string)
    ensures KeyCodes(s) == "" <==> s == ""
  {
  }

  lemma {:induction false} SpacesTight(n: nat)
    ensures TightEnd(Repeat("\\ ", n)) && (n > 0 ==> Repeat("\\ ", n)[0] == '\\')
  {
    if n == 1 {
      TightPair(' ');
      assert Repeat("\\ ", 1) == "\\ ";
    } else if n > 1 {
      SpacesTight(n - 1);
      EscapingPair('\\', ' ');
      TightEndAppend("\\ ", Repeat("\\ ", n - 1));
    }
  }

  /** A text without a blank at the edges of what it codes. */
  lemma BreaksTight(s: string)
    requires Core(s)
    ensures Tight(BreakCodes(s)) && TightEnd(BreakCodes(s))
  {
    if s != "" {
      var n := |s| - 1;
      assert s == s[..n] + [s[n]];
      BreakCodesAppend(s[..n], [s[n]]);
      assert [s[n]][1..] == "";
      assert BreakCodes(s) == BreakCodes(s[..n]) + BreakCode(s[n]);
      TightCodes(s[n]);
      TightCodes(s[0]);
      BreaksClosed(s[..n]);
      TightEndAppend(BreakCodes(s[..n]), BreakCode(s[n]));
    }
  }

  lemma ValueTight(v: string)
    ensures Tight(EscapeValue(v)) && !Escaping(false, EscapeValue(v))
  {
    var lead, core, trail := ValueShape(v);
    var a, b, c := Repeat("\\ ", lead), BreakCodes(core), Repeat("\\ ", trail);
    SpacesTight(lead);
    SpacesTight(trail);
    SpacesClosed(lead);
    SpacesClosed(trail);
    BreaksClosed(core);
    BreaksTight(core);
    EscapingAppend(false, a, b);
    EscapingAppend(false, a + b, c);
    if b != "" {
      TightEndAppend(a, b);
    } else {
      assert a + b == a;
    }
    if c != "" {
      TightEndAppend(a + b, c);
    } else {
      assert a + b + c == a + b;
    }
    if a == "" && b == "" && c != "" {
      assert a + b + c == c;
    }
  }

  /** The separator search passes over the code of one character of a key. */
  lemma SkipCode(pre: string, c: char, post: string)
    ensures SeparatorFrom(pre + KeyCode(c) + post, |pre|, false) ==
            SeparatorFrom(pre + KeyCode(c) + post, |pre| + |KeyCode(c)|, false)
  {
    var s := pre + KeyCode(c) + post;
    assert s[|pre|] == KeyCode(c)[0];
    assert |KeyCode(c)| == 2 ==> s[|pre| + 1] == KeyCode(c)[1];
  }

  lemma {:induction false} SkipKey(pre: string, k: string, post: string)
    ensures SeparatorFrom(pre + KeyCodes(k) + post, |pre|, false) ==
            SeparatorFrom(pre + KeyCodes(k) + post, |pre| + |KeyCodes(k)|, false)
    decreases |k|
  {
    if k != "" {
      var code, rest := KeyCode(k[0]), KeyCodes(k[1..]);
      assert pre + KeyCodes(k) + post == pre + code + (rest + post);
      assert pre + KeyCodes(k) + post == (pre + code) + rest + post;
      SkipCode(pre, k[0], rest + post);
      SkipKey(pre + code, k[1..], post);
    }
  }

  /** The separators the reader recognizes wherever they stand. */
  predicate IsSeparator(separator: string) {
    |separator| == 1 && (separator[0] == '=' || separator[0] == ':')
  }

  predicate NoBreak(s: string) {
    '\n' !in s && '\r' !in s
  }

  /** A line that reads as exactly `k` and `v`, whatever was read before it. */
  ghost predicate Reads(line: string, k: string, v: string) {
    && NoBreak(line)
    && TrailingBackslashes(line) % 2 == 0
    && (forall result :: ParseLine(line, result) == result[k := v])
  }

  /** A text that stands for the value `v`. */
  predicate Spells(text: string, v: string) {
    Unescape(text) == v && Tight(text) && !Escaping(false, text) && NoBreak(text)
  }

  lemma KeyLineTight(code: string, separator: string, text: string)
    requires IsSeparator(separator) && Tight(code) && Tight(text)
    requires !Escaping(false, code) && !Escaping(false, text)
    ensures Tight(code + separator + text) && !Escaping(false, code + separator + text)
  {
    EscapingAppend(false, code, separator);
    assert separator[1..] == "";
    EscapingAppend(false, code + separator, text);
    if text == "" {
      assert code + separator + text == code + separator;
    } else {
      TightEndAppend(code + separator, text);
    }
  }

  lemma KeyLineSplits(k: string, separator: string, text: string)
    requires IsSeparator(separator)
    ensures SeparatorFrom(KeyCodes(k) + separator + text, 0, false) == Some(|KeyCodes(k)|)
  {
    var post := separator + text;
    assert KeyCodes(k) + separator + text == "" + KeyCodes(k) + post;
    SkipKey("", k, post);
    assert ("" + KeyCodes(k) + post)[|KeyCodes(k)|] == separator[0];
  }

  lemma {:induction false} KeyNoBreak(s: string)
    ensures NoBreak(KeyCodes(s)) && (s != "" ==> KeyCodes(s)[0] != '#' && KeyCodes(s)[0] != '!')
  {
    if s != "" {
      KeyNoBreak(s[1..]);
    }
  }

  lemma TokenOf(text: string, v: string)
    requires Tight(text) && Unescape(text) == v
    ensures Token(text) == v
  {
    TightKept(text);
  }

  lemma NotAComment(code: string, separator: string, text: string)
    requires IsSeparator(separator) && (code != "" ==> code[0] != '#' && code[0] != '!')
    ensures var line := code + separator + text; line != "" && line[0] != '#' && line[0] != '!'
  {
  }

  lemma NoBreakJoined(code: string, separator: string, text: string)
    requires IsSeparator(separator) && NoBreak(code) && NoBreak(text)
    ensures NoBreak(code + separator + text)
  {
  }

  lemma TextParses(line: string, i: nat, code: string, text: string, result: map<string, string>)
    requires line != "" && line[0] != '#' && line[0] != '!'
    requires SeparatorFrom(line, 0, false) == Some(i)
    requires line[..i] == code && line[i + 1..] == text
    ensures ParseText(line, result) == result[Token(code) := Token(text)]
  {
  }

  lemma {:induction false} BreaksNoBreak(s: string)
    ensures NoBreak(BreakCodes(s))
  {
    if s != "" {
      BreaksNoBreak(s[1..]);
    }
  }

  lemma {:induction false} SpacesNoBreak(n: nat)
    ensures NoBreak(Repeat("\\ ", n))
  {
    if n > 0 {
      SpacesNoBreak(n - 1);
    }
  }

  lemma ValueSpells(v: string)
    ensures Spells(EscapeValue(v), v)
  {
    UnescapeInverts(v);
    ValueTight(v);
    var lead, core, trail := ValueShape(v);
    SpacesNoBreak(lead);
    SpacesNoBreak(trail);
    BreaksNoBreak(core);
  }

  lemma KeyLineTrim(k: string, separator: string, text: string, v: string)
    requires IsSeparator(separator) && Spells(text, v)
    ensures var line := KeyCodes(k) + separator + text; Trim(line) == line && TrailingBackslashes(line) % 2 == 0
  {
    KeyTight(k);
    KeyClosed(k);
    KeyLineTight(KeyCodes(k), separator, text);
    TightKept(KeyCodes(k) + separator + text);
    ParityTells(KeyCodes(k) + separator + text);
  }

  lemma KeyLineTokens(k: string, text: string, v: string)
    requires Spells(text, v)
    ensures Token(KeyCodes(k)) == k && Token(text) == v
  {
    KeyTight(k);
    UnescapeKeyCodes(k);
    TokenOf(KeyCodes(k), k);
    TokenOf(text, v);
  }

  lemma LineParses(line: string, code: string, separator: string, text: string, result: map<string, string>)
    requires line == code + separator + text && IsSeparator(separator)
    requires Trim(line) == line && line[0] != '#' && line[0] != '!'
    requires SeparatorFrom(line, 0, false) == Some(|code|)
    ensures ParseLine(line, result) == result[Token(code) := Token(text)]
  {
    assert line[..|code|] == code && line[|code| + 1..] == text;
    TextParses(line, |code|, code, text, result);
  }

  lemma KeyLineParses(k: string, separator: string, text: string, v: string, result: map<string, string>)
    requires IsSeparator(separator) && Spells(text, v)
    ensures ParseLine(KeyCodes(k) + separator + text, result) == result[k := v]
  {
    KeyLineTrim(k, separator, text, v);
    KeyLineSplits(k, separator, text);
    KeyNoBreak(k);
    NotAComment(KeyCodes(k), separator, text);
    LineParses(KeyCodes(k) + separator + text, KeyCodes(k), separator, text, result);
    KeyLineTokens(k, text, v);
  }

  lemma KeyLineReads(k: string, separator: string, text: string, v: string)
    requires IsSeparator(separator) && Spells(text, v)
    ensures Reads(KeyCodes(k) + separator + text, k, v)
  {
    var line := KeyCodes(k) + separator + text;
    KeyNoBreak(k);
    NoBreakJoined(KeyCodes(k), separator, text);
    forall result
      ensures ParseLine(line, result) == result[k := v]
    {
      KeyLineParses(k, separator, text, v, result);
    }
    KeyLineTrim(k, separator, text, v);
  }

  /** A written entry reads as exactly its key and value. */
  lemma EntryReads(k: string, v: string, separator: string)
    requires IsSeparator(separator)
    ensures Reads(Entry(k, v, separator), k, v)
  {
    KeySpelled(k);
    ValueSpells(v);
    KeyLineReads(k, separator, EscapeValue(v), v);
  }

  // ---------------------------------------------------------------------------------------------
  // Whole files
  // ---------------------------------------------------------------------------------------------

  lemma FirstLine(line: string, rest: string)
    requires '\n' !in line
    ensures RawLines(line + "\n" + rest) == [line] + RawLines(rest)
  {
    LineEndFound(line, rest);
    var data := line + "\n" + rest;
    assert data[..|line|] == line && data[|line| + 1..] == rest;
  }

  lemma {:induction false} LinesFound(lines: seq<string>)
    requires forall i :: 0 <= i < |lines| ==> NoBreak(lines[i])
    ensures RawLines(Terminated(lines)) == lines && TextLines(lines) == lines
  {
    if lines != [] {
      FirstLine(lines[0], Terminated(lines[1..]));
      LinesFound(lines[1..]);
      assert DropCarriageReturn(lines[0]) == lines[0];
      assert lines == [lines[0]] + lines[1..];
    }
  }

  /** The entries a file lists, later ones winning. */
  function Listed(keys: seq<string>, data: map<string, string>, result: map<string, string>): map<string, string>
    requires forall k :: k in keys ==> k in data
  {
    if keys == [] then result else Listed(keys[1..], data, result[keys[0] := data[keys[0]]])
  }

  lemma {:induction false} ListedAll(keys: seq<string>, data: map<string, string>, result: map<string, string>)
    requires forall k :: k in keys ==> k in data
    requires forall k :: k in result ==> k in data && result[k] == data[k]
    ensures Listed(keys, data, result) == map k | k in data && (k in keys || k in result) :: data[k]
  {
    if keys != [] {
      ListedAll(keys[1..], data, result[keys[0] := data[keys[0]]]);
    }
  }

  lemma {:induction false} LinesParse(lines: seq<string>, keys: seq<string>, data: map<string, string>, result: map<string, string>)
    requires |lines| == |keys| && (forall k :: k in keys ==> k in data)
    requires forall i :: 0 <= i < |keys| ==> Reads(lines[i], keys[i], data[keys[i]])
    ensures ParseLines(lines, None, result) == Listed(keys, data, result)
  {
    if keys != [] {
      assert Reads(lines[0], keys[0], data[keys[0]]) && "" + lines[0] == lines[0];
      LinesParse(lines[1..], keys[1..], data, result[keys[0] := data[keys[0]]]);
    }
  }

  /** The entry of `k` fits on a line the reader can take. */
  predicate EntryFits(data: map<string, string>, separator: string, k: string) {
    k in data ==> Fits(Entry(k, data[k], separator))
  }

  lemma FitTogether(lines: seq<string>, keys: seq<string>, data: map<string, string>, separator: string)
    requires |lines| == |keys| && (forall k :: k in keys <==> k in data)
    requires forall i :: 0 <= i < |keys| ==> lines[i] == Entry(keys[i], data[keys[i]], separator)
    ensures AllFit(lines) <==> forall k :: EntryFits(data, separator, k)
  {
    if AllFit(lines) {
      forall k
        ensures EntryFits(data, separator, k)
      {
        if k in keys {
          var i :| 0 <= i < |keys| && keys[i] == k;
          assert Fits(lines[i]);
        }
      }
    } else {
      var i :| 0 <= i < |lines| && !Fits(lines[i]);
      assert !EntryFits(data, separator, keys[i]);
    }
  }

  lemma EntriesRead(keys: seq<string>, data: map<string, string>, separator: string)
    requires IsSeparator(separator) && (forall k :: k in keys <==> k in data)
    ensures forall i :: 0 <= i < |keys| ==> Reads(Entries(keys, data, separator)[i], keys[i], data[keys[i]])
  {
    forall i | 0 <= i < |keys|
      ensures Reads(Entries(keys, data, separator)[i], keys[i], data[keys[i]])
    {
      EntryReads(keys[i], data[keys[i]], separator);
    }
  }

  lemma {:induction false} LinesRoundTrip(lines: seq<string>, keys: seq<string>, data: map<string, string>)
    requires |lines| == |keys| && (forall k :: k in keys <==> k in data)
    requires forall i :: 0 <= i < |keys| ==> Reads(lines[i], keys[i], data[keys[i]])
    ensures UnmarshalText(Terminated(lines)) == if AllFit(lines) then Some(data) else None
  {
    LinesFound(lines);
    LinesParse(lines, keys, data, map[]);
    ListedAll(keys, data, map[]);
    assert Listed(keys, data, map[]) == data;
  }

  /** For every map and every order of its keys, reading what was written gives the map back, exactly
      when every entry fits on a line the reader can take; otherwise it is an error. */
  lemma RoundTrip(keys: seq<string>, data: map<string, string>, separator: string)
    requires IsSeparator(separator) && (forall k :: k in keys <==> k in data)
    ensures UnmarshalText(MarshalText(keys, data, separator)) ==
      if forall k :: EntryFits(data, separator, k) then Some(data) else None
  {
    EntriesRead(keys, data, separator);
    LinesRoundTrip(Entries(keys, data, separator), keys, data);
    FitTogether(Entries(keys, data, separator), keys, data, separator);
  }
}
