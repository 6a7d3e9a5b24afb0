/** An environment file read back by the adapter that wrote it, and by a POSIX shell, a second reader of the
    same text with rules of its own. */
module EnvRoundTrip {
  import opened Wrappers
  import opened Text
  import opened EnvText

  // ---------------------------------------------------------------------------------------------
  // What the chain of replacements does to one character
  // ---------------------------------------------------------------------------------------------

  predicate Shelled(c: char) {
    c in {'\\', '"', '$', '`'}
  }

  predicate IsBreak(c: char) {
    c in {'\n', '\r', '\t'}
  }

  function BreakLetter(c: char): char {
    if c == '\n' then 'n' else if c == '\r' then 'r' else 't'
  }

  function QuotedCode(c: char): string {
    if Shelled(c) then ['\\', c] else if IsBreak(c) then ['\\', BreakLetter(c)] else [c]
  }

  function QuotedCodes(s: string): string {
    if s == "" then "" else QuotedCode(s[0]) + QuotedCodes(s[1..])
  }

  function EscapeMarks(s: string): string {
    var s1 := ReplaceAll(s, '\\', "\\\\");
    var s2 := ReplaceAll(s1, '"', "\\\"");
    var s3 := ReplaceAll(s2, '$', "\\$");
    ReplaceAll(s3, '`', "\\`")
  }

  lemma MarksOfOne(c: char)
    ensures EscapeMarks([c]) == if Shelled(c) then ['\\', c] else [c]
  {
    ReplaceOne(c, '\\', "\\\\");
    var s1 := ReplaceAll([c], '\\', "\\\\");
    StepOfOne(s1, c, '"', c == '\\');
    var s2 := ReplaceAll(s1, '"', "\\\"");
    StepOfOne(s2, c, '$', c in {'\\', '"'});
    var s3 := ReplaceAll(s2, '$', "\\$");
    StepOfOne(s3, c, '`', c in {'\\', '"', '$'});
  }

  lemma QuotedOfOne(c: char)
    ensures EscapeQuoted([c]) == QuotedCode(c)
  {
    MarksOfOne(c);
    var s4 := EscapeMarks([c]);
    if Shelled(c) {
      ReplaceEscaped(c, '\n', "\\n");
      ReplaceEscaped(c, '\r', "\\r");
      ReplaceEscaped(c, '\t', "\\t");
    } else {
      ReplaceOne(c, '\n', "\\n");
      var s5 := ReplaceAll(s4, '\n', "\\n");
      if c == '\n' {
        ReplaceAbsent(s5, '\r', "\\r");
        ReplaceAbsent(s5, '\t', "\\t");
      } else {
        ReplaceOne(c, '\r', "\\r");
        var s6 := ReplaceAll(s5, '\r', "\\r");
        if c == '\r' {
          ReplaceAbsent(s6, '\t', "\\t");
        } else {
          ReplaceOne(c, '\t', "\\t");
        }
      }
    }
  }

  lemma MarksAppend(a: string, b: string)
    ensures EscapeMarks(a + b) == EscapeMarks(a) + EscapeMarks(b)
  {
    ReplaceAllAppends(a, b, '\\', "\\\\");
    var a1, b1 := ReplaceAll(a, '\\', "\\\\"), ReplaceAll(b, '\\', "\\\\");
    ReplaceAllAppends(a1, b1, '"', "\\\"");
    var a2, b2 := ReplaceAll(a1, '"', "\\\""), ReplaceAll(b1, '"', "\\\"");
    ReplaceAllAppends(a2, b2, '$', "\\$");
    var a3, b3 := ReplaceAll(a2, '$', "\\$"), ReplaceAll(b2, '$', "\\$");
    ReplaceAllAppends(a3, b3, '`', "\\`");
  }

  lemma QuotedAppend(a: string, b: string)
    ensures EscapeQuoted(a + b) == EscapeQuoted(a) + EscapeQuoted(b)
  {
    MarksAppend(a, b);
    var a4, b4 := EscapeMarks(a), EscapeMarks(b);
    ReplaceAllAppends(a4, b4, '\n', "\\n");
    var a5, b5 := ReplaceAll(a4, '\n', "\\n"), ReplaceAll(b4, '\n', "\\n");
    ReplaceAllAppends(a5, b5, '\r', "\\r");
    var a6, b6 := ReplaceAll(a5, '\r', "\\r"), ReplaceAll(b5, '\r', "\\r");
    ReplaceAllAppends(a6, b6, '\t', "\\t");
  }

  lemma {:induction false} QuotedSpelled(s: string)
    ensures EscapeQuoted(s) == QuotedCodes(s)
  {
    if s != "" {
      assert s == [s[0]] + s[1..];
      QuotedAppend([s[0]], s[1..]);
      QuotedOfOne(s[0]);
      QuotedSpelled(s[1..]);
    }
  }

  // ---------------------------------------------------------------------------------------------
  // Values
  // ---------------------------------------------------------------------------------------------

  lemma UnescapeEnvPair(c: char, rest: string)
    requires Quotable(c) || c in {'n', 'r', 't'}
    ensures UnescapeEnv(['\\', c] + rest) ==
      [if c == 'n' then '\n' else if c == 'r' then '\r' else if c == 't' then '\t' else c] + UnescapeEnv(rest)
  {
    assert (['\\', c] + rest)[2..] == rest;
  }

  lemma UnescapeEnvCode(c: char, rest: string)
    ensures UnescapeEnv(QuotedCode(c) + rest) == [c] + UnescapeEnv(rest)
  {
    if Shelled(c) {
      UnescapeEnvPair(c, rest);
    } else if IsBreak(c) {
      UnescapeEnvPair(BreakLetter(c), rest);
    } else {
      assert ([c] + rest)[1..] == rest;
    }
  }

  lemma {:induction false} UnescapeEnvInverts(s: string)
    ensures UnescapeEnv(QuotedCodes(s)) == s
  {
    if s != "" {
      UnescapeEnvCode(s[0], QuotedCodes(s[1..]));
      UnescapeEnvInverts(s[1..]);
    }
  }

  lemma {:induction false} UnescapeEnvBare(s: string)
    requires '\\' !in s
    ensures UnescapeEnv(s) == s
  {
    if s != "" {
      UnescapeEnvBare(s[1..]);
    }
  }

  /** The word written for a value stands for the value. */
  lemma WordReads(v: string)
    ensures WordValue(EscapeEnvValue(v)) == v
  {
    if IsBare(v) {
      UnescapeEnvBare(v);
    } else {
      QuotedSpelled(v);
      UnescapeEnvInverts(v);
      var word := "\"" + QuotedCodes(v) + "\"";
      assert word[1..|word| - 1] == QuotedCodes(v);
    }
  }

  // ---------------------------------------------------------------------------------------------
  // Lines
  // ---------------------------------------------------------------------------------------------

  predicate NoSpaceEdges(s: string) {
    s != "" && !IsSpace(s[0]) && !IsSpace(s[|s| - 1])
  }

  lemma NoSpaceKept(s: string)
    requires NoSpaceEdges(s)
    ensures TrimSpace(s) == s
  {
  }

  lemma WordEdges(v: string)
    ensures NoSpaceEdges(EscapeEnvValue(v))
  {
  }

  lemma NameEdges(k: string)
    requires IsName(k)
    ensures NoSpaceEdges(k)
  {
  }

  lemma {:induction false} IndexAfter(k: string, c: char, rest: string)
    requires c !in k
    ensures IndexOf(k + ([c] + rest), c) == Some(|k|)
  {
    if k == "" {
      assert k + ([c] + rest) == [c] + rest;
    } else {
      assert (k + ([c] + rest))[1..] == k[1..] + ([c] + rest);
      IndexAfter(k[1..], c, rest);
    }
  }

  lemma AssignmentSplits(k: string, word: string)
    requires IsName(k)
    ensures var line := k + ("=" + word);
      IndexOf(line, '=') == Some(|k|) && line[..|k|] == k && line[|k| + 1..] == word
  {
    IndexAfter(k, '=', word);
  }

  lemma AssignmentParses(line: string, i: nat, k: string, word: string, result: map<string, string>)
    requires IndexOf(line, '=') == Some(i) && line[..i] == k && line[i + 1..] == word
    requires TrimSpace(k) == k && TrimSpace(word) == word
    ensures ParseAssignment(line, result) == result[k := WordValue(word)]
  {
  }

  lemma EntryParses(k: string, v: string, result: map<string, string>)
    requires IsName(k)
    ensures ParseAssignment(k + ("=" + EscapeEnvValue(v)), result) == result[k := v]
  {
    var word := EscapeEnvValue(v);
    AssignmentSplits(k, word);
    NameEdges(k);
    NoSpaceKept(k);
    WordEdges(v);
    NoSpaceKept(word);
    AssignmentParses(k + ("=" + word), |k|, k, word, result);
    WordReads(v);
  }

  /** An assignment never looks exported: a name holds no space. */
  lemma NotExported(k: string, word: string)
    requires IsName(k)
    ensures !HasPrefix(k + ("=" + word), "export ")
  {
    var line := k + ("=" + word);
    if |k| > 6 {
      assert line[6] == k[6] && line[6] != "export "[6];
    } else {
      assert line[|k|] == '=' && line[|k|] != "export "[|k|];
    }
  }

  lemma PrefixRemoved(text: string)
    ensures TrimPrefix("export " + text, "export ") == text
  {
    assert ("export " + text)[..7] == "export " && ("export " + text)[7..] == text;
  }

  lemma EntryEdges(k: string, word: string)
    requires IsName(k) && NoSpaceEdges(word)
    ensures var line := k + ("=" + word); NoSpaceEdges(line) && line[0] != '#'
    ensures var line := "export " + (k + ("=" + word)); NoSpaceEdges(line) && line[0] != '#'
  {
    var line := k + ("=" + word);
    assert line[0] == k[0] && line[|line| - 1] == word[|word| - 1];
    var exported := "export " + line;
    assert exported[0] == 'e' && exported[|exported| - 1] == word[|word| - 1];
  }

  lemma LineParses(line: string, text: string, result: map<string, string>)
    requires TrimSpace(line) == line && line != "" && line[0] != '#'
    requires TrimPrefix(line, "export ") == text && TrimSpace(text) == text
    ensures ParseEnvLine(line, result) == ParseAssignment(text, result)
  {
  }

  /** A written line reads as exactly its key and value. */
  lemma EnvLineReads(k: string, v: string, exported: bool, result: map<string, string>)
    requires IsName(k)
    ensures ParseEnvLine(EnvLine(k, v, exported), result) == result[k := v]
  {
    var word := EscapeEnvValue(v);
    var text := k + ("=" + word);
    WordEdges(v);
    EntryEdges(k, word);
    NoSpaceKept(text);
    if exported {
      NoSpaceKept("export " + text);
      PrefixRemoved(text);
      LineParses("export " + text, text, result);
    } else {
      NotExported(k, word);
      assert "" + text == text;
      LineParses(text, text, result);
    }
    EntryParses(k, v, result);
  }

  // ---------------------------------------------------------------------------------------------
  // Files
  // ---------------------------------------------------------------------------------------------

  lemma {:induction false} QuotedNoFeed(s: string)
    ensures '\n' !in QuotedCodes(s)
  {
    if s != "" {
      QuotedNoFeed(s[1..]);
    }
  }

  lemma NoFeedAppend(a: string, b: string)
    requires '\n' !in a && '\n' !in b
    ensures '\n' !in a + b
  {
  }

  lemma WordNoFeed(v: string)
    ensures '\n' !in EscapeEnvValue(v)
  {
    if !IsBare(v) {
      QuotedSpelled(v);
      QuotedNoFeed(v);
      NoFeedAppend("\"", QuotedCodes(v));
      NoFeedAppend("\"" + QuotedCodes(v), "\"");
    }
  }

  lemma EnvLineNoFeed(k: string, v: string, exported: bool)
    requires IsName(k)
    ensures '\n' !in EnvLine(k, v, exported)
  {
    var word := EscapeEnvValue(v);
    WordNoFeed(v);
    NoFeedAppend("=", word);
    NoFeedAppend(k, "=" + word);
    NoFeedAppend(if exported then "export " else "", k + ("=" + word));
  }

  lemma FirstPiece(line: string, rest: string)
    requires '\n' !in line
    ensures Pieces(line + "\n" + rest) == [line] + Pieces(rest)
  {
    LineEndFound(line, rest);
    var data := line + "\n" + rest;
    assert data[..|line|] == line && data[|line| + 1..] == rest;
  }

  lemma {:induction false} PiecesFound(lines: seq<string>)
    requires forall i :: 0 <= i < |lines| ==> '\n' !in lines[i]
    ensures Pieces(Terminated(lines)) == lines + [""]
  {
    if lines != [] {
      FirstPiece(lines[0], Terminated(lines[1..]));
      PiecesFound(lines[1..]);
      assert [lines[0]] + (lines[1..] + [""]) == lines + [""];
    }
  }

  ghost predicate Reads(line: string, k: string, v: string) {
    '\n' !in line && forall result :: ParseEnvLine(line, result) == result[k := v]
  }

  lemma {:induction false} LinesParse(lines: seq<string>, keys: seq<string>, data: map<string, string>, result: map<string, string>)
    requires |lines| == |keys| && (forall k :: k in keys ==> k in data)
    requires forall i :: 0 <= i < |keys| ==> Reads(lines[i], keys[i], data[keys[i]])
    requires forall k :: k in result ==> k in data && result[k] == data[k]
    ensures ParseEnvLines(lines + [""], result) == map k | k in data && (k in keys || k in result) :: data[k]
  {
    if keys == [] {
      assert lines + [""] == [""] && [""][1..] == [];
    } else {
      assert Reads(lines[0], keys[0], data[keys[0]]);
      assert (lines + [""])[1..] == lines[1..] + [""];
      LinesParse(lines[1..], keys[1..], data, result[keys[0] := data[keys[0]]]);
    }
  }

  /** For every map whose keys are all names, with the export prefix or without, reading what was
      written gives the map back. */
  lemma EnvReadsBack(keys: seq<string>, data: map<string, string>, exported: bool)
    requires (forall k :: k in keys <==> k in data) && (forall k :: k in data ==> IsName(k))
    ensures UnmarshalEnv(Terminated(EnvLines(keys, data, exported))) == data
  {
    var lines := EnvLines(keys, data, exported);
    forall i | 0 <= i < |keys|
      ensures Reads(lines[i], keys[i], data[keys[i]])
    {
      assert keys[i] in data;
      EnvLineNoFeed(keys[i], data[keys[i]], exported);
      forall result
        ensures ParseEnvLine(lines[i], result) == result[keys[i] := data[keys[i]]]
      {
        EnvLineReads(keys[i], data[keys[i]], exported, result);
      }
    }
    PiecesFound(lines);
    LinesParse(lines, keys, data, map[]);
  }

  // ---------------------------------------------------------------------------------------------
  // The shell
  // ---------------------------------------------------------------------------------------------

  /** What a shell makes of a value: line feeds, returns and tabs stay the two characters they were
      written as. */
  function ShellView(s: string): string {
    if s == "" then ""
    else (if IsBreak(s[0]) then ['\\', BreakLetter(s[0])] else [s[0]]) + ShellView(s[1..])
  }

  lemma ShellCode(c: char, rest: string)
    ensures ShellQuoted(QuotedCode(c) + rest) ==
      Prepend(if IsBreak(c) then ['\\', BreakLetter(c)] else [c], ShellQuoted(rest))
  {
    var s := QuotedCode(c) + rest;
    if Shelled(c) {
      assert s[2..] == rest;
    } else if IsBreak(c) {
      assert s[1..] == [BreakLetter(c)] + rest;
      assert ([BreakLetter(c)] + rest)[1..] == rest;
      if ShellQuoted(rest).Some? {
        assert ['\\'] + ([BreakLetter(c)] + ShellQuoted(rest).value) == ['\\', BreakLetter(c)] + ShellQuoted(rest).value;
      }
    } else {
      assert s[1..] == rest;
    }
  }

  lemma {:induction false} ShellReadsQuoted(s: string)
    ensures ShellQuoted(QuotedCodes(s) + "\"") == Some(ShellView(s))
  {
    if s == "" {
      assert QuotedCodes(s) + "\"" == "\"";
    } else {
      Regroup(QuotedCode(s[0]), QuotedCodes(s[1..]), "\"");
      ShellCode(s[0], QuotedCodes(s[1..]) + "\"");
      ShellReadsQuoted(s[1..]);
    }
  }

  lemma {:induction false} ShellViewOfPlain(s: string)
    ensures ShellView(s) == s <==> forall i :: 0 <= i < |s| ==> !IsBreak(s[i])
    ensures |ShellView(s)| >= |s|
  {
    if s != "" {
      ShellViewOfPlain(s[1..]);
      if !IsBreak(s[0]) {
        assert ShellView(s)[1..] == ShellView(s[1..]);
        assert forall i :: 1 <= i < |s| ==> s[i] == s[1..][i - 1];
      }
    }
  }

  lemma ShellReadsBare(v: string)
    requires IsBare(v)
    ensures ShellWord(v) == Some(v) && ShellView(v) == v
  {
    ShellViewOfPlain(v);
    assert forall i :: 0 <= i < |v| ==> BareChar(v[i]);
  }

  lemma ShellReadsWord(codes: string, word: string)
    requires word == "\"" + codes + "\""
    ensures ShellWord(word) == ShellQuoted(codes + "\"")
  {
    assert word[1..] == codes + "\"";
  }

  /** Whatever the value, a shell that sources the file expands nothing, runs nothing, and ends the
      word where the writer ended it; it assigns the very value exactly when that holds no line feed,
      return or tab. */
  lemma {:induction false} ShellSafe(v: string)
    ensures ShellWord(EscapeEnvValue(v)) == Some(ShellView(v))
    ensures ShellView(v) == v <==> forall i :: 0 <= i < |v| ==> !IsBreak(v[i])
  {
    ShellViewOfPlain(v);
    if IsBare(v) {
      ShellReadsBare(v);
    } else {
      QuotedSpelled(v);
      ShellReadsWord(QuotedCodes(v), EscapeEnvValue(v));
      ShellReadsQuoted(v);
    }
  }
}
