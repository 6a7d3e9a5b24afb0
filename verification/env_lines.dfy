/** What each kind of line means to the adapter that reads environment files, wherever in a file the line
    stands and whoever wrote it. */
module EnvFileLines {
  import opened Wrappers
  import opened Text
  import opened EnvText
  import opened EnvRoundTrip

  // ---------------------------------------------------------------------------------------------
  // One file after another
  // ---------------------------------------------------------------------------------------------

  lemma {:induction false} PiecesConcat(a: string, b: string)
    ensures Pieces(a + "\n" + b) == Pieces(a) + Pieces(b)
    decreases |a|
  {
    var n := LineEnd(a);
    if n == |a| {
      FirstPiece(a, b);
    } else {
      var line, rest := a[..n], a[n + 1..];
      assert a == line + "\n" + rest;
      Regroup(line + "\n", rest, "\n");
      Regroup(line + "\n", rest + "\n", b);
      FirstPiece(line, rest + "\n" + b);
      PiecesConcat(rest, b);
      Regroup([line], Pieces(rest), Pieces(b));
    }
  }

  lemma {:induction false} ParseBoth(a: seq<string>, b: seq<string>, result: map<string, string>)
    ensures ParseEnvLines(a + b, result) == ParseEnvLines(b, ParseEnvLines(a, result))
  {
    if a == [] {
      assert a + b == b;
    } else {
      assert (a + b)[0] == a[0] && (a + b)[1..] == a[1..] + b;
      ParseBoth(a[1..], b, ParseEnvLine(a[0], result));
    }
  }

  lemma LineOverrides(line: string, result: map<string, string>)
    ensures ParseEnvLine(line, result) == result + ParseEnvLine(line, map[])
  {
  }

  lemma OverridesAssociate(a: map<string, string>, b: map<string, string>, c: map<string, string>)
    ensures a + b + c == a + (b + c)
  {
  }

  lemma {:induction false} LinesOverride(lines: seq<string>, result: map<string, string>)
    ensures ParseEnvLines(lines, result) == result + ParseEnvLines(lines, map[])
  {
    if lines != [] {
      var one := ParseEnvLine(lines[0], map[]);
      LineOverrides(lines[0], result);
      LinesOverride(lines[1..], result + one);
      LinesOverride(lines[1..], one);
      OverridesAssociate(result, one, ParseEnvLines(lines[1..], map[]));
    }
  }

  /** Two files joined by a line feed read as the second over the first. */
  lemma Concatenated(a: string, b: string)
    ensures UnmarshalEnv(a + "\n" + b) == UnmarshalEnv(a) + UnmarshalEnv(b)
  {
    PiecesConcat(a, b);
    ParseBoth(Pieces(a), Pieces(b), map[]);
    LinesOverride(Pieces(b), ParseEnvLines(Pieces(a), map[]));
  }

  // ---------------------------------------------------------------------------------------------
  // One line
  // ---------------------------------------------------------------------------------------------

  predicate AllSpace(s: string) {
    forall i :: 0 <= i < |s| ==> IsSpace(s[i])
  }

  lemma LineAlone(line: string)
    requires '\n' !in line
    ensures UnmarshalEnv(line) == ParseEnvLine(line, map[])
  {
    var n := LineEnd(line);
    assert n == |line|;
    var lines := Pieces(line);
    assert lines == [line] && lines[1..] == [];
    assert ParseEnvLines(lines[1..], ParseEnvLine(line, map[])) == ParseEnvLine(line, map[]);
  }

  lemma {:induction false} TrimStartSpaces(indent: string, s: string)
    requires AllSpace(indent) && (s == "" || !IsSpace(s[0]))
    ensures TrimStart(indent + s) == s
  {
    if indent == "" {
      assert indent + s == s;
    } else {
      assert (indent + s)[1..] == indent[1..] + s;
      TrimStartSpaces(indent[1..], s);
    }
  }

  lemma {:induction false} TrimEndSpaces(s: string, trail: string)
    requires AllSpace(trail) && (s == "" || !IsSpace(s[|s| - 1]))
    ensures TrimEnd(s + trail) == s
    decreases |trail|
  {
    if trail == "" {
      assert s + trail == s;
    } else {
      var front := trail[..|trail| - 1];
      assert (s + trail)[..|s + trail| - 1] == s + front;
      TrimEndSpaces(s, front);
    }
  }

  lemma TrimPadded(indent: string, s: string, trail: string)
    requires AllSpace(indent) && AllSpace(trail) && s != "" && NoSpaceEdges(s)
    ensures TrimSpace(indent + (s + trail)) == s
  {
    TrimStartSpaces(indent, s + trail);
    TrimEndSpaces(s, trail);
  }

  lemma {:induction false} TrimEndFirst(s: string)
    requires s != "" && !IsSpace(s[0])
    ensures TrimEnd(s) != "" && TrimEnd(s)[0] == s[0]
    decreases |s|
  {
    if IsSpace(s[|s| - 1]) {
      TrimEndFirst(s[..|s| - 1]);
    }
  }

  /** A blank line and a comment assign nothing. */
  lemma CommentAlone(indent: string, rest: string)
    requires AllSpace(indent) && '\n' !in indent + rest && (rest == "" || rest[0] == '#')
    ensures UnmarshalEnv(indent + rest) == map[]
  {
    LineAlone(indent + rest);
    TrimStartSpaces(indent, rest);
    if rest != "" {
      TrimEndFirst(rest);
    }
  }

  /** A blank line or a comment anywhere in a file changes nothing that is assigned. */
  lemma CommentAnywhere(pre: string, indent: string, rest: string, post: string)
    requires AllSpace(indent) && '\n' !in indent + rest && (rest == "" || rest[0] == '#')
    ensures UnmarshalEnv(pre + "\n" + (indent + rest + "\n" + post)) == UnmarshalEnv(pre + "\n" + post)
  {
    CommentAlone(indent, rest);
    Concatenated(pre, indent + rest + "\n" + post);
    Concatenated(indent + rest, post);
    Concatenated(pre, post);
    NothingFirst(UnmarshalEnv(post));
  }

  lemma NothingFirst(m: map<string, string>)
    ensures map[] + m == m
  {
  }

  lemma {:induction false} NoIndex(s: string, c: char)
    requires c !in s
    ensures IndexOf(s, c) == None
  {
    if s != "" {
      NoIndex(s[1..], c);
    }
  }

  lemma {:induction false} TrimStartKeepsOut(s: string, c: char)
    requires c !in s
    ensures c !in TrimStart(s)
  {
    if s != "" && IsSpace(s[0]) {
      TrimStartKeepsOut(s[1..], c);
    }
  }

  lemma {:induction false} TrimEndKeepsOut(s: string, c: char)
    requires c !in s
    ensures c !in TrimEnd(s)
    decreases |s|
  {
    if s != "" && IsSpace(s[|s| - 1]) {
      TrimEndKeepsOut(s[..|s| - 1], c);
    }
  }

  lemma TrimKeepsOut(s: string, c: char)
    requires c !in s
    ensures c !in TrimSpace(s)
  {
    TrimStartKeepsOut(s, c);
    TrimEndKeepsOut(TrimStart(s), c);
  }

  /** A line without a '=' assigns nothing. */
  lemma NoAssignment(line: string)
    requires '\n' !in line && '=' !in line
    ensures UnmarshalEnv(line) == map[]
  {
    LineAlone(line);
    TrimKeepsOut(line, '=');
    var text := TrimPrefix(TrimSpace(line), "export ");
    TrimKeepsOut(text, '=');
    NoIndex(TrimSpace(text), '=');
  }

  lemma {:induction false} PaddedParses(indent: string, line: string, trail: string, text: string)
    requires AllSpace(indent) && AllSpace(trail) && NoSpaceEdges(line) && line[0] != '#'
    requires TrimPrefix(line, "export ") == text && TrimSpace(text) == text
    ensures ParseEnvLine(indent + (line + trail), map[]) == ParseAssignment(text, map[])
  {
    TrimPadded(indent, line, trail);
  }

  lemma {:induction false} AssignmentOf(k: string, word: string)
    requires IsName(k) && NoSpaceEdges(word)
    ensures ParseAssignment(k + ("=" + word), map[]) == map[k := WordValue(word)]
  {
    AssignmentSplits(k, word);
    NameEdges(k);
    NoSpaceKept(k);
    NoSpaceKept(word);
    AssignmentParses(k + ("=" + word), |k|, k, word, map[]);
  }

  lemma {:induction false} AssignmentReads(indent: string, k: string, word: string, trail: string, exported: bool)
    requires AllSpace(indent) && AllSpace(trail) && IsName(k) && NoSpaceEdges(word)
    ensures var line := (if exported then "export " else "") + (k + ("=" + word));
      ParseEnvLine(indent + (line + trail), map[]) == map[k := WordValue(word)]
  {
    var text := k + ("=" + word);
    EntryEdges(k, word);
    NoSpaceKept(text);
    AssignmentOf(k, word);
    if exported {
      PrefixRemoved(text);
      PaddedParses(indent, "export " + text, trail, text);
    } else {
      NotExported(k, word);
      assert "" + text == text;
      PaddedParses(indent, text, trail, text);
    }
  }

  /** Between single quotes nothing is an escape, not even a quote; a line may be padded and exported. */
  lemma SingleQuoted(indent: string, k: string, v: string, trail: string, exported: bool)
    requires AllSpace(indent) && AllSpace(trail) && IsName(k)
    requires '\n' !in indent && '\n' !in trail && '\n' !in v
    ensures var line := (if exported then "export " else "") + (k + ("=" + ("'" + v + "'")));
      UnmarshalEnv(indent + (line + trail)) == map[k := v]
  {
    var word := "'" + v + "'";
    assert word[1..|word| - 1] == v;
    var line := (if exported then "export " else "") + (k + ("=" + word));
    NameNoFeed(k);
    LineAlone(indent + (line + trail));
    AssignmentReads(indent, k, word, trail, exported);
  }

  lemma NameNoFeed(k: string)
    requires IsName(k)
    ensures '\n' !in k
  {
  }

  /** A written line reads as its assignment, padded or not. */
  lemma PaddedLine(indent: string, k: string, v: string, trail: string, exported: bool)
    requires AllSpace(indent) && AllSpace(trail) && IsName(k) && '\n' !in indent && '\n' !in trail
    ensures UnmarshalEnv(indent + (EnvLine(k, v, exported) + trail)) == map[k := v]
  {
    EnvLineNoFeed(k, v, exported);
    LineAlone(indent + (EnvLine(k, v, exported) + trail));
    WordEdges(v);
    WordReads(v);
    AssignmentReads(indent, k, EscapeEnvValue(v), trail, exported);
  }

  /** A backslash before a character it does not escape stands for itself. */
  lemma OtherEscape(c: char, rest: string)
    requires c !in {'n', 'r', 't', '\\', '"', '\'', '$', '`'}
    ensures UnescapeEnv(['\\', c] + rest) == ['\\', c] + UnescapeEnv(rest)
  {
    var s := ['\\', c] + rest;
    assert s[1..] == [c] + rest && ([c] + rest)[1..] == rest;
  }
}
