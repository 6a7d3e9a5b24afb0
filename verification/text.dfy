/**
 What the text formats share: replacing characters, and cutting text into lines.

 Writers and readers of both formats are taken apart one character, or one line, at a time; what
 holds of the pieces is put together again by the lemmas on concatenation.
 */
module Text {
  lemma Regroup<T>(a: seq<T>, b: seq<T>, c: seq<T>)
    ensures a + b + c == a + (b + c)
  {
  }

  function ReplaceAll(s: string, c: char, code: string): string {
    if s == "" then "" else (if s[0] == c then code else [s[0]]) + ReplaceAll(s[1..], c, code)
  }

  lemma {:induction false} ReplaceAllAppends(a: string, b: string, c: char, code: string)
    ensures ReplaceAll(a + b, c, code) == ReplaceAll(a, c, code) + ReplaceAll(b, c, code)
  {
    if a == "" {
      assert a + b == b;
    } else {
      assert (a + b)[1..] == a[1..] + b;
      ReplaceAllAppends(a[1..], b, c, code);
    }
  }

  lemma {:induction false} ReplaceAbsent(s: string, c: char, code: string)
    requires c !in s
    ensures ReplaceAll(s, c, code) == s
  {
    if s != "" {
      ReplaceAbsent(s[1..], c, code);
    }
  }

  lemma ReplaceOne(x: char, c: char, code: string)
    ensures ReplaceAll([x], c, code) == if x == c then code else [x]
  {
    assert [x][1..] == "";
  }

  /** Replacing in the code of one character, once it is escaped, changes nothing any more. */
  lemma ReplaceEscaped(x: char, c: char, code: string)
    requires c != '\\' && x != c
    ensures ReplaceAll(['\\', x], c, code) == ['\\', x]
  {
    ReplaceAbsent(['\\', x], c, code);
  }

  lemma StepOfOne(s: string, c: char, mark: char, escaped: bool)
    requires mark != '\\' && s == (if escaped then ['\\', c] else [c]) && (escaped ==> c != mark)
    ensures ReplaceAll(s, mark, ['\\', mark]) == if escaped || c == mark then ['\\', c] else [c]
  {
    if escaped {
      ReplaceEscaped(c, mark, ['\\', mark]);
    } else {
      ReplaceOne(c, mark, ['\\', mark]);
    }
  }

  /** Every line with its line feed. */
  function Terminated(lines: seq<string>): string {
    if lines == [] then "" else lines[0] + "\n" + Terminated(lines[1..])
  }

  lemma {:induction false} TerminatedNext(lines: seq<string>, i: nat)
    requires i < |lines|
    ensures Terminated(lines[..i + 1]) == Terminated(lines[..i]) + lines[i] + "\n"
  {
    if i == 0 {
      assert lines[..1] == [lines[0]] && [lines[0]][1..] == [];
    } else {
      assert lines[..i + 1][1..] == lines[1..][..i] && lines[..i][1..] == lines[1..][..i - 1];
      TerminatedNext(lines[1..], i - 1);
      Regroup(lines[0] + "\n", Terminated(lines[1..][..i - 1]) + lines[i], "\n");
      Regroup(lines[0] + "\n", Terminated(lines[1..][..i - 1]), lines[i]);
    }
  }

  function LineEnd(data: string): (n: nat)
    ensures n <= |data| && (forall i :: 0 <= i < n ==> data[i] != '\n') && (n < |data| ==> data[n] == '\n')
  {
    if data == "" || data[0] == '\n' then 0 else 1 + LineEnd(data[1..])
  }

  lemma {:induction false} LineEndFound(line: string, rest: string)
    requires '\n' !in line
    ensures LineEnd(line + "\n" + rest) == |line|
  {
    if line != "" {
      assert (line + "\n" + rest)[1..] == line[1..] + "\n" + rest;
      LineEndFound(line[1..], rest);
    }
  }
}
