/** The adapter between maps and environment files, as it runs. */
module EnvAdapters {
  import opened Wrappers
  import opened Text
  import opened EnvText
  import opened EnvRoundTrip
  import Ordering

  class EnvAdapter {
    const exportPrefix: bool

    constructor (exportPrefix: bool)
      ensures this.exportPrefix == exportPrefix
    {
      this.exportPrefix := exportPrefix;
    }

    ghost predicate WrittenAs(keys: seq<string>, data: map<string, string>, text: string) {
      && Ordering.Sorted(keys)
      && Ordering.Elements(keys) == data.Keys
      && (forall k :: k in keys <==> k in data)
      && text == Terminated(EnvLines(keys, data, exportPrefix))
    }

    /** Writes the variables in the order of their names; a key that is not a name is an error. */
    method Marshal(data: map<string, string>) returns (text: Option<string>)
      ensures text.Some? <==> forall k :: k in data ==> IsName(k)
      ensures text.Some? ==> exists keys :: WrittenAs(keys, data, text.value)
    {
      if |data| == 0 {
        assert EnvLines([], data, exportPrefix) == [];
        assert WrittenAs([], data, "");
        return Some("");
      }
      var keys := Ordering.SortedKeys(data.Keys);
      assert forall k :: k in keys <==> k in Ordering.Elements(keys);
      text := MarshalKeys(keys, data, EnvLines(keys, data, exportPrefix));
      assert text.Some? ==> WrittenAs(keys, data, text.value);
    }

    method MarshalKeys(keys: seq<string>, data: map<string, string>, ghost lines: seq<string>) returns (text: Option<string>)
      requires |lines| == |keys| && (forall k :: k in keys <==> k in data)
      requires forall i :: 0 <= i < |keys| ==> lines[i] == EnvLine(keys[i], data[keys[i]], exportPrefix)
      ensures text.Some? <==> forall k :: k in data ==> IsName(k)
      ensures text.Some? ==> text.value == Terminated(lines)
    {
      var written := "";
      for i := 0 to |keys|
        invariant written == Terminated(lines[..i])
        invariant NamesUpTo(keys, i)
      {
        if !IsName(keys[i]) {
          assert keys[i] in data;
          return None;
        }
        written := AppendLine(written, keys[i], data[keys[i]], lines[i]);
        TerminatedNext(lines, i);
      }
      assert lines[..|keys|] == lines;
      return Some(written);
    }

    ghost predicate NamesUpTo(keys: seq<string>, n: int) {
      forall i :: 0 <= i < n && i < |keys| ==> IsName(keys[i])
    }

    method AppendLine(text: string, key: string, value: string, ghost line: string) returns (r: string)
      requires line == EnvLine(key, value, exportPrefix)
      ensures r == text + line + "\n"
    {
      var word := EscapeEnvValue(value);
      var prefix := if exportPrefix then "export " else "";
      r := text;
      if exportPrefix {
        r := r + "export ";
      }
      assert r == text + prefix;
      r := r + key;
      r := r + "=";
      r := r + word;
      LineJoined(text, prefix, key, word);
      r := r + "\n";
    }

    /** What Marshal wrote, Unmarshal reads back. */
    lemma {:induction false} ReadsBack(data: map<string, string>, text: string)
      requires forall k :: k in data ==> IsName(k)
      requires exists keys :: WrittenAs(keys, data, text)
      ensures UnmarshalEnv(text) == data
    {
      var keys :| WrittenAs(keys, data, text);
      EnvReadsBack(keys, data, exportPrefix);
    }

    /** Takes the quotes off a value, and the escapes unless single quotes keep them. */
    static method UnquoteValue(word: string) returns (value: string)
      ensures value == WordValue(word)
    {
      value := word;
      var literal := false;
      if |value| >= 2 {
        if value[0] == '"' && value[|value| - 1] == '"' {
          value := value[1..|value| - 1];
        } else if value[0] == '\'' && value[|value| - 1] == '\'' {
          value := value[1..|value| - 1];
          literal := true;
        }
      }
      if !literal {
        value := UnescapeEnvValue(value);
      }
    }

    /** Reads every assignment; lines without one are skipped. */
    method Unmarshal(data: string) returns (result: map<string, string>)
      ensures result == UnmarshalEnv(data)
    {
      result := map[];
      var lines := Pieces(data);
      assert lines[0..] == lines;
      for i := 0 to |lines|
        invariant UnmarshalEnv(data) == ParseEnvLines(lines[i..], result)
      {
        assert lines[i..] != [] && lines[i..][0] == lines[i] && lines[i..][1..] == lines[i + 1..];
        ghost var before := result;
        var line := TrimSpace(lines[i]);
        if line == "" || HasPrefix(line, "#") {
          SkippedLine(lines[i], before);
          continue;
        }
        CommentStart(line);
        line := TrimPrefix(line, "export ");
        line := TrimSpace(line);
        var index := IndexOf(line, '=');
        if index.None? {
          continue;
        }
        var key := TrimSpace(line[..index.value]);
        var value := TrimSpace(line[index.value + 1..]);
        value := UnquoteValue(value);
        result := result[key := value];
      }
    }
  }

  lemma LineJoined(text: string, prefix: string, key: string, word: string)
    ensures text + prefix + key + "=" + word == text + (prefix + (key + ("=" + word)))
  {
    Regroup(text + prefix + key, "=", word);
    Regroup(text + prefix, key, "=" + word);
    Regroup(text, prefix, key + ("=" + word));
  }

  lemma CommentStart(line: string)
    requires line != ""
    ensures HasPrefix(line, "#") <==> line[0] == '#'
  {
    assert line[..1] == [line[0]];
  }

  lemma SkippedLine(line: string, result: map<string, string>)
    requires TrimSpace(line) == "" || HasPrefix(TrimSpace(line), "#")
    ensures ParseEnvLine(line, result) == result
  {
    if TrimSpace(line) != "" {
      CommentStart(TrimSpace(line));
    }
  }

  /** Undoes the escapes of a value. */
  method UnescapeEnvValue(s: string) returns (result: string)
    ensures result == UnescapeEnv(s)
  {
    result := "";
    var i := 0;
    while i < |s|
      invariant 0 <= i <= |s| && UnescapeEnv(s) == result + UnescapeEnv(s[i..])
    {
      ghost var before, rest := result, s[i..];
      assert rest[0] == s[i] && rest[1..] == s[i + 1..];
      if s[i] == '\\' && i + 1 < |s| {
        assert rest[2..] == s[i + 2..];
        match s[i + 1] {
          case 'n' =>
            result := result + "\n";
            i := i + 1;
          case 'r' =>
            result := result + "\r";
            i := i + 1;
          case 't' =>
            result := result + "\t";
            i := i + 1;
          case _ =>
            if Quotable(s[i + 1]) {
              result := result + [s[i + 1]];
              i := i + 1;
            } else {
              result := result + [s[i]];
            }
        }
      } else {
        result := result + [s[i]];
      }
      i := i + 1;
      assert UnescapeEnv(rest) == result[|before|..] + UnescapeEnv(s[i..]);
      assert result == before + result[|before|..];
      Regroup(before, result[|before|..], UnescapeEnv(s[i..]));
    }
  }
}
