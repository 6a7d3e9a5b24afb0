/** The adapter between maps and .properties text, as it runs. */
module PropertiesAdapters {
  import opened Wrappers
  import opened Text
  import opened PropertiesText
  import opened PropertiesRoundTrip
  import Ordering

  class PropertiesAdapter {
    const separator: string

    constructor ()
      ensures separator == "="
    {
      separator := "=";
    }

    ghost predicate InKeyOrder(keys: seq<string>, data: map<string, string>) {
      Ordering.Sorted(keys) && Ordering.Elements(keys) == data.Keys
    }

    /** Writes the entries in the order of their keys. */
    method Marshal(data: map<string, string>) returns (text: string)
      ensures exists keys :: WrittenAs(keys, data, text)
    {
      if |data| == 0 {
        assert InKeyOrder([], data) && Entries([], data, separator) == [];
        assert WrittenAs([], data, "");
        return "";
      }
      var keys := Ordering.SortedKeys(data.Keys);
      assert forall k :: k in keys <==> k in Ordering.Elements(keys);
      text := MarshalKeys(keys, data);
      assert WrittenAs(keys, data, text);
    }

    ghost predicate WrittenAs(keys: seq<string>, data: map<string, string>, text: string) {
      InKeyOrder(keys, data) && (forall k :: k in keys ==> k in data) && text == MarshalText(keys, data, separator)
    }

    method MarshalKeys(keys: seq<string>, data: map<string, string>) returns (text: string)
      requires forall k :: k in keys ==> k in data
      ensures text == MarshalText(keys, data, separator)
    {
      ghost var lines := Entries(keys, data, separator);
      text := "";
      for i := 0 to |keys|
        invariant text == Terminated(lines[..i])
      {
        text := AppendEntry(text, keys[i], data[keys[i]]);
        TerminatedNext(lines, i);
      }
      assert lines[..|keys|] == lines;
    }

    method AppendEntry(text: string, key: string, value: string) returns (r: string)
      ensures r == text + Entry(key, value, separator) + "\n"
    {
      var code := EscapeKey(key);
      var escaped := EscapeEdgeSpaces(EscapeBreaks(value));
      r := text + code;
      r := r + separator;
      r := r + escaped;
      Joined(text, code, separator, escaped);
      r := r + "\n";
    }

    /** What Marshal writes does not depend on the order in which the map is walked. */
    lemma Reproducible(keys: seq<string>, others: seq<string>, data: map<string, string>)
      requires InKeyOrder(keys, data) && InKeyOrder(others, data)
      ensures keys == others
    {
      Ordering.SortedUnique(keys, others);
    }

    /** What Marshal wrote, Unmarshal reads back, exactly when every entry fits on a line. */
    lemma {:induction false} ReadsBack(data: map<string, string>, text: string)
      requires IsSeparator(separator)
      requires exists keys :: WrittenAs(keys, data, text)
      ensures UnmarshalText(text) == if forall k :: EntryFits(data, separator, k) then Some(data) else None
    {
      var keys :| WrittenAs(keys, data, text);
      assert forall k :: k in keys <==> k in Ordering.Elements(keys);
      RoundTrip(keys, data, separator);
    }

    /** Reads one physical line: it continues the logical line, ends it, or is one by itself. */
    method ReadLine(text: string, continued: string, continuing: bool, result: map<string, string>, ghost rest: seq<string>)
      returns (continued': string, continuing': bool, result': map<string, string>)
      requires !continuing ==> continued == ""
      ensures !continuing' ==> continued' == ""
      ensures ParseLines([text] + rest, if continuing then Some(continued) else None, result) ==
              ParseLines(rest, if continuing' then Some(continued') else None, result')
    {
      ghost var pending := if continuing then Some(continued) else None;
      ParseFirst(text, rest, pending, result);
      var line := text;
      if continuing {
        line := TrimLeft(line);
      }
      var backslashes := CountTrailingBackslashes(line);
      if backslashes % 2 == 1 {
        return continued + line[..|line| - 1], true, result;
      }
      if continuing {
        line := continued + line;
      } else {
        assert "" + line == line;
      }
      result' := ParsePropertiesLine(line, result);
      return "", false, result';
    }

    /** Reads every entry, joining continued lines. */
    method Unmarshal(data: string) returns (entries: Option<map<string, string>>)
      ensures entries == UnmarshalText(data)
    {
      var result: map<string, string> := map[];
      var continued, continuing := "", false;
      var raw := ScanLines(data);
      var i := 0;
      assert raw[0..] == raw;
      while i < |raw|
        invariant 0 <= i <= |raw|
        invariant !continuing ==> continued == ""
        invariant forall j :: 0 <= j < i ==> Fits(raw[j])
        invariant ParseLines(TextLines(raw), None, map[]) ==
          ParseLines(TextLines(raw[i..]), if continuing then Some(continued) else None, result)
      {
        if !Fits(raw[i]) {
          return None;
        }
        NextLine(raw, i);
        continued, continuing, result :=
          ReadLine(DropCarriageReturn(raw[i]), continued, continuing, result, TextLines(raw[i + 1..]));
        i := i + 1;
      }
      assert raw[i..] == [];
      if continuing {
        result := ParsePropertiesLine(continued, result);
      }
      return Some(result);
    }
  }

  lemma NextLine(raw: seq<string>, i: nat)
    requires i < |raw|
    ensures TextLines(raw[i..]) == [DropCarriageReturn(raw[i])] + TextLines(raw[i + 1..])
  {
    assert raw[i..][1..] == raw[i + 1..];
  }

  lemma ParseFirst(text: string, rest: seq<string>, pending: Option<string>, result: map<string, string>)
    ensures var line := if pending.Some? then TrimLeft(text) else text;
      var before := if pending.Some? then pending.value else "";
      ParseLines([text] + rest, pending, result) ==
        if TrailingBackslashes(line) % 2 == 1 then ParseLines(rest, Some(before + line[..|line| - 1]), result)
        else ParseLines(rest, None, ParseLine(before + line, result))
  {
    assert ([text] + rest)[1..] == rest;
  }

  lemma Joined(text: string, code: string, separator: string, value: string)
    ensures text + code + separator + value == text + (code + separator + value)
  {
    Regroup(text, code, separator);
    Regroup(text, code + separator, value);
  }

  /** The lines a scanner cuts the text into. */
  method ScanLines(data: string) returns (raw: seq<string>)
    ensures raw == RawLines(data)
  {
    raw := [];
    var rest := data;
    while rest != ""
      invariant RawLines(data) == raw + RawLines(rest)
      decreases |rest|
    {
      var n := 0;
      while n < |rest| && rest[n] != '\n'
        invariant 0 <= n <= |rest| && n <= LineEnd(rest)
      {
        n := n + 1;
      }
      ghost var before, was := raw, rest;
      raw := raw + [rest[..n]];
      if n == |rest| {
        assert was[..n] == was && RawLines(was) == [was];
        rest := "";
        assert RawLines(rest) == [] && raw == raw + [];
      } else {
        rest := rest[n + 1..];
        Regroup(before, [was[..n]], RawLines(rest));
      }
    }
  }

  method CountTrailingBackslashes(s: string) returns (n: nat)
    ensures n == TrailingBackslashes(s)
  {
    n := 0;
    var i := |s| - 1;
    assert s[..i + 1] == s;
    while i >= 0 && s[i] == '\\'
      invariant -1 <= i < |s| && n + i + 1 == |s|
      invariant TrailingBackslashes(s) == n + TrailingBackslashes(s[..i + 1])
    {
      assert s[..i + 1][..i] == s[..i];
      n := n + 1;
      i := i - 1;
    }
  }

  /** Strips layout from both ends, up to an escaped blank. */
  method TrimPropertiesSpace(s: string) returns (r: string)
    ensures r == Trim(s)
  {
    var start := 0;
    while start < |s| && IsBlank(s[start])
      invariant 0 <= start <= |s| && TrimLeft(s) == TrimLeft(s[start..])
    {
      assert s[start..][1..] == s[start + 1..];
      start := start + 1;
    }
    var end := |s|;
    assert s[start..end] == s[start..];
    while end > start && IsBlank(s[end - 1])
      invariant start <= end <= |s| && TrimRight(s[start..]) == TrimRight(s[start..end])
    {
      var backslashes := CountTrailingBackslashes(s[start..end - 1]);
      assert s[start..end][..end - start - 1] == s[start..end - 1];
      if backslashes % 2 == 1 {
        break;
      }
      end := end - 1;
    }
    r := s[start..end];
    assert start < end && IsBlank(s[end - 1]) ==> s[start..end][..end - start - 1] == s[start..end - 1];
  }

  /** The index of the first unescaped separator, or -1. */
  method PropertiesSeparatorIndex(line: string) returns (index: int)
    ensures index == match SeparatorFrom(line, 0, false) case None => -1 case Some(i) => i
  {
    var escaped := false;
    for i := 0 to |line|
      invariant SeparatorFrom(line, 0, false) == SeparatorFrom(line, i, escaped)
    {
      var c := line[i];
      if escaped {
        escaped := false;
        continue;
      }
      match c {
        case '\\' => escaped := true;
        case '=' => return i;
        case ':' => return i;
        case ' ' =>
          if i > 0 {
            return i;
          }
        case _ =>
      }
    }
    return -1;
  }

  /** Adds what one logical line says to the entries. */
  method ParsePropertiesLine(line: string, result: map<string, string>) returns (r: map<string, string>)
    ensures r == ParseLine(line, result)
  {
    var text := TrimPropertiesSpace(line);
    if text == "" || text[0] == '#' || text[0] == '!' {
      return result;
    }
    var index := PropertiesSeparatorIndex(text);
    if index == -1 {
      var key := UnescapeProperties(text);
      return result[key := ""];
    }
    var key := TrimPropertiesSpace(text[..index]);
    var value := TrimPropertiesSpace(text[index + 1..]);
    key := UnescapeProperties(key);
    value := UnescapeProperties(value);
    return result[key := value];
  }

  /** Escapes the spaces at both edges of an already escaped value. */
  method EscapeEdgeSpaces(s: string) returns (r: string)
    ensures r == EscapeEdges(s)
  {
    var lead := 0;
    while lead < |s| && s[lead] == ' '
      invariant 0 <= lead <= LeadingSpaces(s)
    {
      lead := lead + 1;
    }
    var trail := |s|;
    ghost var rest := s[lead..];
    while trail > lead && s[trail - 1] == ' '
      invariant lead <= trail <= |s| && |s| - trail <= TrailingSpaces(rest)
    {
      assert rest[trail - 1 - lead] == s[trail - 1];
      trail := trail - 1;
    }
    assert trail > lead ==> rest[trail - 1 - lead] == s[trail - 1];
    assert |s| - trail == TrailingSpaces(rest);
    if lead == 0 && trail == |s| {
      assert Repeat("\\ ", 0) + s[0..|s|] + Repeat("\\ ", 0) == s;
      return s;
    }
    r := Repeat("\\ ", lead) + s[lead..trail] + Repeat("\\ ", |s| - trail);
  }

  /** Undoes the escapes of a key or a value. */
  method UnescapeProperties(s: string) returns (result: string)
    ensures result == Unescape(s)
  {
    result := "";
    var i := 0;
    while i < |s|
      invariant 0 <= i <= |s| && Unescape(s) == result + Unescape(s[i..])
    {
      ghost var before, rest := result, s[i..];
      ghost var from := i;
      assert rest[0] == s[i] && rest[1..] == s[i + 1..];
      if s[i] == '\\' && i + 1 < |s| {
        assert rest[2..] == s[i + 2..];
        match s[i + 1] {
          case 'n' =>
            result := result + "\n";
            i := i + 1;
          case 'r' =>
            result := result + "\r";
            i := i + 1;
          case 't' =>
            result := result + "\t";
            i := i + 1;
          case 'u' =>
            var decoded := DecodeUnicode(s[i + 1..]);
            if decoded.None? {
              result := result + [s[i]];
            } else {
              result := result + [decoded.value.0];
              i := i + decoded.value.1;
              assert rest[1 + decoded.value.1..] == s[i + 1..];
            }
          case _ =>
            if EscapesItself(s[i + 1]) {
              result := result + [s[i + 1]];
              i := i + 1;
            } else {
              result := result + [s[i]];
            }
        }
      } else {
        result := result + [s[i]];
      }
      i := i + 1;
      assert Unescape(rest) == result[|before|..] + Unescape(s[i..]);
      assert result == before + result[|before|..];
      Regroup(before, result[|before|..], Unescape(s[i..]));
    }
  }
}
