/**
 The order in which the operator sorts names: code point by code point, as Go compares strings.

 Whatever is listed in this order depends on the set of names alone, not on the order in which a map
 happened to give them.
 */
module Ordering {
  predicate Less(a: string, b: string) {
    if b == "" then false
    else if a == "" then true
    else a[0] < b[0] || (a[0] == b[0] && Less(a[1..], b[1..]))
  }

  lemma {:induction false} LessIrreflexive(a: string)
    ensures !Less(a, a)
  {
    if a != "" {
      LessIrreflexive(a[1..]);
    }
  }

  lemma {:induction false} LessTransitive(a: string, b: string, c: string)
    requires Less(a, b) && Less(b, c)
    ensures Less(a, c)
  {
    if a != "" && a[0] == b[0] && b[0] == c[0] {
      LessTransitive(a[1..], b[1..], c[1..]);
    }
  }

  lemma {:induction false} LessTotal(a: string, b: string)
    ensures Less(a, b) || a == b || Less(b, a)
  {
    if a != "" && b != "" && a[0] == b[0] {
      LessTotal(a[1..], b[1..]);
    }
  }

  function Elements(s: seq<string>): (names: set<string>)
    ensures forall x :: x in names <==> x in s
  {
    set x | x in s
  }

  /** Strictly ascending, hence free of duplicates. */
  ghost predicate Sorted(s: seq<string>) {
    forall i, j :: 0 <= i < j < |s| ==> Less(s[i], s[j])
  }

  lemma SortedDistinct(s: seq<string>)
    requires Sorted(s)
    ensures forall i, j :: 0 <= i < j < |s| ==> s[i] != s[j]
  {
    forall i, j | 0 <= i < j < |s|
      ensures s[i] != s[j]
    {
      LessIrreflexive(s[i]);
    }
  }

  /** A set of names has only one sorted listing, so whatever is built from it is reproducible. */
  lemma {:induction false} SortedUnique(s: seq<string>, t: seq<string>)
    requires Sorted(s) && Sorted(t) && Elements(s) == Elements(t)
    ensures s == t
  {
    assert s != [] ==> s[0] in Elements(s);
    assert t != [] ==> t[0] in Elements(t);
    if s != [] && t != [] {
      if s[0] != t[0] {
        LessTransitive(t[0], s[0], t[0]);
        LessIrreflexive(t[0]);
      }
      SortedDistinct(s);
      SortedDistinct(t);
      assert s == [s[0]] + s[1..] && t == [t[0]] + t[1..];
      forall x
        ensures x in Elements(s[1..]) <==> x in Elements(t[1..])
      {
        assert x in s <==> x == s[0] || x in s[1..];
        assert x in t <==> x == t[0] || x in t[1..];
        assert s[0] !in s[1..] && t[0] !in t[1..];
      }
      SortedUnique(s[1..], t[1..]);
    }
  }

  ghost predicate AscendingAt(s: seq<string>, i: int, j: int) {
    0 <= i < j < |s| ==> !Less(s[j], s[i])
  }

  /** Ascending, duplicates allowed. */
  ghost predicate Ascending(s: seq<string>) {
    forall i, j :: AscendingAt(s, i, j)
  }

  lemma FirstIsLeast(s: seq<string>, x: string)
    requires Ascending(s) && x in s
    ensures !Less(x, s[0])
  {
    var k :| 0 <= k < |s| && s[k] == x;
    LessIrreflexive(x);
    assert AscendingAt(s, 0, k);
  }

  lemma AscendingRest(s: seq<string>)
    requires s != [] && Ascending(s)
    ensures Ascending(s[1..])
    ensures multiset(s[1..]) == multiset(s) - multiset{s[0]}
  {
    assert s == [s[0]] + s[1..];
    forall i, j
      ensures AscendingAt(s[1..], i, j)
    {
      assert AscendingAt(s, i + 1, j + 1);
    }
  }

  /** Sorting forgets the order of its input. */
  lemma {:induction false} AscendingUnique(s: seq<string>, t: seq<string>)
    requires Ascending(s) && Ascending(t) && multiset(s) == multiset(t)
    ensures s == t
  {
    assert |s| == |multiset(s)| == |multiset(t)| == |t|;
    if s != [] {
      assert s[0] in multiset(t) && t[0] in multiset(s);
      FirstIsLeast(s, t[0]);
      FirstIsLeast(t, s[0]);
      LessTotal(s[0], t[0]);
      AscendingRest(s);
      AscendingRest(t);
      AscendingUnique(s[1..], t[1..]);
      assert s == [s[0]] + s[1..] && t == [t[0]] + t[1..];
    }
  }

  lemma NotLessTransitive(a: string, b: string, c: string)
    requires !Less(b, a) && !Less(c, b)
    ensures !Less(c, a)
  {
    LessTotal(a, b);
    LessTotal(b, c);
    if Less(c, a) {
      if a != b {
        LessTransitive(c, a, b);
      }
    }
  }

  lemma InsertAscending(names: seq<string>, name: string, i: nat)
    requires Ascending(names) && i <= |names|
    requires i > 0 ==> Less(names[i - 1], name)
    requires i < |names| ==> !Less(names[i], name)
    ensures Ascending(names[..i] + [name] + names[i..])
    ensures name !in names && Sorted(names) ==> Sorted(names[..i] + [name] + names[i..])
  {
    var r := names[..i] + [name] + names[i..];
    forall j | 0 <= j < i
      ensures Less(names[j], name) && !Less(name, names[j])
    {
      assert AscendingAt(names, j, i - 1);
      LessTotal(names[j], names[i - 1]);
      if names[j] != names[i - 1] {
        LessTransitive(names[j], names[i - 1], name);
      }
      if Less(name, names[j]) {
        LessTransitive(name, names[j], name);
        LessIrreflexive(name);
      }
    }
    forall j | i <= j < |names|
      ensures !Less(names[j], name)
    {
      assert AscendingAt(names, i, j);
      if i < j {
        NotLessTransitive(name, names[i], names[j]);
      }
    }
    forall a, b
      ensures AscendingAt(r, a, b)
    {
      assert AscendingAt(names, a, b) && AscendingAt(names, a, b - 1) && AscendingAt(names, a - 1, b - 1);
    }
    if name !in names && Sorted(names) {
      forall j | i <= j < |names|
        ensures Less(name, names[j])
      {
        LessTotal(name, names[j]);
      }
    }
  }

  method Insert(names: seq<string>, name: string) returns (r: seq<string>)
    requires Ascending(names)
    ensures Ascending(r) && multiset(r) == multiset(names) + multiset{name}
    ensures name !in names && Sorted(names) ==> Sorted(r)
  {
    var i := 0;
    while i < |names| && Less(names[i], name)
      invariant 0 <= i <= |names|
      invariant i > 0 ==> Less(names[i - 1], name)
    {
      i := i + 1;
    }
    r := names[..i] + [name] + names[i..];
    assert names == names[..i] + names[i..];
    InsertAscending(names, name, i);
  }

  method Sort(names: seq<string>) returns (r: seq<string>)
    ensures Ascending(r) && multiset(r) == multiset(names)
  {
    r := [];
    for i := 0 to |names|
      invariant Ascending(r) && multiset(r) == multiset(names[..i])
    {
      r := Insert(r, names[i]);
      assert names[..i + 1] == names[..i] + [names[i]];
    }
    assert names[..|names|] == names;
  }

  method SortedKeys(names: set<string>) returns (keys: seq<string>)
    ensures Sorted(keys) && Elements(keys) == names
  {
    keys := [];
    var todo := names;
    while todo != {}
      invariant todo <= names && Sorted(keys) && Ascending(keys)
      invariant Elements(keys) == names - todo
    {
      var name :| name in todo;
      todo := todo - {name};
      ghost var before := keys;
      keys := Insert(keys, name);
      forall x
        ensures x in keys <==> x in before || x == name
      {
        assert x in keys <==> x in multiset(keys);
        assert x in before <==> x in multiset(before);
      }
    }
  }
}
