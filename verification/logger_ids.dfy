/** Property identifiers of a log4j2 configuration: one per logger, pairwise distinct. */
module LoggerIds {

  // ---------------------------------------------------------------------------------------------
  // Decimal numerals
  // ---------------------------------------------------------------------------------------------

  const DIGITS := "0123456789"

  predicate IsDigit(c: char) {
    c in DIGITS
  }

  function Itoa(n: nat): (s: string)
    ensures |s| > 0
    ensures forall i :: 0 <= i < |s| ==> IsDigit(s[i])
  {
    if n < 10 then [DIGITS[n]] else Itoa(n / 10) + [DIGITS[n % 10]]
  }

  lemma DigitsDistinct(i: nat, j: nat)
    requires i < 10 && j < 10 && DIGITS[i] == DIGITS[j]
    ensures i == j
  {
  }

  lemma {:induction false} ItoaInjective(m: nat, n: nat)
    requires Itoa(m) == Itoa(n)
    ensures m == n
  {
    var s := Itoa(m);
    assert s[|s| - 1] == DIGITS[m % 10] && s[|s| - 1] == DIGITS[n % 10];
    DigitsDistinct(m % 10, n % 10);
    assert m < 10 <==> |s| == 1;
    assert n < 10 <==> |s| == 1;
    if m >= 10 {
      assert s[..|s| - 1] == Itoa(m / 10) && s[..|s| - 1] == Itoa(n / 10);
      ItoaInjective(m / 10, n / 10);
    }
  }

  // ---------------------------------------------------------------------------------------------
  // One identifier
  // ---------------------------------------------------------------------------------------------

  /** A letter or digit of ASCII, or the underscore. */
  predicate IsKeyChar(c: char)
    ensures IsKeyChar(c) <==> (var n := c as int; 48 <= n < 58 || 65 <= n < 91 || n == 95 || 97 <= n < 123)
  {
    'a' <= c <= 'z' || 'A' <= c <= 'Z' || '0' <= c <= '9' || c == '_'
  }

  /** A bare segment of a property key. */
  predicate IsKeySegment(s: string) {
    s != "" && forall i :: 0 <= i < |s| ==> IsKeyChar(s[i])
  }

  function EscapeLoggerName(s: string): (r: string)
    ensures |r| == |s|
    ensures forall i :: 0 <= i < |s| ==> IsKeyChar(r[i])
    ensures forall i :: 0 <= i < |s| && IsKeyChar(s[i]) ==> r[i] == s[i]
    ensures forall i :: 0 <= i < |s| && !IsKeyChar(s[i]) ==> r[i] == '_'
  {
    seq(|s|, i requires 0 <= i < |s| => if IsKeyChar(s[i]) then s[i] else '_')
  }

  /** The identifier a name asks for. */
  function Wanted(name: string): (id: string)
    ensures IsKeySegment(id)
    ensures IsKeySegment(name) ==> id == name
  {
    if EscapeLoggerName(name) == "" then "logger" else EscapeLoggerName(name)
  }

  /** The candidates in the order they are tried: the identifier itself, then with suffixes from 2 on. */
  function Candidate(id: string, i: nat): string
    requires i >= 1
  {
    if i == 1 then id else id + "_" + Itoa(i)
  }

  lemma CandidateIsKeySegment(id: string, i: nat)
    requires IsKeySegment(id) && i >= 1
    ensures IsKeySegment(Candidate(id, i))
  {
  }

  lemma CandidateInjective(id: string, i: nat, j: nat)
    requires i >= 1 && j >= 1 && Candidate(id, i) == Candidate(id, j)
    ensures i == j
  {
    if i > 1 && j > 1 {
      var s := Candidate(id, i);
      assert s[|id| + 1..] == Itoa(i) && s[|id| + 1..] == Itoa(j);
      ItoaInjective(i, j);
    }
  }

  function FirstCandidates(id: string, n: nat): (s: set<string>)
    ensures forall x :: x in s <==> exists i :: 1 <= i <= n && x == Candidate(id, i)
  {
    if n == 0 then {} else FirstCandidates(id, n - 1) + {Candidate(id, n)}
  }

  lemma {:induction false} CandidatesAreMany(id: string, n: nat)
    ensures |FirstCandidates(id, n)| == n
  {
    if n > 0 {
      CandidatesAreMany(id, n - 1);
      if Candidate(id, n) in FirstCandidates(id, n - 1) {
        var i :| 1 <= i <= n - 1 && Candidate(id, n) == Candidate(id, i);
        CandidateInjective(id, n, i);
      }
    }
  }

  lemma SubsetIsSmaller(a: set<string>, b: set<string>)
    requires a <= b
    ensures |a| <= |b|
  {
    assert b == a + (b - a);
  }

  ghost predicate AllTaken(id: string, n: nat, taken: set<string>) {
    forall i: nat :: 1 <= i <= n ==> Candidate(id, i) in taken
  }

  /** Pigeonhole: as long as every candidate so far is taken, there are no more of them than taken ones. */
  lemma SearchIsBounded(id: string, n: nat, taken: set<string>)
    requires AllTaken(id, n, taken)
    ensures n <= |taken|
  {
    CandidatesAreMany(id, n);
    SubsetIsSmaller(FirstCandidates(id, n), taken);
  }

  // ---------------------------------------------------------------------------------------------
  // All the identifiers
  // ---------------------------------------------------------------------------------------------

  /** `unique` is the first candidate of `id` that is not taken. */
  ghost predicate FirstFree(id: string, taken: set<string>, unique: string) {
    unique !in taken && exists n: nat :: unique == Candidate(id, n + 1) && AllTaken(id, n, taken)
  }

  method FreeIdentifier(id: string, taken: set<string>) returns (unique: string)
    ensures FirstFree(id, taken, unique)
    ensures IsKeySegment(id) ==> IsKeySegment(unique)
  {
    unique := id;
    var i: nat := 2;
    while unique in taken
      invariant i >= 2 && unique == Candidate(id, i - 1)
      invariant AllTaken(id, i - 2, taken)
      decreases |taken| + 2 - i
    {
      assert AllTaken(id, i - 1, taken);
      SearchIsBounded(id, i - 1, taken);
      unique := id + "_" + Itoa(i);
      i := i + 1;
    }
    if IsKeySegment(id) {
      CandidateIsKeySegment(id, i - 1);
    }
  }

  function Earlier(ids: seq<string>, k: nat): set<string>
    requires k <= |ids|
  {
    set id | id in ids[..k]
  }

  /** The identifier at `k` is the first candidate of its name that no earlier logger has. */
  ghost predicate IdentifiesAt(names: seq<string>, ids: seq<string>, k: nat)
    requires k < |names| && k < |ids|
  {
    IsKeySegment(ids[k]) && FirstFree(Wanted(names[k]), Earlier(ids, k), ids[k])
  }

  predicate Distinct(ids: seq<string>) {
    forall i, j :: 0 <= i < j < |ids| ==> ids[i] != ids[j]
  }

  method Log4j2LoggerIDs(names: seq<string>) returns (ids: seq<string>)
    ensures |ids| == |names|
    ensures Distinct(ids)
    ensures forall k :: 0 <= k < |ids| ==> IdentifiesAt(names, ids, k)
  {
    ids := [];
    var taken: set<string> := {};
    for k := 0 to |names|
      invariant |ids| == k
      invariant taken == Earlier(ids, k)
      invariant Distinct(ids)
      invariant forall j :: 0 <= j < k ==> IdentifiesAt(names, ids, j)
    {
      var id := EscapeLoggerName(names[k]);
      if id == "" {
        id := "logger";
      }
      var unique := FreeIdentifier(id, taken);
      ghost var before := ids;
      taken := taken + {unique};
      ids := ids + [unique];
      forall j | 0 <= j <= k
        ensures Earlier(ids, j) == Earlier(before, j)
      {
        assert ids[..j] == before[..j];
      }
      forall j | 0 <= j < k
        ensures IdentifiesAt(names, ids, j)
      {
        assert IdentifiesAt(names, before, j);
      }
      assert IdentifiesAt(names, ids, k);
      assert ids[..k + 1] == before[..k] + [unique];
    }
  }

  /** A name that is a key segment already keeps its own identifier exactly when no earlier logger has it. */
  lemma KeepsItsName(names: seq<string>, ids: seq<string>, k: nat)
    requires |ids| == |names| && k < |ids| && IdentifiesAt(names, ids, k)
    requires IsKeySegment(names[k])
    ensures ids[k] == names[k] <==> names[k] !in ids[..k]
  {
    var n: nat :| ids[k] == Candidate(Wanted(names[k]), n + 1) && AllTaken(Wanted(names[k]), n, Earlier(ids, k));
    if n > 0 {
      assert Candidate(Wanted(names[k]), 1) in Earlier(ids, k);
    }
  }
}
