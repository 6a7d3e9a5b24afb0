/**
 When a second apply gives the very same template, whatever order the claims are visited in.

 A container's mounts stay put exactly when at most one preserved claim gets mounts back there: the mounts
 of one claim keep their order, those of two come in the order in which the claims are visited. Nothing
 else depends on that order: what is kept is kept in the order it had, and what is restored is appended,
 claim by claim.
 */
module ApplyOrder {
  import opened Wrappers
  import opened ApplyMounts
  import opened ApplyCoherence

  // ---------------------------------------------------------------------------------------------
  // What is kept does not depend on the order
  // ---------------------------------------------------------------------------------------------

  function Keep(mounts: seq<Mount>, gone: set<string>): seq<Mount> {
    if mounts == [] then []
    else (if mounts[0].name in gone then [] else [mounts[0]]) + Keep(mounts[1..], gone)
  }

  lemma {:induction false} KeepTwice(mounts: seq<Mount>, name: string, more: set<string>)
    ensures Keep(Without(mounts, name), more) == Keep(mounts, {name} + more)
  {
    if mounts != [] {
      KeepTwice(mounts[1..], name, more);
      var rest := Without(mounts[1..], name);
      if mounts[0].name != name {
        assert ([mounts[0]] + rest)[1..] == rest;
      } else {
        assert [] + rest == rest;
      }
    }
  }

  lemma {:induction false} KeepNone(mounts: seq<Mount>)
    ensures Keep(mounts, {}) == mounts
  {
    if mounts != [] {
      KeepNone(mounts[1..]);
    }
  }

  lemma {:induction false} WithoutAllKeeps(mounts: seq<Mount>, names: seq<string>, gone: set<string>)
    requires Lists(names, gone)
    ensures WithoutAll(mounts, names) == Keep(mounts, gone)
    decreases |names|
  {
    if names == [] {
      assert gone == {} by {
        assert forall x :: x in gone ==> x in names;
      }
      KeepNone(mounts);
    } else {
      var rest := set x | x in names[1..];
      assert names == [names[0]] + names[1..];
      assert gone == {names[0]} + rest;
      WithoutAllKeeps(Without(mounts, names[0]), names[1..], rest);
      KeepTwice(mounts, names[0], rest);
    }
  }

  // ---------------------------------------------------------------------------------------------
  // What restoring one claim appends
  // ---------------------------------------------------------------------------------------------

  /** `after` begins with `before`. */
  predicate Extends(before: seq<Mount>, after: seq<Mount>) {
    |before| <= |after| && after[..|before|] == before
  }

  /** The claim has a live mount whose path is free. */
  predicate Contributes(mounts: seq<Mount>, live: seq<Mount>, name: string) {
    exists i :: 0 <= i < |live| && live[i].name == name && !MountsPath(mounts, live[i].path)
  }

  predicate AllOf(mounts: seq<Mount>, from: nat, name: string) {
    forall i :: from <= i < |mounts| ==> mounts[i].name == name
  }

  lemma {:induction false} RestoredAppends(mounts: seq<Mount>, live: seq<Mount>, name: string)
    ensures var after := Restored(mounts, live, name);
      && Extends(mounts, after)
      && AllOf(after, |mounts|, name)
      && (|after| > |mounts| <==> Contributes(mounts, live, name))
    decreases |live|
  {
    if live != [] {
      assert live == [live[0]] + live[1..];
      if live[0].name == name && !MountsPath(mounts, live[0].path) {
        RestoredAppends(mounts + [live[0]], live[1..], name);
        var after := Restored(mounts + [live[0]], live[1..], name);
        assert after[..|mounts|] == after[..|mounts| + 1][..|mounts|];
        assert after[|mounts|] == after[..|mounts| + 1][|mounts|] == live[0];
      } else {
        RestoredAppends(mounts, live[1..], name);
        if Contributes(mounts, live[1..], name) {
          var i :| 0 <= i < |live[1..]| && live[1..][i].name == name && !MountsPath(mounts, live[1..][i].path);
          assert live[i + 1] == live[1..][i];
        }
        if Contributes(mounts, live, name) {
          var i :| 0 <= i < |live| && live[i].name == name && !MountsPath(mounts, live[i].path);
          assert live[1..][i - 1] == live[i];
        }
      }
    }
  }

  lemma NothingRestored(mounts: seq<Mount>, live: seq<Mount>, name: string)
    requires !Contributes(mounts, live, name)
    ensures Restored(mounts, live, name) == mounts
  {
    RestoredAppends(mounts, live, name);
  }

  lemma {:induction false} RestoredAllAppends(mounts: seq<Mount>, live: seq<Mount>, names: seq<string>)
    ensures Extends(mounts, RestoredAll(mounts, live, names))
    decreases |names|
  {
    if names != [] {
      var next := Restored(mounts, live, names[0]);
      RestoredAppends(mounts, live, names[0]);
      RestoredAllAppends(next, live, names[1..]);
      var after := RestoredAll(next, live, names[1..]);
      assert after[..|mounts|] == after[..|next|][..|mounts|];
    }
  }

  /** The first claim visited, if it has anything to restore, comes first. */
  lemma FirstComesFirst(mounts: seq<Mount>, live: seq<Mount>, names: seq<string>)
    requires names != [] && Contributes(mounts, live, names[0])
    ensures var after := RestoredAll(mounts, live, names);
      Extends(mounts, after) && |after| > |mounts| && after[|mounts|].name == names[0]
  {
    var next := Restored(mounts, live, names[0]);
    RestoredAppends(mounts, live, names[0]);
    RestoredAllAppends(next, live, names[1..]);
    var after := RestoredAll(next, live, names[1..]);
    assert after[..|mounts|] == after[..|next|][..|mounts|];
    assert after[|mounts|] == after[..|next|][|mounts|];
  }

  /** Only this claim has anything to restore. */
  predicate Sole(mounts: seq<Mount>, live: seq<Mount>, names: seq<string>, name: string) {
    forall other :: other in names && Contributes(mounts, live, other) ==> other == name
  }

  lemma {:induction false} SoleRestored(mounts: seq<Mount>, live: seq<Mount>, names: seq<string>, name: string)
    requires Sole(mounts, live, names, name)
    ensures RestoredAll(mounts, live, names) == if name in names then Restored(mounts, live, name) else mounts
    decreases |names|
  {
    if names != [] {
      var next := Restored(mounts, live, names[0]);
      assert names == [names[0]] + names[1..];
      if names[0] == name {
        RestoredAppends(mounts, live, name);
        AllTaken(mounts, live, name);
        forall other | other in names[1..] && Contributes(next, live, other)
          ensures other == name
        {
          ContributedBefore(mounts, next, live, other);
        }
        SoleRestored(next, live, names[1..], name);
        NothingRestored(next, live, name);
      } else {
        NothingRestored(mounts, live, names[0]);
        SoleRestored(mounts, live, names[1..], name);
      }
    }
  }

  lemma ContributedBefore(mounts: seq<Mount>, next: seq<Mount>, live: seq<Mount>, name: string)
    requires Extends(mounts, next) && Contributes(next, live, name)
    ensures Contributes(mounts, live, name)
  {
    var i :| 0 <= i < |live| && live[i].name == name && !MountsPath(next, live[i].path);
    if MountsPath(mounts, live[i].path) {
      PathLater(mounts, next, live[i].path);
    }
  }

  lemma PathLater(mounts: seq<Mount>, next: seq<Mount>, path: string)
    requires Extends(mounts, next) && MountsPath(mounts, path)
    ensures MountsPath(next, path)
  {
    var i :| 0 <= i < |mounts| && mounts[i].path == path;
    assert next[i] == next[..|mounts|][i];
  }

  /** Once restored, the claim has nothing more to restore. */
  lemma {:induction false} AllTaken(mounts: seq<Mount>, live: seq<Mount>, name: string)
    ensures !Contributes(Restored(mounts, live, name), live, name)
    decreases |live|
  {
    if live != [] {
      var next := if live[0].name == name && !MountsPath(mounts, live[0].path) then mounts + [live[0]] else mounts;
      var after := Restored(next, live[1..], name);
      AllTaken(next, live[1..], name);
      RestoredAppends(next, live[1..], name);
      forall i | 0 <= i < |live| && live[i].name == name
        ensures MountsPath(after, live[i].path)
      {
        if i == 0 {
          PathAppend(mounts, live[0], live[0].path);
          PathLater(next, after, live[0].path);
        } else {
          assert live[1..][i - 1] == live[i];
        }
      }
    }
  }

  // ---------------------------------------------------------------------------------------------
  // One container, applied twice
  // ---------------------------------------------------------------------------------------------

  /** Restoring the same claim out of the result gives the result again. */
  lemma {:induction false} RestoredFromItself(mounts: seq<Mount>, after: seq<Mount>, name: string, k: nat)
    requires Extends(mounts, after) && AllOf(after, |mounts|, name) && UniquePaths(after) && k <= |after|
    ensures k <= |mounts| ==> Restored(mounts, after[k..], name) == after
    ensures k >= |mounts| ==> Restored(after[..k], after[k..], name) == after
    decreases |after| - k
  {
    if k == |after| {
      assert after[..k] == after;
      assert k <= |mounts| ==> mounts == after;
    } else {
      RestoredFromItself(mounts, after, name, k + 1);
      assert after[k..][1..] == after[k + 1..];
      if k < |mounts| {
        assert mounts[k] == after[k] && MountsPath(mounts, after[k].path);
      } else {
        forall i | 0 <= i < k
          ensures after[..k][i].path != after[k].path
        {
        }
        assert !MountsPath(after[..k], after[k].path);
        assert after[..k] + [after[k]] == after[..k + 1];
        assert k == |mounts| ==> after[..k] == mounts;
      }
    }
  }

  /** A preserved claim's live mount that goes back into this container. */
  predicate GoesBack(c: Container, live: seq<Container>, n: Names, m: Mount) {
    m in MountsOf(live, c.name) && m.name in ToRestore(n) && PathFree(c.mounts, n, m.path)
  }

  /** Everything that goes back into this container belongs to one claim. */
  ghost predicate OneClaim(c: Container, live: seq<Container>, n: Names) {
    forall a, b :: GoesBack(c, live, n, a) && GoesBack(c, live, n, b) ==> a.name == b.name
  }

  lemma ContributesWhenBack(c: Container, live: seq<Container>, n: Names, dropped: seq<string>, name: string)
    requires Lists(dropped, ToDrop(n)) && name in ToRestore(n)
    ensures Contributes(WithoutAll(c.mounts, dropped), MountsOf(live, c.name), name) <==>
      exists m: Mount :: m.name == name && GoesBack(c, live, n, m)
  {
    var kept, from := WithoutAll(c.mounts, dropped), MountsOf(live, c.name);
    if Contributes(kept, from, name) {
      var i :| 0 <= i < |from| && from[i].name == name && !MountsPath(kept, from[i].path);
      PathFreeOfKept(c.mounts, dropped, n, from[i].path);
      assert GoesBack(c, live, n, from[i]);
    }
    if m: Mount :| m.name == name && GoesBack(c, live, n, m) {
      PathFreeOfKept(c.mounts, dropped, n, m.path);
      var i :| 0 <= i < |from| && from[i] == m;
      assert from[i].name == name && !MountsPath(kept, from[i].path);
    }
  }

  /** The claim of everything that goes back, or any name if nothing does. */
  lemma SoleOf(c: Container, live: seq<Container>, n: Names, dropped: seq<string>, restored: seq<string>)
    returns (name: string)
    requires Lists(dropped, ToDrop(n)) && Lists(restored, ToRestore(n)) && OneClaim(c, live, n)
    ensures Sole(WithoutAll(c.mounts, dropped), MountsOf(live, c.name), restored, name)
    ensures name in restored || !exists m :: GoesBack(c, live, n, m)
  {
    name := "";
    if m :| GoesBack(c, live, n, m) {
      name := m.name;
    }
    forall other | other in restored && Contributes(WithoutAll(c.mounts, dropped), MountsOf(live, c.name), other)
      ensures other == name
    {
      ContributesWhenBack(c, live, n, dropped, other);
    }
  }

  /** With one claim to restore, restoring out of the result gives the result again. */
  lemma {:induction false} OneClaimTwice(c: Container, live: seq<Container>, once: seq<Container>, n: Names, dropped: seq<string>,
                                         restored: seq<string>, dropped': seq<string>, restored': seq<string>)
    requires Lists(dropped, ToDrop(n)) && Lists(restored, ToRestore(n))
    requires Lists(dropped', ToDrop(n)) && Lists(restored', ToRestore(n))
    requires UniquePaths(c.mounts) && OneClaim(c, live, n)
    requires MountsOf(once, c.name) == MergedMounts(c, live, dropped, restored)
    ensures MergedMounts(c, once, dropped', restored') == MergedMounts(c, live, dropped, restored)
  {
    var kept, first := WithoutAll(c.mounts, dropped), MergedMounts(c, live, dropped, restored);
    WithoutAllKeeps(c.mounts, dropped, ToDrop(n));
    WithoutAllKeeps(c.mounts, dropped', ToDrop(n));
    var name := SoleOf(c, live, n, dropped, restored);
    SoleRestored(kept, MountsOf(live, c.name), restored, name);
    RestoredAppends(kept, MountsOf(live, c.name), name);
    WithoutAllUnique(c.mounts, dropped);
    RestoredUnique(kept, MountsOf(live, c.name), name);
    assert Extends(kept, first) && AllOf(first, |kept|, name) && UniquePaths(first);
    forall i | 0 <= i < |kept|
      ensures MountsPath(kept, first[i].path)
    {
      assert first[..|kept|][i] == first[i];
    }
    forall other | other in restored' && Contributes(kept, first, other)
      ensures other == name
    {
      var i :| 0 <= i < |first| && first[i].name == other && !MountsPath(kept, first[i].path);
    }
    SoleRestored(kept, first, restored', name);
    RestoredFromItself(kept, first, name, 0);
    assert first[0..] == first;
    if name !in restored {
      ContributesNothing(kept, MountsOf(live, c.name), restored, c, live, n, dropped);
    }
  }

  lemma ContributesNothing(kept: seq<Mount>, from: seq<Mount>, restored: seq<string>, c: Container, live: seq<Container>,
                           n: Names, dropped: seq<string>)
    requires Lists(restored, ToRestore(n)) && Lists(dropped, ToDrop(n))
    requires kept == WithoutAll(c.mounts, dropped) && from == MountsOf(live, c.name)
    requires !exists m :: GoesBack(c, live, n, m)
    ensures RestoredAll(kept, from, restored) == kept
  {
    forall other | other in restored && Contributes(kept, from, other)
      ensures false
    {
      ContributesWhenBack(c, live, n, dropped, other);
    }
    var none := "";
    SoleRestored(kept, from, restored, none);
    if none in restored {
      NothingRestored(kept, from, none);
    }
  }

  /** With two claims to restore, visiting them the other way round puts them the other way round. */
  lemma {:induction false} TwoClaimsSwap(c: Container, live: seq<Container>, once: seq<Container>, n: Names, dropped: seq<string>,
                                         rest: seq<string>, a: Mount, b: Mount)
    requires Lists(dropped, ToDrop(n)) && Lists(rest, ToRestore(n))
    requires GoesBack(c, live, n, a) && GoesBack(c, live, n, b) && a.name != b.name
    requires UniquePaths(c.mounts) && UniquePaths(MountsOf(live, c.name))
    requires MountsOf(once, c.name) == MergedMounts(c, live, dropped, [a.name, b.name] + rest)
    ensures MergedMounts(c, once, dropped, [b.name, a.name] + rest) != MergedMounts(c, live, dropped, [a.name, b.name] + rest)
  {
    var kept, from := WithoutAll(c.mounts, dropped), MountsOf(live, c.name);
    var one, two := [a.name, b.name] + rest, [b.name, a.name] + rest;
    var first := RestoredAll(kept, from, one);
    ContributesWhenBack(c, live, n, dropped, a.name);
    FirstComesFirst(kept, from, one);
    RestoredAllMembers(kept, from, one, b);
    PathFreeOfKept(c.mounts, dropped, n, b.path);
    assert one[1] == b.name;
    var i :| 0 <= i < |first| && first[i] == b;
    assert Contributes(kept, first, b.name);
    FirstComesFirst(kept, first, two);
  }

  // ---------------------------------------------------------------------------------------------
  // The template, applied twice
  // ---------------------------------------------------------------------------------------------

  lemma OnceAt(desired: seq<Container>, live: seq<Container>, n: Names, dropped: seq<string>, restored: seq<string>, i: nat)
    requires WellFormed(desired) && WellFormed(live) && i < |desired|
    requires Lists(dropped, ToDrop(n)) && Lists(restored, ToRestore(n))
    ensures var once := Merged(desired, live, dropped, restored);
      WellFormed(once) && MountsOf(once, desired[i].name) == MergedMounts(desired[i], live, dropped, restored)
  {
    var once := Merged(desired, live, dropped, restored);
    MergedUniqueNames(desired, live, n, dropped, restored);
    MergedAt(desired, live, dropped, restored, i);
    FindSelf(once, i);
  }

  lemma {:induction false} SameWhenOneClaim(desired: seq<Container>, live: seq<Container>, n: Names, dropped: seq<string>,
                                            restored: seq<string>, dropped': seq<string>, restored': seq<string>)
    requires WellFormed(desired) && WellFormed(live)
    requires Lists(dropped, ToDrop(n)) && Lists(restored, ToRestore(n))
    requires Lists(dropped', ToDrop(n)) && Lists(restored', ToRestore(n))
    requires forall i :: 0 <= i < |desired| ==> OneClaim(desired[i], live, n)
    ensures var once := Merged(desired, live, dropped, restored);
      Merged(desired, once, dropped', restored') == once
  {
    var once := Merged(desired, live, dropped, restored);
    forall i | 0 <= i < |desired|
      ensures Merged(desired, once, dropped', restored')[i] == once[i]
    {
      OnceAt(desired, live, n, dropped, restored, i);
      MergedAt(desired, live, dropped, restored, i);
      MergedAt(desired, once, dropped', restored', i);
      OneClaimTwice(desired[i], live, once, n, dropped, restored, dropped', restored');
    }
  }

  lemma DiffersWithTwoClaims(desired: seq<Container>, live: seq<Container>, n: Names, dropped: seq<string>, rest: seq<string>,
                             i: nat, a: Mount, b: Mount)
    requires WellFormed(desired) && WellFormed(live) && i < |desired|
    requires Lists(dropped, ToDrop(n)) && Lists(rest, ToRestore(n))
    requires GoesBack(desired[i], live, n, a) && GoesBack(desired[i], live, n, b) && a.name != b.name
    ensures Lists([a.name, b.name] + rest, ToRestore(n)) && Lists([b.name, a.name] + rest, ToRestore(n))
    ensures var once := Merged(desired, live, dropped, [a.name, b.name] + rest);
      Merged(desired, once, dropped, [b.name, a.name] + rest) != once
  {
    var one, two := [a.name, b.name] + rest, [b.name, a.name] + rest;
    assert Lists(one, ToRestore(n)) && Lists(two, ToRestore(n));
    var once := Merged(desired, live, dropped, one);
    OnceAt(desired, live, n, dropped, one, i);
    MergedAt(desired, live, dropped, one, i);
    MergedAt(desired, once, dropped, two, i);
    MountsOfUnique(live, desired[i].name);
    TwoClaimsSwap(desired[i], live, once, n, dropped, rest, a, b);
  }

  /** The names of a set in some order. */
  ghost function Listing(names: set<string>): (order: seq<string>)
    ensures Lists(order, names)
    decreases |names|
  {
    if names == {} then []
    else
      var x :| x in names;
      [x] + Listing(names - {x})
  }
}
