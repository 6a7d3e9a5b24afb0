/** What the merged pod template guarantees. */
module ApplyCoherence {
  // It is coherent, paths are unique, and neither the order of the work nor a second apply changes it.

  import opened Wrappers
  import opened ApplyMounts

  /** The names in some order. */
  ghost predicate Lists(order: seq<string>, names: set<string>) {
    forall n :: n in order <==> n in names
  }

  /** The names a merge works with: the volumes of the desired template, the claims it asks for, and the
      claims that exist. */
  datatype Names = Names(volumes: set<string>, desired: set<string>, live: set<string>)

  /** Claims asked for that were not created, and that no ordinary volume stands in for. */
  function ToDrop(n: Names): set<string> {
    n.desired - n.live - n.volumes
  }

  /** Claims preserved although nobody asks for them any more. */
  function ToRestore(n: Names): set<string> {
    n.live - n.desired
  }

  predicate AllUniquePaths(cs: seq<Container>) {
    forall i :: 0 <= i < |cs| ==> UniquePaths(cs[i].mounts)
  }

  /** A template as the API server takes it. */
  predicate WellFormed(cs: seq<Container>) {
    UniqueNames(cs) && AllUniquePaths(cs)
  }

  lemma MountsOfUnique(cs: seq<Container>, name: string)
    requires AllUniquePaths(cs)
    ensures UniquePaths(MountsOf(cs, name))
  {
  }

  /** Exactly which mounts a container ends up with. */
  predicate Belongs(c: Container, live: seq<Container>, n: Names, m: Mount) {
    || (m in c.mounts && m.name !in ToDrop(n))
    || (&& m in MountsOf(live, c.name)
        && m.name in ToRestore(n)
        && PathFree(c.mounts, n, m.path))
  }

  /** No mount the container keeps uses the path. */
  predicate PathFree(mounts: seq<Mount>, n: Names, path: string) {
    forall i :: 0 <= i < |mounts| && mounts[i].name !in ToDrop(n) ==> mounts[i].path != path
  }

  lemma PathFreeOfKept(mounts: seq<Mount>, dropped: seq<string>, n: Names, path: string)
    requires Lists(dropped, ToDrop(n))
    ensures PathFree(mounts, n, path) <==> !MountsPath(WithoutAll(mounts, dropped), path)
  {
    var kept := WithoutAll(mounts, dropped);
    if MountsPath(kept, path) {
      var i :| 0 <= i < |kept| && kept[i].path == path;
      assert kept[i] in kept;
      var j :| 0 <= j < |mounts| && mounts[j] == kept[i];
      assert mounts[j].name !in ToDrop(n);
    }
    if !PathFree(mounts, n, path) {
      var i :| 0 <= i < |mounts| && mounts[i].name !in ToDrop(n) && mounts[i].path == path;
      assert mounts[i] in mounts;
      PathOf(kept, mounts[i]);
    }
  }

  /** A merge of well-formed templates gives every container exactly the mounts that belong to it, each
      at a path of its own. */
  lemma MergedExactly(desired: seq<Container>, live: seq<Container>, n: Names, dropped: seq<string>, restored: seq<string>, i: nat, m: Mount)
    requires WellFormed(desired) && WellFormed(live) && i < |desired|
    requires Lists(dropped, ToDrop(n)) && Lists(restored, ToRestore(n))
    ensures var c := Merged(desired, live, dropped, restored)[i];
      && c == desired[i].(mounts := c.mounts)
      && UniquePaths(c.mounts)
      && (m in c.mounts <==> Belongs(desired[i], live, n, m))
  {
    MergedAt(desired, live, dropped, restored, i);
    var kept, from := WithoutAll(desired[i].mounts, dropped), MountsOf(live, desired[i].name);
    MountsOfUnique(live, desired[i].name);
    WithoutAllUnique(desired[i].mounts, dropped);
    RestoredAllUnique(kept, from, restored);
    RestoredAllMembers(kept, from, restored, m);
    PathFreeOfKept(desired[i].mounts, dropped, n, m.path);
  }

  // ---------------------------------------------------------------------------------------------
  // Coherence
  // ---------------------------------------------------------------------------------------------

  /** Every mount of the containers names one of these. */
  predicate MountOnly(cs: seq<Container>, names: set<string>) {
    forall i, m :: 0 <= i < |cs| && m in cs[i].mounts ==> m.name in names
  }

  lemma {:induction false} MergedUniqueNames(desired: seq<Container>, live: seq<Container>, n: Names, dropped: seq<string>, restored: seq<string>)
    requires WellFormed(desired) && WellFormed(live)
    requires Lists(dropped, ToDrop(n)) && Lists(restored, ToRestore(n))
    ensures WellFormed(Merged(desired, live, dropped, restored))
  {
    var merged := Merged(desired, live, dropped, restored);
    forall i | 0 <= i < |merged|
      ensures merged[i].name == desired[i].name && UniquePaths(merged[i].mounts)
    {
      MergedExactly(desired, live, n, dropped, restored, i, Mount("", "", ""));
    }
  }

  /** The merged template mounts only volumes it declares and claims that exist, exactly when the
      desired one mounted only volumes, claims it asked for, and claims that exist. */
  lemma Coherent(desired: seq<Container>, live: seq<Container>, n: Names, dropped: seq<string>, restored: seq<string>)
    requires WellFormed(desired) && WellFormed(live)
    requires Lists(dropped, ToDrop(n)) && Lists(restored, ToRestore(n))
    ensures MountOnly(Merged(desired, live, dropped, restored), n.volumes + n.live) <==>
            MountOnly(desired, n.volumes + n.desired + n.live)
  {
    var merged := Merged(desired, live, dropped, restored);
    if MountOnly(desired, n.volumes + n.desired + n.live) {
      forall i, m | 0 <= i < |merged| && m in merged[i].mounts
        ensures m.name in n.volumes + n.live
      {
        MergedExactly(desired, live, n, dropped, restored, i, m);
      }
    } else {
      var i, m :| 0 <= i < |desired| && m in desired[i].mounts && m.name !in n.volumes + n.desired + n.live;
      MergedExactly(desired, live, n, dropped, restored, i, m);
    }
  }

  lemma FindSelf(cs: seq<Container>, i: nat)
    requires UniqueNames(cs) && i < |cs|
    ensures Find(cs, cs[i].name) == Some(i)
  {
    var found := Find(cs, cs[i].name);
    assert found.Some? && cs[found.value].name == cs[i].name;
  }

  /** Every live mount of a preserved claim survives if its container does and its path is free. */
  lemma KeepsPreserved(desired: seq<Container>, live: seq<Container>, n: Names, dropped: seq<string>, restored: seq<string>,
                       i: nat, j: nat, m: Mount)
    requires WellFormed(desired) && WellFormed(live)
    requires Lists(dropped, ToDrop(n)) && Lists(restored, ToRestore(n))
    requires i < |desired| && j < |live| && desired[i].name == live[j].name && m in live[j].mounts
    requires m.name in ToRestore(n) && PathFree(desired[i].mounts, n, m.path)
    ensures m in Merged(desired, live, dropped, restored)[i].mounts
  {
    FindSelf(live, j);
    MergedExactly(desired, live, n, dropped, restored, i, m);
  }

  // ---------------------------------------------------------------------------------------------
  // Order and repetition
  // ---------------------------------------------------------------------------------------------

  lemma {:induction false} CountedOnce(mounts: seq<Mount>, m: Mount)
    requires UniquePaths(mounts)
    ensures multiset(mounts)[m] == if m in mounts then 1 else 0
  {
    if mounts != [] {
      assert mounts == [mounts[0]] + mounts[1..];
      CountedOnce(mounts[1..], m);
      assert forall j :: 0 <= j < |mounts[1..]| ==> mounts[1..][j].path != mounts[0].path;
    }
  }

  lemma SameMounts(a: seq<Mount>, b: seq<Mount>)
    requires UniquePaths(a) && UniquePaths(b) && (forall m :: m in a <==> m in b)
    ensures multiset(a) == multiset(b)
  {
    forall m
      ensures multiset(a)[m] == multiset(b)[m]
    {
      CountedOnce(a, m);
      CountedOnce(b, m);
    }
  }

  /** Equal but for the order of the mounts. */
  predicate SameButOrder(a: Container, b: Container) {
    b == a.(mounts := b.mounts) && multiset(a.mounts) == multiset(b.mounts)
  }

  predicate AllSameButOrder(a: seq<Container>, b: seq<Container>) {
    |a| == |b| && forall i :: 0 <= i < |a| ==> SameButOrder(a[i], b[i])
  }

  /** The order in which the claims are visited makes no difference but to the order of the mounts. */
  lemma {:induction false} AnyOrder(desired: seq<Container>, live: seq<Container>, n: Names,
                 dropped: seq<string>, restored: seq<string>, dropped': seq<string>, restored': seq<string>)
    requires WellFormed(desired) && WellFormed(live)
    requires Lists(dropped, ToDrop(n)) && Lists(restored, ToRestore(n))
    requires Lists(dropped', ToDrop(n)) && Lists(restored', ToRestore(n))
    ensures AllSameButOrder(Merged(desired, live, dropped, restored), Merged(desired, live, dropped', restored'))
  {
    var a, b := Merged(desired, live, dropped, restored), Merged(desired, live, dropped', restored');
    forall i | 0 <= i < |a|
      ensures SameButOrder(a[i], b[i])
    {
      forall m
        ensures m in a[i].mounts <==> m in b[i].mounts
        ensures UniquePaths(a[i].mounts) && UniquePaths(b[i].mounts)
        ensures b[i] == a[i].(mounts := b[i].mounts)
      {
        MergedExactly(desired, live, n, dropped, restored, i, m);
        MergedExactly(desired, live, n, dropped', restored', i, m);
      }
      MergedExactly(desired, live, n, dropped, restored, i, Mount("", "", ""));
      MergedExactly(desired, live, n, dropped', restored', i, Mount("", "", ""));
      SameMounts(a[i].mounts, b[i].mounts);
    }
  }

  /** Applying the same template again to its own result changes nothing but the order of mounts. */
  lemma AppliedTwice(desired: seq<Container>, live: seq<Container>, n: Names,
                     dropped: seq<string>, restored: seq<string>, dropped': seq<string>, restored': seq<string>)
    requires WellFormed(desired) && WellFormed(live)
    requires Lists(dropped, ToDrop(n)) && Lists(restored, ToRestore(n))
    requires Lists(dropped', ToDrop(n)) && Lists(restored', ToRestore(n))
    ensures var once := Merged(desired, live, dropped, restored);
      AllSameButOrder(once, Merged(desired, once, dropped', restored'))
  {
    var once := Merged(desired, live, dropped, restored);
    MergedUniqueNames(desired, live, n, dropped, restored);
    var twice := Merged(desired, once, dropped', restored');
    forall i | 0 <= i < |once|
      ensures SameButOrder(once[i], twice[i])
    {
      MergedExactly(desired, live, n, dropped, restored, i, Mount("", "", ""));
      MergedExactly(desired, once, n, dropped', restored', i, Mount("", "", ""));
      FindSelf(once, i);
      forall m
        ensures m in once[i].mounts <==> m in twice[i].mounts
      {
        MergedExactly(desired, live, n, dropped, restored, i, m);
        MergedExactly(desired, once, n, dropped', restored', i, m);
      }
      SameMounts(once[i].mounts, twice[i].mounts);
    }
  }
}
