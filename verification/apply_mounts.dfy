/**
 How the volume mounts of a pod template are brought in line with the claim templates that survive an
 apply. The containers of a template are one list, init containers first.
 */
module ApplyMounts {
  import opened Wrappers

  datatype Mount = Mount(name: string, path: string, rest: string)

  datatype Container = Container(name: string, init: bool, mounts: seq<Mount>, rest: string)

  // ---------------------------------------------------------------------------------------------
  // One container
  // ---------------------------------------------------------------------------------------------

  predicate MountsPath(mounts: seq<Mount>, path: string) {
    exists i :: 0 <= i < |mounts| && mounts[i].path == path
  }

  /** The mounts of other volumes. */
  function Without(mounts: seq<Mount>, name: string): (kept: seq<Mount>)
    ensures forall m :: m in kept <==> m in mounts && m.name != name
  {
    if mounts == [] then []
    else (if mounts[0].name == name then [] else [mounts[0]]) + Without(mounts[1..], name)
  }

  function WithoutAll(mounts: seq<Mount>, names: seq<string>): (kept: seq<Mount>)
    ensures forall m :: m in kept <==> m in mounts && m.name !in names
    decreases |names|
  {
    if names == [] then mounts else WithoutAll(Without(mounts, names[0]), names[1..])
  }

  /** Adds every live mount of one volume whose path is still free. */
  function Restored(mounts: seq<Mount>, live: seq<Mount>, name: string): seq<Mount>
    decreases |live|
  {
    if live == [] then mounts
    else if live[0].name == name && !MountsPath(mounts, live[0].path) then Restored(mounts + [live[0]], live[1..], name)
    else Restored(mounts, live[1..], name)
  }

  function RestoredAll(mounts: seq<Mount>, live: seq<Mount>, names: seq<string>): seq<Mount>
    decreases |names|
  {
    if names == [] then mounts else RestoredAll(Restored(mounts, live, names[0]), live, names[1..])
  }

  predicate UniquePaths(mounts: seq<Mount>) {
    forall i, j :: 0 <= i < j < |mounts| ==> mounts[i].path != mounts[j].path
  }

  lemma {:induction false} WithoutUnique(mounts: seq<Mount>, name: string)
    requires UniquePaths(mounts)
    ensures UniquePaths(Without(mounts, name))
  {
    if mounts != [] {
      var rest := Without(mounts[1..], name);
      WithoutUnique(mounts[1..], name);
      forall i | 0 <= i < |rest|
        ensures rest[i].path != mounts[0].path
      {
        assert rest[i] in rest && rest[i] in mounts[1..];
      }
    }
  }

  lemma {:induction false} WithoutAllUnique(mounts: seq<Mount>, names: seq<string>)
    requires UniquePaths(mounts)
    ensures UniquePaths(WithoutAll(mounts, names))
    decreases |names|
  {
    if names != [] {
      WithoutUnique(mounts, names[0]);
      WithoutAllUnique(Without(mounts, names[0]), names[1..]);
    }
  }

  /** A live mount is wanted back when its volume is among the names and its path is free. */
  predicate Wanted(mounts: seq<Mount>, live: seq<Mount>, names: seq<string>, m: Mount) {
    m in live && m.name in names && !MountsPath(mounts, m.path)
  }

  lemma PathOf(mounts: seq<Mount>, m: Mount)
    requires m in mounts
    ensures MountsPath(mounts, m.path)
  {
  }

  lemma {:induction false} RestoredMembers(mounts: seq<Mount>, live: seq<Mount>, name: string, m: Mount)
    requires UniquePaths(live)
    ensures m in Restored(mounts, live, name) <==> m in mounts || Wanted(mounts, live, [name], m)
    decreases |live|
  {
    if live != [] {
      var next := if live[0].name == name && !MountsPath(mounts, live[0].path) then mounts + [live[0]] else mounts;
      RestoredMembers(next, live[1..], name, m);
      assert live == [live[0]] + live[1..];
      if m in live[1..] {
        var j :| 0 <= j < |live[1..]| && live[1..][j] == m;
        assert live[j + 1].path != live[0].path;
        PathAppend(mounts, live[0], m.path);
      }
    }
  }

  lemma PathAppend(mounts: seq<Mount>, m: Mount, path: string)
    ensures MountsPath(mounts + [m], path) <==> MountsPath(mounts, path) || m.path == path
  {
    assert (mounts + [m])[|mounts|] == m;
    if MountsPath(mounts, path) {
      var i :| 0 <= i < |mounts| && mounts[i].path == path;
      assert (mounts + [m])[i] == mounts[i];
    }
  }

  lemma {:induction false} RestoredUnique(mounts: seq<Mount>, live: seq<Mount>, name: string)
    requires UniquePaths(mounts)
    ensures UniquePaths(Restored(mounts, live, name))
    decreases |live|
  {
    if live != [] {
      if live[0].name == name && !MountsPath(mounts, live[0].path) {
        RestoredUnique(mounts + [live[0]], live[1..], name);
      } else {
        RestoredUnique(mounts, live[1..], name);
      }
    }
  }

  /** What restoring adds: exactly the wanted mounts, in whatever order the names are taken. */
  lemma {:induction false} RestoredAllMembers(mounts: seq<Mount>, live: seq<Mount>, names: seq<string>, m: Mount)
    requires UniquePaths(live)
    ensures m in RestoredAll(mounts, live, names) <==> m in mounts || Wanted(mounts, live, names, m)
    decreases |names|
  {
    if names != [] {
      var next := Restored(mounts, live, names[0]);
      RestoredAllMembers(next, live, names[1..], m);
      RestoredMembers(mounts, live, names[0], m);
      assert names == [names[0]] + names[1..];
      if m in live {
        RestoredPaths(mounts, live, names[0], m);
      }
    }
  }

  /** Restoring one volume takes the path of a live mount only for that mount itself. */
  lemma RestoredPaths(mounts: seq<Mount>, live: seq<Mount>, name: string, m: Mount)
    requires UniquePaths(live) && m in live
    ensures MountsPath(Restored(mounts, live, name), m.path) <==> MountsPath(mounts, m.path) || m.name == name
  {
    var next := Restored(mounts, live, name);
    RestoredMembers(mounts, live, name, m);
    if MountsPath(mounts, m.path) {
      var i :| 0 <= i < |mounts| && mounts[i].path == m.path;
      RestoredMembers(mounts, live, name, mounts[i]);
      PathOf(next, mounts[i]);
    } else if m.name == name {
      PathOf(next, m);
    } else if MountsPath(next, m.path) {
      var i :| 0 <= i < |next| && next[i].path == m.path;
      RestoredMembers(mounts, live, name, next[i]);
      if next[i] in mounts {
        PathOf(mounts, next[i]);
      } else {
        SamePath(live, next[i], m);
      }
    }
  }

  lemma SamePath(live: seq<Mount>, a: Mount, b: Mount)
    requires UniquePaths(live) && a in live && b in live && a.path == b.path
    ensures a == b
  {
    var i :| 0 <= i < |live| && live[i] == a;
    var j :| 0 <= j < |live| && live[j] == b;
    assert i < j || j < i || i == j;
  }

  lemma {:induction false} RestoredAllUnique(mounts: seq<Mount>, live: seq<Mount>, names: seq<string>)
    requires UniquePaths(mounts)
    ensures UniquePaths(RestoredAll(mounts, live, names))
    decreases |names|
  {
    if names != [] {
      RestoredUnique(mounts, live, names[0]);
      RestoredAllUnique(Restored(mounts, live, names[0]), live, names[1..]);
    }
  }

  // ---------------------------------------------------------------------------------------------
  // A whole template
  // ---------------------------------------------------------------------------------------------

  predicate UniqueNames(cs: seq<Container>) {
    forall i, j :: 0 <= i < j < |cs| ==> cs[i].name != cs[j].name
  }

  function Find(cs: seq<Container>, name: string): (index: Option<nat>)
    ensures index.Some? ==> index.value < |cs| && cs[index.value].name == name
    ensures index.None? ==> forall i :: 0 <= i < |cs| ==> cs[i].name != name
  {
    if cs == [] then None
    else if cs[0].name == name then Some(0)
    else
      match Find(cs[1..], name)
      case None => None
      case Some(i) => Some(i + 1)
  }

  /** The mounts of the container of that name, if there is one. */
  function MountsOf(cs: seq<Container>, name: string): seq<Mount> {
    match Find(cs, name)
    case None => []
    case Some(i) => cs[i].mounts
  }

  function Dropped(cs: seq<Container>, name: string): (r: seq<Container>)
    ensures |r| == |cs|
    ensures forall i :: 0 <= i < |cs| ==> r[i] == cs[i].(mounts := Without(cs[i].mounts, name))
  {
    if cs == [] then [] else [cs[0].(mounts := Without(cs[0].mounts, name))] + Dropped(cs[1..], name)
  }

  function DroppedAll(cs: seq<Container>, names: seq<string>): (r: seq<Container>)
    ensures |r| == |cs|
    ensures forall i :: 0 <= i < |cs| ==> r[i] == cs[i].(mounts := WithoutAll(cs[i].mounts, names))
    decreases |names|
  {
    if names == [] then cs else DroppedAll(Dropped(cs, names[0]), names[1..])
  }

  /** One live container's mounts of a volume go back to the container of the same name. */
  function RestoredFrom(cs: seq<Container>, from: Container, name: string): (r: seq<Container>)
    ensures |r| == |cs|
  {
    match Find(cs, from.name)
    case None => cs
    case Some(i) => cs[i := cs[i].(mounts := Restored(cs[i].mounts, from.mounts, name))]
  }

  function RestoredVolume(cs: seq<Container>, live: seq<Container>, name: string): (r: seq<Container>)
    ensures |r| == |cs|
    decreases |live|
  {
    if live == [] then cs else RestoredVolume(RestoredFrom(cs, live[0], name), live[1..], name)
  }

  function RestoredVolumes(cs: seq<Container>, live: seq<Container>, names: seq<string>): (r: seq<Container>)
    ensures |r| == |cs|
    decreases |names|
  {
    if names == [] then cs else RestoredVolumes(RestoredVolume(cs, live, names[0]), live, names[1..])
  }

  /** The containers of the merged template: mounts of claims that were not created are dropped, mounts
      of claims that were preserved are restored. */
  function Merged(desired: seq<Container>, live: seq<Container>, dropped: seq<string>, restored: seq<string>): (r: seq<Container>)
    ensures |r| == |desired|
  {
    RestoredVolumes(DroppedAll(desired, dropped), live, restored)
  }

  /** With unique names, restoring works container by container. */
  lemma {:induction false} RestoredVolumeAt(cs: seq<Container>, live: seq<Container>, name: string, i: nat)
    requires i < |cs| && UniqueNames(cs) && UniqueNames(live)
    ensures RestoredVolume(cs, live, name)[i] == cs[i].(mounts := Restored(cs[i].mounts, MountsOf(live, cs[i].name), name))
    decreases |live|
  {
    if live != [] {
      var next := RestoredFrom(cs, live[0], name);
      assert UniqueNames(next) && UniqueNames(live[1..]);
      RestoredVolumeAt(next, live[1..], name, i);
      if live[0].name == cs[i].name {
        assert Find(live[1..], cs[i].name).None?;
      }
    }
  }

  lemma {:induction false} RestoredVolumesAt(cs: seq<Container>, live: seq<Container>, names: seq<string>, i: nat)
    requires i < |cs| && UniqueNames(cs) && UniqueNames(live)
    ensures RestoredVolumes(cs, live, names)[i] ==
      cs[i].(mounts := RestoredAll(cs[i].mounts, MountsOf(live, cs[i].name), names))
    decreases |names|
  {
    if names != [] {
      var next := RestoredVolume(cs, live, names[0]);
      forall j | 0 <= j < |cs|
        ensures next[j] == cs[j].(mounts := Restored(cs[j].mounts, MountsOf(live, cs[j].name), names[0]))
      {
        RestoredVolumeAt(cs, live, names[0], j);
      }
      RestoredVolumesAt(next, live, names[1..], i);
    }
  }

  /** The mounts of one container of the merged template. */
  function MergedMounts(c: Container, live: seq<Container>, dropped: seq<string>, restored: seq<string>): seq<Mount> {
    RestoredAll(WithoutAll(c.mounts, dropped), MountsOf(live, c.name), restored)
  }

  lemma MergedAt(desired: seq<Container>, live: seq<Container>, dropped: seq<string>, restored: seq<string>, i: nat)
    requires i < |desired| && UniqueNames(desired) && UniqueNames(live)
    ensures Merged(desired, live, dropped, restored)[i] ==
      desired[i].(mounts := MergedMounts(desired[i], live, dropped, restored))
  {
    RestoredVolumesAt(DroppedAll(desired, dropped), live, restored, i);
  }
}
