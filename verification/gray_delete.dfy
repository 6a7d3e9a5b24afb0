/**
 The gray-delete marks: one time stamp, written on every primary resource of a role group, from
 which the grace period of its teardown is counted.
 */
module GrayDelete {
  import opened Wrappers
  import opened ApiServer
  import opened Teardown

  ghost function PrimaryScope(name: string): iset<Key> {
    iset{Key(StatefulSet, name), Key(ConfigMap, name)}
  }

  function At1(s: Store, key: Key): seq<Obj> {
    if key in s then [s[key]] else []
  }

  /** The primary resources that exist, the preferred one first. */
  function PrimariesIn(s: Store, name: string): seq<Obj> {
    At1(s, Key(StatefulSet, name)) + At1(s, Key(ConfigMap, name))
  }

  /** The first mark that parses. */
  function MarkOf(primaries: seq<Obj>): Option<int> {
    if primaries == [] then None
    else if primaries[0].pending.Some? && primaries[0].pending.value.At? then Some(primaries[0].pending.value.second)
    else MarkOf(primaries[1..])
  }

  /** The mark of the first primary whose mark parses, and none exactly if none does. */
  lemma {:induction false} FirstMark(primaries: seq<Obj>, second: int)
    ensures MarkOf(primaries) == Some(second) <==> exists i :: FirstMarkAt(primaries, second, i)
    ensures MarkOf(primaries).None? <==>
      forall i :: 0 <= i < |primaries| ==> primaries[i].pending.None? || !primaries[i].pending.value.At?
  {
    if primaries != [] {
      var rest := primaries[1..];
      FirstMark(rest, second);
      if MarkOf(rest) == Some(second) && (primaries[0].pending.None? || !primaries[0].pending.value.At?) {
        var i :| FirstMarkAt(rest, second, i);
        assert FirstMarkAt(primaries, second, i + 1);
      }
      forall i | FirstMarkAt(primaries, second, i)
        ensures i == 0 || FirstMarkAt(rest, second, i - 1)
      {
      }
      assert primaries[0].pending == Some(At(second)) ==> FirstMarkAt(primaries, second, 0);
      assert forall i :: 1 <= i < |primaries| ==> primaries[i] == rest[i - 1];
    }
  }

  predicate FirstMarkAt(primaries: seq<Obj>, second: int, i: int) {
    && 0 <= i < |primaries|
    && primaries[i].pending == Some(At(second))
    && forall j :: 0 <= j < i ==> primaries[j].pending.None? || !primaries[j].pending.value.At?
  }

  ghost predicate HasMark(s: Store, key: Key, second: int) {
    key in s ==> s[key].pending == Some(At(second))
  }

  /** Every primary that exists carries the mark `second`. */
  ghost predicate MarkedAll(s: Store, name: string, second: int) {
    HasMark(s, Key(StatefulSet, name), second) && HasMark(s, Key(ConfigMap, name), second)
  }

  ghost predicate NoForeignPrimary(s: Store, name: string, uid: string) {
    && (Key(StatefulSet, name) in s ==> IsOwned(s[Key(StatefulSet, name)], uid))
    && (Key(ConfigMap, name) in s ==> IsOwned(s[Key(ConfigMap, name)], uid))
  }

  ghost predicate NoOwnedPrimary(s: Store, name: string, uid: string) {
    !OwnedAt(s, Key(StatefulSet, name), uid) && !OwnedAt(s, Key(ConfigMap, name), uid)
  }

  ghost predicate ForeignAt(s: Store, key: Key, uid: string) {
    key in s && !s[key].deleting && !IsOwned(s[key], uid)
  }

  /** A primary of this name is somebody else's, and nobody has begun to delete it. */
  ghost predicate ForeignStands(s: Store, name: string, uid: string) {
    ForeignAt(s, Key(StatefulSet, name), uid) || ForeignAt(s, Key(ConfigMap, name), uid)
  }

  ghost predicate NoPrimary(s: Store, name: string) {
    Key(StatefulSet, name) !in s && Key(ConfigMap, name) !in s
  }

  function CountWithout(primaries: seq<Obj>, mark: Option<int>): nat {
    if primaries == [] then 0
    else (if mark.Some? && primaries[0].pending == Some(At(mark.value)) then 0 else 1) + CountWithout(primaries[1..], mark)
  }

  /** How many primaries still have to be given the mark of this teardown. */
  ghost function Unmarked(s: Store, name: string): nat {
    CountWithout(PrimariesIn(s, name), MarkOf(PrimariesIn(s, name)))
  }

  lemma OneOf(o: Obj, mark: Option<int>)
    ensures MarkOf([o]) == if o.pending.Some? && o.pending.value.At? then Some(o.pending.value.second) else None
    ensures CountWithout([o], mark) == if mark.Some? && o.pending == Some(At(mark.value)) then 0 else 1
  {
    assert [o][1..] == [];
  }

  lemma UnmarkedCases(s: Store, name: string)
    ensures var a, b := Key(StatefulSet, name), Key(ConfigMap, name);
      && MarkOf(PrimariesIn(s, name)) ==
           (if a in s && s[a].pending.Some? && s[a].pending.value.At? then Some(s[a].pending.value.second)
            else if b in s && s[b].pending.Some? && s[b].pending.value.At? then Some(s[b].pending.value.second)
            else None)
      && Unmarked(s, name) ==
           (var mark := MarkOf(PrimariesIn(s, name));
            (if a in s && (mark.None? || s[a].pending != Some(At(mark.value))) then 1 else 0) +
            (if b in s && (mark.None? || s[b].pending != Some(At(mark.value))) then 1 else 0))
  {
    var a, b := Key(StatefulSet, name), Key(ConfigMap, name);
    var p := PrimariesIn(s, name);
    if a in s && b in s {
      assert p == [s[a], s[b]] && p[1..] == [s[b]];
      OneOf(s[b], MarkOf(p));
    } else if a in s {
      assert p == [s[a]];
      OneOf(s[a], MarkOf(p));
    } else if b in s {
      assert p == [s[b]];
      OneOf(s[b], MarkOf(p));
    } else {
      assert p == [];
    }
  }

  lemma MarkedAllCounts(s: Store, name: string, second: int)
    requires MarkedAll(s, name, second)
    ensures Unmarked(s, name) == 0
  {
    UnmarkedCases(s, name);
  }

  lemma UnmarkedShrinks(s: Store, s': Store, name: string)
    requires StoreAged(s, s') && MarksKept(s, s')
    ensures Unmarked(s', name) <= Unmarked(s, name)
  {
    UnmarkedCases(s, name);
    UnmarkedCases(s', name);
    assert AgedAt(s, s', Key(StatefulSet, name)) && MarkKeptAt(s, s', Key(StatefulSet, name));
    assert AgedAt(s, s', Key(ConfigMap, name)) && MarkKeptAt(s, s', Key(ConfigMap, name));
  }

  // ---------------------------------------------------------------------------------------------
  // The grace period over a whole teardown
  // ---------------------------------------------------------------------------------------------

  /** The grace period, short of the second the stamps cannot express, has passed since `since`. */
  predicate Waited(now: int, since: int, grace: int) {
    now - since > grace - SECOND
  }

  ghost predicate NotBefore(s: Store, key: Key, since: int) {
    key in s && s[key].pending.Some? && s[key].pending.value.At? ==> (s[key].pending.value.second + 1) * SECOND > since
  }

  /** The teardown has not deleted a primary yet, and no mark on one dates from before `since`. */
  ghost predicate Unripe(s: Store, name: string, uid: string, since: int) {
    var a, b := Key(StatefulSet, name), Key(ConfigMap, name);
    && ((a in s && !s[a].deleting) || (b in s && !s[b].deleting))
    && NoForeignPrimary(s, name, uid)
    && NotBefore(s, a, since)
    && NotBefore(s, b, since)
  }

  /** What holds of a role group first seen orphaned at `since`, as long as it stays orphaned. */
  ghost predicate InGrace(w: World, name: string, uid: string, since: int, grace: int) {
    since <= w.now && (Waited(w.now, since, grace) || Unripe(w.store, name, uid, since))
  }

  /** The object got a mark at most; for the rest only the environment acted. */
  ghost predicate OnlyMarked(o: Obj, o': Obj) {
    o' == o.(version := o'.version, statusReplicas := o'.statusReplicas, finalizers := o'.finalizers, pending := o'.pending)
  }

  ghost predicate OnlyMarkedAt(s: Store, s': Store, key: Key) {
    key in s' ==> key in s && OnlyMarked(s[key], s'[key])
  }

  /** Neither primary is scaled, drained or deleted: nothing is written to them but marks. */
  ghost predicate OnlyMarks(s: Store, s': Store, name: string) {
    OnlyMarkedAt(s, s', Key(StatefulSet, name)) && OnlyMarkedAt(s, s', Key(ConfigMap, name))
  }

  /** An object of somebody else is left to the environment. */
  ghost predicate ForeignSparedAt(s: Store, s': Store, uid: string, key: Key) {
    key in s && !IsOwned(s[key], uid) ==> DriftedAt(s, s', key)
  }

  /** Until the grace period counted from `since` is over, the primaries are left as they were. */
  ghost predicate Spared(w: World, w': World, name: string, since: int, grace: int) {
    Waited(w'.now, since, grace) || OnlyMarks(w.store, w'.store, name)
  }

  /** Whatever happens outside the two primaries spares them. */
  lemma SparedElsewhere(a: World, b: World, c: World, scope: iset<Key>, name: string, since: int, grace: int)
    requires Spared(a, b, name, since, grace) && b.now <= c.now && Confined(b, c, scope) && scope !! PrimaryScope(name)
    ensures Spared(a, c, name, since, grace)
  {
    assert Key(StatefulSet, name) in PrimaryScope(name) && Key(ConfigMap, name) in PrimaryScope(name);
    assert ConfinedAt(b.store, c.store, scope, Key(StatefulSet, name));
    assert ConfinedAt(b.store, c.store, scope, Key(ConfigMap, name));
  }

  lemma UnripeDrifts(w: World, w': World, name: string, uid: string, since: int)
    requires Drifts(w, w') && Unripe(w.store, name, uid, since)
    ensures Unripe(w'.store, name, uid, since)
  {
    assert DriftedAt(w.store, w'.store, Key(StatefulSet, name)) && DriftedAt(w.store, w'.store, Key(ConfigMap, name));
  }

  /** Whatever happens outside the two primaries leaves the grace period running. */
  lemma InGraceElsewhere(w: World, w': World, scope: iset<Key>, name: string, uid: string, since: int, grace: int)
    requires InGrace(w, name, uid, since, grace) && w.now <= w'.now && Confined(w, w', scope)
    requires scope !! PrimaryScope(name)
    ensures InGrace(w', name, uid, since, grace)
  {
    assert Key(StatefulSet, name) in PrimaryScope(name) && Key(ConfigMap, name) in PrimaryScope(name);
    assert ConfinedAt(w.store, w'.store, scope, Key(StatefulSet, name));
    assert ConfinedAt(w.store, w'.store, scope, Key(ConfigMap, name));
  }

  /** What the environment leaves as it was. */
  lemma DriftMarks(w: World, w': World, name: string, uid: string, since: int, second: int)
    requires Drifts(w, w')
    ensures Unmarked(w'.store, name) <= Unmarked(w.store, name)
    ensures MarkedAll(w.store, name, second) ==> MarkedAll(w'.store, name, second)
    ensures Unripe(w.store, name, uid, since) ==> Unripe(w'.store, name, uid, since)
    ensures OnlyMarks(w.store, w'.store, name)
  {
    DriftQuiet(w, w', PrimaryScope(name));
    UnmarkedShrinks(w.store, w'.store, name);
    assert DriftedAt(w.store, w'.store, Key(StatefulSet, name)) && DriftedAt(w.store, w'.store, Key(ConfigMap, name));
    if Unripe(w.store, name, uid, since) {
      UnripeDrifts(w, w', name, uid, since);
    }
  }

  lemma UnripePut(w: World, key: Key, second: int, name: string, uid: string, since: int)
    requires key in w.store && key in PrimaryScope(name) && Unripe(w.store, name, uid, since)
    requires (second + 1) * SECOND > since
    ensures Unripe(Put(w, key, w.store[key].(pending := Some(At(second)))).store, name, uid, since)
  {
  }

  lemma MarkedAllPut(w: World, key: Key, second: int, name: string)
    requires key in w.store && MarkedAll(w.store, name, second)
    ensures MarkedAll(Put(w, key, w.store[key].(pending := Some(At(second)))).store, name, second)
  {
  }

  /** Go's Duration.Round to whole seconds: halves go away from zero. */
  function RoundToSecond(d: int): (r: int)
    ensures r % SECOND == 0
    ensures -SECOND <= 2 * (r - d) <= SECOND
    ensures r > -SECOND <==> 2 * d > -SECOND
  {
    if d >= 0 then SecondsIn(d + SECOND / 2) * SECOND else -(SecondsIn(-d + SECOND / 2) * SECOND)
  }

  /** The wakeup asked for at `until` never comes before the deadline, and it is positive exactly as long
      as the deadline is not half a second past. */
  lemma WakeupIsNotEarly(deadline: int, until: int)
    ensures until + (RoundToSecond(deadline - until) + SECOND) >= deadline
    ensures RoundToSecond(deadline - until) + SECOND > 0 <==> 2 * (until - deadline) < SECOND
  {
  }

  /** A clock that jumps a second between its two readings turns the wakeup off. */
  lemma WakeupCanVanish(deadline: int)
    ensures RoundToSecond(deadline - (deadline + SECOND)) + SECOND == 0
  {
    assert RoundToSecond(-SECOND) % SECOND == 0;
  }

  function SecondsIn(d: nat): (n: nat)
    ensures n * SECOND <= d < (n + 1) * SECOND
  {
    d / SECOND
  }

  // ---------------------------------------------------------------------------------------------
  // The gate
  // ---------------------------------------------------------------------------------------------

  /** Every primary that is left carries a mark that is old enough: the gate is open. */
  ghost predicate Ripe(w: World, name: string, second: int, grace: int) {
    MarkedAll(w.store, name, second) && w.now - second * SECOND >= grace
  }

  ghost predicate RipeKept(w: World, w': World, name: string, second: int, grace: int) {
    Ripe(w, name, second, grace) ==> Ripe(w', name, second, grace)
  }

  /** A gate that was open is still open. */
  ghost predicate GateKept(w: World, w': World, name: string, grace: int) {
    forall second :: RipeKept(w, w', name, second, grace)
  }

  lemma GateKeptTransitive(a: World, b: World, c: World, name: string, grace: int)
    requires GateKept(a, b, name, grace) && GateKept(b, c, name, grace)
    ensures GateKept(a, c, name, grace)
  {
    forall second
      ensures RipeKept(a, c, name, second, grace)
    {
      assert RipeKept(a, b, name, second, grace) && RipeKept(b, c, name, second, grace);
    }
  }

  /** As long as marks stay where they are, the gate stays open while the primaries disappear one after
      the other. */
  lemma GateStays(w: World, w': World, name: string, grace: int)
    requires w.now <= w'.now && StoreAged(w.store, w'.store) && MarksKept(w.store, w'.store)
    ensures GateKept(w, w', name, grace)
  {
    var a, b := Key(StatefulSet, name), Key(ConfigMap, name);
    assert AgedAt(w.store, w'.store, a) && MarkKeptAt(w.store, w'.store, a);
    assert AgedAt(w.store, w'.store, b) && MarkKeptAt(w.store, w'.store, b);
    forall second
      ensures RipeKept(w, w', name, second, grace)
    {
    }
  }

  lemma GateStaysElsewhere(w: World, w': World, scope: iset<Key>, name: string, grace: int)
    requires w.now <= w'.now && Confined(w, w', scope) && scope !! PrimaryScope(name)
    ensures GateKept(w, w', name, grace)
  {
    var a, b := Key(StatefulSet, name), Key(ConfigMap, name);
    assert a in PrimaryScope(name) && b in PrimaryScope(name);
    assert ConfinedAt(w.store, w'.store, scope, a) && ConfinedAt(w.store, w'.store, scope, b);
    forall second
      ensures RipeKept(w, w', name, second, grace)
    {
    }
  }

  // ---------------------------------------------------------------------------------------------
  // What one reading of the primaries tells
  // ---------------------------------------------------------------------------------------------

  /** `read` is what the key held at some moment between `s` and `s'`. */
  ghost predicate ReadAs(s: Store, s': Store, key: Key, read: Option<Obj>) {
    match read
    case None => key !in s' && (key in s ==> s[key].deleting)
    case Some(o) => key in s && Drifted(s[key], o) && (key in s' ==> Drifted(o, s'[key]))
  }

  function Opt(o: Option<Obj>): seq<Obj> {
    if o.Some? then [o.value] else []
  }

  lemma ReadingTells(s: Store, s': Store, sts: Option<Obj>, cm: Option<Obj>, name: string, uid: string, since: int)
    requires ReadAs(s, s', Key(StatefulSet, name), sts) && ReadAs(s, s', Key(ConfigMap, name), cm)
    ensures var found := Opt(sts) + Opt(cm);
      && (found == [] ==> NoPrimary(s', name) && !Unripe(s, name, uid, since))
      && (NoForeignPrimary(s, name, uid) ==> forall o :: o in found ==> IsOwned(o, uid))
      && (NoOwnedPrimary(s, name, uid) ==> forall o :: o in found ==> !IsOwned(o, uid))
      && (found != [] && MarkOf(found).None? ==> Unmarked(s, name) > 0)
      && (Unripe(s, name, uid, since) && MarkOf(found).Some? ==> (MarkOf(found).value + 1) * SECOND > since)
      && (forall second :: MarkedAll(s, name, second) && found != [] ==> MarkOf(found) == Some(second))
  {
    var found := Opt(sts) + Opt(cm);
    UnmarkedCases(s, name);
    if sts.Some? && cm.Some? {
      assert found == [sts.value, cm.value] && found[1..] == [cm.value];
      OneOf(cm.value, None);
    } else if sts.Some? {
      assert found == [sts.value];
      OneOf(sts.value, None);
    } else if cm.Some? {
      assert found == [cm.value];
      OneOf(cm.value, None);
    } else {
      assert found == [];
    }
  }

  /** A foreign primary that stands is read, and one that was not read is not there. */
  lemma ReadingFindsForeign(s: Store, s': Store, sts: Option<Obj>, cm: Option<Obj>, name: string, uid: string)
    requires ReadAs(s, s', Key(StatefulSet, name), sts) && ReadAs(s, s', Key(ConfigMap, name), cm)
    ensures var found := Opt(sts) + Opt(cm);
      && (ForeignStands(s, name, uid) ==> exists o :: o in found && !IsOwned(o, uid))
      && ((forall o :: o in found ==> IsOwned(o, uid)) ==> NoForeignPrimary(s', name, uid))
  {
    var found := Opt(sts) + Opt(cm);
    assert sts.Some? ==> found[0] == sts.value && sts.value in found;
    assert cm.Some? ==> found[|found| - 1] == cm.value && cm.value in found;
  }

  ghost predicate MarkedVersion(w: World, key: Key, o: Obj, second: int) {
    (key, o) in w.seen && o.pending == Some(At(second))
  }

  /** A primary of this group was seen to carry the mark `second`. */
  ghost predicate MarkSeen(w: World, name: string, second: int) {
    exists k, o :: k in PrimaryScope(name) && MarkedVersion(w, k, o, second)
  }

  lemma MarkSeenLater(w: World, w': World, name: string, second: int)
    requires MarkSeen(w, name, second) && w.seen <= w'.seen
    ensures MarkSeen(w', name, second)
  {
    var k, o :| k in PrimaryScope(name) && MarkedVersion(w, k, o, second);
    assert MarkedVersion(w', k, o, second);
  }
}
