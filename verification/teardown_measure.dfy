/** What the teardown of one role group decreases. */
module TeardownMeasure {
  // The measure counts how many objects of the role group exist, how many of them nobody has begun to
  // delete, how many are not scaled to zero, how many have no drain clock, and how many primaries lack
  // the mark of the teardown. Nothing that belongs to anybody else counts.

  import opened Wrappers
  import opened ApiServer
  import opened Teardown
  import opened GrayDelete

  function Relevant(s: Store, t: Target): set<Key> {
    set k | k in s && Belongs(t, k, s[k])
  }

  function Alive(s: Store, t: Target): set<Key> {
    set k | k in Relevant(s, t) && !s[k].deleting
  }

  function Unscaled(s: Store, t: Target): set<Key> {
    set k | k in Relevant(s, t) && s[k].specReplicas != Some(0)
  }

  function Unstamped(s: Store, t: Target): set<Key> {
    set k | k in Relevant(s, t) && !Stamped(s[k])
  }

  ghost function Measure(s: Store, t: Target): nat {
    |Relevant(s, t)| + |Alive(s, t)| + |Unscaled(s, t)| + |Unstamped(s, t)| + Unmarked(s, t.name)
  }

  lemma SubsetSizes<T>(a: set<T>, b: set<T>)
    requires a <= b
    ensures |a| <= |b|
    ensures a != b ==> |a| < |b|
  {
    assert b == a + (b - a);
    if a != b {
      assert b - a != {};
    }
  }

  // ---------------------------------------------------------------------------------------------
  // What the measure depends on
  // ---------------------------------------------------------------------------------------------

  ghost predicate OwnAgedAt(t: Target, s: Store, s': Store, k: Key) {
    BelongsAt(t, s', k) ==> BelongsAt(t, s, k) && Aged(s[k], s'[k])
  }

  /** The role group gained nothing, and what is left of it only got older. Anything may happen to other
      objects. */
  ghost predicate OwnAged(t: Target, s: Store, s': Store) {
    forall k :: OwnAgedAt(t, s, s', k)
  }

  lemma StoreAgedOwn(t: Target, s: Store, s': Store)
    requires StoreAged(s, s')
    ensures OwnAged(t, s, s') && NothingComes(t, s, s')
  {
    forall k
      ensures OwnAgedAt(t, s, s', k) && ComesAt(t, s, s', k)
    {
      assert AgedAt(s, s', k);
    }
  }

  ghost predicate ComesAt(t: Target, s: Store, s': Store, k: Key) {
    BelongsAt(t, s', k) ==> BelongsAt(t, s, k)
  }

  /** No object of the role group appeared. */
  ghost predicate NothingComes(t: Target, s: Store, s': Store) {
    forall k :: ComesAt(t, s, s', k)
  }

  ghost predicate RelevantDrainKept(s: Store, s': Store, t: Target, k: Key) {
    BelongsAt(t, s, k) && BelongsAt(t, s', k) && Stamped(s[k]) ==> s'[k].drain == s[k].drain
  }

  /** The drain clocks of the role group still run. */
  ghost predicate RelevantDrainsKept(s: Store, s': Store, t: Target) {
    forall k :: RelevantDrainKept(s, s', t, k)
  }

  lemma AllDrainsKept(s: Store, s': Store, t: Target)
    requires DrainsKept(s, s')
    ensures RelevantDrainsKept(s, s', t)
  {
    forall k
      ensures RelevantDrainKept(s, s', t, k)
    {
      assert DrainKeptAt(s, s', k);
    }
  }

  lemma RelevantDrainsTransitive(a: Store, b: Store, c: Store, t: Target)
    requires OwnAged(t, b, c) && RelevantDrainsKept(a, b, t) && RelevantDrainsKept(b, c, t)
    ensures RelevantDrainsKept(a, c, t)
  {
    forall k
      ensures RelevantDrainKept(a, c, t, k)
    {
      assert OwnAgedAt(t, b, c, k) && RelevantDrainKept(a, b, t, k) && RelevantDrainKept(b, c, t, k);
    }
  }

  /** Time alone never increases the measure, and any irreversible change of an object of the role group
      decreases it. */
  lemma MeasureDecreases(s: Store, s': Store, t: Target)
    requires OwnAged(t, s, s') && RelevantDrainsKept(s, s', t) && Unmarked(s', t.name) <= Unmarked(s, t.name)
    ensures Measure(s', t) <= Measure(s, t)
    ensures Advanced(t, s, s') || Unmarked(s', t.name) < Unmarked(s, t.name) ==> Measure(s', t) < Measure(s, t)
  {
    forall k | k in Relevant(s', t)
      ensures k in Relevant(s, t) && Aged(s[k], s'[k]) && (Stamped(s[k]) ==> Stamped(s'[k]))
    {
      assert OwnAgedAt(t, s, s', k) && RelevantDrainKept(s, s', t, k);
    }
    SubsetSizes(Relevant(s', t), Relevant(s, t));
    SubsetSizes(Alive(s', t), Alive(s, t));
    SubsetSizes(Unscaled(s', t), Unscaled(s, t));
    SubsetSizes(Unstamped(s', t), Unstamped(s, t));
    if Advanced(t, s, s') {
      var k :| ImprovedFor(t, s, s', k);
      assert k in Relevant(s, t);
      if k in Relevant(s', t) {
        if !s[k].deleting && s'[k].deleting {
          assert k in Alive(s, t) && k !in Alive(s', t);
        } else if s[k].specReplicas != Some(0) && s'[k].specReplicas == Some(0) {
          assert k in Unscaled(s, t) && k !in Unscaled(s', t);
        } else {
          assert k in Unstamped(s, t) && k !in Unstamped(s', t);
        }
      }
    }
  }

  /** A derived Service that is no longer the role group's own does not count any more. */
  lemma MeasureShrinks(s: Store, t: Target, less: Target)
    requires less == t.(derived := less.derived) && less.derived <= t.derived
    ensures Measure(s, less) <= Measure(s, t)
  {
    SubsetSizes(Relevant(s, less), Relevant(s, t));
    SubsetSizes(Alive(s, less), Alive(s, t));
    SubsetSizes(Unscaled(s, less), Unscaled(s, t));
    SubsetSizes(Unstamped(s, less), Unstamped(s, t));
  }

  // ---------------------------------------------------------------------------------------------
  // Losing no ground
  // ---------------------------------------------------------------------------------------------

  /** The teardown of the role group loses no ground. */
  ghost predicate Held(s: Store, s': Store, t: Target) {
    && RelevantDrainsKept(s, s', t)
    && Unmarked(s', t.name) <= Unmarked(s, t.name)
    && Measure(s', t) <= Measure(s, t)
  }

  ghost predicate PrimariesDrift(s: Store, s': Store, name: string) {
    DriftedAt(s, s', Key(StatefulSet, name)) && DriftedAt(s, s', Key(ConfigMap, name))
  }

  lemma PrimariesDriftElsewhere(w: World, w': World, scope: iset<Key>, name: string)
    requires Confined(w, w', scope) && scope !! PrimaryScope(name)
    ensures PrimariesDrift(w.store, w'.store, name)
  {
    var a, b := Key(StatefulSet, name), Key(ConfigMap, name);
    assert a in PrimaryScope(name) && b in PrimaryScope(name);
    assert ConfinedAt(w.store, w'.store, scope, a) && ConfinedAt(w.store, w'.store, scope, b);
  }

  /** As long as only the environment touches the two primaries of the role group and its drain clocks
      run, its teardown loses no ground. */
  lemma HeldWhileDrifting(s: Store, s': Store, t: Target)
    requires OwnAged(t, s, s') && RelevantDrainsKept(s, s', t) && PrimariesDrift(s, s', t.name)
    ensures Held(s, s', t)
    ensures Advanced(t, s, s') ==> Measure(s', t) < Measure(s, t)
  {
    UnmarkedCases(s, t.name);
    UnmarkedCases(s', t.name);
    MeasureDecreases(s, s', t);
  }

  ghost predicate OwnDriftedAt(t: Target, s: Store, s': Store, k: Key) {
    k in PrimaryScope(t.name) || BelongsAt(t, s, k) || BelongsAt(t, s', k) ==> DriftedAt(s, s', k)
  }

  /** Only the environment touches the objects of the role group and its two primaries. Anything may
      happen to other objects. */
  ghost predicate OwnDrifts(t: Target, s: Store, s': Store) {
    forall k :: OwnDriftedAt(t, s, s', k)
  }

  lemma HeldWhileUndisturbed(s: Store, s': Store, t: Target)
    requires OwnDrifts(t, s, s')
    ensures Held(s, s', t)
  {
    forall k
      ensures OwnAgedAt(t, s, s', k) && RelevantDrainKept(s, s', t, k)
    {
      assert OwnDriftedAt(t, s, s', k);
    }
    assert Key(StatefulSet, t.name) in PrimaryScope(t.name) && Key(ConfigMap, t.name) in PrimaryScope(t.name);
    assert OwnDriftedAt(t, s, s', Key(StatefulSet, t.name)) && OwnDriftedAt(t, s, s', Key(ConfigMap, t.name));
    HeldWhileDrifting(s, s', t);
  }
}
