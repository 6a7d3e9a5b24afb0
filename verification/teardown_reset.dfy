/**
 What a whole cleanup pass does to the store, and how it resets the teardown of a role group that is
 declared again.
 */
module TeardownReset {
  import opened Wrappers
  import opened ApiServer
  import opened Teardown
  import opened GrayDelete

  /** Nothing is created and no deletion is undone on the way from `w` to `w'`. Unlike in Leads, marks
      and drain clocks may have been taken away. */
  ghost predicate Evolves(w: World, w': World) {
    && w.now <= w'.now
    && w'.synced == w.synced
    && w.log <= w'.log
    && w.seen <= w'.seen
    && w.refused <= w'.refused
    && StoreAged(w.store, w'.store)
    && (NamesStable(w) ==> NamesStable(w'))
  }

  lemma EvolvesTransitive(a: World, b: World, c: World)
    requires Evolves(a, b) && Evolves(b, c)
    ensures Evolves(a, c)
  {
    StoreAgedTransitive(a.store, b.store, c.store);
  }

  /** Mark and drain clock are as they were or gone; for the rest only the environment acted. */
  ghost predicate OnlyProgress(o: Obj, o': Obj) {
    && o' == o.(version := o'.version, statusReplicas := o'.statusReplicas, finalizers := o'.finalizers,
                pending := o'.pending, drain := o'.drain)
    && (o'.pending == o.pending || o'.pending.None?)
    && (o'.drain == o.drain || o'.drain.None?)
  }

  /** Nothing but the progress of a teardown was taken away, and not even that from an object of somebody
      else. */
  ghost predicate WipedAt(s: Store, s': Store, uid: string, k: Key) {
    k in s' ==>
      && k in s
      && OnlyProgress(s[k], s'[k])
      && (IsOwned(s[k], uid) || (s'[k].pending == s[k].pending && s'[k].drain == s[k].drain))
  }

  /** Within `scope` the progress of a teardown was taken away, elsewhere only the environment acted. */
  ghost predicate Wipes(w: World, w': World, scope: iset<Key>, uid: string) {
    && Evolves(w, w')
    && w'.log == w.log
    && Confined(w, w', scope)
    && (forall k :: WipedAt(w.store, w'.store, uid, k))
  }

  lemma WipesTransitive(a: World, b: World, c: World, scope: iset<Key>, uid: string)
    requires Wipes(a, b, scope, uid) && Wipes(b, c, scope, uid)
    ensures Wipes(a, c, scope, uid)
  {
    EvolvesTransitive(a, b, c);
    ConfinedTransitive(a, b, c, scope);
    forall k
      ensures WipedAt(a.store, c.store, uid, k)
    {
      assert WipedAt(a.store, b.store, uid, k) && WipedAt(b.store, c.store, uid, k);
    }
  }

  lemma WipesWidens(a: World, b: World, scope: iset<Key>, wider: iset<Key>, uid: string)
    requires Wipes(a, b, scope, uid) && scope <= wider
    ensures Wipes(a, b, wider, uid)
  {
    ConfinedWidens(a, b, scope, wider);
  }

  lemma DriftWipes(w: World, w': World, scope: iset<Key>, uid: string)
    requires Drifts(w, w')
    ensures Wipes(w, w', scope, uid)
  {
    DriftQuiet(w, w', scope);
    forall k
      ensures WipedAt(w.store, w'.store, uid, k)
    {
      assert DriftedAt(w.store, w'.store, k);
    }
  }

  function Wiped(o: Obj): Obj {
    o.(pending := None, drain := None)
  }

  lemma PutWipes(w: World, key: Key, scope: iset<Key>, uid: string)
    requires Valid(w) && key in w.store && key in scope && IsOwned(w.store[key], uid)
    ensures Wipes(w, Put(w, key, Wiped(w.store[key])), scope, uid)
  {
    assert KeyValid(w, key) && VersionValid(w, key, w.store[key]);
    PutValid(w, key, Wiped(w.store[key]));
    var w' := Put(w, key, Wiped(w.store[key]));
    forall k
      ensures AgedAt(w.store, w'.store, k) && WipedAt(w.store, w'.store, uid, k) && ConfinedAt(w.store, w'.store, scope, k)
    {
    }
  }

  ghost predicate ClearedAt(s: Store, key: Key, uid: string) {
    OwnedAt(s, key, uid) ==> s[key].pending.None? && s[key].drain.None?
  }

  /** No owned primary of the group carries progress of an earlier teardown. */
  ghost predicate Cleared(s: Store, name: string, uid: string) {
    ClearedAt(s, Key(StatefulSet, name), uid) && ClearedAt(s, Key(ConfigMap, name), uid)
  }

  lemma ClearedStays(s: Store, s': Store, name: string, uid: string)
    requires WipedAt(s, s', uid, Key(StatefulSet, name)) && WipedAt(s, s', uid, Key(ConfigMap, name))
    requires StoreAged(s, s') && Cleared(s, name, uid)
    ensures Cleared(s', name, uid)
  {
    assert AgedAt(s, s', Key(StatefulSet, name)) && AgedAt(s, s', Key(ConfigMap, name));
  }

  ghost predicate Standing(s: Store, key: Key) {
    key in s && !s[key].deleting
  }

  /** Re-adding a group and removing it again starts a full grace period: whatever teardown it went
      through before, its next one counts from no earlier than the reset. */
  lemma ClearedStartsOver(w: World, name: string, uid: string, grace: int)
    requires Cleared(w.store, name, uid) && NoForeignPrimary(w.store, name, uid)
    requires Standing(w.store, Key(StatefulSet, name)) || Standing(w.store, Key(ConfigMap, name))
    ensures InGrace(w, name, uid, w.now, grace)
  {
  }
}
