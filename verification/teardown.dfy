/**
 The vocabulary of the orphan teardown: ownership, and the relation between two moments of it.

 As in ApiServer, a fact about a whole store is a named fact for each key.
 */
module Teardown {
  import opened Wrappers
  import opened ApiServer

  predicate IsOwned(o: Obj, uid: string) {
    uid == "" || o.controller == Some(uid)
  }

  ghost predicate OwnedAt(s: Store, key: Key, uid: string) {
    key in s && IsOwned(s[key], uid)
  }

  // ---------------------------------------------------------------------------------------------
  // One moment leading to another
  // ---------------------------------------------------------------------------------------------

  /** What the environment and the cleaner may have done to an object that is still there. */
  ghost predicate Aged(o: Obj, o': Obj) {
    && o'.controller == o.controller
    && o'.labels == o.labels
    && o'.selector == o.selector
    && o'.claimTemplates == o.claimTemplates
    && o.version <= o'.version
    && (o.deleting ==> o'.deleting)
    && (o'.finalizers ==> o.finalizers)
    && (o.specReplicas == Some(0) ==> o'.specReplicas == Some(0) && o'.statusReplicas <= o.statusReplicas)
  }

  ghost predicate AgedAt(s: Store, s': Store, k: Key) {
    k in s' ==> k in s && Aged(s[k], s'[k])
  }

  ghost predicate StoreAged(s: Store, s': Store) {
    forall k :: AgedAt(s, s', k)
  }

  ghost predicate MarkKeptAt(s: Store, s': Store, k: Key) {
    k in s && k in s' ==> s'[k].pending == s[k].pending
  }

  ghost predicate MarksKept(s: Store, s': Store) {
    forall k :: MarkKeptAt(s, s', k)
  }

  predicate Stamped(o: Obj) {
    o.drain.Some? && o.drain.value.At?
  }

  ghost predicate DrainKeptAt(s: Store, s': Store, k: Key) {
    k in s && k in s' && Stamped(s[k]) ==> s'[k].drain == s[k].drain
  }

  ghost predicate DrainsKept(s: Store, s': Store) {
    forall k :: DrainKeptAt(s, s', k)
  }

  ghost predicate ConfinedAt(s: Store, s': Store, scope: iset<Key>, k: Key) {
    k !in scope ==> DriftedAt(s, s', k)
  }

  ghost predicate DeletionIn(w: World, w': World, scope: iset<Key>, i: int) {
    |w.log| <= i < |w'.log| ==> w'.log[i].key in scope
  }

  /** Outside `scope` only the environment acted, and everything deleted since lies in `scope`. */
  ghost predicate Confined(w: World, w': World, scope: iset<Key>) {
    && (forall k :: ConfinedAt(w.store, w'.store, scope, k))
    && (forall i :: DeletionIn(w, w', scope, i))
  }

  /** `d` happened between `w` and `w'`. */
  ghost predicate Between(w: World, d: Deletion, w': World) {
    && w.now <= d.now <= w'.now
    && d.key in d.store
    && w.seen <= d.seen <= w'.seen
    && StoreAged(w.store, d.store)
    && StoreAged(d.store, w'.store)
    && (w.synced ==> DrainsKept(w.store, d.store))
  }

  ghost predicate BetweenAt(w: World, w': World, i: int) {
    |w.log| <= i < |w'.log| ==> Between(w, w'.log[i], w')
  }

  /** Nothing is created and progress is never undone on the way from `w` to `w'`. */
  ghost predicate Leads(w: World, w': World) {
    && w.now <= w'.now
    && w'.synced == w.synced
    && w.log <= w'.log
    && w.seen <= w'.seen
    && w.refused <= w'.refused
    && StoreAged(w.store, w'.store)
    && (w.synced ==> DrainsKept(w.store, w'.store))
    && (NamesStable(w) ==> NamesStable(w'))
    && (forall i :: BetweenAt(w, w', i))
  }

  lemma StoreAgedTransitive(a: Store, b: Store, c: Store)
    requires StoreAged(a, b) && StoreAged(b, c)
    ensures StoreAged(a, c)
    ensures DrainsKept(a, b) && DrainsKept(b, c) ==> DrainsKept(a, c)
    ensures MarksKept(a, b) && MarksKept(b, c) ==> MarksKept(a, c)
  {
    forall k
      ensures AgedAt(a, c, k)
      ensures DrainsKept(a, b) && DrainsKept(b, c) ==> DrainKeptAt(a, c, k)
      ensures MarksKept(a, b) && MarksKept(b, c) ==> MarkKeptAt(a, c, k)
    {
      assert AgedAt(a, b, k) && AgedAt(b, c, k);
      if DrainsKept(a, b) && DrainsKept(b, c) {
        assert DrainKeptAt(a, b, k) && DrainKeptAt(b, c, k);
      }
      if MarksKept(a, b) && MarksKept(b, c) {
        assert MarkKeptAt(a, b, k) && MarkKeptAt(b, c, k);
      }
    }
  }

  lemma LeadsTransitive(a: World, b: World, c: World)
    requires Leads(a, b) && Leads(b, c)
    ensures Leads(a, c)
  {
    StoreAgedTransitive(a.store, b.store, c.store);
    forall i
      ensures BetweenAt(a, c, i)
    {
      assert BetweenAt(a, b, i) && BetweenAt(b, c, i);
      if |a.log| <= i < |b.log| {
        assert c.log[i] == b.log[i];
        StoreAgedTransitive(b.log[i].store, b.store, c.store);
      } else if |b.log| <= i < |c.log| {
        StoreAgedTransitive(a.store, b.store, c.log[i].store);
      }
    }
  }

  lemma ConfinedTransitive(a: World, b: World, c: World, scope: iset<Key>)
    requires a.log <= b.log <= c.log
    requires Confined(a, b, scope) && Confined(b, c, scope)
    ensures Confined(a, c, scope)
  {
    forall k
      ensures ConfinedAt(a.store, c.store, scope, k)
    {
      assert ConfinedAt(a.store, b.store, scope, k) && ConfinedAt(b.store, c.store, scope, k);
    }
    forall i
      ensures DeletionIn(a, c, scope, i)
    {
      assert DeletionIn(a, b, scope, i) && DeletionIn(b, c, scope, i);
      assert i < |b.log| && 0 <= i ==> c.log[i] == b.log[i];
    }
  }

  lemma ConfinedWidens(a: World, b: World, scope: iset<Key>, wider: iset<Key>)
    requires Confined(a, b, scope) && scope <= wider
    ensures Confined(a, b, wider)
  {
    forall k
      ensures ConfinedAt(a.store, b.store, wider, k)
    {
      assert ConfinedAt(a.store, b.store, scope, k);
    }
    forall i
      ensures DeletionIn(a, b, wider, i)
    {
      assert DeletionIn(a, b, scope, i);
    }
  }

  /** Progress within `scope`, with the gray-delete marks as they were. */
  ghost predicate Quiet(w: World, w': World, scope: iset<Key>) {
    Leads(w, w') && MarksKept(w.store, w'.store) && Confined(w, w', scope)
  }

  lemma QuietTransitive(a: World, b: World, c: World, scope: iset<Key>)
    requires Quiet(a, b, scope) && Quiet(b, c, scope)
    ensures Quiet(a, c, scope)
  {
    LeadsTransitive(a, b, c);
    StoreAgedTransitive(a.store, b.store, c.store);
    ConfinedTransitive(a, b, c, scope);
  }

  lemma QuietWidens(a: World, b: World, scope: iset<Key>, wider: iset<Key>)
    requires Quiet(a, b, scope) && scope <= wider
    ensures Quiet(a, b, wider)
  {
    ConfinedWidens(a, b, scope, wider);
  }

  lemma DriftQuiet(w: World, w': World, scope: iset<Key>)
    requires Drifts(w, w')
    ensures Quiet(w, w', scope)
  {
    forall k
      ensures AgedAt(w.store, w'.store, k)
      ensures MarkKeptAt(w.store, w'.store, k)
      ensures DrainKeptAt(w.store, w'.store, k)
      ensures ConfinedAt(w.store, w'.store, scope, k)
    {
      assert DriftedAt(w.store, w'.store, k);
    }
  }

  lemma StoreAgedReflexive(s: Store)
    ensures StoreAged(s, s) && DrainsKept(s, s) && MarksKept(s, s)
  {
  }

  lemma DeleteQuiet(w: World, key: Key, scope: iset<Key>)
    requires Valid(w) && key in w.store && key in scope
    ensures Quiet(w, DeleteEffect(w, key), scope)
  {
    var w' := DeleteEffect(w, key);
    DeleteEffectValid(w, key);
    StoreAgedReflexive(w.store);
    assert KeyValid(w, key) && VersionValid(w, key, w.store[key]);
    forall k
      ensures AgedAt(w.store, w'.store, k)
      ensures MarkKeptAt(w.store, w'.store, k)
      ensures DrainKeptAt(w.store, w'.store, k)
      ensures ConfinedAt(w.store, w'.store, scope, k)
    {
    }
    assert w'.log == w.log + [Deletion(key, w.store, w.now, w.seen)];
    forall i
      ensures BetweenAt(w, w', i) && DeletionIn(w, w', scope, i)
    {
    }
  }

  /** A write that ages one object and leaves its marks and its drain clock alone. */
  lemma PutQuiet(w: World, key: Key, o: Obj, scope: iset<Key>)
    requires Valid(w) && key in w.store && key in scope
    requires Aged(w.store[key], o.(version := w.nextVersion)) && (o.deleting ==> o.finalizers)
    requires w.synced && Stamped(w.store[key]) ==> o.drain == w.store[key].drain
    ensures Leads(w, Put(w, key, o)) && Confined(w, Put(w, key, o), scope)
    ensures o.pending == w.store[key].pending ==> Quiet(w, Put(w, key, o), scope)
  {
    PutValid(w, key, o);
    var w' := Put(w, key, o);
    forall k
      ensures AgedAt(w.store, w'.store, k)
      ensures o.pending == w.store[key].pending ==> MarkKeptAt(w.store, w'.store, k)
      ensures w.synced ==> DrainKeptAt(w.store, w'.store, k)
      ensures ConfinedAt(w.store, w'.store, scope, k)
    {
    }
  }

  // ---------------------------------------------------------------------------------------------
  // Progress
  // ---------------------------------------------------------------------------------------------

  /** One irreversible change of the object under `key`: it left, its deletion began, it was scaled
      to zero, or its drain clock started. */
  ghost predicate Improved(s: Store, s': Store, key: Key) {
    key in s &&
    (|| key !in s'
     || (!s[key].deleting && s'[key].deleting)
     || (s[key].specReplicas != Some(0) && s'[key].specReplicas == Some(0))
     || (!Stamped(s[key]) && Stamped(s'[key])))
  }

  /** What the teardown of one role group is about: the resources named after it, with the derived
      Services that are its own, and its extra resources, found by kind and labels. */
  datatype Target = Target(
    name: string,
    derived: set<string>,
    kinds: seq<Option<nat>>,
    selector: map<string, string>,
    extras: bool,
    uid: string)

  predicate Named(t: Target, k: Key) {
    || ((k.kind.PodDisruptionBudget? || k.kind.StatefulSet? || k.kind.ConfigMap? || k.kind.Service?) && k.name == t.name)
    || (k.kind.Service? && k.name in t.derived)
  }

  predicate ExtraOf(t: Target, k: Key, o: Obj) {
    t.extras && k.kind.Extra? && Some(k.kind.gvk) in t.kinds && Matches(o.labels, t.selector)
  }

  predicate Belongs(t: Target, k: Key, o: Obj) {
    IsOwned(o, t.uid) && (Named(t, k) || ExtraOf(t, k, o))
  }

  ghost predicate BelongsAt(t: Target, s: Store, k: Key) {
    k in s && Belongs(t, k, s[k])
  }

  ghost predicate ImprovedFor(t: Target, s: Store, s': Store, key: Key) {
    BelongsAt(t, s, key) && Improved(s, s', key)
  }

  /** The teardown got further: an object of the role group changed for good. */
  ghost predicate Advanced(t: Target, s: Store, s': Store) {
    exists k :: ImprovedFor(t, s, s', k)
  }

  lemma AdvancedWidens(t: Target, a: Store, b: Store, c: Store, d: Store)
    requires StoreAged(a, b) && StoreAged(b, c) && StoreAged(c, d) && Advanced(t, b, c)
    requires DrainsKept(a, b) && DrainsKept(c, d)
    ensures Advanced(t, a, d)
  {
    var k :| ImprovedFor(t, b, c, k);
    assert AgedAt(a, b, k) && AgedAt(b, c, k) && AgedAt(c, d, k) && DrainKeptAt(a, b, k) && DrainKeptAt(c, d, k);
    assert ImprovedFor(t, a, d, k);
  }

  /** An object of the role group is on its way out, held by a finalizer. */
  ghost predicate Terminating(t: Target, s: Store, k: Key) {
    BelongsAt(t, s, k) && s[k].deleting
  }

  // ---------------------------------------------------------------------------------------------
  // The StatefulSet and its claims
  // ---------------------------------------------------------------------------------------------

  /** No pods are left, or the wait for them has lasted for the whole deadline. */
  predicate Drained(o: Obj, now: int, deadline: int) {
    && o.specReplicas == Some(0)
    && (o.statusReplicas == 0 || (Stamped(o) && now - o.drain.value.second * SECOND >= deadline))
  }

  lemma DrainedStays(s: Store, s': Store, key: Key, now: int, now': int, deadline: int)
    requires AgedAt(s, s', key) && DrainKeptAt(s, s', key) && now <= now'
    requires key in s ==> Drained(s[key], now, deadline)
    ensures key in s' ==> Drained(s'[key], now', deadline)
  {
  }

  ghost predicate ClaimGoing(s: Store, selector: map<string, string>, k: Key) {
    k in s && k.kind.PersistentVolumeClaim? && Matches(s[k].labels, selector) ==> s[k].deleting
  }

  /** Every claim the selector matches is being deleted. */
  ghost predicate ClaimsGoing(s: Store, selector: map<string, string>) {
    forall k :: ClaimGoing(s, selector, k)
  }

  lemma ClaimsGoingStays(s: Store, s': Store, selector: map<string, string>)
    requires StoreAged(s, s') && ClaimsGoing(s, selector)
    ensures ClaimsGoing(s', selector)
  {
    forall k
      ensures ClaimGoing(s', selector, k)
    {
      assert AgedAt(s, s', k) && ClaimGoing(s, selector, k);
    }
  }

  ghost function ClaimScope(): iset<Key> {
    iset k: Key | k.kind.PersistentVolumeClaim?
  }

  /** Claims are only touched when their deletion was asked for. */
  ghost function StatefulSetScope(key: Key, deletePvcs: bool): iset<Key> {
    if deletePvcs then iset{key} + ClaimScope() else iset{key}
  }

  /** Some version of the deleted object was seen to match. */
  ghost predicate SeenMatching(d: Deletion, selector: map<string, string>) {
    exists o :: (d.key, o) in d.seen && Matches(o.labels, selector)
  }

  ghost predicate ClaimTarget(d: Deletion, selector: map<string, string>, current: bool) {
    SeenMatching(d, selector) && (current ==> d.key in d.store && Matches(d.store[d.key].labels, selector))
  }

  ghost predicate ClaimTargetAt(start: nat, log: seq<Deletion>, selector: map<string, string>, current: bool, i: int) {
    start <= i < |log| ==> ClaimTarget(log[i], selector, current)
  }

  /** Every deletion hit an object the selector matches; with current reads, as it was when it went. */
  ghost predicate ClaimTargets(start: nat, log: seq<Deletion>, selector: map<string, string>, current: bool) {
    forall i :: ClaimTargetAt(start, log, selector, current, i)
  }

  lemma ClaimTargetsTransitive(start: nat, a: seq<Deletion>, b: seq<Deletion>, selector: map<string, string>, current: bool)
    requires a <= b
    requires ClaimTargets(start, a, selector, current) && ClaimTargets(|a|, b, selector, current)
    ensures ClaimTargets(start, b, selector, current)
  {
    forall i
      ensures ClaimTargetAt(start, b, selector, current, i)
    {
      assert ClaimTargetAt(start, a, selector, current, i) && ClaimTargetAt(|a|, b, selector, current, i);
      assert 0 <= i < |a| ==> a[i] == b[i];
    }
  }

  /** The teardown of `key` a claim is deleted for: who owns the StatefulSet, how long its drain may
      take, and the store it began with, whose contents are known when reads are current. */
  datatype ClaimRule = ClaimRule(key: Key, uid: string, deadline: int, from: Store, current: bool)

  /** `sts` is an owned version of the StatefulSet that was seen drained, and its selector matches the
      claim. With current reads it is the StatefulSet of this very teardown. */
  ghost predicate CoversClaim(d: Deletion, r: ClaimRule, sts: Obj) {
    && (r.key, sts) in d.seen
    && IsOwned(sts, r.uid)
    && sts.claimTemplates > 0
    && Drained(sts, d.now, r.deadline)
    && ClaimTarget(d, sts.selector, r.current)
    && (r.current ==> r.key in r.from && Aged(r.from[r.key], sts) && (r.key in d.store ==> Aged(sts, d.store[r.key])))
  }

  /** A claim only goes with its own StatefulSet, once that is drained. */
  ghost predicate ClaimCovered(d: Deletion, r: ClaimRule) {
    d.key.kind.PersistentVolumeClaim? ==> exists sts :: CoversClaim(d, r, sts)
  }

  ghost predicate ClaimCoveredAt(start: nat, log: seq<Deletion>, r: ClaimRule, i: int) {
    start <= i < |log| ==> ClaimCovered(log[i], r)
  }

  ghost predicate AllClaimsCovered(start: nat, log: seq<Deletion>, r: ClaimRule) {
    forall i :: ClaimCoveredAt(start, log, r, i)
  }

  /** What holds of a teardown holds from any earlier beginning of it. */
  lemma CoveredFromEarlier(d: Deletion, r: ClaimRule, from: Store)
    requires ClaimCovered(d, r) && (r.current ==> AgedAt(from, r.from, r.key))
    ensures ClaimCovered(d, r.(from := from))
  {
    if d.key.kind.PersistentVolumeClaim? {
      var sts :| CoversClaim(d, r, sts);
      assert CoversClaim(d, r.(from := from), sts);
    }
  }

  /** What a deletion issued while `key` is torn down has waited for. */
  ghost predicate AfterDrain(d: Deletion, key: Key, deletePvcs: bool, deadline: int) {
    && (key in d.store ==> Drained(d.store[key], d.now, deadline))
    && (d.key == key && key in d.store && deletePvcs && d.store[key].claimTemplates > 0 ==>
          ClaimsGoing(d.store, d.store[key].selector))
  }

  // Statements about the deletions of a pass: `log` from index `start` on.

  ghost predicate AfterDrainAt(start: nat, log: seq<Deletion>, key: Key, deletePvcs: bool, deadline: int, i: int) {
    start <= i < |log| ==> AfterDrain(log[i], key, deletePvcs, deadline)
  }

  ghost predicate AllAfterDrain(start: nat, log: seq<Deletion>, key: Key, deletePvcs: bool, deadline: int) {
    forall i :: AfterDrainAt(start, log, key, deletePvcs, deadline, i)
  }

  ghost predicate OwnTargetAt(start: nat, log: seq<Deletion>, scope: iset<Key>, uid: string, i: int) {
    start <= i < |log| && log[i].key in scope ==> OwnedAt(log[i].store, log[i].key, uid)
  }

  /** Every deletion within `scope` hit an object of this owner. */
  ghost predicate OwnTargets(start: nat, log: seq<Deletion>, scope: iset<Key>, uid: string) {
    forall i :: OwnTargetAt(start, log, scope, uid, i)
  }

  lemma ClaimDeletionsAfterDrain(w: World, w': World, sts: Obj, deletePvcs: bool, r: ClaimRule)
    requires Quiet(w, w', ClaimScope()) && r.key.kind.StatefulSet? && r.current == w.synced
    requires w.synced && r.key in w.store ==> Drained(w.store[r.key], w.now, r.deadline) && Aged(sts, w.store[r.key])
    requires (r.key, sts) in w.seen && IsOwned(sts, r.uid) && Drained(sts, w.now, r.deadline)
    requires w.synced ==> r.key in r.from && Aged(r.from[r.key], sts)
    requires ClaimTargets(|w.log|, w'.log, sts.selector, w.synced) && (sts.claimTemplates == 0 ==> w'.log == w.log)
    ensures OwnTargets(|w.log|, w'.log, iset{r.key}, r.uid)
    ensures w.synced ==> AllAfterDrain(|w.log|, w'.log, r.key, deletePvcs, r.deadline)
    ensures AllClaimsCovered(|w.log|, w'.log, r)
  {
    forall i
      ensures OwnTargetAt(|w.log|, w'.log, iset{r.key}, r.uid, i)
      ensures w.synced ==> AfterDrainAt(|w.log|, w'.log, r.key, deletePvcs, r.deadline, i)
      ensures ClaimCoveredAt(|w.log|, w'.log, r, i)
    {
      assert DeletionIn(w, w', ClaimScope(), i) && BetweenAt(w, w', i);
      if |w.log| <= i < |w'.log| {
        var d := w'.log[i];
        assert ClaimTargetAt(|w.log|, w'.log, sts.selector, w.synced, i);
        if w.synced {
          assert AgedAt(w.store, d.store, r.key) && DrainKeptAt(w.store, d.store, r.key);
          DrainedStays(w.store, d.store, r.key, w.now, d.now, r.deadline);
        }
        assert CoversClaim(d, r, sts);
      }
    }
  }

  /** One more deletion. */
  lemma DeleteStep(w0: World, w1: World, at: World, key: Key, seen: Obj, uid: string,
                   scope: iset<Key>, own: iset<Key>)
    requires Valid(at) && key in at.store && key in scope
    requires Quiet(w0, w1, scope) && Drifts(w1, at)
    requires (key, seen) in at.seen && IsOwned(seen, uid)
    ensures Quiet(w0, DeleteEffect(at, key), scope)
    ensures StoreAged(w1.store, DeleteEffect(at, key).store)
    ensures DeleteEffect(at, key).log == w1.log + [Deletion(key, at.store, at.now, at.seen)]
    ensures NamesStable(w0) ==> OwnedAt(at.store, key, uid)
    ensures NamesStable(w0) && OwnTargets(|w0.log|, w1.log, own, uid) ==> OwnTargets(|w0.log|, DeleteEffect(at, key).log, own, uid)
  {
    DriftQuiet(w1, at, scope);
    QuietTransitive(w0, w1, at, scope);
    DeleteQuiet(at, key, scope);
    QuietTransitive(w0, at, DeleteEffect(at, key), scope);
    StoreAgedTransitive(w1.store, at.store, DeleteEffect(at, key).store);
    var w2 := DeleteEffect(at, key);
    assert w2.log == w1.log + [Deletion(key, at.store, at.now, at.seen)];
    assert SameController(at, key, seen) || !NamesStable(at);
    if OwnTargets(|w0.log|, w1.log, own, uid) && NamesStable(w0) {
      forall i
        ensures OwnTargetAt(|w0.log|, w2.log, own, uid, i)
      {
        assert OwnTargetAt(|w0.log|, w1.log, own, uid, i);
      }
    }
  }

  /** The deletion of a drained StatefulSet, after its claims. */
  lemma StatefulSetDeleteStep(w0: World, w1: World, at: World, key: Key, sts: Obj, deletePvcs: bool, deadline: int)
    requires Valid(at) && key in at.store
    requires Quiet(w0, w1, StatefulSetScope(key, deletePvcs)) && Drifts(w1, at) && w0.synced && key.kind.StatefulSet?
    requires AllAfterDrain(|w0.log|, w1.log, key, deletePvcs, deadline)
    requires key in w0.store ==> Drained(w0.store[key], w0.now, deadline) && Aged(sts, w0.store[key])
    requires deletePvcs && sts.claimTemplates > 0 ==> ClaimsGoing(w1.store, sts.selector)
    ensures AllAfterDrain(|w0.log|, DeleteEffect(at, key).log, key, deletePvcs, deadline)
  {
    var scope := StatefulSetScope(key, deletePvcs);
    DriftQuiet(w1, at, scope);
    QuietTransitive(w0, w1, at, scope);
    var d := Deletion(key, at.store, at.now, at.seen);
    var w2 := DeleteEffect(at, key);
    assert w2.log == w1.log + [d];
    assert AgedAt(w0.store, at.store, key) && DrainKeptAt(w0.store, at.store, key);
    DrainedStays(w0.store, at.store, key, w0.now, at.now, deadline);
    if deletePvcs && sts.claimTemplates > 0 {
      ClaimsGoingStays(w1.store, at.store, sts.selector);
    }
    assert AfterDrain(d, key, deletePvcs, deadline);
    forall i
      ensures AfterDrainAt(|w0.log|, w2.log, key, deletePvcs, deadline, i)
    {
      assert AfterDrainAt(|w0.log|, w1.log, key, deletePvcs, deadline, i);
    }
  }

  // ---------------------------------------------------------------------------------------------
  // Extra resources
  // ---------------------------------------------------------------------------------------------

  ghost function ExtraScope(): iset<Key> {
    iset k: Key | k.kind.Extra?
  }

  ghost predicate ExtraGone(s: Store, gvk: nat, selector: map<string, string>, uid: string, k: Key) {
    k in s && k.kind == Extra(gvk) && Matches(s[k].labels, selector) ==> !IsOwned(s[k], uid)
  }

  /** Nothing of this kind carries the role group's labels and belongs to the cluster. */
  ghost predicate ExtrasGone(s: Store, gvk: nat, selector: map<string, string>, uid: string) {
    forall k :: ExtraGone(s, gvk, selector, uid, k)
  }

  lemma ExtrasGoneStays(s: Store, s': Store, gvk: nat, selector: map<string, string>, uid: string)
    requires StoreAged(s, s') && ExtrasGone(s, gvk, selector, uid)
    ensures ExtrasGone(s', gvk, selector, uid)
  {
    forall k
      ensures ExtraGone(s', gvk, selector, uid, k)
    {
      assert AgedAt(s, s', k) && ExtraGone(s, gvk, selector, uid, k);
    }
  }

  ghost predicate AllExtrasGone(s: Store, kinds: seq<Option<nat>>, selector: map<string, string>, uid: string) {
    forall i :: 0 <= i < |kinds| && kinds[i].Some? ==> ExtrasGone(s, kinds[i].value, selector, uid)
  }

  lemma AllExtrasGoneStays(s: Store, s': Store, kinds: seq<Option<nat>>, selector: map<string, string>, uid: string)
    requires StoreAged(s, s') && AllExtrasGone(s, kinds, selector, uid)
    ensures AllExtrasGone(s', kinds, selector, uid)
  {
    forall i | 0 <= i < |kinds| && kinds[i].Some?
      ensures ExtrasGone(s', kinds[i].value, selector, uid)
    {
      ExtrasGoneStays(s, s', kinds[i].value, selector, uid);
    }
  }

  /** The object under `k` left, or is on its way out. */
  ghost predicate Moved(s: Store, s': Store, k: Key) {
    k in s && (k in s' ==> s'[k].deleting)
  }

  /** How an extra resource of `t` may go: it is of a registered kind, and an owned version of it was
      seen to carry the role group's labels. With current reads it was so when it went. */
  ghost predicate ExtraDue(d: Deletion, t: Target, current: bool, stable: bool) {
    && d.key.kind.Extra?
    && (exists o :: (d.key, o) in d.seen && IsOwned(o, t.uid) && ExtraOf(t, d.key, o))
    && (current ==> BelongsAt(t, d.store, d.key))
    && (stable ==> OwnedAt(d.store, d.key, t.uid))
  }

  ghost predicate ExtraDueAt(start: nat, log: seq<Deletion>, t: Target, current: bool, stable: bool, i: int) {
    start <= i < |log| ==> ExtraDue(log[i], t, current, stable)
  }

  ghost predicate AllExtrasDue(start: nat, log: seq<Deletion>, t: Target, current: bool, stable: bool) {
    forall i :: ExtraDueAt(start, log, t, current, stable, i)
  }

  lemma AllExtrasDueTransitive(start: nat, a: seq<Deletion>, b: seq<Deletion>, t: Target, current: bool, stable: bool)
    requires a <= b
    requires AllExtrasDue(start, a, t, current, stable) && AllExtrasDue(|a|, b, t, current, stable)
    ensures AllExtrasDue(start, b, t, current, stable)
  {
    forall i
      ensures ExtraDueAt(start, b, t, current, stable, i)
    {
      assert ExtraDueAt(start, a, t, current, stable, i) && ExtraDueAt(|a|, b, t, current, stable, i);
      assert 0 <= i < |a| ==> a[i] == b[i];
    }
  }

  lemma ExtrasDueOwned(start: nat, log: seq<Deletion>, t: Target, current: bool)
    requires AllExtrasDue(start, log, t, current, true)
    ensures OwnTargets(start, log, ExtraScope(), t.uid)
  {
    forall i
      ensures OwnTargetAt(start, log, ExtraScope(), t.uid, i)
    {
      assert ExtraDueAt(start, log, t, current, true, i);
    }
  }

  /** The deletion of one listed extra resource. */
  lemma ExtraDeleteStep(w: World, at: World, w': World, key: Key, item: Obj, t: Target, current: bool)
    requires Valid(at) && key.kind.Extra? && Drifts(w, at)
    requires w' == at || (key in at.store && w' == DeleteEffect(at, key))
    requires (key, item) in at.seen && IsOwned(item, t.uid) && ExtraOf(t, key, item)
    requires current && key in w.store ==> Aged(item, w.store[key])
    ensures Quiet(w, w', ExtraScope()) && AllExtrasDue(|w.log|, w'.log, t, current, NamesStable(w))
  {
    DriftQuiet(w, at, ExtraScope());
    assert AgedAt(w.store, at.store, key);
    if w' != at {
      DeleteQuiet(at, key, ExtraScope());
      QuietTransitive(w, at, w', ExtraScope());
      var d := Deletion(key, at.store, at.now, at.seen);
      assert w'.log == w.log + [d];
      assert SameController(at, key, item) || !NamesStable(at);
      assert ExtraDue(d, t, current, NamesStable(w));
      forall i
        ensures ExtraDueAt(|w.log|, w'.log, t, current, NamesStable(w), i)
      {
      }
    }
  }
}
