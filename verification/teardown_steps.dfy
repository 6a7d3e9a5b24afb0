/**
 The steps of a role group's teardown, and what every deletion it issues owes to the steps before.

 A step is known by what it may delete and by what is gone once it is done; both only ever depend on
 the store, never on how far a pass got.
 */
module TeardownSteps {
  import opened Wrappers
  import opened ApiServer
  import opened Teardown
  import opened GrayDelete

  datatype OrphanRef = OrphanRef(resourceName: string, roleName: string, groupName: string)

  datatype Step = OwnedStep(key: Key) | StatefulSetStep(name: string, deletePvcs: bool) | ExtrasStep

  function Derived(name: string, suffix: string, live: set<string>): seq<Step> {
    if name + suffix in live then [] else [OwnedStep(Key(Service, name + suffix))]
  }

  /** The order of the teardown; a derived Service whose name belongs to a live group is left out. */
  function Steps(name: string, live: set<string>, deletePvcs: bool): seq<Step> {
    [OwnedStep(Key(PodDisruptionBudget, name)), StatefulSetStep(name, deletePvcs), ExtrasStep,
     OwnedStep(Key(ConfigMap, name)), OwnedStep(Key(Service, name))] +
    Derived(name, "-headless", live) + Derived(name, "-metrics", live)
  }

  ghost function StepScope(step: Step): iset<Key> {
    match step
    case OwnedStep(key) => iset{key}
    case StatefulSetStep(name, deletePvcs) => StatefulSetScope(Key(StatefulSet, name), deletePvcs)
    case ExtrasStep => ExtraScope()
  }

  /** Nothing of this cluster's is left of what the step deletes. */
  ghost predicate StepDone(step: Step, s: Store, t: Target) {
    match step
    case OwnedStep(key) => !OwnedAt(s, key, t.uid)
    case StatefulSetStep(name, _) => !OwnedAt(s, Key(StatefulSet, name), t.uid)
    case ExtrasStep => t.extras ==> AllExtrasGone(s, t.kinds, t.selector, t.uid)
  }

  lemma StepDoneStays(step: Step, s: Store, s': Store, t: Target)
    requires StoreAged(s, s') && StepDone(step, s, t)
    ensures StepDone(step, s', t)
  {
    match step
    case OwnedStep(key) => assert AgedAt(s, s', key);
    case StatefulSetStep(name, _) => assert AgedAt(s, s', Key(StatefulSet, name));
    case ExtrasStep =>
      if t.extras {
        AllExtrasGoneStays(s, s', t.kinds, t.selector, t.uid);
      }
  }

  ghost predicate StepsDone(steps: seq<Step>, s: Store, t: Target) {
    forall i :: 0 <= i < |steps| ==> StepDone(steps[i], s, t)
  }

  lemma StepsDoneStays(steps: seq<Step>, s: Store, s': Store, t: Target)
    requires StoreAged(s, s') && StepsDone(steps, s, t)
    ensures StepsDone(steps, s', t)
  {
    forall i | 0 <= i < |steps|
      ensures StepDone(steps[i], s', t)
    {
      StepDoneStays(steps[i], s, s', t);
    }
  }

  lemma StepsDoneNext(steps: seq<Step>, j: nat, s: Store, s': Store, t: Target)
    requires j < |steps| && StoreAged(s, s') && StepsDone(steps[..j], s, t) && StepDone(steps[j], s', t)
    ensures StepsDone(steps[..j + 1], s', t)
  {
    StepsDoneStays(steps[..j], s, s', t);
    assert steps[..j + 1] == steps[..j] + [steps[j]];
  }

  lemma LastOrEarlier(steps: seq<Step>, j: nat, step: Step)
    requires j < |steps| && step in steps[..j + 1]
    ensures step in steps[..j] || step == steps[j]
  {
  }

  ghost predicate DeletedBy(steps: seq<Step>, key: Key) {
    exists i :: 0 <= i < |steps| && key in StepScope(steps[i])
  }

  /** Everything these steps may delete. */
  ghost function ScopeOf(steps: seq<Step>): iset<Key> {
    iset k | DeletedBy(steps, k)
  }

  lemma StepInScope(steps: seq<Step>, j: nat)
    requires j < |steps|
    ensures StepScope(steps[j]) <= ScopeOf(steps)
  {
  }

  function DerivedSet(name: string, live: set<string>): set<string> {
    {name + "-headless", name + "-metrics"} - live
  }

  /** Step `j` belongs to the teardown of `t`. */
  ghost predicate FitsAt(steps: seq<Step>, t: Target, j: int) {
    0 <= j < |steps| ==>
      match steps[j]
      case OwnedStep(key) => Named(t, key) && !key.kind.StatefulSet?
      case StatefulSetStep(n, _) => n == t.name
      case ExtrasStep => true
  }

  ghost predicate Fits(steps: seq<Step>, t: Target) {
    forall j :: FitsAt(steps, t, j)
  }

  lemma StepsFit(t: Target, live: set<string>, deletePvcs: bool)
    requires t.derived == DerivedSet(t.name, live)
    ensures Fits(Steps(t.name, live, deletePvcs), t)
  {
    var tail := Derived(t.name, "-headless", live) + Derived(t.name, "-metrics", live);
    forall j
      ensures FitsAt(Steps(t.name, live, deletePvcs), t, j)
    {
      if 5 <= j < |Steps(t.name, live, deletePvcs)| {
        assert Steps(t.name, live, deletePvcs)[j] == tail[j - 5];
      }
    }
  }

  ghost function NonClaims(): iset<Key> {
    iset k: Key | !k.kind.PersistentVolumeClaim?
  }

  // ---------------------------------------------------------------------------------------------
  // What a deletion owes
  // ---------------------------------------------------------------------------------------------

  /** One teardown as its deletions are judged. `from` is the store it began with, `since` a time at
      which the group was already orphaned; `gated` says that its grace period was still running, or just
      over, when the pass began, `uncached` that extra resources are listed from the server itself. */
  datatype Plan = Plan(
    target: Target,
    steps: seq<Step>,
    deletePvcs: bool,
    drainDeadline: int,
    from: Store,
    since: int,
    grace: int,
    gated: bool,
    current: bool,
    uncached: bool,
    stable: bool)

  /** Every step before the one that issued the deletion was done when it took effect. */
  ghost predicate InOrder(d: Deletion, steps: seq<Step>, t: Target) {
    exists j :: 0 <= j < |steps| && d.key in StepScope(steps[j]) && StepsDone(steps[..j], d.store, t)
  }

  function SetKey(p: Plan): Key {
    Key(StatefulSet, p.target.name)
  }

  function RuleOf(p: Plan): ClaimRule {
    ClaimRule(SetKey(p), p.target.uid, p.drainDeadline, p.from, p.current)
  }

  ghost predicate Lawful(d: Deletion, p: Plan) {
    && (d.key.kind.PersistentVolumeClaim? ==> p.deletePvcs)
    && ClaimCovered(d, RuleOf(p))
    && (d.key.kind.Extra? ==> ExtraDue(d, p.target, p.current || p.uncached, p.stable))
    && (p.current ==>
          && InOrder(d, p.steps, p.target)
          && (d.key in StatefulSetScope(SetKey(p), p.deletePvcs) ==>
                AfterDrain(d, SetKey(p), p.deletePvcs, p.drainDeadline)))
    && (p.gated ==> Waited(d.now, p.since, p.grace))
    && (p.stable && d.key in NonClaims() ==> OwnedAt(d.store, d.key, p.target.uid))
  }

  ghost predicate LawfulAt(start: nat, log: seq<Deletion>, p: Plan, i: int) {
    start <= i < |log| ==> Lawful(log[i], p)
  }

  ghost predicate AllLawful(start: nat, log: seq<Deletion>, p: Plan) {
    forall i :: LawfulAt(start, log, p, i)
  }

  lemma AllLawfulTransitive(start: nat, a: seq<Deletion>, b: seq<Deletion>, p: Plan)
    requires a <= b && AllLawful(start, a, p) && AllLawful(|a|, b, p)
    ensures AllLawful(start, b, p)
  {
    forall i
      ensures LawfulAt(start, b, p, i)
    {
      assert LawfulAt(start, a, p, i) && LawfulAt(|a|, b, p, i);
      assert 0 <= i < |a| ==> a[i] == b[i];
    }
  }

  /** What a step has to see to for each of its deletions. */
  ghost predicate StepTargets(w: World, w': World, p: Plan, step: Step, stable: bool) {
    match step
    case OwnedStep(_) => true
    case StatefulSetStep(_, _) =>
      && AllClaimsCovered(|w.log|, w'.log, RuleOf(p).(from := w.store))
      && (p.current ==> AllAfterDrain(|w.log|, w'.log, SetKey(p), p.deletePvcs, p.drainDeadline))
    case ExtrasStep => AllExtrasDue(|w.log|, w'.log, p.target, p.current || p.uncached, stable)
  }

  /** The deletions of step `j` are lawful when the steps before it are done. */
  lemma StepLawful(w: World, w': World, p: Plan, j: nat, stable: bool)
    requires j < |p.steps| && FitsAt(p.steps, p.target, j) && (p.stable ==> stable)
    requires p.steps[j].StatefulSetStep? ==> p.steps[j].deletePvcs == p.deletePvcs
    requires Quiet(w, w', StepScope(p.steps[j])) && (p.current ==> w.synced && StoreAged(p.from, w.store))
    requires p.current ==> StepsDone(p.steps[..j], w.store, p.target)
    requires StepTargets(w, w', p, p.steps[j], stable)
    requires p.gated ==> Waited(w.now, p.since, p.grace)
    requires p.stable ==> OwnTargets(|w.log|, w'.log, NonClaims(), p.target.uid)
    ensures AllLawful(|w.log|, w'.log, p)
  {
    forall i
      ensures LawfulAt(|w.log|, w'.log, p, i)
    {
      assert DeletionIn(w, w', StepScope(p.steps[j]), i) && BetweenAt(w, w', i);
      if |w.log| <= i < |w'.log| {
        var d := w'.log[i];
        StepDeletionTargets(w, w', p, j, stable, i);
        if p.current {
          StepsDoneStays(p.steps[..j], w.store, d.store, p.target);
          assert InOrder(d, p.steps, p.target);
        }
        if p.stable {
          assert OwnTargetAt(|w.log|, w'.log, NonClaims(), p.target.uid, i);
        }
      }
    }
  }

  lemma StepDeletionTargets(w: World, w': World, p: Plan, j: nat, stable: bool, i: int)
    requires j < |p.steps| && FitsAt(p.steps, p.target, j) && (p.stable ==> stable)
    requires p.steps[j].StatefulSetStep? ==> p.steps[j].deletePvcs == p.deletePvcs
    requires |w.log| <= i < |w'.log| && w'.log[i].key in StepScope(p.steps[j])
    requires p.current ==> StoreAged(p.from, w.store)
    requires StepTargets(w, w', p, p.steps[j], stable)
    ensures var d := w'.log[i];
      && (d.key.kind.PersistentVolumeClaim? ==> p.deletePvcs)
      && ClaimCovered(d, RuleOf(p))
      && (d.key.kind.Extra? ==> ExtraDue(d, p.target, p.current || p.uncached, p.stable))
      && (p.current && d.key in StatefulSetScope(SetKey(p), p.deletePvcs) ==>
            AfterDrain(d, SetKey(p), p.deletePvcs, p.drainDeadline))
  {
    match p.steps[j]
    case OwnedStep(key) =>
    case StatefulSetStep(_, _) =>
      var r := RuleOf(p).(from := w.store);
      assert ClaimCoveredAt(|w.log|, w'.log, r, i) && (p.current ==> AgedAt(p.from, w.store, SetKey(p)));
      CoveredFromEarlier(w'.log[i], r, p.from);
      if p.current {
        assert AfterDrainAt(|w.log|, w'.log, SetKey(p), p.deletePvcs, p.drainDeadline, i);
      }
    case ExtrasStep =>
      assert ExtraDueAt(|w.log|, w'.log, p.target, p.current || p.uncached, stable, i);
  }

  /** Deletions confined to `scope` that hit owned objects within `own` hit owned objects unless they
      are claims. */
  lemma NarrowTargets(w: World, w': World, scope: iset<Key>, own: iset<Key>, uid: string)
    requires Confined(w, w', scope) && scope * NonClaims() <= own
    requires OwnTargets(|w.log|, w'.log, own, uid)
    ensures OwnTargets(|w.log|, w'.log, NonClaims(), uid)
  {
    forall i
      ensures OwnTargetAt(|w.log|, w'.log, NonClaims(), uid, i)
    {
      assert OwnTargetAt(|w.log|, w'.log, own, uid, i) && DeletionIn(w, w', scope, i);
    }
  }

  /** What was lawful for a teardown is lawful for the same teardown, begun earlier, when less is known of
      its grace period and of its names. */
  lemma LawfulFromEarlier(d: Deletion, p: Plan, q: Plan)
    requires q == p.(from := q.from, gated := q.gated, stable := q.stable)
    requires Lawful(d, p) && (p.current ==> StoreAged(q.from, p.from))
    requires (q.gated ==> p.gated) && (q.stable ==> p.stable)
    ensures Lawful(d, q)
  {
    assert p.current ==> AgedAt(q.from, p.from, SetKey(p));
    CoveredFromEarlier(d, RuleOf(p), q.from);
  }

  // ---------------------------------------------------------------------------------------------
  // What is left in the end
  // ---------------------------------------------------------------------------------------------

  function DerivedName(name: string, suffix: string, live: set<string>): seq<string> {
    if name + suffix in live then [] else [name + suffix]
  }

  function DerivedNames(name: string, live: set<string>): seq<string> {
    DerivedName(name, "-headless", live) + DerivedName(name, "-metrics", live)
  }

  /** Every resource with a fixed name that the teardown of this group deletes. */
  function NamedKeys(name: string, derived: seq<string>): seq<Key> {
    [Key(PodDisruptionBudget, name), Key(StatefulSet, name), Key(ConfigMap, name), Key(Service, name)] +
    seq(|derived|, i requires 0 <= i < |derived| => Key(Service, derived[i]))
  }

  ghost predicate NoneOwned(s: Store, keys: seq<Key>, uid: string) {
    forall i :: 0 <= i < |keys| ==> !OwnedAt(s, keys[i], uid)
  }

  lemma StepsDoneNoneOwned(name: string, live: set<string>, deletePvcs: bool, s: Store, t: Target)
    requires StepsDone(Steps(name, live, deletePvcs), s, t)
    ensures NoneOwned(s, NamedKeys(name, DerivedNames(name, live)), t.uid)
    ensures NoOwnedPrimary(s, name, t.uid)
  {
    var steps := Steps(name, live, deletePvcs);
    var keys := NamedKeys(name, DerivedNames(name, live));
    assert StepDone(steps[0], s, t) && StepDone(steps[1], s, t) && StepDone(steps[3], s, t) && StepDone(steps[4], s, t);
    forall i | 4 <= i < |keys|
      ensures !OwnedAt(s, keys[i], t.uid)
    {
      assert StepDone(steps[i + 1], s, t);
    }
  }

  lemma NoneOwnedStepsDone(name: string, live: set<string>, deletePvcs: bool, s: Store, t: Target)
    requires NoneOwned(s, NamedKeys(name, DerivedNames(name, live)), t.uid) && StepDone(ExtrasStep, s, t)
    ensures StepsDone(Steps(name, live, deletePvcs), s, t) && NoOwnedPrimary(s, name, t.uid)
  {
    var steps := Steps(name, live, deletePvcs);
    var keys := NamedKeys(name, DerivedNames(name, live));
    assert !OwnedAt(s, keys[0], t.uid) && !OwnedAt(s, keys[1], t.uid) && !OwnedAt(s, keys[2], t.uid);
    assert !OwnedAt(s, keys[3], t.uid);
    forall i | 5 <= i < |steps|
      ensures StepDone(steps[i], s, t)
    {
      assert !OwnedAt(s, keys[i - 1], t.uid);
    }
  }

  /** The role group's resources are gone exactly when nothing in the store belongs to it. */
  lemma NothingBelongs(t: Target, live: set<string>, s: Store)
    requires t.derived == DerivedSet(t.name, live)
    ensures NoneOwned(s, NamedKeys(t.name, DerivedNames(t.name, live)), t.uid) && StepDone(ExtrasStep, s, t) <==>
      forall k :: !BelongsAt(t, s, k)
  {
    var keys := NamedKeys(t.name, DerivedNames(t.name, live));
    forall k | BelongsAt(t, s, k)
      ensures !NoneOwned(s, keys, t.uid) || !StepDone(ExtrasStep, s, t)
    {
      SomethingIsLeft(t, live, s, k);
    }
    if forall k :: !BelongsAt(t, s, k) {
      forall i | 0 <= i < |keys|
        ensures !OwnedAt(s, keys[i], t.uid)
      {
        assert Named(t, keys[i]) && !BelongsAt(t, s, keys[i]);
      }
      forall i, k | 0 <= i < |t.kinds| && t.kinds[i].Some? && t.extras
        ensures ExtraGone(s, t.kinds[i].value, t.selector, t.uid, k)
      {
        assert !BelongsAt(t, s, k);
      }
    }
  }

  lemma SomethingIsLeft(t: Target, live: set<string>, s: Store, k: Key)
    requires t.derived == DerivedSet(t.name, live) && BelongsAt(t, s, k)
    ensures !NoneOwned(s, NamedKeys(t.name, DerivedNames(t.name, live)), t.uid) || !StepDone(ExtrasStep, s, t)
  {
    if Named(t, k) {
      NamedIsListed(t, live, k);
      var keys := NamedKeys(t.name, DerivedNames(t.name, live));
      var i :| 0 <= i < |keys| && keys[i] == k;
      assert OwnedAt(s, keys[i], t.uid);
    } else {
      var i :| 0 <= i < |t.kinds| && t.kinds[i] == Some(k.kind.gvk);
      assert !ExtraGone(s, t.kinds[i].value, t.selector, t.uid, k);
    }
  }

  lemma NamedIsListed(t: Target, live: set<string>, k: Key)
    requires t.derived == DerivedSet(t.name, live) && Named(t, k)
    ensures k in NamedKeys(t.name, DerivedNames(t.name, live))
  {
    var derived := DerivedNames(t.name, live);
    var keys := NamedKeys(t.name, derived);
    assert keys[0] == Key(PodDisruptionBudget, t.name) && keys[1] == Key(StatefulSet, t.name);
    assert keys[2] == Key(ConfigMap, t.name) && keys[3] == Key(Service, t.name);
    if k.kind.Service? && k.name != t.name {
      assert k.name in derived;
      var i :| 0 <= i < |derived| && derived[i] == k.name;
      assert keys[4 + i] == k;
    }
  }

  lemma PrimariesInScope(name: string, live: set<string>, deletePvcs: bool)
    ensures PrimaryScope(name) <= ScopeOf(Steps(name, live, deletePvcs))
  {
    StepInScope(Steps(name, live, deletePvcs), 1);
    StepInScope(Steps(name, live, deletePvcs), 3);
  }

  /** The teardown of one group does not touch the primary resources of another. */
  lemma PrimariesApart(name: string, other: string, live: set<string>, deletePvcs: bool)
    requires name != other
    ensures ScopeOf(Steps(name, live, deletePvcs)) !! PrimaryScope(other)
  {
    var steps := Steps(name, live, deletePvcs);
    var t := Target(name, DerivedSet(name, live), [], map[], false, "");
    StepsFit(t, live, deletePvcs);
    forall k | k in PrimaryScope(other)
      ensures k !in ScopeOf(steps)
    {
      forall i | 0 <= i < |steps|
        ensures k !in StepScope(steps[i])
      {
        var tail := Derived(name, "-headless", live) + Derived(name, "-metrics", live);
        if i >= 5 {
          assert steps[i] == tail[i - 5];
        }
      }
    }
  }
}
