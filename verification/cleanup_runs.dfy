/** Whole runs of the orphan cleaner. */
module CleanupRuns {
  // Any number of cleanup passes, with the spec edited and any amount of time passing in between. A pass
  // is known here only by what OrphanCleanup.Cleanup promises of it, so it may have ended anywhere, by a
  // failure or a crash.

  import opened Wrappers
  import opened ApiServer
  import opened Teardown
  import opened GrayDelete
  import opened TeardownSteps
  import opened TeardownReset
  import opened TeardownMeasure
  import opened Cleaner
  import opened ClusterStatus
  import opened OrphanCleanup

  /** One pass: how it began, the annotations of the cluster, the world and the ledger it left behind,
      whether it reported an error, which orphans it found and which declared groups it reset. */
  datatype Pass = Pass(
    sweep: Sweep,
    annotations: map<string, string>,
    after: World,
    ledger: set<Slot>,
    failed: bool,
    orphans: seq<OrphanRef>,
    cleared: set<string>)

  /** The cluster asks for the claims of its orphans to be deleted. */
  ghost predicate ClaimsAsked(r: Pass) {
    ANNOTATION_DELETE_PVCS in r.annotations && r.annotations[ANNOTATION_DELETE_PVCS] == "true"
  }

  /** What Cleanup promises. */
  ghost predicate Performed(c: ClusterCleaner, r: Pass) {
    && r.sweep.live == c.NamesOf(SlotsOf(r.sweep.spec))
    && c.Kept(r.sweep, r.after, r.ledger)
    && (r.failed ==> r.after.refused > r.sweep.start.refused)
    && r.cleared <= r.sweep.live
    && c.ClearedAllBut(r.sweep.live, r.cleared, r.after.refused - r.sweep.start.refused)
    && (r.sweep.start.synced ==> c.AllStillCleared(r.cleared, r.orphans, r.after.store))
    && (!r.failed ==> forall slot :: c.Collected(r.orphans, r.sweep.ledger - SlotsOf(r.sweep.spec), slot))
    && c.AllPlainlyDue(r.sweep.start, r.after, r.sweep.spec, ClaimsAsked(r))
    && (!ClaimsAsked(r) ==> c.ClaimsStand(r.sweep.start.store, r.after.store))
    && (!r.failed && r.sweep.start.synced ==>
          && c.AllForgotten(r.sweep, r.orphans, r.ledger)
          && c.Progressing(r.sweep, r.after, r.orphans, |r.orphans|))
  }

  ghost predicate UndisturbedAt(w: World, w': World, name: string, k: Key) {
    k in PrimaryScope(name) ==> DriftedAt(w.store, w'.store, k)
  }

  /** Between two passes only the environment touches the primary resources of `name`; anything may
      happen to other objects. */
  ghost predicate Undisturbed(w: World, w': World, name: string) {
    && w.now <= w'.now
    && w'.synced == w.synced
    && (forall k :: UndisturbedAt(w, w', name, k))
  }

  ghost predicate RunsAt(c: ClusterCleaner, run: seq<Pass>, name: string, i: int) {
    0 <= i < |run| ==>
      && Performed(c, run[i])
      && (i + 1 < |run| ==> Undisturbed(run[i].after, run[i + 1].sweep.start, name))
  }

  ghost predicate IsRun(c: ClusterCleaner, run: seq<Pass>, name: string) {
    forall i :: RunsAt(c, run, name, i)
  }

  // ---------------------------------------------------------------------------------------------
  // The grace period
  // ---------------------------------------------------------------------------------------------

  /** The deletion `d` is of a vanished role's budget, or belongs to the teardown of another orphan. */
  ghost predicate DueElsewhere(c: ClusterCleaner, r: Pass, name: string, d: Deletion) {
    || c.RolePdbLawful(d, r.sweep.start, r.after.seen, r.sweep.spec)
    || exists o: OrphanRef :: o.resourceName != name && c.DueTo(r.sweep, r.after.seen, d, o)
  }

  /** No labels carry both selectors. */
  ghost predicate Apart(a: map<string, string>, b: map<string, string>) {
    exists k :: k in a && k in b && a[k] != b[k]
  }

  ghost predicate ApartAt(s: Store, name: string, k: Key)
    requires Key(StatefulSet, name) in s
  {
    k in s && k.kind.StatefulSet? && k.name != name ==> Apart(s[k].selector, s[Key(StatefulSet, name)].selector)
  }

  /** The deleted claim is one of this group's StatefulSet, whose selector no other StatefulSet shares. */
  ghost predicate OwnClaim(s: Store, name: string, d: Deletion) {
    && d.key.kind.PersistentVolumeClaim? && d.key in d.store
    && Key(StatefulSet, name) in s
    && (forall k :: ApartAt(s, name, k))
    && Matches(d.store[d.key].labels, s[Key(StatefulSet, name)].selector)
  }

  /** The deleted object carries the labels of this group's extra resources. */
  ghost predicate OwnExtra(c: ClusterCleaner, slot: Slot, d: Deletion) {
    && d.key.kind.Extra? && d.key in d.store
    && Matches(d.store[d.key].labels, c.groups.ExtraSelector(c.clusterName, slot.0, slot.1))
  }

  /** The deletion hits a primary, an extra resource or a claim of this group. */
  ghost predicate HitsGroup(c: ClusterCleaner, r: Pass, slot: Slot, d: Deletion) {
    || d.key in PrimaryScope(c.NameOf(slot))
    || OwnExtra(c, slot, d)
    || OwnClaim(r.sweep.start.store, c.NameOf(slot), d)
  }

  ghost predicate Waits(c: ClusterCleaner, r: Pass, slot: Slot, since: int, d: Deletion) {
    || Waited(d.now, since, c.groups.gracePeriod)
    || (!HitsGroup(c, r, slot, d) && DueElsewhere(c, r, c.NameOf(slot), d))
  }

  ghost predicate WaitsAt(c: ClusterCleaner, r: Pass, slot: Slot, since: int, i: int) {
    |r.sweep.start.log| <= i < |r.after.log| ==> Waits(c, r, slot, since, r.after.log[i])
  }

  /** Nothing is deleted for the group in this pass before its grace period, counted from `since`, is
      over, and none of its primaries, extra resources and claims for any other group either. */
  ghost predicate DeletionsWait(c: ClusterCleaner, r: Pass, slot: Slot, since: int) {
    && (forall i :: WaitsAt(c, r, slot, since, i))
    && KeepsRunning(c, r, slot, since)
  }

  /** Its StatefulSet keeps its replicas and its drain clock, and both primaries everything but their marks. */
  ghost predicate KeepsRunning(c: ClusterCleaner, r: Pass, slot: Slot, since: int) {
    || r.after.now - since > c.groups.gracePeriod - SECOND
    || OnlyMarks(r.sweep.start.store, r.after.store, c.NameOf(slot))
  }

  lemma PassWaits(c: ClusterCleaner, r: Pass, slot: Slot, since: int)
    requires Performed(c, r) && r.sweep.start.synced && c.groups.gracePeriod > 0
    requires c.NameOf(slot) !in r.sweep.live && r.sweep.since(c.NameOf(slot)) == since
    requires InGrace(r.sweep.start, c.NameOf(slot), c.uid, since, c.groups.gracePeriod)
    ensures DeletionsWait(c, r, slot, since)
    ensures InGrace(r.after, c.NameOf(slot), c.uid, since, c.groups.gracePeriod)
  {
    var p := r.sweep;
    assert c.GraceKept(p, r.after, c.NameOf(slot));
    forall i
      ensures WaitsAt(c, r, slot, since, i)
    {
      assert c.AccountedAt(p, r.after, i);
      if |p.start.log| <= i < |r.after.log| {
        DeletionWaits(c, r, slot, since, r.after.log[i]);
      }
    }
  }

  lemma {:induction false} DeletionWaits(c: ClusterCleaner, r: Pass, slot: Slot, since: int, d: Deletion)
    requires r.sweep.start.synced && c.groups.gracePeriod > 0 && c.Accounted(r.sweep, r.after.seen, d)
    requires c.NameOf(slot) !in r.sweep.live && r.sweep.since(c.NameOf(slot)) == since
    requires InGrace(r.sweep.start, c.NameOf(slot), c.uid, since, c.groups.gracePeriod)
    ensures Waits(c, r, slot, since, d)
  {
    var p := r.sweep;
    if !c.RolePdbLawful(d, p.start, r.after.seen, p.spec) {
      var o :| c.DueTo(p, r.after.seen, d, o);
      if o.resourceName != c.NameOf(slot) {
        OthersMissGroup(c, r, slot, d, o);
      }
    }
  }

  /** With current reads, what goes for one orphan is not another group's. */
  lemma OthersMissGroup(c: ClusterCleaner, r: Pass, slot: Slot, d: Deletion, o: OrphanRef)
    requires r.sweep.start.synced && c.DueTo(r.sweep, r.after.seen, d, o) && o.resourceName != c.NameOf(slot)
    ensures !HitsGroup(c, r, slot, d)
  {
    var p := r.sweep;
    PrimariesApart(o.resourceName, c.NameOf(slot), p.live, p.deletePvcs);
    if d.key.kind.Extra? {
      OthersExtra(c, slot, d, o, p);
    } else if d.key.kind.PersistentVolumeClaim? {
      OthersClaim(c, slot, d, o, p);
    }
  }

  lemma OthersExtra(c: ClusterCleaner, slot: Slot, d: Deletion, o: OrphanRef, p: Sweep)
    requires BelongsAt(c.TargetIn(p, o), d.store, d.key) && d.key.kind.Extra?
    requires o == c.RefOf((o.roleName, o.groupName)) && o.resourceName != c.NameOf(slot)
    ensures !OwnExtra(c, slot, d)
  {
    var mine := c.groups.ExtraSelector(c.clusterName, slot.0, slot.1);
    var its := c.groups.ExtraSelector(c.clusterName, o.roleName, o.groupName);
    assert |LABEL_COMPONENT| != |LABEL_ROLE_GROUP|;
    assert LABEL_COMPONENT in mine && LABEL_COMPONENT in its && LABEL_ROLE_GROUP in mine && LABEL_ROLE_GROUP in its;
    assert mine[LABEL_COMPONENT] == slot.0 && its[LABEL_COMPONENT] == o.roleName;
    assert mine[LABEL_ROLE_GROUP] == slot.1 && its[LABEL_ROLE_GROUP] == o.groupName;
    assert slot == (slot.0, slot.1);
  }

  lemma OthersClaim(c: ClusterCleaner, slot: Slot, d: Deletion, o: OrphanRef, p: Sweep)
    requires ClaimCovered(d, RuleOf(c.PlanIn(p, o))) && d.key.kind.PersistentVolumeClaim? && p.start.synced
    requires o.resourceName != c.NameOf(slot)
    ensures !OwnClaim(p.start.store, c.NameOf(slot), d)
  {
    var sts :| CoversClaim(d, RuleOf(c.PlanIn(p, o)), sts);
    var s, its, mine := p.start.store, Key(StatefulSet, o.resourceName), Key(StatefulSet, c.NameOf(slot));
    assert Matches(d.store[d.key].labels, s[its].selector);
    if mine in s && forall k :: ApartAt(s, c.NameOf(slot), k) {
      assert ApartAt(s, c.NameOf(slot), its);
      var k :| k in s[its].selector && k in s[mine].selector && s[its].selector[k] != s[mine].selector[k];
      assert d.store[d.key].labels[k] == s[its].selector[k];
    }
  }

  lemma UndisturbedInGrace(w: World, w': World, name: string, uid: string, since: int, grace: int)
    requires Undisturbed(w, w', name) && InGrace(w, name, uid, since, grace)
    ensures InGrace(w', name, uid, since, grace)
  {
    assert UndisturbedAt(w, w', name, Key(StatefulSet, name)) && UndisturbedAt(w, w', name, Key(ConfigMap, name));
  }

  /** In every run of passes with current reads, through every crash, nothing is deleted for a group
      first seen orphaned at `since` before its grace period is over, as long as the group stays orphaned. */
  lemma {:induction false} GraceOverRun(c: ClusterCleaner, run: seq<Pass>, slot: Slot, since: int)
    requires IsRun(c, run, c.NameOf(slot)) && run != [] && c.groups.gracePeriod > 0
    requires forall i :: 0 <= i < |run| ==>
      c.NameOf(slot) !in run[i].sweep.live && run[i].sweep.since(c.NameOf(slot)) == since && run[i].sweep.start.synced
    requires InGrace(run[0].sweep.start, c.NameOf(slot), c.uid, since, c.groups.gracePeriod)
    ensures forall i :: 0 <= i < |run| ==> DeletionsWait(c, run[i], slot, since)
  {
    assert RunsAt(c, run, c.NameOf(slot), 0);
    PassWaits(c, run[0], slot, since);
    if |run| > 1 {
      UndisturbedInGrace(run[0].after, run[1].sweep.start, c.NameOf(slot), c.uid, since, c.groups.gracePeriod);
      RunRest(c, run, c.NameOf(slot));
      GraceOverRun(c, run[1..], slot, since);
      forall i | 1 <= i < |run|
        ensures DeletionsWait(c, run[i], slot, since)
      {
        assert run[i] == run[1..][i - 1];
      }
    }
  }

  ghost function TargetFor(c: ClusterCleaner, r: Pass, slot: Slot): Target {
    c.TargetIn(r.sweep, c.RefOf(slot))
  }

  ghost predicate OpenIn(c: ClusterCleaner, r: Pass, slot: Slot, second: int) {
    && Ripe(r.sweep.start, c.NameOf(slot), second, c.groups.gracePeriod)
    && Ripe(r.after, c.NameOf(slot), second, c.groups.gracePeriod)
    && !c.groups.GraceRuns(r.sweep.start, r.after, TargetFor(c, r, slot))
  }

  lemma GateStaysUndisturbed(w: World, w': World, name: string, second: int, grace: int)
    requires Undisturbed(w, w', name) && Ripe(w, name, second, grace)
    ensures Ripe(w', name, second, grace)
  {
    assert UndisturbedAt(w, w', name, Key(StatefulSet, name)) && UndisturbedAt(w, w', name, Key(ConfigMap, name));
  }

  lemma PassKeepsGate(c: ClusterCleaner, r: Pass, slot: Slot, second: int)
    requires Performed(c, r) && r.sweep.start.synced && c.groups.gracePeriod > 0 && c.NameOf(slot) !in r.sweep.live
    requires Ripe(r.sweep.start, c.NameOf(slot), second, c.groups.gracePeriod)
    ensures OpenIn(c, r, slot, second)
  {
    assert c.GraceKept(r.sweep, r.after, c.NameOf(slot));
    assert RipeKept(r.sweep.start, r.after, c.NameOf(slot), second, c.groups.gracePeriod);
  }

  /** Once the gate of a teardown is open, it stays open in every run of passes with current reads for as
      long as the group is orphaned, while its primaries disappear one after the other: no pass waits for
      the grace period again. */
  lemma {:induction false} GateStaysOpen(c: ClusterCleaner, run: seq<Pass>, slot: Slot, second: int)
    requires IsRun(c, run, c.NameOf(slot)) && run != [] && c.groups.gracePeriod > 0
    requires forall i :: 0 <= i < |run| ==> c.NameOf(slot) !in run[i].sweep.live && run[i].sweep.start.synced
    requires Ripe(run[0].sweep.start, c.NameOf(slot), second, c.groups.gracePeriod)
    ensures forall i :: 0 <= i < |run| ==> OpenIn(c, run[i], slot, second)
  {
    assert RunsAt(c, run, c.NameOf(slot), 0);
    PassKeepsGate(c, run[0], slot, second);
    if |run| > 1 {
      GateStaysUndisturbed(run[0].after, run[1].sweep.start, c.NameOf(slot), second, c.groups.gracePeriod);
      RunRest(c, run, c.NameOf(slot));
      GateStaysOpen(c, run[1..], slot, second);
      forall i | 1 <= i < |run|
        ensures OpenIn(c, run[i], slot, second)
      {
        assert run[i] == run[1..][i - 1];
      }
    }
  }

  lemma RunRest(c: ClusterCleaner, run: seq<Pass>, name: string)
    requires IsRun(c, run, name) && run != []
    ensures IsRun(c, run[1..], name)
  {
    forall i
      ensures RunsAt(c, run[1..], name, i)
    {
      assert RunsAt(c, run, name, i + 1);
    }
  }

  /** A pass that had no request refused has reset every declared group. */
  lemma AllCleared(c: ClusterCleaner, r: Pass)
    requires Performed(c, r) && r.after.refused == r.sweep.start.refused
    ensures r.cleared == r.sweep.live
  {
    assert r.sweep.live - r.cleared == {};
    assert r.sweep.live == (r.sweep.live - r.cleared) + r.cleared;
  }

  /** A group that was reset while it was declared starts a full grace period when it is removed again,
      whatever marks its earlier teardowns had left. A pass without a refused request resets it. */
  lemma {:induction false} FreshGrace(c: ClusterCleaner, reset: Pass, run: seq<Pass>, slot: Slot)
    requires Performed(c, reset) && reset.sweep.start.synced && c.NameOf(slot) in reset.sweep.live
    requires c.NameOf(slot) in reset.cleared || reset.after.refused == reset.sweep.start.refused
    requires !c.HasName(reset.orphans, c.NameOf(slot))
    requires NoForeignPrimary(reset.after.store, c.NameOf(slot), c.uid)
    requires Standing(reset.after.store, Key(StatefulSet, c.NameOf(slot))) ||
      Standing(reset.after.store, Key(ConfigMap, c.NameOf(slot)))
    requires IsRun(c, run, c.NameOf(slot)) && run != [] && c.groups.gracePeriod > 0
    requires Undisturbed(reset.after, run[0].sweep.start, c.NameOf(slot))
    requires forall i :: 0 <= i < |run| ==>
      && c.NameOf(slot) !in run[i].sweep.live
      && run[i].sweep.since(c.NameOf(slot)) == reset.after.now
      && run[i].sweep.start.synced
    ensures forall i :: 0 <= i < |run| ==> DeletionsWait(c, run[i], slot, reset.after.now)
  {
    var name := c.NameOf(slot);
    if name !in reset.cleared {
      AllCleared(c, reset);
    }
    assert c.StillCleared(reset.cleared, reset.orphans, reset.after.store, name);
    ClearedStartsOver(reset.after, name, c.uid, c.groups.gracePeriod);
    UndisturbedInGrace(reset.after, run[0].sweep.start, name, c.uid, reset.after.now, c.groups.gracePeriod);
    GraceOverRun(c, run, slot, reset.after.now);
  }

  // ---------------------------------------------------------------------------------------------
  // The order of a teardown
  // ---------------------------------------------------------------------------------------------

  /** When an object of the role group may go, and what had to be gone before: a claim matches the
      StatefulSet of the group, which is drained; an extra resource carries the group's labels. */
  ghost predicate Preceded(d: Deletion, p: Plan, live: set<string>) {
    var n, uid := p.target.name, p.target.uid;
    match d.key.kind
    case PodDisruptionBudget => d.key.name == n
    case StatefulSet =>
      && d.key.name == n
      && !OwnedAt(d.store, Key(PodDisruptionBudget, n), uid)
      && AfterDrain(d, SetKey(p), p.deletePvcs, p.drainDeadline)
    case PersistentVolumeClaim =>
      && p.deletePvcs
      && !OwnedAt(d.store, Key(PodDisruptionBudget, n), uid)
      && (exists sts :: CoversClaim(d, RuleOf(p), sts))
    case Extra(_) =>
      && BelongsAt(p.target, d.store, d.key)
      && !OwnedAt(d.store, Key(PodDisruptionBudget, n), uid)
      && !OwnedAt(d.store, Key(StatefulSet, n), uid)
    case ConfigMap =>
      && d.key.name == n
      && !OwnedAt(d.store, Key(PodDisruptionBudget, n), uid)
      && !OwnedAt(d.store, Key(StatefulSet, n), uid)
      && StepDone(ExtrasStep, d.store, p.target)
    case Service =>
      && (d.key.name == n || (d.key.name in {n + "-headless", n + "-metrics"} && d.key.name !in live))
      && !OwnedAt(d.store, Key(PodDisruptionBudget, n), uid)
      && !OwnedAt(d.store, Key(StatefulSet, n), uid)
      && StepDone(ExtrasStep, d.store, p.target)
      && !OwnedAt(d.store, Key(ConfigMap, n), uid)
      && (d.key.name != n ==> !OwnedAt(d.store, Key(Service, n), uid))
      && (d.key.name == n + "-metrics" && n + "-headless" !in live ==>
            !OwnedAt(d.store, Key(Service, n + "-headless"), uid))
  }

  lemma StepsBeforeDone(steps: seq<Step>, j: nat, i: nat, s: Store, t: Target)
    requires i < j <= |steps| && StepsDone(steps[..j], s, t)
    ensures StepDone(steps[i], s, t)
  {
    assert steps[..j][i] == steps[i];
  }

  /** The order of the steps, as it follows for a deletion issued by step `j`. */
  lemma StepOrder(d: Deletion, p: Plan, live: set<string>, j: nat)
    requires p.steps == Steps(p.target.name, live, p.deletePvcs) && p.current && Lawful(d, p)
    requires j < |p.steps| && d.key in StepScope(p.steps[j]) && StepsDone(p.steps[..j], d.store, p.target)
    ensures Preceded(d, p, live)
  {
    var n, steps := p.target.name, p.steps;
    var tail := Derived(n, "-headless", live) + Derived(n, "-metrics", live);
    if j > 0 {
      StepsBeforeDone(steps, j, 0, d.store, p.target);
    }
    if j > 1 {
      StepsBeforeDone(steps, j, 1, d.store, p.target);
    }
    if j > 2 {
      StepsBeforeDone(steps, j, 2, d.store, p.target);
    }
    if j > 3 {
      StepsBeforeDone(steps, j, 3, d.store, p.target);
    }
    if j > 4 {
      StepsBeforeDone(steps, j, 4, d.store, p.target);
      assert steps[j] == tail[j - 5];
      SuffixesDiffer(n, n);
      if j > 5 {
        StepsBeforeDone(steps, j, 5, d.store, p.target);
        assert steps[5] == tail[0];
      }
    }
  }

  lemma SuffixesDiffer(a: string, b: string)
    ensures a + "-headless" != b + "-metrics"
  {
    var s, t := a + "-headless", b + "-metrics";
    assert s[|s| - 2] == 's' && t[|t| - 2] == 'c';
  }

  /** With up-to-date reads, every deletion in every pass follows the order of the teardown it belongs
      to: no later kind goes while an earlier owned one exists; a StatefulSet goes only once it is drained,
      a claim only when asked for, with its own StatefulSet and once that is drained; an extra resource
      goes only if it carries the labels of the role group. */
  lemma DeletionsInOrder(c: ClusterCleaner, r: Pass, i: nat)
    requires Performed(c, r) && r.sweep.start.synced
    requires |r.sweep.start.log| <= i < |r.after.log|
    ensures var d := r.after.log[i]; var p := r.sweep;
      || c.RolePdbLawful(d, p.start, r.after.seen, p.spec)
      || exists o :: c.DueTo(p, r.after.seen, d, o) && InTurn(c, p, d, o)
    ensures c.PlainlyDue(r.after.log[i], r.sweep.start, r.sweep.spec, ClaimsAsked(r))
  {
    var d, p := r.after.log[i], r.sweep;
    assert c.AccountedAt(p, r.after, i) && c.PlainlyDueAt(p.start, r.after, p.spec, ClaimsAsked(r), i);
    if !c.RolePdbLawful(d, p.start, r.after.seen, p.spec) {
      var o :| c.DueTo(p, r.after.seen, d, o);
      var plan := c.PlanIn(p, o);
      var j :| 0 <= j < |plan.steps| && d.key in StepScope(plan.steps[j]) && StepsDone(plan.steps[..j], d.store, plan.target);
      StepOrder(d, plan, p.live, j);
    }
  }

  /** The deletion `d` was in turn for the orphan `o`. */
  ghost predicate InTurn(c: ClusterCleaner, p: Sweep, d: Deletion, o: OrphanRef) {
    && Preceded(d, c.PlanIn(p, o), p.live)
    && (NamesStable(p.start) && !d.key.kind.PersistentVolumeClaim? ==> OwnedAt(d.store, d.key, c.uid))
  }

  // ---------------------------------------------------------------------------------------------
  // Claims nobody asked to delete
  // ---------------------------------------------------------------------------------------------

  /** Neither the pass nor what happens before the next one is asked to delete the claim. */
  ghost predicate UnaskedAt(c: ClusterCleaner, run: seq<Pass>, k: Key, i: int) {
    0 <= i < |run| ==>
      && Performed(c, run[i])
      && !ClaimsAsked(run[i])
      && (i + 1 < |run| ==> c.ClaimStands(run[i].after.store, run[i + 1].sweep.start.store, k))
  }

  ghost predicate StandsIn(r: Pass, k: Key) {
    k in r.after.store && !r.after.store[k].deleting
  }

  /** As long as the annotation of the cluster does not say "true", no run of passes, with whatever failures
      and whatever stale reads, deletes a claim. */
  lemma {:induction false} ClaimsSurvive(c: ClusterCleaner, run: seq<Pass>, k: Key)
    requires run != [] && k.kind.PersistentVolumeClaim? && forall i :: UnaskedAt(c, run, k, i)
    requires k in run[0].sweep.start.store && !run[0].sweep.start.store[k].deleting
    ensures forall i :: 0 <= i < |run| ==> StandsIn(run[i], k)
  {
    assert UnaskedAt(c, run, k, 0);
    assert c.ClaimStands(run[0].sweep.start.store, run[0].after.store, k);
    if |run| > 1 {
      forall i
        ensures UnaskedAt(c, run[1..], k, i)
      {
        assert UnaskedAt(c, run, k, i + 1);
      }
      ClaimsSurvive(c, run[1..], k);
      forall i | 1 <= i < |run|
        ensures StandsIn(run[i], k)
      {
        assert run[i] == run[1..][i - 1];
      }
    }
  }

  // ---------------------------------------------------------------------------------------------
  // Role groups that are declared
  // ---------------------------------------------------------------------------------------------

  /** The resources of the role group `m`. */
  ghost predicate ResourceOf(m: string, k: Key) {
    || k in {Key(PodDisruptionBudget, m), Key(StatefulSet, m), Key(ConfigMap, m), Key(Service, m)}
    || k in {Key(Service, m + "-headless"), Key(Service, m + "-metrics")}
  }

  ghost predicate Spared(n: string, m: string, live: set<string>, deletePvcs: bool) {
    forall k :: ResourceOf(m, k) ==> k !in ScopeOf(Steps(n, live, deletePvcs))
  }

  lemma InStep(n: string, live: set<string>, deletePvcs: bool, j: nat, k: Key)
    requires j < |Steps(n, live, deletePvcs)| && k in StepScope(Steps(n, live, deletePvcs)[j])
    ensures k in ScopeOf(Steps(n, live, deletePvcs))
  {
  }

  /** The guard on derived names spares a declared group exactly when the orphan's own name is neither
      the group's nor one of its derived names. */
  lemma GuardIsExact(n: string, m: string, live: set<string>, deletePvcs: bool)
    requires m in live
    ensures Spared(n, m, live, deletePvcs) <==> n !in {m, m + "-headless", m + "-metrics"}
  {
    var steps := Steps(n, live, deletePvcs);
    if n == m {
      InStep(n, live, deletePvcs, 0, Key(PodDisruptionBudget, m));
      assert ResourceOf(m, Key(PodDisruptionBudget, m));
    } else if n == m + "-headless" || n == m + "-metrics" {
      InStep(n, live, deletePvcs, 4, Key(Service, n));
      assert ResourceOf(m, Key(Service, n));
    } else {
      forall k | ResourceOf(m, k)
        ensures k !in ScopeOf(steps)
      {
        forall j | 0 <= j < |steps|
          ensures k !in StepScope(steps[j])
        {
          SparedByStep(n, m, live, deletePvcs, j, k);
        }
      }
    }
  }

  lemma SparedByStep(n: string, m: string, live: set<string>, deletePvcs: bool, j: nat, k: Key)
    requires m in live && n !in {m, m + "-headless", m + "-metrics"}
    requires ResourceOf(m, k) && j < |Steps(n, live, deletePvcs)|
    ensures k !in StepScope(Steps(n, live, deletePvcs)[j])
  {
    if j >= 5 {
      var tail := Derived(n, "-headless", live) + Derived(n, "-metrics", live);
      assert Steps(n, live, deletePvcs)[j] == tail[j - 5];
      SuffixesDiffer(n, m);
      SuffixesDiffer(m, n);
      SuffixInjective(n, m, "-headless");
      SuffixInjective(n, m, "-metrics");
    }
  }

  lemma SuffixInjective(a: string, b: string, suffix: string)
    requires a != b
    ensures a + suffix != b + suffix
  {
    if |a| == |b| {
      assert (a + suffix)[..|a|] == a && (b + suffix)[..|b|] == b;
    }
  }

  // ---------------------------------------------------------------------------------------------
  // The ledger
  // ---------------------------------------------------------------------------------------------

  /** The pass forgot this role group. */
  ghost predicate Pruned(r: Pass, slot: Slot) {
    slot in r.sweep.ledger && slot !in r.ledger
  }

  /** Between two passes no object of this role group appears. */
  ghost predicate NothingComesAt(t: Target, run: seq<Pass>, i: int) {
    0 <= i && i + 1 < |run| ==> NothingComes(t, run[i].after.store, run[i + 1].sweep.start.store)
  }

  /** However stale the cache, a role group leaves the ledger only when nothing of it is left in the
      store, provided the last look is an uncached one, and no pass ever brings any of it back. */
  lemma {:induction false} PrunedForGood(c: ClusterCleaner, run: seq<Pass>, name: string, i: nat, j: nat, slot: Slot)
    requires IsRun(c, run, name) && i <= j < |run|
    requires forall k :: NothingComesAt(c.TargetIn(run[i].sweep, c.RefOf(slot)), run, k)
    requires Pruned(run[i], slot) && (c.groups.hasApiReader || run[i].sweep.start.synced)
    ensures slot !in SlotsOf(run[i].sweep.spec)
    ensures c.groups.Reclaimed(run[j].after.store, c.clusterName, c.RefOf(slot), c.uid, run[i].sweep.live)
    ensures c.uid != "" ==> c.NothingLeft(run[j].after.store, slot, run[i].sweep.spec)
    decreases j - i
  {
    var ref, live := c.RefOf(slot), run[i].sweep.live;
    assert RunsAt(c, run, name, i) && RunsAt(c, run, name, j);
    if c.uid != "" {
      c.ReclaimedPlainly(run[j].after.store, slot, run[i].sweep.spec);
    }
    if i == j {
      assert c.PrunedAt(run[i].sweep, run[i].after, run[i].ledger, slot);
    } else {
      PrunedForGood(c, run, name, i, j - 1, slot);
      assert NothingComesAt(c.TargetIn(run[i].sweep, ref), run, j - 1);
      c.ReclaimedWhileNothingComes(run[j - 1].after.store, run[j].sweep.start.store, ref, live);
      c.ReclaimedStays(run[j].sweep.start.store, run[j].after.store, ref, live);
    }
  }

  /** If the status write after a pass is lost, an error-free pass over the same spec and ledger forgets
      the role group again. */
  lemma RedoForgetsAgain(c: ClusterCleaner, first: Pass, redo: Pass, slot: Slot)
    requires Performed(c, first) && Performed(c, redo)
    requires redo.sweep.ledger == first.sweep.ledger && redo.sweep.spec == first.sweep.spec
    requires NothingComes(c.TargetIn(first.sweep, c.RefOf(slot)), first.after.store, redo.sweep.start.store)
    requires c.groups.hasApiReader || first.sweep.start.synced
    requires !redo.failed && redo.sweep.start.synced
    requires Pruned(first, slot) && slot.0 != ""
    requires c.Sole(slot, redo.sweep.ledger - SlotsOf(redo.sweep.spec))
    ensures Pruned(redo, slot)
  {
    assert c.PrunedAt(first.sweep, first.after, first.ledger, slot);
    c.ReclaimedWhileNothingComes(first.after.store, redo.sweep.start.store, c.RefOf(slot), first.sweep.live);
    assert c.Collected(redo.orphans, redo.sweep.ledger - SlotsOf(redo.sweep.spec), slot);
    var i :| 0 <= i < |redo.orphans| && redo.orphans[i] == c.RefOf(slot);
    assert c.Forgotten(redo.sweep, redo.orphans[i], redo.ledger);
  }

  // ---------------------------------------------------------------------------------------------
  // Progress
  // ---------------------------------------------------------------------------------------------

  /** The pass is through with the role group, or found it waiting: for its grace period, for the drain of
      its StatefulSet, or for a finalizer on an object of its own. */
  ghost predicate EndsOrWaits(c: ClusterCleaner, r: Pass, slot: Slot) {
    || c.groups.Reclaimed(r.after.store, c.clusterName, c.RefOf(slot), c.uid, r.sweep.live)
    || c.groups.Waiting(r.sweep.start, r.after, TargetFor(c, r, slot))
  }

  /** An error-free pass with current reads over a ledger that remembers the orphan `slot`. */
  ghost predicate Diligent(c: ClusterCleaner, r: Pass, slot: Slot) {
    && Performed(c, r) && !r.failed && r.sweep.start.synced
    && slot in r.sweep.ledger - SlotsOf(r.sweep.spec)
    && c.Sole(slot, r.sweep.ledger - SlotsOf(r.sweep.spec))
    && c.NameOf(slot) !in r.sweep.live
  }

  /** Between two passes only the environment touches what is the orphan's own, and no more derived
      Services become its own. Anything may happen to other objects. */
  ghost predicate LeftAlone(c: ClusterCleaner, r: Pass, next: Pass, slot: Slot) {
    && OwnDrifts(TargetFor(c, r, slot), r.after.store, next.sweep.start.store)
    && TargetFor(c, next, slot).derived <= TargetFor(c, r, slot).derived
  }

  ghost predicate DiligentAt(c: ClusterCleaner, run: seq<Pass>, slot: Slot, i: int) {
    0 <= i < |run| ==>
      && Diligent(c, run[i], slot)
      && (i + 1 < |run| ==> LeftAlone(c, run[i], run[i + 1], slot))
  }

  lemma {:induction false} DiligentPass(c: ClusterCleaner, r: Pass, slot: Slot)
    requires Diligent(c, r, slot)
    ensures EndsOrWaits(c, r, slot) ||
      Measure(r.after.store, TargetFor(c, r, slot)) < Measure(r.sweep.start.store, TargetFor(c, r, slot))
  {
    assert c.Collected(r.orphans, r.sweep.ledger - SlotsOf(r.sweep.spec), slot);
    var i :| 0 <= i < |r.orphans| && r.orphans[i] == c.RefOf(slot);
    assert c.Moving(r.sweep, r.after, r.orphans[i]);
  }

  /** The teardown of an orphan takes at most as many error-free passes as its measure says, unless it
      waits for its grace period, for the drain, or for a finalizer. */
  lemma {:induction false} TeardownEnds(c: ClusterCleaner, run: seq<Pass>, slot: Slot)
    requires forall i :: DiligentAt(c, run, slot, i)
    requires run != [] && |run| > Measure(run[0].sweep.start.store, TargetFor(c, run[0], slot))
    ensures exists i :: 0 <= i < |run| && EndsOrWaits(c, run[i], slot)
  {
    assert DiligentAt(c, run, slot, 0);
    DiligentPass(c, run[0], slot);
    if !EndsOrWaits(c, run[0], slot) {
      assert |run| > 1;
      HeldWhileUndisturbed(run[0].after.store, run[1].sweep.start.store, TargetFor(c, run[0], slot));
      MeasureShrinks(run[1].sweep.start.store, TargetFor(c, run[0], slot), TargetFor(c, run[1], slot));
      forall i
        ensures DiligentAt(c, run[1..], slot, i)
      {
        assert DiligentAt(c, run, slot, i + 1);
      }
      TeardownEnds(c, run[1..], slot);
      var i :| 0 <= i < |run[1..]| && EndsOrWaits(c, run[1..][i], slot);
      assert run[i + 1] == run[1..][i];
    }
  }
}
