/** One cleanup pass over a whole cluster. */
module OrphanCleanup {
  // A pass resets the role groups that are declared, reclaims the budgets of vanished roles, discovers
  // the orphans, and takes each of them one pass further.

  import opened Wrappers
  import opened ApiServer
  import opened Teardown
  import opened GrayDelete
  import opened TeardownSteps
  import opened TeardownReset
  import opened TeardownMeasure
  import opened Cleaner
  import opened ClusterStatus
  import Ordering
  import Requeue
  import ResourceNames

  const ANNOTATION_DELETE_PVCS := "operator.zncdata.dev/delete-pvcs"
  const LABEL_ROLE_PDB := "pdb.kubedoop.dev/role"

  /** One cleanup pass as it is judged: where it starts, what it works on, and, for each name, a time
      at which that group was already orphaned. */
  datatype Sweep = Sweep(
    start: World,
    spec: Spec,
    ledger: set<Slot>,
    live: set<string>,
    deletePvcs: bool,
    since: string -> int)

  /** What a pending orphan asks for: to be looked at again after `wait`. */
  datatype Ask = Ask(orphan: OrphanRef, wait: int, failed: bool)

  class ClusterCleaner {
    const groups: RoleGroupCleaner
    const clusterName: string
    const uid: string
    const digest: string -> string

    constructor (groups: RoleGroupCleaner, clusterName: string, uid: string, digest: string -> string)
      ensures this.groups == groups && this.clusterName == clusterName
      ensures this.uid == uid && this.digest == digest
    {
      this.groups := groups;
      this.clusterName := clusterName;
      this.uid := uid;
      this.digest := digest;
    }

    function NameOf(slot: Slot): string {
      ResourceNames.RoleGroupResourceName(clusterName, slot.0, slot.1, digest)
    }

    function NamesOf(slots: set<Slot>): set<string> {
      set slot | slot in slots :: NameOf(slot)
    }

    // -------------------------------------------------------------------------------------------
    // Role groups that are declared
    // -------------------------------------------------------------------------------------------

    /** Takes the marks and the drain clock off one owned primary. */
    method ClearPrimary(key: Key) returns (err: Option<CleanupError>)
      requires Valid(groups.server.w)
      modifies groups.server
      ensures Valid(groups.server.w) && Wipes(old(groups.server.w), groups.server.w, iset{key}, uid)
      ensures groups.server.w.synced && err.None? ==> ClearedAt(groups.server.w.store, key, uid)
      ensures err.Some? ==> groups.server.w.refused > old(groups.server.w).refused
    {
      var server := groups.server;
      ghost var w0 := server.w;
      var reply := server.Get(key, false);
      ghost var w1 := server.w;
      DriftWipes(w0, w1, iset{key}, uid);
      match reply
      case NotFound => return None;
      case Failed(fault) => return Some(groups.ApiError(fault));
      case Found(obj) =>
        if !IsOwned(obj, uid) || (obj.pending.None? && obj.drain.None?) {
          return None;
        }
        var write;
        ghost var at;
        write, at := server.Update(key, obj, Wiped(obj));
        DriftWipes(w1, at, iset{key}, uid);
        WipesTransitive(w0, w1, at, iset{key}, uid);
        if server.w != at {
          PutWipes(at, key, iset{key}, uid);
          WipesTransitive(w0, at, server.w, iset{key}, uid);
        }
        err := match write
          case Done => None
          case Gone => Some(CleanupFailed)
          case Refused(fault) => Some(groups.ApiError(fault));
    }

    /** Takes both marks off both primaries, so that the next teardown of the group starts afresh. */
    method ClearTeardownProgress(name: string) returns (errs: seq<CleanupError>)
      requires Valid(groups.server.w)
      modifies groups.server
      ensures Valid(groups.server.w) && Wipes(old(groups.server.w), groups.server.w, PrimaryScope(name), uid)
      ensures groups.server.w.synced && errs == [] ==> Cleared(groups.server.w.store, name, uid)
      ensures errs != [] ==> groups.server.w.refused > old(groups.server.w).refused
    {
      ghost var w0 := groups.server.w;
      ghost var scope := PrimaryScope(name);
      SameObjectsValid(w0, w0);
      DriftWipes(w0, w0, scope, uid);
      var primaries := [Key(StatefulSet, name), Key(ConfigMap, name)];
      errs := [];
      for i := 0 to |primaries|
        invariant Valid(groups.server.w) && Wipes(w0, groups.server.w, scope, uid)
        invariant errs != [] ==> groups.server.w.refused > w0.refused
        invariant groups.server.w.synced && errs == [] ==>
          forall j :: 0 <= j < i ==> ClearedAt(groups.server.w.store, primaries[j], uid)
      {
        ghost var w1 := groups.server.w;
        var err := ClearPrimary(primaries[i]);
        WipesWidens(w1, groups.server.w, iset{primaries[i]}, scope, uid);
        WipesTransitive(w0, w1, groups.server.w, scope, uid);
        forall j | 0 <= j < i && ClearedAt(w1.store, primaries[j], uid)
          ensures ClearedAt(groups.server.w.store, primaries[j], uid)
        {
          assert AgedAt(w1.store, groups.server.w.store, primaries[j]);
          assert WipedAt(w1.store, groups.server.w.store, uid, primaries[j]);
        }
        if err.Some? {
          errs := errs + [err.value];
        }
      }
      assert groups.server.w.synced && errs == [] ==>
        ClearedAt(groups.server.w.store, primaries[0], uid) && ClearedAt(groups.server.w.store, primaries[1], uid);
    }

    ghost function PrimariesOf(names: set<string>): iset<Key> {
      iset k: Key | (k.kind.StatefulSet? || k.kind.ConfigMap?) && k.name in names
    }

    lemma NamesOfOneLess(slots: set<Slot>, slot: Slot)
      requires slot in slots
      ensures NamesOf(slots) == NamesOf(slots - {slot}) + {NameOf(slot)}
    {
      assert slots == (slots - {slot}) + {slot};
    }

    /** All but `missed` of the declared groups were reset. */
    ghost predicate ClearedAllBut(live: set<string>, cleared: set<string>, missed: int) {
      |live - cleared| <= missed
    }

    lemma ResetOnwards(w0: World, w1: World, w': World, spec: Spec, slot: Slot)
      requires slot in SlotsOf(spec)
      requires Wipes(w0, w1, PrimariesOf(NamesOf(SlotsOf(spec))), uid) && Wipes(w1, w', PrimaryScope(NameOf(slot)), uid)
      ensures Wipes(w0, w', PrimariesOf(NamesOf(SlotsOf(spec))), uid)
      ensures forall name :: Cleared(w1.store, name, uid) ==> Cleared(w'.store, name, uid)
    {
      var scope := PrimariesOf(NamesOf(SlotsOf(spec)));
      assert NameOf(slot) in NamesOf(SlotsOf(spec));
      WipesWidens(w1, w', PrimaryScope(NameOf(slot)), scope, uid);
      WipesTransitive(w0, w1, w', scope, uid);
      forall name | Cleared(w1.store, name, uid)
        ensures Cleared(w'.store, name, uid)
      {
        ClearedStays(w1.store, w'.store, name, uid);
      }
    }

    /** Resets every declared role group; failures are only logged. `cleared` names the groups whose
        reset succeeded, which are all but as many as requests were refused. */
    method ResetDeclared(spec: Spec) returns (ghost cleared: set<string>)
      requires Valid(groups.server.w)
      modifies groups.server
      ensures Valid(groups.server.w)
      ensures Wipes(old(groups.server.w), groups.server.w, PrimariesOf(NamesOf(SlotsOf(spec))), uid)
      ensures cleared <= NamesOf(SlotsOf(spec))
      ensures ClearedAllBut(NamesOf(SlotsOf(spec)), cleared, groups.server.w.refused - old(groups.server.w).refused)
      ensures groups.server.w.synced ==> forall name :: name in cleared ==> Cleared(groups.server.w.store, name, uid)
    {
      ghost var w0 := groups.server.w;
      ghost var scope := PrimariesOf(NamesOf(SlotsOf(spec)));
      SameObjectsValid(w0, w0);
      DriftWipes(w0, w0, scope, uid);
      cleared := {};
      ghost var missed: set<string> := {};
      var todo := SlotsOf(spec);
      while todo != {}
        invariant todo <= SlotsOf(spec)
        invariant Valid(groups.server.w) && Wipes(w0, groups.server.w, scope, uid)
        invariant cleared <= NamesOf(SlotsOf(spec))
        invariant NamesOf(SlotsOf(spec)) <= cleared + missed + NamesOf(todo)
        invariant |missed| <= groups.server.w.refused - w0.refused
        invariant groups.server.w.synced ==> forall name :: name in cleared ==> Cleared(groups.server.w.store, name, uid)
      {
        ghost var w1, before := groups.server.w, todo;
        var slot :| slot in todo;
        todo := todo - {slot};
        NamesOfOneLess(before, slot);
        var errs := ClearTeardownProgress(NameOf(slot));
        ResetOnwards(w0, w1, groups.server.w, spec, slot);
        if errs == [] {
          cleared := cleared + {NameOf(slot)};
        } else {
          missed := missed + {NameOf(slot)};
        }
      }
      SubsetSizes(NamesOf(SlotsOf(spec)) - cleared, missed);
    }

    // -------------------------------------------------------------------------------------------
    // Budgets of vanished roles
    // -------------------------------------------------------------------------------------------

    ghost function PdbScope(): iset<Key> {
      iset k: Key | k.kind.PodDisruptionBudget?
    }

    /** The object is the budget of a role that the spec does not declare. */
    predicate NamesVanishedRole(o: Obj, spec: Spec) {
      LABEL_ROLE_PDB in o.labels && o.labels[LABEL_ROLE_PDB] !in spec
    }

    /** A budget may go when a version of it was seen to name a vanished role; with current reads that
        was the version deleted. */
    ghost predicate RolePdbLawful(d: Deletion, w: World, seen: set<(Key, Obj)>, spec: Spec) {
      && d.key in PdbScope()
      && uid != ""
      && (exists o :: (d.key, o) in seen && IsOwned(o, uid) && NamesVanishedRole(o, spec))
      && (w.synced ==> d.key in d.store && NamesVanishedRole(d.store[d.key], spec))
      && (NamesStable(w) ==> OwnedAt(d.store, d.key, uid))
    }

    ghost predicate RolePdbLawfulAt(w: World, w': World, spec: Spec, i: int) {
      |w.log| <= i < |w'.log| ==> RolePdbLawful(w'.log[i], w, w'.seen, spec)
    }

    ghost predicate RolePdbGone(s: Store, spec: Spec, k: Key) {
      k.kind.PodDisruptionBudget? && OwnedAt(s, k, uid) ==> !NamesVanishedRole(s[k], spec)
    }

    /** Deletes one listed budget if it is owned and its role has vanished. */
    method DeleteRolePdb(key: Key, item: Obj, spec: Spec) returns (state: DeletionState, err: Option<CleanupError>)
      requires Valid(groups.server.w) && key.kind.PodDisruptionBudget? && uid != ""
      requires (key, item) in groups.server.w.seen && LABEL_ROLE_PDB in item.labels
      requires groups.server.w.synced && key in groups.server.w.store ==> Aged(item, groups.server.w.store[key])
      modifies groups.server
      ensures Valid(groups.server.w) && Quiet(old(groups.server.w), groups.server.w, PdbScope())
      ensures forall i :: RolePdbLawfulAt(old(groups.server.w), groups.server.w, spec, i)
      ensures groups.server.w.synced && err.None? && state.Settled? ==>
        (OwnedAt(groups.server.w.store, key, uid) ==> !NamesVanishedRole(item, spec))
      ensures groups.server.w.synced && err.None? && state.InFlight? ==>
        key in groups.server.w.store && groups.server.w.store[key].deleting
      ensures err.Some? ==> state.InFlight?
      ensures err.Some? ==> groups.server.w.refused > old(groups.server.w).refused
    {
      ghost var w0 := groups.server.w;
      SameObjectsValid(w0, w0);
      DriftQuiet(w0, w0, PdbScope());
      if !IsOwned(item, uid) || item.labels[LABEL_ROLE_PDB] in spec {
        return Settled, None;
      }
      state, err := groups.DeleteOwned(key, uid);
      ghost var w1 := groups.server.w;
      QuietWidens(w0, w1, iset{key}, PdbScope());
      forall i
        ensures RolePdbLawfulAt(w0, w1, spec, i)
      {
        assert DeletionIn(w0, w1, iset{key}, i) && BetweenAt(w0, w1, i);
        if |w0.log| <= i < |w1.log| {
          assert AgedAt(w0.store, w1.log[i].store, key);
          assert NamesStable(w0) ==> OwnTargetAt(|w0.log|, w1.log, iset{key}, uid, i);
        }
      }
    }

    lemma RolePdbTransitive(a: World, b: World, c: World, spec: Spec)
      requires Quiet(a, b, PdbScope()) && Quiet(b, c, PdbScope())
      requires forall i :: RolePdbLawfulAt(a, b, spec, i)
      requires forall i :: RolePdbLawfulAt(b, c, spec, i)
      ensures forall i :: RolePdbLawfulAt(a, c, spec, i)
    {
      forall i
        ensures RolePdbLawfulAt(a, c, spec, i)
      {
        assert RolePdbLawfulAt(a, b, spec, i) && RolePdbLawfulAt(b, c, spec, i);
        assert i < |b.log| && 0 <= i ==> c.log[i] == b.log[i];
      }
    }

    /** An owned budget of a vanished role that was listed and dealt with is still there only while a
        deletion is in flight. */
    ghost predicate PdbHandled(items: Store, todo: set<Key>, s: Store, spec: Spec, inFlight: bool, k: Key) {
      k in items && k !in todo && OwnedAt(s, k, uid) && NamesVanishedRole(items[k], spec) ==> inFlight
    }

    ghost predicate AllPdbHandled(items: Store, todo: set<Key>, s: Store, spec: Spec, inFlight: bool) {
      forall k :: PdbHandled(items, todo, s, spec, inFlight, k)
    }

    lemma PdbHandledStays(items: Store, todo: set<Key>, s: Store, s': Store, spec: Spec, was: bool, inFlight: bool, key: Key)
      requires AllPdbHandled(items, todo, s, spec, was) && StoreAged(s, s') && (was ==> inFlight)
      requires key in items && (OwnedAt(s', key, uid) && NamesVanishedRole(items[key], spec) ==> inFlight)
      ensures AllPdbHandled(items, todo - {key}, s', spec, inFlight)
    {
      forall k
        ensures PdbHandled(items, todo - {key}, s', spec, inFlight, k)
      {
        assert PdbHandled(items, todo, s, spec, was, k) && AgedAt(s, s', k);
      }
    }

    /** Deletes the listed budgets that are owned and whose roles have vanished. */
    method DeleteRolePdbs(items: Store, spec: Spec) returns (state: DeletionState, err: Option<CleanupError>)
      requires Valid(groups.server.w) && uid != ""
      requires forall k :: k in items ==>
        k.kind.PodDisruptionBudget? && LABEL_ROLE_PDB in items[k].labels && (k, items[k]) in groups.server.w.seen
      requires groups.server.w.synced ==> items == Labelled(groups.server.w.store, PodDisruptionBudget, LABEL_ROLE_PDB)
      modifies groups.server
      ensures Valid(groups.server.w) && Quiet(old(groups.server.w), groups.server.w, PdbScope())
      ensures forall i :: RolePdbLawfulAt(old(groups.server.w), groups.server.w, spec, i)
      ensures groups.server.w.synced && err.None? ==>
        AllPdbHandled(items, {}, groups.server.w.store, spec, state.InFlight?)
      ensures groups.server.w.synced && err.None? && state.InFlight? ==>
        exists k :: k in PdbScope() && Moved(old(groups.server.w).store, groups.server.w.store, k)
      ensures err.Some? ==> state.InFlight?
      ensures err.Some? ==> groups.server.w.refused > old(groups.server.w).refused
    {
      ghost var w1 := groups.server.w;
      SameObjectsValid(w1, w1);
      DriftQuiet(w1, w1, PdbScope());
      state := Settled;
      ghost var going := Key(PodDisruptionBudget, "");
      var todo := items.Keys;
      while todo != {}
        invariant Valid(groups.server.w) && Quiet(w1, groups.server.w, PdbScope())
        invariant todo <= items.Keys
        invariant forall i :: RolePdbLawfulAt(w1, groups.server.w, spec, i)
        invariant groups.server.w.synced ==> AllPdbHandled(items, todo, groups.server.w.store, spec, state.InFlight?)
        invariant groups.server.w.synced && state.InFlight? ==>
          going in PdbScope() && Moved(w1.store, groups.server.w.store, going)
      {
        ghost var w2 := groups.server.w;
        ghost var before, was := todo, state.InFlight?;
        var key :| key in todo;
        todo := todo - {key};
        assert AgedAt(w1.store, w2.store, key);
        var step;
        step, err := DeleteRolePdb(key, items[key], spec);
        QuietTransitive(w1, w2, groups.server.w, PdbScope());
        RolePdbTransitive(w1, w2, groups.server.w, spec);
        if err.Some? {
          return step, err;
        }
        assert AgedAt(w2.store, groups.server.w.store, going) && AgedAt(w1.store, groups.server.w.store, key);
        if step.InFlight? {
          state := InFlight;
          going := key;
        }
        if w2.synced {
          PdbHandledStays(items, before, w2.store, groups.server.w.store, spec, was, state.InFlight?, key);
        }
      }
      err := None;
    }

    /** Deletes the role-level budgets of roles that left the spec. Without an owner to match, none. */
    method CleanupOrphanedRolePDBs(spec: Spec) returns (state: DeletionState, err: Option<CleanupError>)
      requires Valid(groups.server.w)
      modifies groups.server
      ensures Valid(groups.server.w) && Quiet(old(groups.server.w), groups.server.w, PdbScope())
      ensures forall i :: RolePdbLawfulAt(old(groups.server.w), groups.server.w, spec, i)
      ensures groups.server.w.synced && err.None? && state.Settled? && uid != "" ==>
        forall k :: RolePdbGone(groups.server.w.store, spec, k)
      ensures groups.server.w.synced && err.None? && state.InFlight? ==>
        exists k :: k in PdbScope() && Moved(old(groups.server.w).store, groups.server.w.store, k)
      ensures err.Some? ==> state.InFlight?
      ensures err.Some? ==> groups.server.w.refused > old(groups.server.w).refused
    {
      ghost var w0 := groups.server.w;
      SameObjectsValid(w0, w0);
      DriftQuiet(w0, w0, PdbScope());
      if uid == "" {
        return Settled, None;
      }
      var reply := groups.server.ListLabelled(PodDisruptionBudget, LABEL_ROLE_PDB);
      DriftQuiet(w0, groups.server.w, PdbScope());
      if reply.ListFailed? {
        return InFlight, Some(groups.ApiError(reply.fault));
      }
      ghost var w1 := groups.server.w;
      state, err := DeleteRolePdbs(reply.items, spec);
      QuietTransitive(w0, w1, groups.server.w, PdbScope());
      forall i
        ensures RolePdbLawfulAt(w0, groups.server.w, spec, i)
      {
        assert RolePdbLawfulAt(w1, groups.server.w, spec, i);
      }
      if w0.synced && err.None? {
        forall k | state.Settled?
          ensures RolePdbGone(groups.server.w.store, spec, k)
        {
          assert AgedAt(w1.store, groups.server.w.store, k);
          assert PdbHandled(reply.items, {}, groups.server.w.store, spec, false, k);
        }
        if state.InFlight? {
          var k :| k in PdbScope() && Moved(w1.store, groups.server.w.store, k);
          assert AgedAt(w0.store, w1.store, k) && AgedAt(w1.store, groups.server.w.store, k);
        }
      }
    }

    // -------------------------------------------------------------------------------------------
    // Discovery
    // -------------------------------------------------------------------------------------------

    function LabelOf(o: Obj, name: string): string {
      if name in o.labels then o.labels[name] else ""
    }

    /** The role group slot a live object occupies, if it is one the framework itself would have named
        this way for these coordinates. */
    function RoleGroupSlotOf(key: Key, o: Obj): Option<OrphanRef> {
      var role, group := LabelOf(o, LABEL_COMPONENT), LabelOf(o, LABEL_ROLE_GROUP);
      if !IsOwned(o, uid) || role == "" || group == "" || key.name != NameOf((role, group)) then None
      else Some(OrphanRef(key.name, role, group))
    }

    function InventorySelector(): map<string, string> {
      map[LABEL_INSTANCE := clusterName, LABEL_MANAGED_BY := MANAGED_BY_VALUE]
    }

    function RefOf(slot: Slot): OrphanRef {
      OrphanRef(NameOf(slot), slot.0, slot.1)
    }

    /** The orphan is a role group the spec does not declare, under the name the framework gives it. */
    predicate Undeclared(o: OrphanRef, spec: Spec) {
      (o.roleName, o.groupName) !in SlotsOf(spec) && o == RefOf((o.roleName, o.groupName))
    }

    /** A StatefulSet or ConfigMap labelled, owned and named as the resource of this role group. */
    ghost predicate LiveSlot(key: Key, o: Obj, ref: OrphanRef) {
      && (key.kind.StatefulSet? || key.kind.ConfigMap?)
      && Matches(o.labels, InventorySelector())
      && RoleGroupSlotOf(key, o) == Some(ref)
    }

    /** The labels say, key by key, whose the object is: the four that the framework puts on everything it
        makes for a role group. */
    ghost predicate CarriesIdentity(labels: map<string, string>, role: string, group: string) {
      && LABEL_INSTANCE in labels && labels[LABEL_INSTANCE] == clusterName
      && LABEL_MANAGED_BY in labels && labels[LABEL_MANAGED_BY] == "operator-go"
      && LABEL_COMPONENT in labels && labels[LABEL_COMPONENT] == role && role != ""
      && LABEL_ROLE_GROUP in labels && labels[LABEL_ROLE_GROUP] == group && group != ""
    }

    static lemma LabelsDiffer()
      ensures LABEL_INSTANCE != LABEL_MANAGED_BY && LABEL_INSTANCE != LABEL_COMPONENT && LABEL_INSTANCE != LABEL_ROLE_GROUP
      ensures LABEL_MANAGED_BY != LABEL_COMPONENT && LABEL_MANAGED_BY != LABEL_ROLE_GROUP && LABEL_COMPONENT != LABEL_ROLE_GROUP
    {
      assert LABEL_INSTANCE[18] == 'i' && LABEL_MANAGED_BY[18] == 'm' && LABEL_COMPONENT[18] == 'c' && LABEL_ROLE_GROUP[18] == 'r';
    }

    lemma IdentityMatches(labels: map<string, string>, slot: Slot)
      ensures CarriesIdentity(labels, slot.0, slot.1) <==>
        slot.0 != "" && slot.1 != "" && Matches(labels, groups.ExtraSelector(clusterName, slot.0, slot.1))
    {
      var selector := groups.ExtraSelector(clusterName, slot.0, slot.1);
      LabelsDiffer();
      assert LABEL_INSTANCE in selector && LABEL_MANAGED_BY in selector;
      assert LABEL_COMPONENT in selector && LABEL_ROLE_GROUP in selector;
    }

    /** An object is taken for a role group's exactly when it is named after it, carries its labels and is
        controlled by this cluster. */
    lemma SlotOfExactly(key: Key, o: Obj, slot: Slot)
      requires uid != ""
      ensures Matches(o.labels, InventorySelector()) && RoleGroupSlotOf(key, o) == Some(RefOf(slot)) <==>
        CarriesIdentity(o.labels, slot.0, slot.1) && o.controller == Some(uid) && key.name == NameOf(slot)
    {
      var selector := InventorySelector();
      LabelsDiffer();
      assert LABEL_INSTANCE in selector && LABEL_MANAGED_BY in selector;
    }

    ghost predicate SeenLive(seen: set<(Key, Obj)>, ref: OrphanRef) {
      exists k, o :: (k, o) in seen && LiveSlot(k, o, ref)
    }

    ghost predicate NamedAtIndex(orphans: seq<OrphanRef>, i: int, name: string) {
      0 <= i < |orphans| && orphans[i].resourceName == name
    }

    ghost predicate HasName(orphans: seq<OrphanRef>, name: string) {
      exists i :: NamedAtIndex(orphans, i, name)
    }

    /** If the object under `k` is the resource of an undeclared role group, the list has its name. */
    ghost predicate LiveFound(orphans: seq<OrphanRef>, s: Store, spec: Spec, k: Key) {
      k in s && (k.kind.StatefulSet? || k.kind.ConfigMap?) && Matches(s[k].labels, InventorySelector()) &&
      RoleGroupSlotOf(k, s[k]).Some? && Undeclared(RoleGroupSlotOf(k, s[k]).value, spec) ==>
        HasName(orphans, k.name)
    }

    /** The listed objects in some order. */
    method Items(items: Store) returns (listed: seq<(Key, Obj)>)
      ensures forall i :: 0 <= i < |listed| ==> listed[i].0 in items && items[listed[i].0] == listed[i].1
      ensures forall k :: k in items ==> exists i :: 0 <= i < |listed| && listed[i] == (k, items[k])
    {
      listed := [];
      var todo := items.Keys;
      while todo != {}
        invariant todo <= items.Keys
        invariant forall i :: 0 <= i < |listed| ==> listed[i].0 in items && items[listed[i].0] == listed[i].1
        invariant forall k :: k in items && k !in todo ==> exists i :: 0 <= i < |listed| && listed[i] == (k, items[k])
      {
        ghost var before := listed;
        var key :| key in todo;
        todo := todo - {key};
        listed := listed + [(key, items[key])];
        assert listed[|before|] == (key, items[key]);
        forall k | k in items && k !in todo && k != key
          ensures exists i :: 0 <= i < |listed| && listed[i] == (k, items[k])
        {
          var i :| 0 <= i < |before| && before[i] == (k, items[k]);
          assert listed[i] == (k, items[k]);
        }
      }
    }

    ghost predicate Candidate(seen: set<(Key, Obj)>, c: (Key, Obj)) {
      c in seen && (c.0.kind.StatefulSet? || c.0.kind.ConfigMap?) && Matches(c.1.labels, InventorySelector())
    }

    ghost predicate CandidateFound(orphans: seq<OrphanRef>, spec: Spec, c: (Key, Obj)) {
      RoleGroupSlotOf(c.0, c.1).Some? && Undeclared(RoleGroupSlotOf(c.0, c.1).value, spec) ==>
        HasName(orphans, c.0.name)
    }

    /** Every one of these is undeclared and was seen alive. */
    ghost predicate Genuine(orphans: seq<OrphanRef>, spec: Spec, seen: set<(Key, Obj)>) {
      forall i :: 0 <= i < |orphans| ==> Undeclared(orphans[i], spec) && SeenLive(seen, orphans[i])
    }

    /** The first `n` candidates that are orphans are in the list. */
    ghost predicate FoundUpTo(orphans: seq<OrphanRef>, spec: Spec, candidates: seq<(Key, Obj)>, n: int)
      requires n <= |candidates|
    {
      forall i :: 0 <= i < n ==> CandidateFound(orphans, spec, candidates[i])
    }

    lemma FoundNext(orphans: seq<OrphanRef>, longer: seq<OrphanRef>, spec: Spec, candidates: seq<(Key, Obj)>, n: nat)
      requires n < |candidates| && FoundUpTo(orphans, spec, candidates, n)
      requires forall name :: HasName(orphans, name) ==> HasName(longer, name)
      requires CandidateFound(longer, spec, candidates[n])
      ensures FoundUpTo(longer, spec, candidates, n + 1)
    {
      forall i | 0 <= i < n
        ensures CandidateFound(longer, spec, candidates[i])
      {
        assert CandidateFound(orphans, spec, candidates[i]);
      }
    }

    lemma GenuineNext(orphans: seq<OrphanRef>, c: (Key, Obj), ref: OrphanRef, spec: Spec, seen: set<(Key, Obj)>)
      requires Genuine(orphans, spec, seen) && Candidate(seen, c) && RoleGroupSlotOf(c.0, c.1) == Some(ref)
      requires Undeclared(ref, spec)
      ensures Genuine(orphans + [ref], spec, seen)
    {
      assert LiveSlot(c.0, c.1, ref) && SeenLive(seen, ref);
    }

    /** The undeclared role groups among the candidates, each name once. */
    method SelectOrphans(candidates: seq<(Key, Obj)>, spec: Spec, ghost seen: set<(Key, Obj)>)
      returns (orphans: seq<OrphanRef>)
      requires forall i :: 0 <= i < |candidates| ==> Candidate(seen, candidates[i])
      ensures Genuine(orphans, spec, seen)
      ensures NoneTwice(orphans)
      ensures FoundUpTo(orphans, spec, candidates, |candidates|)
    {
      orphans := [];
      var known: set<string> := {};
      for i := 0 to |candidates|
        invariant forall name :: name in known <==> HasName(orphans, name)
        invariant Genuine(orphans, spec, seen)
        invariant NoneTwice(orphans)
        invariant FoundUpTo(orphans, spec, candidates, i)
      {
        var (key, o) := candidates[i];
        var ref := RoleGroupSlotOf(key, o);
        ghost var before := orphans;
        if ref.Some? && !(ref.value.roleName in spec && ref.value.groupName in spec[ref.value.roleName]) {
          assert Candidate(seen, candidates[i]);
          if key.name !in known {
            GenuineNext(orphans, candidates[i], ref.value, spec, seen);
            NoneTwiceNext(orphans, ref.value);
            orphans := Appended(orphans, ref.value);
            known := known + {key.name};
          }
        }
        FoundNext(before, orphans, spec, candidates, i);
      }
    }

    ghost predicate NoneTwice(orphans: seq<OrphanRef>) {
      forall i, j :: 0 <= i < j < |orphans| ==> orphans[i].resourceName != orphans[j].resourceName
    }

    lemma NoneTwiceNext(orphans: seq<OrphanRef>, ref: OrphanRef)
      requires NoneTwice(orphans) && !HasName(orphans, ref.resourceName)
      ensures NoneTwice(orphans + [ref])
    {
      forall i | 0 <= i < |orphans|
        ensures orphans[i].resourceName != ref.resourceName
      {
        assert !NamedAtIndex(orphans, i, ref.resourceName);
      }
    }

    method Appended(orphans: seq<OrphanRef>, ref: OrphanRef) returns (r: seq<OrphanRef>)
      ensures r == orphans + [ref]
      ensures forall name :: HasName(r, name) <==> HasName(orphans, name) || name == ref.resourceName
    {
      r := orphans + [ref];
      forall name
        ensures HasName(r, name) <==> HasName(orphans, name) || name == ref.resourceName
      {
        assert NamedAtIndex(r, |orphans|, name) <==> name == ref.resourceName;
        if HasName(orphans, name) {
          var i :| NamedAtIndex(orphans, i, name);
          assert NamedAtIndex(r, i, name);
        }
        if HasName(r, name) {
          var i :| NamedAtIndex(r, i, name);
          assert i < |orphans| ==> NamedAtIndex(orphans, i, name);
        }
      }
    }

    /** `listed` holds every object of `items`. */
    ghost predicate Lists(listed: seq<(Key, Obj)>, items: Store) {
      forall k :: k in items ==> exists i :: 0 <= i < |listed| && listed[i] == (k, items[k])
    }

    /** Two current listings, taken one after the other, leave no live role group out. */
    lemma AllLiveFound(orphans: seq<OrphanRef>, spec: Spec, a: seq<(Key, Obj)>, b: seq<(Key, Obj)>, s: Store, s': Store)
      requires Lists(a, Selected(s, StatefulSet, InventorySelector())) && Lists(b, Selected(s', ConfigMap, InventorySelector()))
      requires (forall k :: DriftedAt(s, s', k)) && FoundUpTo(orphans, spec, a + b, |a + b|)
      ensures forall k :: LiveFound(orphans, s', spec, k)
    {
      forall k
        ensures LiveFound(orphans, s', spec, k)
      {
        assert DriftedAt(s, s', k);
        if k in Selected(s, StatefulSet, InventorySelector()) {
          var i :| 0 <= i < |a| && a[i] == (k, s[k]);
          assert (a + b)[i] == a[i] && CandidateFound(orphans, spec, (a + b)[i]);
        } else if k in Selected(s', ConfigMap, InventorySelector()) {
          var i :| 0 <= i < |b| && b[i] == (k, s'[k]);
          assert (a + b)[|a| + i] == b[i] && CandidateFound(orphans, spec, (a + b)[|a| + i]);
        }
      }
    }

    /** Looks for undeclared role groups among the live StatefulSets and ConfigMaps. */
    method DiscoverLiveOrphans(spec: Spec) returns (orphans: seq<OrphanRef>, err: Option<CleanupError>)
      requires Valid(groups.server.w)
      modifies groups.server
      ensures Valid(groups.server.w) && Drifts(old(groups.server.w), groups.server.w)
      ensures Genuine(orphans, spec, groups.server.w.seen)
      ensures groups.server.w.synced && err.None? && uid != "" ==>
        forall k :: LiveFound(orphans, groups.server.w.store, spec, k)
      ensures err.Some? ==> groups.server.w.refused > old(groups.server.w).refused
    {
      ghost var w0 := groups.server.w;
      SameObjectsValid(w0, w0);
      if uid == "" {
        return [], None;
      }
      var reply := groups.server.List(StatefulSet, InventorySelector(), false);
      if reply.ListFailed? {
        return [], Some(groups.ApiError(reply.fault));
      }
      var sets := reply.items;
      ghost var w1 := groups.server.w;
      reply := groups.server.List(ConfigMap, InventorySelector(), false);
      DriftsTransitive(w0, w1, groups.server.w);
      if reply.ListFailed? {
        return [], Some(groups.ApiError(reply.fault));
      }
      var a := Items(sets);
      var b := Items(reply.items);
      orphans := SelectOrphans(a + b, spec, groups.server.w.seen);
      if w0.synced {
        AllLiveFound(orphans, spec, a, b, w1.store, groups.server.w.store);
      }
      err := None;
    }

    /** No other remembered, undeclared role group shares this one's resource name. */
    ghost predicate Sole(slot: Slot, orphaned: set<Slot>) {
      forall other :: other in orphaned && NameOf(other) == NameOf(slot) ==> other == slot
    }

    /** `refs` holds the remembered orphans under their names; of two that share a name, either. */
    ghost predicate Remembers(refs: map<string, OrphanRef>, orphaned: set<Slot>) {
      && (forall name :: name in refs ==>
            exists slot :: slot in orphaned && refs[name] == RefOf(slot) && name == NameOf(slot))
      && (forall slot :: slot in orphaned ==> NameOf(slot) in refs)
    }

    method RememberedOrphans(orphaned: set<Slot>) returns (refs: map<string, OrphanRef>)
      ensures Remembers(refs, orphaned)
    {
      refs := map[];
      var todo := orphaned;
      while todo != {}
        invariant todo <= orphaned && Remembers(refs, orphaned - todo)
      {
        ghost var before := refs;
        var slot :| slot in todo;
        refs := refs[NameOf(slot) := RefOf(slot)];
        forall name | name in refs
          ensures exists other :: other in orphaned - (todo - {slot}) && refs[name] == RefOf(other) && name == NameOf(other)
        {
          if name != NameOf(slot) {
            var other :| other in orphaned - todo && before[name] == RefOf(other) && name == NameOf(other);
            assert other in orphaned - (todo - {slot});
          }
        }
        todo := todo - {slot};
      }
      assert orphaned - todo == orphaned;
    }

    /** Everything in `refs` is undeclared and either remembered or seen alive. */
    ghost predicate Sound(refs: map<string, OrphanRef>, spec: Spec, ledger: set<Slot>, seen: set<(Key, Obj)>) {
      forall name :: name in refs ==> SoundRef(refs[name], name, spec, ledger, seen)
    }

    ghost predicate SoundRef(ref: OrphanRef, name: string, spec: Spec, ledger: set<Slot>, seen: set<(Key, Obj)>) {
      && ref.resourceName == name
      && Undeclared(ref, spec)
      && ((ref.roleName, ref.groupName) in ledger || SeenLive(seen, ref))
    }

    /** Adds the live orphans whose names the ledger does not know. */
    method AddLive(refs: map<string, OrphanRef>, live: seq<OrphanRef>, ghost spec: Spec, ghost ledger: set<Slot>, ghost seen: set<(Key, Obj)>)
      returns (all: map<string, OrphanRef>)
      requires Sound(refs, spec, ledger, seen)
      requires forall i :: 0 <= i < |live| ==> Undeclared(live[i], spec) && SeenLive(seen, live[i])
      ensures Sound(all, spec, ledger, seen)
      ensures forall name :: name in refs ==> name in all && all[name] == refs[name]
      ensures forall name :: HasName(live, name) ==> name in all
    {
      all := refs;
      for i := 0 to |live|
        invariant Sound(all, spec, ledger, seen)
        invariant forall name :: name in refs ==> name in all && all[name] == refs[name]
        invariant forall j :: 0 <= j < i ==> live[j].resourceName in all
      {
        if live[i].resourceName !in all {
          all := all[live[i].resourceName := live[i]];
        }
      }
      forall name | HasName(live, name)
        ensures name in all
      {
        var i :| NamedAtIndex(live, i, name);
      }
    }

    ghost predicate SortedByName(orphans: seq<OrphanRef>) {
      forall i, j :: 0 <= i < j < |orphans| ==> Ordering.Less(orphans[i].resourceName, orphans[j].resourceName)
    }

    /** The orphans in the order of their names. */
    method InOrderOfName(refs: map<string, OrphanRef>, ghost spec: Spec, ghost ledger: set<Slot>, ghost seen: set<(Key, Obj)>)
      returns (orphans: seq<OrphanRef>)
      requires Sound(refs, spec, ledger, seen)
      ensures SortedByName(orphans)
      ensures forall i :: 0 <= i < |orphans| ==>
        orphans[i].resourceName in refs && orphans[i] == refs[orphans[i].resourceName]
      ensures forall name :: name in refs ==> HasName(orphans, name) && refs[name] in orphans
    {
      var names := Ordering.SortedKeys(refs.Keys);
      assert forall i :: 0 <= i < |names| ==> names[i] in Ordering.Elements(names);
      orphans := [];
      for i := 0 to |names|
        invariant |orphans| == i
        invariant forall j :: 0 <= j < i ==> orphans[j] == refs[names[j]]
      {
        orphans := orphans + [refs[names[i]]];
      }
      forall i | 0 <= i < |orphans|
        ensures orphans[i].resourceName == names[i]
      {
        assert SoundRef(refs[names[i]], names[i], spec, ledger, seen);
      }
      forall name | name in refs
        ensures HasName(orphans, name) && refs[name] in orphans
      {
        assert name in Ordering.Elements(names);
        var i :| 0 <= i < |names| && names[i] == name;
        assert NamedAtIndex(orphans, i, name) && orphans[i] == refs[name];
      }
    }

    /** A remembered orphan is found by its name; under its own coordinates unless another remembered
        orphan shares the name. */
    ghost predicate Collected(orphans: seq<OrphanRef>, orphaned: set<Slot>, slot: Slot) {
      slot in orphaned ==> HasName(orphans, NameOf(slot)) && (Sole(slot, orphaned) ==> RefOf(slot) in orphans)
    }

    lemma RememberedSound(refs: map<string, OrphanRef>, spec: Spec, ledger: set<Slot>, seen: set<(Key, Obj)>)
      requires Remembers(refs, ledger - SlotsOf(spec))
      ensures Sound(refs, spec, ledger, seen)
    {
    }

    lemma CollectedAll(refs: map<string, OrphanRef>, all: map<string, OrphanRef>, orphans: seq<OrphanRef>, orphaned: set<Slot>)
      requires Remembers(refs, orphaned)
      requires forall name :: name in refs ==> name in all && all[name] == refs[name]
      requires forall name :: name in all ==> HasName(orphans, name) && all[name] in orphans
      ensures forall slot :: Collected(orphans, orphaned, slot)
    {
      forall slot
        ensures Collected(orphans, orphaned, slot)
      {
        if slot in orphaned {
          assert NameOf(slot) in refs && NameOf(slot) in all;
          var other :| other in orphaned && refs[NameOf(slot)] == RefOf(other) && NameOf(slot) == NameOf(other);
        }
      }
    }

    /** The resource of an undeclared role group that is alive under this cluster's control is known. */
    ghost predicate LiveKnown(orphans: seq<OrphanRef>, s: Store, spec: Spec, slot: Slot, k: Key) {
      k in s && (k.kind.StatefulSet? || k.kind.ConfigMap?) && k.name == NameOf(slot) && s[k].controller == Some(uid) &&
      CarriesIdentity(s[k].labels, slot.0, slot.1) && !(slot.0 in spec && slot.1 in spec[slot.0]) ==>
        HasName(orphans, k.name)
    }

    ghost predicate AllLiveKnown(orphans: seq<OrphanRef>, s: Store, spec: Spec) {
      forall slot, k :: LiveKnown(orphans, s, spec, slot, k)
    }

    lemma LiveFoundKnown(orphans: seq<OrphanRef>, s: Store, spec: Spec)
      requires uid != "" && forall k :: LiveFound(orphans, s, spec, k)
      ensures AllLiveKnown(orphans, s, spec)
    {
      forall slot, k
        ensures LiveKnown(orphans, s, spec, slot, k)
      {
        assert LiveFound(orphans, s, spec, k);
        if k in s {
          SlotOfExactly(k, s[k], slot);
        }
      }
    }

    /** The role groups this cluster owns that its spec no longer declares: the remembered ones, and
        the ones still alive, in the order of their names. */
    method DiscoverOrphans(spec: Spec, status: GenericClusterStatus) returns (orphans: seq<OrphanRef>, err: Option<CleanupError>)
      requires Valid(groups.server.w)
      modifies groups.server
      ensures Valid(groups.server.w) && Drifts(old(groups.server.w), groups.server.w)
      ensures SortedByName(orphans)
      ensures forall i :: 0 <= i < |orphans| ==>
        SoundRef(orphans[i], orphans[i].resourceName, spec, status.Ledger(), groups.server.w.seen)
      ensures err.None? ==> forall slot :: Collected(orphans, status.Ledger() - SlotsOf(spec), slot)
      ensures groups.server.w.synced && err.None? && uid != "" ==>
        forall k :: LiveFound(orphans, groups.server.w.store, spec, k)
      ensures err.Some? ==> groups.server.w.refused > old(groups.server.w).refused
      ensures groups.server.w.synced && err.None? && uid != "" ==> AllLiveKnown(orphans, groups.server.w.store, spec)
    {
      var orphaned := status.GetOrphanedRoleGroups(spec);
      var refs := RememberedOrphans(SlotsIn(orphaned));
      var live;
      live, err := DiscoverLiveOrphans(spec);
      if err.Some? {
        return [], err;
      }
      ghost var w := groups.server.w;
      RememberedSound(refs, spec, status.Ledger(), w.seen);
      var all := AddLive(refs, live, spec, status.Ledger(), w.seen);
      orphans := InOrderOfName(all, spec, status.Ledger(), w.seen);
      CollectedAll(refs, all, orphans, SlotsIn(orphaned));
      if w.synced && uid != "" {
        LiveFoundWidens(live, orphans, w.store, spec);
        LiveFoundKnown(orphans, w.store, spec);
      }
    }

    lemma LiveFoundWidens(live: seq<OrphanRef>, orphans: seq<OrphanRef>, s: Store, spec: Spec)
      requires forall k :: LiveFound(live, s, spec, k)
      requires forall name :: HasName(live, name) ==> HasName(orphans, name)
      ensures forall k :: LiveFound(orphans, s, spec, k)
    {
      forall k
        ensures LiveFound(orphans, s, spec, k)
      {
        assert LiveFound(live, s, spec, k);
      }
    }

    // -------------------------------------------------------------------------------------------
    // What a pass keeps
    // -------------------------------------------------------------------------------------------

    ghost function TargetIn(p: Sweep, o: OrphanRef): Target {
      groups.TargetOf(clusterName, o, uid, p.live)
    }

    /** The plan a pass follows for one orphan. A group whose name a declared group shares is reset by
        the same pass, so nothing is promised about its grace period. */
    ghost function PlanIn(p: Sweep, o: OrphanRef): Plan {
      var plan := groups.PlanOf(p.start, clusterName, o, uid, p.deletePvcs, p.live, p.since(o.resourceName));
      plan.(gated := plan.gated && o.resourceName !in p.live)
    }

    /** An orphan of this pass is torn down by the rules, and `d` is one of its deletions. */
    ghost predicate DueTo(p: Sweep, seen: set<(Key, Obj)>, d: Deletion, o: OrphanRef) {
      && SoundRef(o, o.resourceName, p.spec, p.ledger, seen)
      && d.key in ScopeOf(PlanIn(p, o).steps)
      && Lawful(d, PlanIn(p, o))
    }

    ghost predicate Accounted(p: Sweep, seen: set<(Key, Obj)>, d: Deletion) {
      RolePdbLawful(d, p.start, seen, p.spec) || exists o :: DueTo(p, seen, d, o)
    }

    ghost predicate AccountedAt(p: Sweep, w: World, i: int) {
      |p.start.log| <= i < |w.log| ==> Accounted(p, w.seen, w.log[i])
    }

    /** The grace period of a group that is not declared keeps running, and its gate stays open. */
    ghost predicate GraceKept(p: Sweep, w: World, name: string) {
      name !in p.live && p.start.synced && groups.gracePeriod > 0 ==>
        && (InGrace(p.start, name, uid, p.since(name), groups.gracePeriod) ==>
              && InGrace(w, name, uid, p.since(name), groups.gracePeriod)
              && Spared(p.start, w, name, p.since(name), groups.gracePeriod))
        && GateKept(p.start, w, name, groups.gracePeriod)
    }

    /** A role group is only forgotten when the spec does not declare it and nothing of it is left. */
    ghost predicate PrunedAt(p: Sweep, w: World, ledger: set<Slot>, slot: Slot) {
      slot in p.ledger && slot !in ledger ==>
        && slot !in SlotsOf(p.spec)
        && (groups.hasApiReader || p.start.synced ==>
              groups.Reclaimed(w.store, clusterName, RefOf(slot), uid, p.live))
    }

    ghost predicate ClaimDrifted(s: Store, s': Store, k: Key) {
      k.kind.PersistentVolumeClaim? ==> DriftedAt(s, s', k)
    }

    /** Unless claims are to be deleted, only the environment touches any. */
    ghost predicate ClaimsKept(p: Sweep, w: World) {
      !p.deletePvcs ==> forall k :: ClaimDrifted(p.start.store, w.store, k)
    }

    lemma ClaimsKeptElsewhere(p: Sweep, w: World, w': World, scope: iset<Key>)
      requires ClaimsKept(p, w) && Confined(w, w', scope)
      requires !p.deletePvcs ==> scope !! ClaimScope()
      ensures ClaimsKept(p, w')
    {
      if !p.deletePvcs {
        forall k
          ensures ClaimDrifted(p.start.store, w'.store, k)
        {
          assert ClaimDrifted(p.start.store, w.store, k) && ConfinedAt(w.store, w'.store, scope, k);
          assert k.kind.PersistentVolumeClaim? ==> k in ClaimScope();
        }
      }
    }

    /** What holds at every moment of a pass. */
    ghost predicate Kept(p: Sweep, w: World, ledger: set<Slot>) {
      && Evolves(p.start, w)
      && ClaimsKept(p, w)
      && ledger <= p.ledger
      && (forall name :: GraceKept(p, w, name))
      && (forall i :: AccountedAt(p, w, i))
      && (forall slot :: PrunedAt(p, w, ledger, slot))
    }

    lemma AccountedWidens(p: Sweep, seen: set<(Key, Obj)>, seen': set<(Key, Obj)>, d: Deletion)
      requires seen <= seen' && Accounted(p, seen, d)
      ensures Accounted(p, seen', d)
    {
      if !RolePdbLawful(d, p.start, seen, p.spec) {
        var o :| DueTo(p, seen, d, o);
        assert DueTo(p, seen', d, o);
      }
    }

    lemma ReclaimedStays(s: Store, s': Store, o: OrphanRef, live: set<string>)
      requires StoreAged(s, s') && groups.Reclaimed(s, clusterName, o, uid, live)
      ensures groups.Reclaimed(s', clusterName, o, uid, live)
    {
      var t := groups.TargetOf(clusterName, o, uid, live);
      StoreAgedOwn(t, s, s');
      ReclaimedWhileNothingComes(s, s', o, live);
    }

    /** A reclaimed role group stays reclaimed unless an object of its own appears. */
    lemma ReclaimedWhileNothingComes(s: Store, s': Store, o: OrphanRef, live: set<string>)
      requires NothingComes(groups.TargetOf(clusterName, o, uid, live), s, s')
      requires groups.Reclaimed(s, clusterName, o, uid, live)
      ensures groups.Reclaimed(s', clusterName, o, uid, live)
    {
      var t := groups.TargetOf(clusterName, o, uid, live);
      NothingBelongs(t, live, s);
      NothingBelongs(t, live, s');
      forall k
        ensures !BelongsAt(t, s', k)
      {
        assert ComesAt(t, s, s', k) && !BelongsAt(t, s, k);
      }
    }

    /** What was kept so far is kept when the rest of the pass keeps its own part of it. */
    lemma KeptOnwards(p: Sweep, w: World, w': World, ledger: set<Slot>)
      requires Kept(p, w, ledger) && Evolves(w, w') && ClaimsKept(p, w')
      requires forall name :: GraceKept(p, w', name)
      requires forall i :: |w.log| <= i < |w'.log| ==> AccountedAt(p, w', i)
      ensures Kept(p, w', ledger)
    {
      EvolvesTransitive(p.start, w, w');
      forall i
        ensures AccountedAt(p, w', i)
      {
        assert AccountedAt(p, w, i);
        if |p.start.log| <= i < |w.log| {
          AccountedWidens(p, w.seen, w'.seen, w.log[i]);
        }
      }
      forall slot
        ensures PrunedAt(p, w', ledger, slot)
      {
        assert PrunedAt(p, w, ledger, slot);
        if groups.Reclaimed(w.store, clusterName, RefOf(slot), uid, p.live) {
          ReclaimedStays(w.store, w'.store, RefOf(slot), p.live);
        }
      }
    }

    /** A stretch of the pass that leaves the primaries of `name` alone keeps its grace period. */
    lemma GraceKeptElsewhere(p: Sweep, w: World, w': World, scope: iset<Key>, name: string)
      requires GraceKept(p, w, name) && w.now <= w'.now && Confined(w, w', scope)
      requires name !in p.live ==> scope !! PrimaryScope(name)
      ensures GraceKept(p, w', name)
    {
      if name !in p.live && InGrace(w, name, uid, p.since(name), groups.gracePeriod) {
        InGraceElsewhere(w, w', scope, name, uid, p.since(name), groups.gracePeriod);
      }
      if name !in p.live && Spared(p.start, w, name, p.since(name), groups.gracePeriod) {
        SparedElsewhere(p.start, w, w', scope, name, p.since(name), groups.gracePeriod);
      }
      if name !in p.live && p.start.synced && groups.gracePeriod > 0 {
        GateStaysElsewhere(w, w', scope, name, groups.gracePeriod);
        GateKeptTransitive(p.start, w, w', name, groups.gracePeriod);
      }
    }

    lemma KeptAtStart(p: Sweep)
      ensures Kept(p, p.start, p.ledger)
    {
      StoreAgedReflexive(p.start.store);
      forall name
        ensures GraceKept(p, p.start, name)
      {
        GateStays(p.start, p.start, name, groups.gracePeriod);
      }
    }

    lemma KeptByReset(p: Sweep, w: World)
      requires Wipes(p.start, w, PrimariesOf(p.live), uid)
      ensures Kept(p, w, p.ledger)
    {
      KeptAtStart(p);
      forall name
        ensures GraceKept(p, w, name)
      {
        assert GraceKept(p, p.start, name);
        GraceKeptElsewhere(p, p.start, w, PrimariesOf(p.live), name);
      }
      ClaimsKeptElsewhere(p, p.start, w, PrimariesOf(p.live));
      KeptOnwards(p, p.start, w, p.ledger);
    }

    lemma StepsMissClaims(name: string, live: set<string>)
      ensures ScopeOf(Steps(name, live, false)) !! ClaimScope()
    {
      var steps := Steps(name, live, false);
      var tail := Derived(name, "-headless", live) + Derived(name, "-metrics", live);
      forall i, k | 0 <= i < |steps| && k in ClaimScope()
        ensures k !in StepScope(steps[i])
      {
        assert i >= 5 ==> steps[i] == tail[i - 5];
      }
    }

    lemma KeptByDrift(p: Sweep, w: World, w': World, ledger: set<Slot>)
      requires Kept(p, w, ledger) && Drifts(w, w')
      ensures Kept(p, w', ledger)
    {
      DriftQuiet(w, w', iset{});
      forall name
        ensures GraceKept(p, w', name)
      {
        assert GraceKept(p, w, name);
        GraceKeptElsewhere(p, w, w', iset{}, name);
      }
      ClaimsKeptElsewhere(p, w, w', iset{});
      KeptOnwards(p, w, w', ledger);
    }

    lemma KeptByRolePdbs(p: Sweep, w: World, w': World, ledger: set<Slot>)
      requires Kept(p, w, ledger) && Quiet(w, w', PdbScope())
      requires forall i :: RolePdbLawfulAt(w, w', p.spec, i)
      ensures Kept(p, w', ledger)
    {
      forall name
        ensures GraceKept(p, w', name)
      {
        assert GraceKept(p, w, name);
        GraceKeptElsewhere(p, w, w', PdbScope(), name);
      }
      forall i | |w.log| <= i < |w'.log|
        ensures AccountedAt(p, w', i)
      {
        assert RolePdbLawfulAt(w, w', p.spec, i);
        assert RolePdbLawful(w'.log[i], p.start, w'.seen, p.spec);
      }
      ClaimsKeptElsewhere(p, w, w', PdbScope());
      KeptOnwards(p, w, w', ledger);
    }

    lemma OrphanDeletionsDue(p: Sweep, w: World, w': World, o: OrphanRef, i: int)
      requires Evolves(p.start, w) && GraceKept(p, w, o.resourceName) && Evolves(w, w')
      requires SoundRef(o, o.resourceName, p.spec, p.ledger, w.seen)
      requires DeletionIn(w, w', ScopeOf(Steps(o.resourceName, p.live, p.deletePvcs)), i)
      requires LawfulAt(|w.log|, w'.log,
                        groups.PlanOf(w, clusterName, o, uid, p.deletePvcs, p.live, p.since(o.resourceName)), i)
      ensures |w.log| <= i < |w'.log| ==> DueTo(p, w'.seen, w'.log[i], o)
    {
      if |w.log| <= i < |w'.log| {
        LawfulFromEarlier(w'.log[i], groups.PlanOf(w, clusterName, o, uid, p.deletePvcs, p.live, p.since(o.resourceName)),
                          PlanIn(p, o));
      }
    }

    /** One pass over one orphan, as part of the pass over all of them. */
    lemma KeptByOrphan(p: Sweep, w: World, w': World, ledger: set<Slot>, o: OrphanRef)
      requires Kept(p, w, ledger) && SoundRef(o, o.resourceName, p.spec, p.ledger, w.seen)
      requires Leads(w, w') && Confined(w, w', ScopeOf(Steps(o.resourceName, p.live, p.deletePvcs)))
      requires var plan := groups.PlanOf(w, clusterName, o, uid, p.deletePvcs, p.live, p.since(o.resourceName));
        && AllLawful(|w.log|, w'.log, plan)
        && (plan.gated ==>
              && InGrace(w', o.resourceName, uid, p.since(o.resourceName), groups.gracePeriod)
              && Spared(w, w', o.resourceName, p.since(o.resourceName), groups.gracePeriod))
      requires w.synced && groups.gracePeriod > 0 ==> GateKept(w, w', o.resourceName, groups.gracePeriod)
      ensures Kept(p, w', ledger)
    {
      var scope := ScopeOf(Steps(o.resourceName, p.live, p.deletePvcs));
      var plan := groups.PlanOf(w, clusterName, o, uid, p.deletePvcs, p.live, p.since(o.resourceName));
      forall name
        ensures GraceKept(p, w', name)
      {
        assert GraceKept(p, w, name);
        if name != o.resourceName {
          PrimariesApart(o.resourceName, name, p.live, p.deletePvcs);
          GraceKeptElsewhere(p, w, w', scope, name);
        } else if name !in p.live && p.start.synced && groups.gracePeriod > 0 {
          GateKeptTransitive(p.start, w, w', name, groups.gracePeriod);
        }
      }
      assert GraceKept(p, w, o.resourceName);
      forall i | |w.log| <= i < |w'.log|
        ensures AccountedAt(p, w', i)
      {
        assert LawfulAt(|w.log|, w'.log, plan, i) && DeletionIn(w, w', scope, i);
        OrphanDeletionsDue(p, w, w', o, i);
      }
      StepsMissClaims(o.resourceName, p.live);
      ClaimsKeptElsewhere(p, w, w', scope);
      KeptOnwards(p, w, w', ledger);
    }

    // -------------------------------------------------------------------------------------------
    // What a pass deletes, in the terms of the objects and of the cleaner's settings
    // -------------------------------------------------------------------------------------------

    /** The resource name of some role group that the spec does not declare. */
    ghost predicate UndeclaredName(name: string, spec: Spec) {
      exists role, group :: NamesUndeclared(name, spec, role, group)
    }

    ghost predicate NamesUndeclared(name: string, spec: Spec, role: string, group: string) {
      !(role in spec && group in spec[role]) && name == NameOf((role, group))
    }

    /** A Service of an undeclared role group: its own, or a derived one whose name no declared group has. */
    ghost predicate UndeclaredService(key: Key, spec: Spec) {
      UndeclaredName(key.name, spec) ||
      exists name :: UndeclaredName(name, spec) && DerivedFrom(key.name, name) && NotDeclared(key.name, spec)
    }

    ghost predicate DerivedFrom(name: string, base: string) {
      name == base + "-headless" || name == base + "-metrics"
    }

    ghost predicate NotDeclared(name: string, spec: Spec) {
      forall role, group :: role in spec && group in spec[role] ==> NameOf((role, group)) != name
    }

    /** The object carries the four identity labels of an undeclared role group. */
    ghost predicate LabelledUndeclared(o: Obj, spec: Spec) {
      exists role, group :: !(role in spec && group in spec[role]) && CarriesIdentity(o.labels, role, group)
    }

    /** The budget of a role that the spec does not declare. */
    ghost predicate RoleVanished(o: Obj, spec: Spec) {
      LABEL_ROLE_PDB in o.labels && o.labels[LABEL_ROLE_PDB] !in spec
    }

    /** Whose object it is that goes. */
    ghost predicate NotOfDeclared(d: Deletion, start: World, spec: Spec) {
      match d.key.kind
      case StatefulSet => UndeclaredName(d.key.name, spec)
      case ConfigMap => UndeclaredName(d.key.name, spec)
      case Service => UndeclaredService(d.key, spec)
      case PodDisruptionBudget =>
        UndeclaredName(d.key.name, spec) || (start.synced ==> d.key in d.store && RoleVanished(d.store[d.key], spec))
      case Extra(_) =>
        start.synced || groups.hasApiReader ==> d.key in d.store && LabelledUndeclared(d.store[d.key], spec)
      case PersistentVolumeClaim => true
    }

    /** As long as nobody takes names over, nothing goes but what this cluster controls, claims apart. */
    ghost predicate NotForeign(d: Deletion, start: World) {
      NamesStable(start) && !d.key.kind.PersistentVolumeClaim? && uid != "" ==>
        d.key in d.store && d.store[d.key].controller == Some(uid)
    }

    /** What every deletion of a pass satisfies; `claimsToo` says that claims were to go. */
    ghost predicate PlainlyDue(d: Deletion, start: World, spec: Spec, claimsToo: bool) {
      && groups.DrainedFirst(d, uid, start.synced, claimsToo)
      && NotOfDeclared(d, start, spec)
      && NotForeign(d, start)
    }

    ghost predicate PlainlyDueAt(start: World, w: World, spec: Spec, claimsToo: bool, i: int) {
      |start.log| <= i < |w.log| ==> PlainlyDue(w.log[i], start, spec, claimsToo)
    }

    ghost predicate AllPlainlyDue(start: World, w: World, spec: Spec, claimsToo: bool) {
      forall i :: PlainlyDueAt(start, w, spec, claimsToo, i)
    }

    lemma UndeclaredRef(o: OrphanRef, spec: Spec)
      requires Undeclared(o, spec)
      ensures UndeclaredName(o.resourceName, spec)
    {
      assert NamesUndeclared(o.resourceName, spec, o.roleName, o.groupName);
    }

    lemma DueDrained(p: Sweep, seen: set<(Key, Obj)>, d: Deletion, o: OrphanRef)
      requires DueTo(p, seen, d, o)
      ensures groups.DrainedFirst(d, uid, p.start.synced, p.deletePvcs)
    {
      var plan := PlanIn(p, o);
      if d.key.kind.PersistentVolumeClaim? {
        groups.CoveredMayGo(d, RuleOf(plan));
      }
      if d.key.kind.StatefulSet? {
        DueKey(p, seen, d, o);
      }
    }

    /** The keys that the teardown of one orphan may delete. */
    lemma DueKey(p: Sweep, seen: set<(Key, Obj)>, d: Deletion, o: OrphanRef)
      requires DueTo(p, seen, d, o)
      ensures d.key.kind.PersistentVolumeClaim? || d.key.kind.Extra? || d.key.name == o.resourceName ||
        (d.key.kind.Service? && DerivedFrom(d.key.name, o.resourceName) && d.key.name !in p.live)
    {
      var steps := PlanIn(p, o).steps;
      var tail := Derived(o.resourceName, "-headless", p.live) + Derived(o.resourceName, "-metrics", p.live);
      var i :| 0 <= i < |steps| && d.key in StepScope(steps[i]);
      assert i >= 5 ==> steps[i] == tail[i - 5];
    }

    lemma LiveNames(p: Sweep, name: string)
      requires p.live == NamesOf(SlotsOf(p.spec)) && name !in p.live
      ensures NotDeclared(name, p.spec)
    {
      forall role, group | role in p.spec && group in p.spec[role]
        ensures NameOf((role, group)) != name
      {
        assert (role, group) in SlotsOf(p.spec);
      }
    }

    lemma ExtraLabels(p: Sweep, d: Deletion, o: OrphanRef)
      requires BelongsAt(TargetIn(p, o), d.store, d.key) && d.key.kind.Extra? && Undeclared(o, p.spec)
      ensures LabelledUndeclared(d.store[d.key], p.spec)
    {
      var selector := groups.ExtraSelector(clusterName, o.roleName, o.groupName);
      assert LABEL_INSTANCE in selector && LABEL_MANAGED_BY in selector;
      assert LABEL_COMPONENT in selector && LABEL_ROLE_GROUP in selector;
      LabelsDiffer();
      assert CarriesIdentity(d.store[d.key].labels, o.roleName, o.groupName);
    }

    lemma DuePlainly(p: Sweep, seen: set<(Key, Obj)>, d: Deletion, o: OrphanRef)
      requires DueTo(p, seen, d, o) && p.live == NamesOf(SlotsOf(p.spec))
      ensures PlainlyDue(d, p.start, p.spec, p.deletePvcs)
    {
      DueDrained(p, seen, d, o);
      DueKey(p, seen, d, o);
      UndeclaredRef(o, p.spec);
      if d.key.kind.Service? && d.key.name != o.resourceName {
        LiveNames(p, d.key.name);
      }
      if d.key.kind.Extra? && (p.start.synced || groups.hasApiReader) {
        ExtraLabels(p, d, o);
      }
    }

    lemma KeptPlainly(p: Sweep, w: World, ledger: set<Slot>)
      requires Kept(p, w, ledger) && p.live == NamesOf(SlotsOf(p.spec))
      ensures AllPlainlyDue(p.start, w, p.spec, p.deletePvcs)
    {
      forall i
        ensures PlainlyDueAt(p.start, w, p.spec, p.deletePvcs, i)
      {
        assert AccountedAt(p, w, i);
        if |p.start.log| <= i < |w.log| && !RolePdbLawful(w.log[i], p.start, w.seen, p.spec) {
          var o :| DueTo(p, w.seen, w.log[i], o);
          DuePlainly(p, w.seen, w.log[i], o);
        }
      }
    }

    /** A claim that nobody was deleting is still there, and still nobody is. */
    ghost predicate ClaimStands(s: Store, s': Store, k: Key) {
      k.kind.PersistentVolumeClaim? && k in s && !s[k].deleting ==> k in s' && !s'[k].deleting
    }

    ghost predicate ClaimsStand(s: Store, s': Store) {
      forall k :: ClaimStands(s, s', k)
    }

    /** The object under `k` is a resource of this role group under this cluster's control. */
    ghost predicate OfGroup(s: Store, slot: Slot, spec: Spec, k: Key) {
      && k in s && s[k].controller == Some(uid)
      && match k.kind
         case PersistentVolumeClaim => false
         case Service => k.name == NameOf(slot) || (DerivedFrom(k.name, NameOf(slot)) && NotDeclared(k.name, spec))
         case Extra(gvk) => Some(gvk) in groups.extraKinds && CarriesIdentity(s[k].labels, slot.0, slot.1)
         case _ => k.name == NameOf(slot)
    }

    /** Nothing in the store is this role group's. */
    ghost predicate NothingLeft(s: Store, slot: Slot, spec: Spec) {
      forall k :: !OfGroup(s, slot, spec, k)
    }

    lemma OfGroupBelongs(s: Store, slot: Slot, spec: Spec, k: Key)
      requires uid != ""
      ensures OfGroup(s, slot, spec, k) <==> BelongsAt(groups.TargetOf(clusterName, RefOf(slot), uid, NamesOf(SlotsOf(spec))), s, k)
    {
      var live := NamesOf(SlotsOf(spec));
      if k.name in live {
        var other :| other in SlotsOf(spec) && NameOf(other) == k.name;
        assert !NotDeclared(k.name, spec) by {
          assert other.0 in spec && other.1 in spec[other.0] && NameOf((other.0, other.1)) == k.name;
        }
      } else {
        forall role, group | role in spec && group in spec[role]
          ensures NameOf((role, group)) != k.name
        {
          assert (role, group) in SlotsOf(spec);
        }
      }
      if k in s {
        IdentityMatches(s[k].labels, slot);
      }
    }

    /** A role group counts as reclaimed exactly when nothing in the store is its own. */
    lemma ReclaimedPlainly(s: Store, slot: Slot, spec: Spec)
      requires uid != ""
      ensures groups.Reclaimed(s, clusterName, RefOf(slot), uid, NamesOf(SlotsOf(spec))) <==> NothingLeft(s, slot, spec)
    {
      var live := NamesOf(SlotsOf(spec));
      NothingBelongs(groups.TargetOf(clusterName, RefOf(slot), uid, live), live, s);
      forall k
        ensures OfGroup(s, slot, spec, k) <==> BelongsAt(groups.TargetOf(clusterName, RefOf(slot), uid, live), s, k)
      {
        OfGroupBelongs(s, slot, spec, k);
      }
    }

    /** A role group that is forgotten is not declared, and nothing of it is left. */
    ghost predicate ForgottenRightly(before: set<Slot>, after: set<Slot>, spec: Spec, w: World, slot: Slot) {
      slot in before && slot !in after ==>
        && !(slot.0 in spec && slot.1 in spec[slot.0])
        && (uid != "" && (w.synced || groups.hasApiReader) ==> NothingLeft(w.store, slot, spec))
    }

    ghost predicate AllForgottenRightly(before: set<Slot>, after: set<Slot>, spec: Spec, w: World) {
      forall slot :: ForgottenRightly(before, after, spec, w, slot)
    }

    /** A remembered orphan of which nothing was left when the pass began is forgotten. */
    ghost predicate ForgottenDuly(before: set<Slot>, after: set<Slot>, spec: Spec, start: World, slot: Slot) {
      slot in before && slot.0 != "" && uid != "" && !(slot.0 in spec && slot.1 in spec[slot.0]) &&
      Sole(slot, before - SlotsOf(spec)) && NothingLeft(start.store, slot, spec) ==>
        slot !in after
    }

    ghost predicate AllForgottenDuly(before: set<Slot>, after: set<Slot>, spec: Spec, start: World) {
      forall slot :: ForgottenDuly(before, after, spec, start, slot)
    }

    /** What a pass comes to, in the terms of the objects. */
    lemma PassPlainly(p: Sweep, w: World, ledger: set<Slot>)
      requires Kept(p, w, ledger) && p.live == NamesOf(SlotsOf(p.spec))
      ensures AllPlainlyDue(p.start, w, p.spec, p.deletePvcs)
      ensures !p.deletePvcs ==> ClaimsStand(p.start.store, w.store)
      ensures AllForgottenRightly(p.ledger, ledger, p.spec, w)
    {
      KeptPlainly(p, w, ledger);
      if !p.deletePvcs {
        forall k
          ensures ClaimStands(p.start.store, w.store, k)
        {
          assert ClaimDrifted(p.start.store, w.store, k);
        }
      }
      forall slot
        ensures ForgottenRightly(p.ledger, ledger, p.spec, w, slot)
      {
        assert PrunedAt(p, w, ledger, slot);
        if uid != "" {
          ReclaimedPlainly(w.store, slot, p.spec);
        }
      }
    }

    lemma ForgottenPlainly(p: Sweep, orphans: seq<OrphanRef>, ledger: set<Slot>)
      requires p.live == NamesOf(SlotsOf(p.spec)) && AllForgotten(p, orphans, ledger)
      requires forall slot :: Collected(orphans, p.ledger - SlotsOf(p.spec), slot)
      ensures AllForgottenDuly(p.ledger, ledger, p.spec, p.start)
    {
      forall slot
        ensures ForgottenDuly(p.ledger, ledger, p.spec, p.start, slot)
      {
        assert Collected(orphans, p.ledger - SlotsOf(p.spec), slot);
        if uid != "" {
          ReclaimedPlainly(p.start.store, slot, p.spec);
        }
        if slot in p.ledger - SlotsOf(p.spec) && Sole(slot, p.ledger - SlotsOf(p.spec)) {
          var i :| 0 <= i < |orphans| && orphans[i] == RefOf(slot);
          assert Forgotten(p, orphans[i], ledger);
        }
      }
    }

    // -------------------------------------------------------------------------------------------
    // Progress
    // -------------------------------------------------------------------------------------------

    /** The teardown of a group that is not declared loses no ground. */
    ghost predicate MeasureHeld(p: Sweep, w: World, w': World, o: OrphanRef) {
      o.resourceName !in p.live && p.start.synced ==> Held(w.store, w'.store, TargetIn(p, o))
    }

    /** What an error-free pass does for an orphan: it is gone, it got further, or it waits for its
        grace period, for its drain, or for a finalizer on an object of its own. */
    ghost predicate Moving(p: Sweep, w: World, o: OrphanRef) {
      || groups.Reclaimed(w.store, clusterName, o, uid, p.live)
      || Measure(w.store, TargetIn(p, o)) < Measure(p.start.store, TargetIn(p, o))
      || groups.Waiting(p.start, w, TargetIn(p, o))
    }

    lemma GraceStillRuns(p: Sweep, w: World, w': World, t: Target)
      requires groups.GraceRuns(p.start, w, t) && PrimariesDrift(w.store, w'.store, t.name)
      ensures groups.GraceRuns(p.start, w', t) || Advanced(t, w.store, w'.store)
    {
      var a, b := Key(StatefulSet, t.name), Key(ConfigMap, t.name);
      var second :| MarkedAll(w.store, t.name, second) && p.start.now - second * SECOND < groups.gracePeriod;
      assert MarkedAll(w'.store, t.name, second);
      if NoOwnedPrimary(w'.store, t.name, t.uid) {
        assert ImprovedFor(t, w.store, w'.store, if OwnedAt(w.store, a, t.uid) then a else b);
      }
    }

    lemma StillTerminates(w: World, w': World, t: Target, k: Key)
      requires Terminating(t, w.store, k) && AgedAt(w.store, w'.store, k)
      ensures Terminating(t, w'.store, k) || Advanced(t, w.store, w'.store)
    {
      if k !in w'.store {
        assert ImprovedFor(t, w.store, w'.store, k);
      }
    }

    lemma MovingLater(p: Sweep, w: World, w': World, o: OrphanRef)
      requires Moving(p, w, o) && Evolves(w, w')
      requires Held(p.start.store, w.store, TargetIn(p, o))
      requires RelevantDrainsKept(w.store, w'.store, TargetIn(p, o)) && PrimariesDrift(w.store, w'.store, o.resourceName)
      ensures Moving(p, w', o)
    {
      var t := TargetIn(p, o);
      StoreAgedOwn(t, w.store, w'.store);
      HeldWhileDrifting(w.store, w'.store, t);
      if groups.Reclaimed(w.store, clusterName, o, uid, p.live) {
        ReclaimedStays(w.store, w'.store, o, p.live);
      } else if groups.GraceRuns(p.start, w, t) {
        GraceStillRuns(p, w, w', t);
      } else if exists k :: Terminating(t, w.store, k) {
        var k :| Terminating(t, w.store, k);
        assert AgedAt(w.store, w'.store, k);
        StillTerminates(w, w', t, k);
      }
    }

    lemma HeldByReset(p: Sweep, w: World, o: OrphanRef)
      requires Wipes(p.start, w, PrimariesOf(p.live), uid)
      ensures MeasureHeld(p, p.start, w, o)
    {
      if o.resourceName !in p.live {
        var t := TargetIn(p, o);
        forall k
          ensures RelevantDrainKept(p.start.store, w.store, t, k)
        {
          assert ConfinedAt(p.start.store, w.store, PrimariesOf(p.live), k);
        }
        PrimariesDriftElsewhere(p.start, w, PrimariesOf(p.live), o.resourceName);
        StoreAgedOwn(t, p.start.store, w.store);
        HeldWhileDrifting(p.start.store, w.store, t);
      }
    }

    lemma HeldElsewhere(p: Sweep, w: World, w': World, scope: iset<Key>, o: OrphanRef)
      requires Leads(w, w') && Confined(w, w', scope) && (p.start.synced ==> w.synced)
      requires o.resourceName !in p.live ==> scope !! PrimaryScope(o.resourceName)
      ensures MeasureHeld(p, w, w', o)
      ensures o.resourceName !in p.live ==> PrimariesDrift(w.store, w'.store, o.resourceName)
    {
      if o.resourceName !in p.live {
        PrimariesDriftElsewhere(w, w', scope, o.resourceName);
        if p.start.synced {
          AllDrainsKept(w.store, w'.store, TargetIn(p, o));
          StoreAgedOwn(TargetIn(p, o), w.store, w'.store);
          HeldWhileDrifting(w.store, w'.store, TargetIn(p, o));
        }
      }
    }

    /** What a wait found in the middle of the pass says about its beginning. */
    lemma WaitingSinceStart(p: Sweep, w: World, w': World, o: OrphanRef)
      requires Evolves(p.start, w) && Leads(w, w') && p.start.synced
      requires Held(p.start.store, w.store, TargetIn(p, o)) && Held(w.store, w'.store, TargetIn(p, o))
      requires groups.Waiting(w, w', TargetIn(p, o))
      ensures Moving(p, w', o)
    {
      var t, key := TargetIn(p, o), Key(StatefulSet, o.resourceName);
      if groups.GraceRuns(w, w', t) {
        assert groups.GraceRuns(p.start, w', t);
      } else if groups.Draining(w, t) && !groups.Draining(p.start, t) {
        assert AgedAt(p.start.store, w.store, key) && RelevantDrainKept(p.start.store, w.store, t, key);
        assert ImprovedFor(t, p.start.store, w.store, key);
        ImprovedDecreases(p, w, t, key);
      }
    }

    lemma ImprovedDecreases(p: Sweep, w: World, t: Target, key: Key)
      requires Evolves(p.start, w) && Held(p.start.store, w.store, t)
      requires ImprovedFor(t, p.start.store, w.store, key)
      ensures Measure(w.store, t) < Measure(p.start.store, t)
    {
      assert Advanced(t, p.start.store, w.store);
      StoreAgedOwn(t, p.start.store, w.store);
      MeasureDecreases(p.start.store, w.store, t);
    }

    /** One error-free pass over one orphan moves that orphan and holds every other. */
    lemma OrphanMoves(p: Sweep, w: World, w': World, o: OrphanRef, deleted: bool)
      requires Evolves(p.start, w) && p.start.synced && AllHeld(p, w)
      requires
        && Leads(w, w')
        && Confined(w, w', ScopeOf(Steps(o.resourceName, p.live, p.deletePvcs)))
        && Held(w.store, w'.store, TargetIn(p, o))
        && (deleted ==> groups.Reclaimed(w'.store, clusterName, o, uid, p.live))
        && (!deleted ==>
              || Measure(w'.store, TargetIn(p, o)) < Measure(w.store, TargetIn(p, o))
              || groups.Waiting(w, w', TargetIn(p, o)))
      ensures forall other :: OthersHeld(p, w, w', o, other)
      ensures o.resourceName !in p.live ==> Moving(p, w', o)
    {
      forall other: OrphanRef
        ensures OthersHeld(p, w, w', o, other)
      {
        if other.resourceName != o.resourceName {
          PrimariesApart(o.resourceName, other.resourceName, p.live, p.deletePvcs);
          HeldElsewhere(p, w, w', ScopeOf(Steps(o.resourceName, p.live, p.deletePvcs)), other);
        } else {
          HeldNamesake(w, w', TargetIn(p, o), TargetIn(p, other));
        }
      }
      assert MeasureHeld(p, p.start, w, o) && OthersHeld(p, w, w', o, o);
      if o.resourceName !in p.live && groups.Waiting(w, w', TargetIn(p, o)) {
        WaitingSinceStart(p, w, w', o);
      }
    }

    /** Role groups of one name are marked together. */
    lemma HeldNamesake(w: World, w': World, t: Target, other: Target)
      requires Leads(w, w') && w.synced && Held(w.store, w'.store, t) && other.name == t.name
      ensures Held(w.store, w'.store, other)
    {
      AllDrainsKept(w.store, w'.store, other);
      StoreAgedOwn(other, w.store, w'.store);
      MeasureDecreases(w.store, w'.store, other);
    }

    /** The pass over `o` holds every undeclared group, and leaves the primaries of the others alone. */
    ghost predicate OthersHeld(p: Sweep, w: World, w': World, o: OrphanRef, other: OrphanRef) {
      && MeasureHeld(p, w, w', other)
      && (other.resourceName != o.resourceName && other.resourceName !in p.live ==>
            PrimariesDrift(w.store, w'.store, other.resourceName))
    }

    /** So far every undeclared group held its ground. */
    ghost predicate AllHeld(p: Sweep, w: World) {
      forall o :: MeasureHeld(p, p.start, w, o)
    }

    lemma HeldOnwards(p: Sweep, w: World, w': World, o: OrphanRef)
      requires StoreAged(w.store, w'.store)
      requires MeasureHeld(p, p.start, w, o) && MeasureHeld(p, w, w', o)
      ensures MeasureHeld(p, p.start, w', o)
    {
      if o.resourceName !in p.live && p.start.synced {
        StoreAgedOwn(TargetIn(p, o), w.store, w'.store);
        RelevantDrainsTransitive(p.start.store, w.store, w'.store, TargetIn(p, o));
      }
    }

    // -------------------------------------------------------------------------------------------
    // The pass
    // -------------------------------------------------------------------------------------------

    /** An orphan as an operator would look for it. */
    function Describe(o: OrphanRef): string {
      if o.roleName == "" then o.resourceName else o.roleName + "/" + o.groupName
    }

    /** Role groups are told apart by how they are described, as no role name holds a slash. */
    lemma DescriptionsTell(a: Slot, b: Slot)
      requires a.0 != "" && b.0 != "" && '/' !in a.0 && '/' !in b.0
      ensures Describe(RefOf(a)) == Describe(RefOf(b)) ==> a == b
    {
      var x, y := a.0 + "/" + a.1, b.0 + "/" + b.1;
      assert x[|a.0|] == '/' && x[..|a.0|] == a.0 && x[|a.0| + 1..] == a.1;
      assert y[|b.0|] == '/' && y[..|b.0|] == b.0 && y[|b.0| + 1..] == b.1;
      assert forall i :: 0 <= i < |a.0| ==> x[i] == a.0[i] && x[i] != '/';
      assert forall i :: 0 <= i < |b.0| ==> y[i] == b.0[i] && y[i] != '/';
    }

    lemma KeptByPruning(p: Sweep, w: World, ledger: set<Slot>, o: OrphanRef)
      requires Kept(p, w, ledger) && Undeclared(o, p.spec)
      requires groups.hasApiReader || p.start.synced ==> groups.Reclaimed(w.store, clusterName, o, uid, p.live)
      ensures Kept(p, w, ledger - {(o.roleName, o.groupName)})
    {
      forall slot
        ensures PrunedAt(p, w, ledger - {(o.roleName, o.groupName)}, slot)
      {
        assert PrunedAt(p, w, ledger, slot);
      }
    }

    /** At the moment `at` of this pass the wakeup was computed from the orphan's own mark. */
    ghost predicate WokenAt(p: Sweep, ask: Ask, w: World, at: int) {
      p.start.now <= at <= w.now && groups.WakesInTime(w, ask.orphan.resourceName, p.start.now, at, ask.wait)
    }

    /** The wakeup of one pending orphan: the end of its grace period, or the poll interval if nothing
        is left of a grace period to wait for or its pass failed. */
    ghost predicate GoodWait(p: Sweep, ask: Ask, w: World) {
      || (groups.gracePeriod > 0 && exists at :: WokenAt(p, ask, w, at))
      || (ask.wait == groups.PollInterval() &&
          (ask.failed || groups.Polls(p.start.store, w, ask.orphan.resourceName, uid)))
    }

    lemma GoodWaitMade(p: Sweep, ask: Ask, before: World, w: World)
      requires Evolves(p.start, before) && Evolves(before, w)
      requires
        || (groups.gracePeriod > 0 && groups.WakesInTime(w, ask.orphan.resourceName, before.now, w.now, ask.wait))
        || (ask.wait == groups.PollInterval() && groups.Polls(before.store, w, ask.orphan.resourceName, uid))
      ensures GoodWait(p, ask, w)
    {
      var name := ask.orphan.resourceName;
      if groups.gracePeriod > 0 && groups.WakesInTime(w, name, before.now, w.now, ask.wait) {
        var second :| groups.WakesAfter(w, name, before.now, w.now, ask.wait, second);
        assert groups.WakesAfter(w, name, p.start.now, w.now, ask.wait, second);
        assert WokenAt(p, ask, w, w.now);
      } else {
        assert AgedAt(p.start.store, before.store, Key(StatefulSet, name)) &&
               AgedAt(p.start.store, before.store, Key(ConfigMap, name));
      }
    }

    /** A pass over another orphan leaves it as good. */
    lemma GoodWaitLater(p: Sweep, ask: Ask, w: World, w': World, scope: iset<Key>)
      requires GoodWait(p, ask, w) && Evolves(w, w') && Confined(w, w', scope)
      requires scope !! PrimaryScope(ask.orphan.resourceName)
      ensures GoodWait(p, ask, w')
    {
      var name := ask.orphan.resourceName;
      PrimariesDriftElsewhere(w, w', scope, name);
      GateStaysElsewhere(w, w', scope, name, groups.gracePeriod);
      if groups.gracePeriod > 0 && exists at :: WokenAt(p, ask, w, at) {
        var at :| WokenAt(p, ask, w, at);
        var second :| groups.WakesAfter(w, name, p.start.now, at, ask.wait, second);
        MarkSeenLater(w, w', name, second);
        assert groups.WakesAfter(w', name, p.start.now, at, ask.wait, second);
        assert WokenAt(p, ask, w', at);
      } else if !ask.failed && w.synced && groups.gracePeriod > 0 {
        groups.OpenStays(p.start.store, w, w', name, uid);
      }
    }

    /** The mark that the grace period of this group is counted from. */
    ghost predicate Counted(p: Sweep, w: World, name: string, at: int, second: int) {
      p.start.now <= at <= w.now && MarkSeen(w, name, second) && (w.synced ==> MarkedAll(w.store, name, second))
    }

    /** At `at` the grace period counted from this group's mark was over by half a second. */
    ghost predicate Overslept(p: Sweep, w: World, name: string, at: int, second: int) {
      Counted(p, w, name, at, second) && 2 * (at - (second * SECOND + groups.gracePeriod)) >= SECOND
    }

    /** The grace period was over by half a second when its wakeup was computed. */
    ghost predicate Late(p: Sweep, w: World, name: string) {
      exists at, second :: Overslept(p, w, name, at, second)
    }

    /** `next` from `at` on is no later than a second and a half after the grace period, or than a whole
        grace period from a mark made in this pass. */
    ghost predicate Punctual(p: Sweep, w: World, name: string, next: int, at: int, second: int) {
      && Counted(p, w, name, at, second)
      && 0 < next
      && (|| 2 * (at + next - (second * SECOND + groups.gracePeriod)) <= 3 * SECOND
          || (next <= groups.gracePeriod && (second + 1) * SECOND > p.start.now))
    }

    ghost predicate InTime(p: Sweep, w: World, name: string, next: int) {
      exists at, second :: Punctual(p, w, name, next, at, second)
    }

    /** A wakeup that is not positive was computed when the grace period it waits for was over. */
    lemma StaleWakeup(p: Sweep, ask: Ask, w: World)
      requires GoodWait(p, ask, w) && ask.wait <= 0
      ensures Late(p, w, ask.orphan.resourceName)
    {
      var name := ask.orphan.resourceName;
      var at :| WokenAt(p, ask, w, at);
      var second :| groups.WakesAfter(w, name, p.start.now, at, ask.wait, second);
      assert Overslept(p, w, name, at, second);
    }

    /** `next` is the earliest of what the pass started with and what each pending orphan asked for. */
    ghost predicate Tally(p: Sweep, next: int, initial: int, asked: seq<Ask>, failed: bool, w: World) {
      && next >= 0
      && (initial > 0 ==> 0 < next <= initial)
      && (next > 0 && next != initial ==> exists i :: 0 <= i < |asked| && asked[i].wait == next)
      && AllAsked(p, asked, next, failed, w)
    }

    ghost predicate AskedAt(p: Sweep, next: int, ask: Ask, failed: bool, w: World) {
      && (ask.wait > 0 ==> 0 < next <= ask.wait)
      && (ask.failed ==> failed)
      && GoodWait(p, ask, w)
    }

    ghost predicate AllAsked(p: Sweep, asked: seq<Ask>, next: int, failed: bool, w: World) {
      forall i :: 0 <= i < |asked| ==> AskedAt(p, next, asked[i], failed, w)
    }

    /** Only the first `n` orphans have asked for anything. */
    ghost predicate AskedBy(asked: seq<Ask>, orphans: seq<OrphanRef>, n: nat)
      requires n <= |orphans|
    {
      forall i :: 0 <= i < |asked| ==> asked[i].orphan in orphans[..n]
    }

    /** The orphans as they are reported. */
    function Descriptions(asked: seq<Ask>): (names: seq<string>)
      ensures |names| == |asked|
      ensures forall i :: 0 <= i < |asked| ==> names[i] == Describe(asked[i].orphan)
    {
      seq(|asked|, i requires 0 <= i < |asked| => Describe(asked[i].orphan))
    }

    lemma TallyLater(p: Sweep, next: int, initial: int, asked: seq<Ask>, failed: bool, w: World, w': World,
                     orphans: seq<OrphanRef>, j: nat)
      requires j < |orphans| && SortedByName(orphans) && AskedBy(asked, orphans, j)
      requires Tally(p, next, initial, asked, failed, w) && Evolves(w, w')
      requires Confined(w, w', ScopeOf(Steps(orphans[j].resourceName, p.live, p.deletePvcs)))
      ensures Tally(p, next, initial, asked, failed, w')
    {
      forall i | 0 <= i < |asked|
        ensures AskedAt(p, next, asked[i], failed, w')
      {
        assert AskedAt(p, next, asked[i], failed, w);
        var k :| 0 <= k < j && orphans[..j][k] == asked[i].orphan;
        Ordering.LessIrreflexive(orphans[j].resourceName);
        PrimariesApart(orphans[j].resourceName, asked[i].orphan.resourceName, p.live, p.deletePvcs);
        GoodWaitLater(p, asked[i], w, w', ScopeOf(Steps(orphans[j].resourceName, p.live, p.deletePvcs)));
      }
    }

    /** Puts one orphan on the list of those to come back to. */
    method Postpone(next: int, wait: int, pending: seq<string>, o: OrphanRef, ghost p: Sweep, ghost initial: int,
                    ghost asked: seq<Ask>, ghost failed: bool, ghost nowFailed: bool, ghost w: World)
      returns (next': int, pending': seq<string>, ghost asked': seq<Ask>)
      requires Tally(p, next, initial, asked, failed, w) && pending == Descriptions(asked)
      requires GoodWait(p, Ask(o, wait, nowFailed), w)
      ensures asked' == asked + [Ask(o, wait, nowFailed)] && pending' == Descriptions(asked')
      ensures Tally(p, next', initial, asked', failed || nowFailed, w)
      ensures pending <= pending' && Describe(o) in pending'
    {
      next' := Requeue.EarliestRequeue([next, wait]);
      pending' := pending + [Describe(o)];
      asked' := asked + [Ask(o, wait, nowFailed)];
      assert [next, wait][0] == next && [next, wait][1] == wait;
      forall i | 0 <= i <= |asked|
        ensures AskedAt(p, next', asked'[i], failed || nowFailed, w)
      {
        if i < |asked| {
          assert AskedAt(p, next, asked[i], failed, w);
        }
      }
      if next' > 0 && next' != initial {
        if next' == wait {
          assert asked'[|asked|].wait == next';
        } else {
          var i :| 0 <= i < |asked| && asked[i].wait == next';
          assert asked'[i].wait == next';
        }
      }
      assert pending'[|pending|] == Describe(o);
    }

    /** An orphan dealt with in this pass is forgotten or reported. */
    ghost predicate Reported(o: OrphanRef, pending: seq<string>, ledger: set<Slot>) {
      o.roleName != "" && (o.roleName, o.groupName) in ledger ==> Describe(o) in pending
    }

    /** An orphan of which nothing was left when the pass began is forgotten. */
    ghost predicate Forgotten(p: Sweep, o: OrphanRef, ledger: set<Slot>) {
      o.roleName != "" && groups.Reclaimed(p.start.store, clusterName, o, uid, p.live) ==>
        (o.roleName, o.groupName) !in ledger
    }

    /** Without a failure so far, the first `n` orphans are on their way, and every undeclared group
        held its ground. */
    ghost predicate Progressing(p: Sweep, w: World, orphans: seq<OrphanRef>, n: nat)
      requires n <= |orphans|
    {
      && AllHeld(p, w)
      && (forall i :: 0 <= i < n && orphans[i].resourceName !in p.live ==> Moving(p, w, orphans[i]))
    }

    lemma HeldNext(p: Sweep, w: World, w': World, o: OrphanRef)
      requires AllHeld(p, w) && Evolves(w, w') && p.start.synced
      requires forall other :: OthersHeld(p, w, w', o, other)
      ensures AllHeld(p, w')
    {
      forall other
        ensures MeasureHeld(p, p.start, w', other)
      {
        assert MeasureHeld(p, p.start, w, other) && OthersHeld(p, w, w', o, other);
        HeldOnwards(p, w, w', other);
      }
    }

    lemma MovingNext(p: Sweep, w: World, w': World, orphans: seq<OrphanRef>, n: nat, i: nat)
      requires i < n < |orphans| && AllHeld(p, w) && Evolves(w, w') && p.start.synced
      requires SortedByName(orphans) && orphans[i].resourceName !in p.live && Moving(p, w, orphans[i])
      requires forall other :: OthersHeld(p, w, w', orphans[n], other)
      ensures Moving(p, w', orphans[i])
    {
      Ordering.LessIrreflexive(orphans[i].resourceName);
      assert MeasureHeld(p, p.start, w, orphans[i]) && OthersHeld(p, w, w', orphans[n], orphans[i]);
      MovingLater(p, w, w', orphans[i]);
    }

    lemma {:induction false} ProgressingNext(p: Sweep, w: World, w': World, orphans: seq<OrphanRef>, n: nat)
      requires n < |orphans| && Progressing(p, w, orphans, n) && Evolves(w, w') && p.start.synced
      requires SortedByName(orphans)
      requires forall other :: OthersHeld(p, w, w', orphans[n], other)
      requires orphans[n].resourceName !in p.live ==> Moving(p, w', orphans[n])
      ensures Progressing(p, w', orphans, n + 1)
    {
      HeldNext(p, w, w', orphans[n]);
      forall i | 0 <= i < n && orphans[i].resourceName !in p.live
        ensures Moving(p, w', orphans[i])
      {
        MovingNext(p, w, w', orphans, n, i);
      }
    }

    /** The first `n` orphans have been dealt with. */
    ghost predicate Dealt(p: Sweep, orphans: seq<OrphanRef>, n: nat, pending: seq<string>, failed: bool, ledger: set<Slot>)
      requires n <= |orphans|
    {
      && (forall i :: 0 <= i < n ==> Reported(orphans[i], pending, ledger))
      && (!failed && p.start.synced ==> forall i :: 0 <= i < n ==> Forgotten(p, orphans[i], ledger))
    }

    lemma DealtNext(p: Sweep, orphans: seq<OrphanRef>, n: nat, pending: seq<string>, pending': seq<string>,
                    failed: bool, failed': bool, ledger: set<Slot>, ledger': set<Slot>)
      requires n < |orphans| && Dealt(p, orphans, n, pending, failed, ledger)
      requires pending <= pending' && ledger' <= ledger && (failed ==> failed')
      requires Reported(orphans[n], pending', ledger')
      requires !failed' && p.start.synced ==> Forgotten(p, orphans[n], ledger')
      ensures Dealt(p, orphans, n + 1, pending', failed', ledger')
    {
    }

    /** A reset group that shares no name with an orphan is still clear of marks. */
    ghost predicate StillCleared(cleared: set<string>, orphans: seq<OrphanRef>, s: Store, name: string) {
      name in cleared && !HasName(orphans, name) ==> Cleared(s, name, uid)
    }

    ghost predicate AllStillCleared(cleared: set<string>, orphans: seq<OrphanRef>, s: Store) {
      forall name :: StillCleared(cleared, orphans, s, name)
    }

    lemma OrphanProgresses(p: Sweep, w: World, w': World, orphans: seq<OrphanRef>, j: nat, deleted: bool)
      requires j < |orphans| && SortedByName(orphans) && Progressing(p, w, orphans, j)
      requires Evolves(p.start, w) && Evolves(w, w') && p.start.synced && AllHeld(p, w) && Leads(w, w')
      requires Confined(w, w', ScopeOf(Steps(orphans[j].resourceName, p.live, p.deletePvcs)))
      requires Held(w.store, w'.store, TargetIn(p, orphans[j]))
      requires deleted ==> groups.Reclaimed(w'.store, clusterName, orphans[j], uid, p.live)
      requires !deleted ==>
        || Measure(w'.store, TargetIn(p, orphans[j])) < Measure(w.store, TargetIn(p, orphans[j]))
        || groups.Waiting(w, w', TargetIn(p, orphans[j]))
      ensures Progressing(p, w', orphans, j + 1)
    {
      OrphanMoves(p, w, w', orphans[j], deleted);
      ProgressingNext(p, w, w', orphans, j);
    }

    lemma ClearedElsewhere(w: World, w': World, cleared: set<string>, orphans: seq<OrphanRef>, j: nat,
                           live: set<string>, deletePvcs: bool)
      requires j < |orphans| && StoreAged(w.store, w'.store)
      requires Confined(w, w', ScopeOf(Steps(orphans[j].resourceName, live, deletePvcs)))
      requires AllStillCleared(cleared, orphans, w.store)
      ensures AllStillCleared(cleared, orphans, w'.store)
    {
      forall name
        ensures StillCleared(cleared, orphans, w'.store, name)
      {
        assert StillCleared(cleared, orphans, w.store, name);
        assert orphans[j].resourceName == name ==> NamedAtIndex(orphans, j, name);
        if orphans[j].resourceName != name {
          var scope := ScopeOf(Steps(orphans[j].resourceName, live, deletePvcs));
          PrimariesApart(orphans[j].resourceName, name, live, deletePvcs);
          assert Key(StatefulSet, name) in PrimaryScope(name) && Key(ConfigMap, name) in PrimaryScope(name);
          assert ConfinedAt(w.store, w'.store, scope, Key(StatefulSet, name));
          assert ConfinedAt(w.store, w'.store, scope, Key(ConfigMap, name));
        }
      }
    }

    /** Takes one orphan a pass further, and forgets it when nothing of it is left. */
    method CleanupOrphan(o: OrphanRef, status: GenericClusterStatus, deletePvcs: bool, live: set<string>,
                         ghost p: Sweep, ghost cleared: set<string>, ghost orphans: seq<OrphanRef>, ghost j: nat)
      returns (deleted: bool, retryAfter: int, err: Option<CleanupError>)
      requires Valid(groups.server.w) && Kept(p, groups.server.w, status.Ledger())
      requires SoundRef(o, o.resourceName, p.spec, p.ledger, groups.server.w.seen)
      requires p.live == live && p.deletePvcs == deletePvcs
      requires j < |orphans| && orphans[j] == o && SortedByName(orphans)
      requires p.start.synced ==> AllStillCleared(cleared, orphans, groups.server.w.store)
      modifies groups.server, status`roleGroups
      ensures Valid(groups.server.w) && Kept(p, groups.server.w, status.Ledger())
      ensures Evolves(old(groups.server.w), groups.server.w)
      ensures Confined(old(groups.server.w), groups.server.w, ScopeOf(Steps(o.resourceName, live, deletePvcs)))
      ensures err.None? && p.start.synced && Progressing(p, old(groups.server.w), orphans, j) ==>
        Progressing(p, groups.server.w, orphans, j + 1)
      ensures status.Ledger() ==
        if deleted && o.roleName != "" then old(status.Ledger()) - {(o.roleName, o.groupName)} else old(status.Ledger())
      ensures p.start.synced && err.None? ==> Forgotten(p, o, status.Ledger())
      ensures p.start.synced ==> AllStillCleared(cleared, orphans, groups.server.w.store)
      ensures err.None? && !deleted ==> GoodWait(p, Ask(o, retryAfter, false), groups.server.w)
      ensures err.Some? ==> !deleted
      ensures err.Some? ==> groups.server.w.refused > old(groups.server.w).refused
    {
      ghost var w := groups.server.w;
      deleted, retryAfter, err :=
        groups.CleanupRoleGroup(o, uid, deletePvcs, clusterName, live, p.since(o.resourceName));
      KeptByOrphan(p, w, groups.server.w, status.Ledger(), o);
      if err.None? && !deleted {
        GoodWaitMade(p, Ask(o, retryAfter, false), w, groups.server.w);
      }
      if deleted && o.roleName != "" {
        ghost var before := status.Ledger();
        status.RemoveRoleGroup(o.roleName, o.groupName);
        KeptByPruning(p, groups.server.w, before, o);
      }
      if p.start.synced {
        ClearedElsewhere(w, groups.server.w, cleared, orphans, j, live, deletePvcs);
        if groups.Reclaimed(p.start.store, clusterName, o, uid, live) {
          ReclaimedStays(p.start.store, w.store, o, live);
        }
        if err.None? && Progressing(p, w, orphans, j) {
          OrphanProgresses(p, w, groups.server.w, orphans, j, deleted);
        }
      }
    }

    /** Takes the next orphan a pass further, and puts it on the list if it is not gone. A throttled API
        server is passed on, any other failure is noted. */
    method CleanupNext(orphans: seq<OrphanRef>, j: nat, status: GenericClusterStatus, deletePvcs: bool, live: set<string>,
                       next: int, errs: seq<CleanupError>, pending: seq<string>,
                       ghost initial: int, ghost p: Sweep, ghost cleared: set<string>, ghost asked: seq<Ask>)
      returns (next': int, errs': seq<CleanupError>, pending': seq<string>, limited: Option<CleanupError>, ghost asked': seq<Ask>)
      requires Valid(groups.server.w) && Kept(p, groups.server.w, status.Ledger())
      requires j < |orphans| && SortedByName(orphans) && p.live == live && p.deletePvcs == deletePvcs
      requires SoundRef(orphans[j], orphans[j].resourceName, p.spec, p.ledger, groups.server.w.seen)
      requires p.start.synced ==> AllStillCleared(cleared, orphans, groups.server.w.store)
      requires Dealt(p, orphans, j, pending, errs != [], status.Ledger())
      requires errs == [] && p.start.synced ==> Progressing(p, groups.server.w, orphans, j)
      requires Tally(p, next, initial, asked, errs != [], groups.server.w)
      requires pending == Descriptions(asked) && AskedBy(asked, orphans, j)
      modifies groups.server, status`roleGroups
      ensures Valid(groups.server.w) && Kept(p, groups.server.w, status.Ledger())
      ensures Evolves(old(groups.server.w), groups.server.w)
      ensures p.start.synced ==> AllStillCleared(cleared, orphans, groups.server.w.store)
      ensures limited.None? ==> Dealt(p, orphans, j + 1, pending', errs' != [], status.Ledger())
      ensures limited.None? && errs' == [] && p.start.synced ==> Progressing(p, groups.server.w, orphans, j + 1)
      ensures Tally(p, next', initial, asked', errs' != [], groups.server.w)
      ensures pending' == Descriptions(asked') && AskedBy(asked', orphans, j + 1)
      ensures limited.Some? ==> limited.value.RateLimited?
      ensures limited.Some? || |errs'| > |errs| ==> groups.server.w.refused > old(groups.server.w).refused
    {
      var o := orphans[j];
      ghost var w, ledger := groups.server.w, status.Ledger();
      next', errs', pending', asked', limited := next, errs, pending, asked, None;
      var deleted, retryAfter, err := CleanupOrphan(o, status, deletePvcs, live, p, cleared, orphans, j);
      TallyLater(p, next, initial, asked, errs != [], w, groups.server.w, orphans, j);
      AskedByMore(asked, orphans, j, Ask(o, if err.Some? then groups.PollInterval() else retryAfter, err.Some?));
      if err.Some? && err.value.RateLimited? {
        limited := err;
        return;
      }
      if !deleted {
        next', errs', pending', asked' := Note(next, errs, pending, o, retryAfter, err, p, initial, asked, groups.server.w);
      }
      DealtNext(p, orphans, j, pending, pending', errs != [], errs' != [], ledger, status.Ledger());
    }

    /** Notes an orphan that is not gone, and why. */
    method Note(next: int, errs: seq<CleanupError>, pending: seq<string>, o: OrphanRef, retryAfter: int, err: Option<CleanupError>,
                ghost p: Sweep, ghost initial: int, ghost asked: seq<Ask>, ghost w: World)
      returns (next': int, errs': seq<CleanupError>, pending': seq<string>, ghost asked': seq<Ask>)
      requires Tally(p, next, initial, asked, errs != [], w) && pending == Descriptions(asked)
      requires err.None? ==> GoodWait(p, Ask(o, retryAfter, false), w)
      ensures errs' == if err.Some? then errs + [err.value] else errs
      ensures asked' == asked + [Ask(o, if err.Some? then groups.PollInterval() else retryAfter, err.Some?)]
      ensures Tally(p, next', initial, asked', errs' != [], w) && pending' == Descriptions(asked')
      ensures pending <= pending' && Describe(o) in pending'
    {
      var wait := if err.Some? then groups.PollInterval() else retryAfter;
      errs' := if err.Some? then errs + [err.value] else errs;
      next', pending', asked' := Postpone(next, wait, pending, o, p, initial, asked, errs != [], err.Some?, w);
    }

    lemma AskedByMore(asked: seq<Ask>, orphans: seq<OrphanRef>, j: nat, ask: Ask)
      requires j < |orphans| && AskedBy(asked, orphans, j) && ask.orphan == orphans[j]
      ensures AskedBy(asked, orphans, j + 1) && AskedBy(asked + [ask], orphans, j + 1)
    {
      assert orphans[..j + 1] == orphans[..j] + [orphans[j]];
    }

    /** One pass over every orphan. A throttled API server ends it at once; any other failure is
        confined to its own orphan. */
    method CleanupOrphans(orphans: seq<OrphanRef>, status: GenericClusterStatus, deletePvcs: bool, live: set<string>,
                          initial: int, ghost p: Sweep, ghost cleared: set<string>)
      returns (next: int, errs: seq<CleanupError>, pending: seq<string>, limited: Option<CleanupError>, ghost asked: seq<Ask>)
      requires Valid(groups.server.w) && Kept(p, groups.server.w, status.Ledger()) && initial >= 0
      requires forall i :: 0 <= i < |orphans| ==>
        SoundRef(orphans[i], orphans[i].resourceName, p.spec, p.ledger, groups.server.w.seen)
      requires p.live == live && p.deletePvcs == deletePvcs
      requires p.start.synced ==> AllStillCleared(cleared, orphans, groups.server.w.store)
      requires AllHeld(p, groups.server.w) && SortedByName(orphans)
      modifies groups.server, status`roleGroups
      ensures Valid(groups.server.w) && Kept(p, groups.server.w, status.Ledger())
      ensures old(groups.server.w).refused <= groups.server.w.refused
      ensures p.start.synced ==> AllStillCleared(cleared, orphans, groups.server.w.store)
      ensures limited.None? && errs == [] && p.start.synced ==> Progressing(p, groups.server.w, orphans, |orphans|)
      ensures limited.None? ==> Dealt(p, orphans, |orphans|, pending, errs != [], status.Ledger())
      ensures Tally(p, next, initial, asked, errs != [], groups.server.w) && pending == Descriptions(asked)
      ensures limited.Some? ==> limited.value.RateLimited?
      ensures limited.Some? || errs != [] ==> groups.server.w.refused > old(groups.server.w).refused
    {
      next, errs, pending, asked := initial, [], [], [];
      for j := 0 to |orphans|
        invariant Valid(groups.server.w) && Kept(p, groups.server.w, status.Ledger())
        invariant old(groups.server.w).seen <= groups.server.w.seen
        invariant old(groups.server.w).refused <= groups.server.w.refused
        invariant errs != [] ==> groups.server.w.refused > old(groups.server.w).refused
        invariant p.start.synced ==> AllStillCleared(cleared, orphans, groups.server.w.store)
        invariant Dealt(p, orphans, j, pending, errs != [], status.Ledger())
        invariant errs == [] && p.start.synced ==> Progressing(p, groups.server.w, orphans, j)
        invariant Tally(p, next, initial, asked, errs != [], groups.server.w) && pending == Descriptions(asked)
        invariant AskedBy(asked, orphans, j)
      {
        SoundWidens(p, old(groups.server.w).seen, groups.server.w.seen, orphans[j]);
        next, errs, pending, limited, asked :=
          CleanupNext(orphans, j, status, deletePvcs, live, next, errs, pending, initial, p, cleared, asked);
        if limited.Some? {
          return;
        }
      }
      limited := None;
    }

    lemma SoundWidens(p: Sweep, seen: set<(Key, Obj)>, seen': set<(Key, Obj)>, o: OrphanRef)
      requires seen <= seen' && SoundRef(o, o.resourceName, p.spec, p.ledger, seen)
      ensures SoundRef(o, o.resourceName, p.spec, p.ledger, seen')
    {
    }

    /** Reports on the cluster what is still pending. Only a condition that was raised is ever cleared,
        and the names are sorted, so a stuck teardown reports the same thing on every pass. */
    method SetOrphanCleanupCondition(status: GenericClusterStatus, pending: seq<string>)
      modifies status`orphanCleanup
      ensures pending == [] ==> !status.Raised()
      ensures pending == [] && old(status.orphanCleanup).None? ==> status.orphanCleanup.None?
      ensures pending != [] ==>
        && status.Raised()
        && Ordering.Ascending(status.orphanCleanup.value.groups)
        && multiset(status.orphanCleanup.value.groups) == multiset(pending)
    {
      if pending == [] {
        if status.orphanCleanup.Some? {
          status.orphanCleanup := Some(Condition(false, []));
        }
        return;
      }
      var names := Ordering.Sort(pending);
      status.orphanCleanup := Some(Condition(true, names));
    }

    /** An orphan that is still remembered is named in a raised condition. */
    ghost predicate Honest(status: GenericClusterStatus, o: OrphanRef)
      reads status
    {
      o.roleName != "" && (o.roleName, o.groupName) in status.Ledger() ==>
        status.Raised() && Describe(o) in status.orphanCleanup.value.groups
    }

    ghost function SweepOf(w: World, spec: Spec, ledger: set<Slot>, deletePvcs: bool, since: string -> int): Sweep {
      Sweep(w, spec, ledger, NamesOf(SlotsOf(spec)), deletePvcs, since)
    }

    function DeletesPvcs(annotations: map<string, string>): bool {
      ANNOTATION_DELETE_PVCS in annotations && annotations[ANNOTATION_DELETE_PVCS] == "true"
    }

    /** The resets and the budgets of vanished roles, which come before any orphan. */
    method Prepare(spec: Spec, ghost p: Sweep)
      returns (next: int, err: Option<CleanupError>, ghost cleared: set<string>)
      requires Valid(groups.server.w) && groups.server.w == p.start && p.spec == spec
      requires p.live == NamesOf(SlotsOf(spec))
      modifies groups.server
      ensures Valid(groups.server.w) && Kept(p, groups.server.w, p.ledger) && AllHeld(p, groups.server.w)
      ensures cleared <= p.live
      ensures ClearedAllBut(p.live, cleared, groups.server.w.refused - p.start.refused)
      ensures p.start.synced ==> forall name :: name in cleared ==> Cleared(groups.server.w.store, name, uid)
      ensures next >= 0 && (err.Some? ==> next > 0)
      ensures p.start.synced && next == 0 && uid != "" ==> forall k :: RolePdbGone(groups.server.w.store, spec, k)
      ensures err.Some? ==> groups.server.w.refused > old(groups.server.w).refused
    {
      cleared := ResetDeclared(spec);
      KeptByReset(p, groups.server.w);
      ghost var w := groups.server.w;
      var state;
      state, err := CleanupOrphanedRolePDBs(spec);
      KeptByRolePdbs(p, w, groups.server.w, p.ledger);
      forall o
        ensures MeasureHeld(p, p.start, groups.server.w, o)
      {
        HeldByReset(p, w, o);
        HeldElsewhere(p, w, groups.server.w, PdbScope(), o);
        HeldOnwards(p, w, groups.server.w, o);
      }
      forall name | name in cleared && p.start.synced
        ensures Cleared(groups.server.w.store, name, uid)
      {
        assert ConfinedAt(w.store, groups.server.w.store, PdbScope(), Key(StatefulSet, name));
        assert ConfinedAt(w.store, groups.server.w.store, PdbScope(), Key(ConfigMap, name));
        assert AgedAt(w.store, groups.server.w.store, Key(StatefulSet, name));
      }
      next := if state.InFlight? then groups.PollInterval() else 0;
    }

    /** The pass comes back for every pending orphan by itself: after the poll interval at the latest,
        or no later than just after the end of its grace period. Only if that end had already passed by
        half a second when the wakeup was computed may it not. */
    lemma PendingWakesUp(p: Sweep, asked: seq<Ask>, next: int, failed: bool, w: World, i: nat)
      requires AllAsked(p, asked, next, failed, w) && i < |asked|
      ensures var name := asked[i].orphan.resourceName;
        || (0 < next <= groups.PollInterval() && (failed || groups.Polls(p.start.store, w, name, uid)))
        || InTime(p, w, name, next)
        || Late(p, w, name)
    {
      var ask, name := asked[i], asked[i].orphan.resourceName;
      assert AskedAt(p, next, ask, failed, w);
      if ask.wait <= 0 {
        StaleWakeup(p, ask, w);
      } else if groups.gracePeriod > 0 && exists at :: WokenAt(p, ask, w, at) {
        var at :| WokenAt(p, ask, w, at);
        var second :| groups.WakesAfter(w, name, p.start.now, at, ask.wait, second);
        assert Punctual(p, w, name, next, at, second);
      }
    }

    /** The condition names exactly the pending orphans, each as often as it is pending. */
    ghost predicate Names(status: GenericClusterStatus, asked: seq<Ask>)
      reads status
    {
      if asked == [] then !status.Raised()
      else status.Raised() && multiset(status.orphanCleanup.value.groups) == multiset(Descriptions(asked))
    }

    ghost predicate AllForgotten(p: Sweep, orphans: seq<OrphanRef>, ledger: set<Slot>) {
      forall i :: 0 <= i < |orphans| ==> Forgotten(p, orphans[i], ledger)
    }

    ghost predicate AllHonest(status: GenericClusterStatus, orphans: seq<OrphanRef>)
      reads status
    {
      forall i :: 0 <= i < |orphans| ==> Honest(status, orphans[i])
    }

    /** The second half of a pass, once the orphans are known. `first` is what went wrong before. */
    method CleanupDiscovered(orphans: seq<OrphanRef>, status: GenericClusterStatus, deletePvcs: bool, live: set<string>,
                             initial: int, first: Option<CleanupError>, ghost p: Sweep, ghost cleared: set<string>)
      returns (next: int, err: Option<CleanupError>, ghost asked: seq<Ask>, ghost surveyed: bool)
      requires Valid(groups.server.w) && Kept(p, groups.server.w, status.Ledger()) && initial >= 0
      requires forall i :: 0 <= i < |orphans| ==>
        SoundRef(orphans[i], orphans[i].resourceName, p.spec, p.ledger, groups.server.w.seen)
      requires p.live == live && p.deletePvcs == deletePvcs
      requires p.start.synced ==> AllStillCleared(cleared, orphans, groups.server.w.store)
      requires first.Some? ==> first.value.CleanupFailed?
      requires AllHeld(p, groups.server.w) && SortedByName(orphans)
      modifies groups.server, status
      ensures Valid(groups.server.w) && Kept(p, groups.server.w, status.Ledger())
      ensures old(groups.server.w).refused <= groups.server.w.refused
      ensures p.start.synced ==> AllStillCleared(cleared, orphans, groups.server.w.store)
      ensures (err.Some? ==> err.value.CleanupFailed?) ==> surveyed
      ensures surveyed ==> AllHonest(status, orphans)
      ensures !surveyed ==> status.orphanCleanup == old(status.orphanCleanup)
      ensures err.None? && p.start.synced ==>
        AllForgotten(p, orphans, status.Ledger()) && Progressing(p, groups.server.w, orphans, |orphans|)
      ensures AllAsked(p, asked, next, err.Some?, groups.server.w)
      ensures surveyed ==> Names(status, asked)
      ensures err.Some? && first.None? ==> groups.server.w.refused > old(groups.server.w).refused
    {
      if |orphans| == 0 {
        SetOrphanCleanupCondition(status, []);
        return initial, first, [], true;
      }
      var errs, pending, limited;
      next, errs, pending, limited, asked := CleanupOrphans(orphans, status, deletePvcs, live, initial, p, cleared);
      forall i | 0 <= i < |asked|
        ensures AskedAt(p, next, asked[i], limited.Some? || first.Some? || errs != [], groups.server.w)
      {
        assert AskedAt(p, next, asked[i], errs != [], groups.server.w);
      }
      if limited.Some? {
        return next, limited, asked, false;
      }
      ghost var ledger := status.Ledger();
      SetOrphanCleanupCondition(status, pending);
      forall i | 0 <= i < |orphans|
        ensures Honest(status, orphans[i])
      {
        assert Reported(orphans[i], pending, ledger);
        assert Describe(orphans[i]) in pending ==> Describe(orphans[i]) in multiset(pending);
      }
      err := if first.Some? || errs != [] then Some(CleanupFailed) else None;
      surveyed := true;
    }

    /** One cleanup pass. `cleared` names the declared groups whose reset succeeded, `orphans` what was
        discovered, `asked` what the pending orphans asked for; `surveyed` says that the pass got
        through its list. */
    method Cleanup(spec: Spec, status: GenericClusterStatus, annotations: map<string, string>, ghost since: string -> int)
      returns (next: int, err: Option<CleanupError>, ghost cleared: set<string>, ghost orphans: seq<OrphanRef>,
               ghost asked: seq<Ask>, ghost surveyed: bool)
      requires Valid(groups.server.w)
      modifies groups.server, status
      ensures Valid(groups.server.w)
      ensures Kept(SweepOf(old(groups.server.w), spec, old(status.Ledger()), DeletesPvcs(annotations), since),
                   groups.server.w, status.Ledger())
      ensures old(groups.server.w).synced ==> AllStillCleared(cleared, orphans, groups.server.w.store)
      ensures err.None? ==> surveyed
      ensures surveyed ==> SortedByName(orphans) && AllHonest(status, orphans)
      ensures surveyed ==> forall slot :: Collected(orphans, old(status.Ledger()) - SlotsOf(spec), slot)
      ensures !surveyed ==> status.orphanCleanup == old(status.orphanCleanup)
      ensures err.None? && old(groups.server.w).synced ==>
        && AllForgotten(SweepOf(old(groups.server.w), spec, old(status.Ledger()), DeletesPvcs(annotations), since),
                        orphans, status.Ledger())
        && Progressing(SweepOf(old(groups.server.w), spec, old(status.Ledger()), DeletesPvcs(annotations), since),
                       groups.server.w, orphans, |orphans|)
      ensures cleared <= NamesOf(SlotsOf(spec))
      ensures ClearedAllBut(NamesOf(SlotsOf(spec)), cleared, groups.server.w.refused - old(groups.server.w).refused)
      ensures AllAsked(SweepOf(old(groups.server.w), spec, old(status.Ledger()), DeletesPvcs(annotations), since),
                       asked, next, err.Some?, groups.server.w)
      ensures surveyed ==> Names(status, asked)
      ensures !surveyed && err.Some? && err.value.CleanupFailed? ==> next > 0
      ensures err.Some? ==> groups.server.w.refused > old(groups.server.w).refused
      ensures var claimsToo := ANNOTATION_DELETE_PVCS in annotations && annotations[ANNOTATION_DELETE_PVCS] == "true";
        && AllPlainlyDue(old(groups.server.w), groups.server.w, spec, claimsToo)
        && (!claimsToo ==> ClaimsStand(old(groups.server.w).store, groups.server.w.store))
      ensures AllForgottenRightly(old(status.Ledger()), status.Ledger(), spec, groups.server.w)
      ensures err.None? && old(groups.server.w).synced ==>
        AllForgottenDuly(old(status.Ledger()), status.Ledger(), spec, old(groups.server.w))
    {
      var deletePvcs := DeletesPvcs(annotations);
      ghost var p := SweepOf(groups.server.w, spec, status.Ledger(), deletePvcs, since);
      orphans, asked, surveyed := [], [], false;
      var first;
      next, first, cleared := Prepare(spec, p);
      if first.Some? && first.value.RateLimited? {
        ClearedReflexive(groups.server.w, cleared, orphans);
        PassPlainly(p, groups.server.w, status.Ledger());
        next, err := 0, first;
        return;
      }
      ghost var w := groups.server.w;
      var found;
      found, err := DiscoverOrphans(spec, status);
      orphans := found;
      KeptByDrift(p, w, groups.server.w, status.Ledger());
      HeldByDrift(p, w, groups.server.w);
      ClearedAfterDrift(w, groups.server.w, cleared, orphans);
      if err.Some? {
        if err.value.CleanupFailed? {
          var candidates := [next, groups.PollInterval()];
          next := Requeue.EarliestRequeue(candidates);
          assert candidates[1] == groups.PollInterval();
        }
        PassPlainly(p, groups.server.w, status.Ledger());
        return;
      }
      next, err, asked, surveyed :=
        CleanupDiscovered(found, status, deletePvcs, NamesOf(SlotsOf(spec)), next, first, p, cleared);
      PassPlainly(p, groups.server.w, status.Ledger());
      if err.None? && p.start.synced {
        ForgottenPlainly(p, orphans, status.Ledger());
      }
    }

    lemma ClearedReflexive(w: World, cleared: set<string>, orphans: seq<OrphanRef>)
      ensures (forall name :: name in cleared ==> Cleared(w.store, name, uid)) ==> AllStillCleared(cleared, orphans, w.store)
    {
    }

    lemma HeldByDrift(p: Sweep, w: World, w': World)
      requires AllHeld(p, w) && Drifts(w, w') && (p.start.synced ==> w.synced)
      ensures AllHeld(p, w')
    {
      DriftQuiet(w, w', iset{});
      forall o
        ensures MeasureHeld(p, p.start, w', o)
      {
        assert MeasureHeld(p, p.start, w, o);
        HeldElsewhere(p, w, w', iset{}, o);
        HeldOnwards(p, w, w', o);
      }
    }

    lemma ClearedAfterDrift(w: World, w': World, cleared: set<string>, orphans: seq<OrphanRef>)
      requires Drifts(w, w')
      ensures (forall name :: name in cleared ==> Cleared(w.store, name, uid)) ==> AllStillCleared(cleared, orphans, w'.store)
    {
      forall name | Cleared(w.store, name, uid)
        ensures StillCleared(cleared, orphans, w'.store, name)
      {
        assert DriftedAt(w.store, w'.store, Key(StatefulSet, name)) && DriftedAt(w.store, w'.store, Key(ConfigMap, name));
      }
    }
  }
}
