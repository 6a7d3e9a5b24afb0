/**
 Granting and revoking a workload's Role and RoleBinding, while somebody else may create and edit
 objects of the same name between any two requests.
 */
module WorkloadRbac {
  import opened Wrappers

  datatype RoleRef = RoleRef(group: string, kind: string, name: string)

  datatype Role = Role(version: nat, controller: Option<string>, rules: seq<string>, labels: string)

  /** `held` says that a finalizer keeps the object after its deletion. */
  datatype Binding = Binding(
    version: nat,
    controller: Option<string>,
    roleRef: RoleRef,
    subjects: seq<string>,
    labels: string,
    held: bool)

  /** What somebody else does. A roleRef never changes once the object exists. */
  datatype Rival =
    | CreateBinding(binding: Binding)
    | EditBinding(subjects: seq<string>, labels: string)
    | DeleteBinding
    | CreateRole(role: Role)
    | EditRole(rules: seq<string>, labels: string)
    | DeleteRole

  datatype Turn = Turn(rivals: seq<Rival>, fails: bool, applied: bool,
                       cachedRole: Option<Option<Role>>, cachedBinding: Option<Option<Binding>>)

  datatype Moment = Moment(role: Option<Role>, binding: Option<Binding>)

  /** A write, and what was there before it. */
  datatype Change<T> = Change(over: Option<T>, now: T)

  /** `seenRoles` and `seenBindings` hold every version there was; `trail` the state after every step,
      `written` and `writtenRoles` every write of a binding and of a Role by this framework. `synced` says
      that reads are current, `orderly` that nobody else deletes anything or puts a finalizer on a binding. */
  datatype World = World(
    role: Option<Role>,
    binding: Option<Binding>,
    nextVersion: nat,
    seenRoles: set<Role>,
    seenBindings: set<Binding>,
    synced: bool,
    orderly: bool,
    script: seq<Turn>,
    trail: seq<Moment>,
    written: seq<Change<Binding>>,
    writtenRoles: seq<Change<Role>>)

  /** Versions identify versions. */
  ghost predicate BindingKnown(w: World, b: Binding) {
    b in w.seenBindings ==> b.version < w.nextVersion && (w.binding.Some? && b.version == w.binding.value.version ==> b == w.binding.value)
  }

  ghost predicate RoleKnown(w: World, r: Role) {
    r in w.seenRoles ==> r.version < w.nextVersion && (w.role.Some? && r.version == w.role.value.version ==> r == w.role.value)
  }

  ghost predicate Valid(w: World) {
    && (w.binding.Some? ==> w.binding.value in w.seenBindings)
    && (w.role.Some? ==> w.role.value in w.seenRoles)
    && (forall b :: BindingKnown(w, b))
    && (forall r :: RoleKnown(w, r))
  }

  function Noted(w: World): World {
    w.(trail := w.trail + [Moment(w.role, w.binding)])
  }

  function PutBinding(w: World, b: Binding): World {
    var b' := b.(version := w.nextVersion);
    Noted(w.(binding := Some(b'), seenBindings := w.seenBindings + {b'}, nextVersion := w.nextVersion + 1))
  }

  function PutRole(w: World, r: Role): World {
    var r' := r.(version := w.nextVersion);
    Noted(w.(role := Some(r'), seenRoles := w.seenRoles + {r'}, nextVersion := w.nextVersion + 1))
  }

  /** The cluster this framework acts for. */
  datatype Owner = Owner(uid: string, account: string)

  function WantedRef(o: Owner): RoleRef {
    RoleRef("rbac.authorization.k8s.io", "Role", o.account)
  }

  predicate Ours(controller: Option<string>, o: Owner) {
    controller == Some(o.uid)
  }

  /** A step of somebody else. Objects they create are not controlled by this cluster. */
  function RivalEffect(w: World, o: Owner, a: Rival): World {
    match a
    case CreateBinding(b) =>
      if w.binding.Some? || Ours(b.controller, o) || (w.orderly && b.held) then w else PutBinding(w, b)
    case EditBinding(subjects, labels) =>
      if w.binding.None? then w else PutBinding(w, w.binding.value.(subjects := subjects, labels := labels))
    case DeleteBinding => if w.orderly then w else Noted(w.(binding := None))
    case CreateRole(r) => if w.role.Some? || Ours(r.controller, o) then w else PutRole(w, r)
    case EditRole(rules, labels) =>
      if w.role.None? then w else PutRole(w, w.role.value.(rules := rules, labels := labels))
    case DeleteRole => if w.orderly then w else Noted(w.(role := None))
  }

  // ---------------------------------------------------------------------------------------------
  // What every step keeps
  // ---------------------------------------------------------------------------------------------

  /** This cluster's binding does not stand without a Role. */
  predicate Grounded(m: Moment, o: Owner) {
    m.binding.Some? && Ours(m.binding.value.controller, o) ==> m.role.Some?
  }

  /** ... nor behind a finalizer. */
  predicate GroundedNow(w: World, o: Owner) {
    Grounded(Moment(w.role, w.binding), o) && (w.binding.Some? ==> !w.binding.value.held)
  }

  ghost predicate GroundedAt(w: World, w': World, o: Owner, i: int) {
    |w.trail| <= i < |w'.trail| ==> Grounded(w'.trail[i], o)
  }

  /** With the account as its subject, a binding refers to this cluster's Role. */
  predicate WellWritten(b: Binding, o: Owner) {
    b.roleRef == WantedRef(o) && b.subjects == [o.account] && Ours(b.controller, o)
  }

  /** Nobody else controls the object. */
  predicate Free(controller: Option<string>, o: Owner) {
    controller.Some? ==> Ours(controller, o)
  }

  /** A well written binding, over none or over one that nobody else controls and that refers to the same
      Role already. */
  predicate WellChanged(c: Change<Binding>, o: Owner) {
    WellWritten(c.now, o) && (c.over.Some? ==> Free(c.over.value.controller, o) && c.over.value.roleRef == c.now.roleRef)
  }

  ghost predicate WrittenAt(w: World, w': World, o: Owner, i: int) {
    |w.written| <= i < |w'.written| ==> WellChanged(w'.written[i], o)
  }

  /** A Role is written over none or over one that nobody else controls. */
  ghost predicate RoleFreeAt(w: World, w': World, o: Owner, i: int) {
    |w.writtenRoles| <= i < |w'.writtenRoles| && w'.writtenRoles[i].over.Some? ==>
      Free(w'.writtenRoles[i].over.value.controller, o)
  }

  /** From `w` to `w'`: what this framework wrote is well written, and, when nobody else deletes
      anything, its binding was grounded at every moment if it was at first. */
  ghost predicate Proceeds(w: World, w': World, o: Owner) {
    && w'.synced == w.synced
    && w'.orderly == w.orderly
    && w.trail <= w'.trail
    && w.written <= w'.written
    && w.writtenRoles <= w'.writtenRoles
    && w.seenRoles <= w'.seenRoles
    && w.seenBindings <= w'.seenBindings
    && (forall i :: WrittenAt(w, w', o, i))
    && (forall i :: RoleFreeAt(w, w', o, i))
    && (w.synced && w.orderly && GroundedNow(w, o) ==>
          && GroundedNow(w', o)
          && (forall i :: GroundedAt(w, w', o, i)))
  }

  lemma ProceedsTransitive(a: World, b: World, c: World, o: Owner)
    requires Proceeds(a, b, o) && Proceeds(b, c, o)
    ensures Proceeds(a, c, o)
  {
    forall i
      ensures WrittenAt(a, c, o, i)
    {
      assert WrittenAt(a, b, o, i) && WrittenAt(b, c, o, i);
      assert i < |b.written| && 0 <= i ==> c.written[i] == b.written[i];
    }
    forall i
      ensures RoleFreeAt(a, c, o, i)
    {
      assert RoleFreeAt(a, b, o, i) && RoleFreeAt(b, c, o, i);
      assert i < |b.writtenRoles| && 0 <= i ==> c.writtenRoles[i] == b.writtenRoles[i];
    }
    if a.synced && a.orderly && GroundedNow(a, o) {
      forall i
        ensures GroundedAt(a, c, o, i)
      {
        assert GroundedAt(a, b, o, i) && GroundedAt(b, c, o, i);
        assert i < |b.trail| && 0 <= i ==> c.trail[i] == b.trail[i];
      }
    }
  }

  lemma PutBindingValid(w: World, b: Binding)
    requires Valid(w)
    ensures Valid(PutBinding(w, b))
  {
    var w' := PutBinding(w, b);
    forall x
      ensures BindingKnown(w', x)
    {
      assert BindingKnown(w, x);
    }
    forall x
      ensures RoleKnown(w', x)
    {
      assert RoleKnown(w, x);
    }
  }

  lemma PutRoleValid(w: World, r: Role)
    requires Valid(w)
    ensures Valid(PutRole(w, r))
  {
    var w' := PutRole(w, r);
    forall x
      ensures BindingKnown(w', x)
    {
      assert BindingKnown(w, x);
    }
    forall x
      ensures RoleKnown(w', x)
    {
      assert RoleKnown(w, x);
    }
  }

  lemma RemovalValid(w: World, w': World)
    requires Valid(w)
    requires w' == w.(role := w'.role, binding := w'.binding, trail := w'.trail, script := w'.script,
                    written := w'.written, writtenRoles := w'.writtenRoles)
    requires w'.role in {w.role, None} && w'.binding in {w.binding, None}
    ensures Valid(w')
  {
    forall x
      ensures BindingKnown(w', x)
    {
      assert BindingKnown(w, x);
    }
    forall x
      ensures RoleKnown(w', x)
    {
      assert RoleKnown(w, x);
    }
  }

  /** One step that keeps a grounded binding grounded. */
  lemma StepProceeds(w: World, w': World, o: Owner)
    requires w'.synced == w.synced && w'.orderly == w.orderly && w'.written == w.written && w'.writtenRoles == w.writtenRoles
    requires w.seenRoles <= w'.seenRoles && w.seenBindings <= w'.seenBindings
    requires w'.trail == w.trail || w'.trail == w.trail + [Moment(w'.role, w'.binding)]
    requires w.synced && w.orderly && GroundedNow(w, o) ==> GroundedNow(w', o)
    ensures Proceeds(w, w', o)
  {
  }

  /** What somebody else does changes no controller, and takes nothing away while they are orderly. */
  ghost predicate RivalsOnly(w: World, w': World, o: Owner) {
    && Proceeds(w, w', o)
    && w'.written == w.written
    && w'.writtenRoles == w.writtenRoles
    && (w'.binding.Some? && Ours(w'.binding.value.controller, o) ==> w.binding.Some? && Ours(w.binding.value.controller, o))
    && (w'.role.Some? && Ours(w'.role.value.controller, o) ==> w.role.Some? && Ours(w.role.value.controller, o))
    && (w.orderly && w.role.Some? ==> w'.role.Some? && w'.role.value.controller == w.role.value.controller)
    && (w.orderly && w.binding.Some? ==>
          && w'.binding.Some?
          && w'.binding.value.controller == w.binding.value.controller
          && w'.binding.value.held == w.binding.value.held)
  }

  lemma RivalsTransitive(a: World, b: World, c: World, o: Owner)
    requires RivalsOnly(a, b, o) && RivalsOnly(b, c, o)
    ensures RivalsOnly(a, c, o)
  {
    ProceedsTransitive(a, b, c, o);
  }

  lemma RivalEffectKept(w: World, o: Owner, a: Rival)
    requires Valid(w)
    ensures Valid(RivalEffect(w, o, a)) && RivalsOnly(w, RivalEffect(w, o, a), o)
  {
    var w' := RivalEffect(w, o, a);
    match a {
      case CreateBinding(b) =>
        PutBindingValid(w, b);
      case EditBinding(subjects, labels) =>
        if w.binding.Some? {
          PutBindingValid(w, w.binding.value.(subjects := subjects, labels := labels));
        }
      case DeleteBinding =>
        RemovalValid(w, w');
      case CreateRole(r) =>
        PutRoleValid(w, r);
      case EditRole(rules, labels) =>
        if w.role.Some? {
          PutRoleValid(w, w.role.value.(rules := rules, labels := labels));
        }
      case DeleteRole =>
        RemovalValid(w, w');
    }
    StepProceeds(w, w', o);
  }

  // ---------------------------------------------------------------------------------------------
  // What is granted
  // ---------------------------------------------------------------------------------------------

  /** This cluster's Role, with exactly these rules. */
  predicate Allows(r: Role, o: Owner, rules: seq<string>, labels: string) {
    r.controller == Some(o.uid) && r.rules == rules && r.labels == labels
  }

  /** This cluster's binding of the workload's account to the Role of that name. */
  predicate Binds(b: Binding, o: Owner, labels: string) {
    && b.controller == Some(o.uid)
    && b.roleRef == RoleRef("rbac.authorization.k8s.io", "Role", o.account)
    && b.subjects == [o.account]
    && b.labels == labels
  }

  ghost predicate RoleWrittenAt(w: World, w': World, o: Owner, rules: seq<string>, labels: string, i: int) {
    |w.writtenRoles| <= i < |w'.writtenRoles| ==> Allows(w'.writtenRoles[i].now, o, rules, labels)
  }

  ghost predicate BindingWrittenAt(w: World, w': World, o: Owner, labels: string, i: int) {
    |w.written| <= i < |w'.written| ==> Binds(w'.written[i].now, o, labels)
  }

  /** Everything this framework wrote grants these rules, no more and no less, and to this account. */
  ghost predicate Grants(w: World, w': World, o: Owner, rules: seq<string>, labels: string) {
    && (forall i :: RoleWrittenAt(w, w', o, rules, labels, i))
    && (forall i :: BindingWrittenAt(w, w', o, labels, i))
  }

  lemma GrantsTransitive(a: World, b: World, c: World, o: Owner, rules: seq<string>, labels: string)
    requires Grants(a, b, o, rules, labels) && Grants(b, c, o, rules, labels)
    requires a.written <= b.written <= c.written && a.writtenRoles <= b.writtenRoles <= c.writtenRoles
    ensures Grants(a, c, o, rules, labels)
  {
    forall i
      ensures RoleWrittenAt(a, c, o, rules, labels, i) && BindingWrittenAt(a, c, o, labels, i)
    {
      assert RoleWrittenAt(a, b, o, rules, labels, i) && RoleWrittenAt(b, c, o, rules, labels, i);
      assert BindingWrittenAt(a, b, o, labels, i) && BindingWrittenAt(b, c, o, labels, i);
      assert 0 <= i < |b.writtenRoles| ==> c.writtenRoles[i] == b.writtenRoles[i];
      assert 0 <= i < |b.written| ==> c.written[i] == b.written[i];
    }
  }

  lemma BindingsSince(a: World, b: World, c: World, o: Owner, labels: string)
    requires b.written == a.written && forall i :: BindingWrittenAt(b, c, o, labels, i)
    ensures forall i :: BindingWrittenAt(a, c, o, labels, i)
  {
    forall i
      ensures BindingWrittenAt(a, c, o, labels, i)
    {
      assert BindingWrittenAt(b, c, o, labels, i);
    }
  }

  lemma GrantsNothing(w: World, w': World, o: Owner, rules: seq<string>, labels: string)
    requires w'.written == w.written && w'.writtenRoles == w.writtenRoles
    ensures Grants(w, w', o, rules, labels)
  {
  }

  /** Nobody else acts. */
  ghost predicate Alone(w: World) {
    forall i :: 0 <= i < |w.script| ==> w.script[i].rivals == []
  }

  /** ... reads are current, and no request fails. */
  ghost predicate Smooth(w: World) {
    w.synced && Alone(w) && forall i :: 0 <= i < |w.script| ==> !w.script[i].fails
  }

  function Now(w: World): Moment {
    Moment(w.role, w.binding)
  }

  /** Nothing stands in the way of a grant: neither object is somebody else's, and the binding, if there is
      one, refers to this cluster's Role. */
  predicate Grantable(m: Moment, o: Owner) {
    && (m.role.Some? ==> Free(m.role.value.controller, o))
    && (m.binding.Some? ==> Free(m.binding.value.controller, o) && Refers(m.binding.value, o))
  }

  predicate Refers(b: Binding, o: Owner) {
    b.roleRef == RoleRef("rbac.authorization.k8s.io", "Role", o.account)
  }

  // ---------------------------------------------------------------------------------------------
  // Revoking over a stale read
  // ---------------------------------------------------------------------------------------------

  /** What a revocation comes to when its two reads answer `binding` and `role`. */
  function Revoked(m: Moment, o: Owner, binding: Option<Binding>, role: Option<Role>): Moment {
    Moment(
      if role.Some? && Ours(role.value.controller, o) then None else m.role,
      if binding.Some? && Ours(binding.value.controller, o) && (m.binding.None? || !m.binding.value.held) then None else m.binding)
  }

  /** A revocation leaves this cluster's binding without its Role exactly when it removes the Role and
      its read of the binding missed it, or a finalizer held it back. */
  lemma RevokedExactly(m: Moment, o: Owner, binding: Option<Binding>, role: Option<Role>)
    requires m.binding.Some? && Ours(m.binding.value.controller, o) && m.role.Some?
    ensures !Grounded(Revoked(m, o, binding, role), o) <==>
      && role.Some? && Ours(role.value.controller, o)
      && (binding.None? || !Ours(binding.value.controller, o) || m.binding.value.held)
  {
  }

  /** A cache that has not yet seen the binding leaves it dangling. */
  lemma StaleRevokeDangles(o: Owner)
    ensures var role := Role(1, Some(o.uid), ["get"], "");
      var binding := Binding(2, Some(o.uid), WantedRef(o), [o.account], "", false);
      var m := Moment(Some(role), Some(binding));
      Grounded(m, o) && !Grounded(Revoked(m, o, None, Some(role)), o)
  {
  }
}
