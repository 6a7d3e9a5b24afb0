/** The grant and the revocation as they run, one request at a time. */
module WorkloadRbacClient {
  import opened Wrappers
  import opened WorkloadRbac

  datatype RbacError = NoAccount | RefConflict | AlreadyOwned | ApiFailed

  datatype Reply<T> = Found(value: T) | NotFound | Unread

  class Client {
    var w: World
    const owner: Owner

    constructor (w: World, owner: Owner)
      ensures this.w == w && this.owner == owner
    {
      this.w, this.owner := w, owner;
    }

    /** Lets others act before a request is served. */
    method Next() returns (turn: Turn)
      requires Valid(w)
      modifies this
      ensures Valid(w) && RivalsOnly(old(w), w, owner)
      ensures Alone(old(w)) ==> Alone(w) && Now(w) == Now(old(w))
      ensures Smooth(old(w)) ==> Smooth(w) && !turn.fails
    {
      turn := Turn([], false, false, None, None);
      if w.script != [] {
        turn := w.script[0];
        RemovalValid(w, w.(script := w.script[1..]));
        w := w.(script := w.script[1..]);
      }
      for i := 0 to |turn.rivals|
        invariant Valid(w) && RivalsOnly(old(w), w, owner)
        invariant Alone(old(w)) ==> turn.rivals == [] && Alone(w) && Now(w) == Now(old(w))
        invariant Smooth(old(w)) ==> Smooth(w) && !turn.fails
      {
        RivalEffectKept(w, owner, turn.rivals[i]);
        RivalsTransitive(old(w), w, RivalEffect(w, owner, turn.rivals[i]), owner);
        w := RivalEffect(w, owner, turn.rivals[i]);
      }
    }

    method GetBinding() returns (reply: Reply<Binding>)
      requires Valid(w)
      modifies this
      ensures Valid(w) && RivalsOnly(old(w), w, owner)
      ensures Alone(old(w)) ==> Alone(w) && Now(w) == Now(old(w))
      ensures reply.Found? ==> reply.value in w.seenBindings
      ensures w.synced && reply.Found? ==> w.binding == Some(reply.value)
      ensures w.synced && reply.NotFound? ==> w.binding.None?
      ensures Smooth(old(w)) ==> Smooth(w) && !reply.Unread?
    {
      var turn := Next();
      if turn.fails {
        return Unread;
      }
      if !w.synced && turn.cachedBinding.Some? {
        match turn.cachedBinding.value {
          case None => return NotFound;
          case Some(b) =>
            if b in w.seenBindings {
              return Found(b);
            }
        }
      }
      reply := if w.binding.Some? then Found(w.binding.value) else NotFound;
    }

    method GetRole() returns (reply: Reply<Role>)
      requires Valid(w)
      modifies this
      ensures Valid(w) && RivalsOnly(old(w), w, owner)
      ensures Alone(old(w)) ==> Alone(w) && Now(w) == Now(old(w))
      ensures reply.Found? ==> reply.value in w.seenRoles
      ensures w.synced && reply.Found? ==> w.role == Some(reply.value)
      ensures w.synced && reply.NotFound? ==> w.role.None?
      ensures Smooth(old(w)) ==> Smooth(w) && !reply.Unread?
    {
      var turn := Next();
      if turn.fails {
        return Unread;
      }
      if !w.synced && turn.cachedRole.Some? {
        match turn.cachedRole.value {
          case None => return NotFound;
          case Some(r) =>
            if r in w.seenRoles {
              return Found(r);
            }
        }
      }
      reply := if w.role.Some? then Found(w.role.value) else NotFound;
    }

    /** Creates the Role, or replaces `base` if it is still current. */
    method PutRoleRequest(base: Option<Role>, next: Role) returns (ok: bool)
      requires Valid(w)
      requires base.Some? ==> base.value in w.seenRoles && Free(base.value.controller, owner)
      modifies this
      ensures Valid(w) && Proceeds(old(w), w, owner)
      ensures ok ==> w.role.Some? && w.role.value == next.(version := w.role.value.version)
      ensures Grants(old(w), w, owner, next.rules, next.labels) || next.controller != Some(owner.uid)
      ensures Alone(old(w)) ==> Alone(w)
      ensures Smooth(old(w)) ==> Smooth(w) && w.binding == old(w).binding && (base == old(w).role ==> ok)
    {
      ghost var w0 := w;
      GrantsNothing(w0, w0, owner, next.rules, next.labels);
      var turn := Next();
      if turn.fails && !turn.applied {
        return false;
      }
      if base.None? && w.role.Some? {
        return false;
      }
      if base.Some? && (w.role.None? || w.role.value.version != base.value.version) {
        return false;
      }
      ghost var w1 := w;
      assert base.Some? ==> RoleKnown(w1, base.value);
      WriteRole(next);
      ProceedsTransitive(w0, w1, w, owner);
      ok := !turn.fails;
    }

    method WriteRole(next: Role)
      requires Valid(w) && (w.role.Some? ==> Free(w.role.value.controller, owner))
      modifies this
      ensures Valid(w) && Proceeds(old(w), w, owner)
      ensures w.role == Some(next.(version := old(w).nextVersion)) && w.binding == old(w).binding
      ensures w.written == old(w).written && w.writtenRoles == old(w).writtenRoles + [Change(old(w).role, w.role.value)]
      ensures Alone(old(w)) ==> Alone(w)
      ensures Smooth(old(w)) ==> Smooth(w)
    {
      var w1 := w;
      PutRoleValid(w, next);
      w := PutRole(w, next);
      StepProceeds(w1, w, owner);
      ghost var w2 := w;
      RemovalValid(w, w.(writtenRoles := w.writtenRoles + [Change(w1.role, w.role.value)]));
      w := w.(writtenRoles := w.writtenRoles + [Change(w1.role, w.role.value)]);
      forall i
        ensures RoleFreeAt(w2, w, owner, i)
      {
      }
      ProceedsTransitive(w1, w2, w, owner);
    }

    /** Creates the binding, or replaces `base` if it is still current; a roleRef cannot be changed. */
    method PutBindingRequest(base: Option<Binding>, next: Binding) returns (ok: bool)
      requires Valid(w) && WellWritten(next, owner)
      requires base.Some? ==> base.value in w.seenBindings && next.held == base.value.held
      requires base.None? ==> !next.held
      requires w.synced && w.orderly ==> w.role.Some?
      requires w.synced && base.Some? ==> w.binding == base
      requires base.Some? ==> Free(base.value.controller, owner)
      modifies this
      ensures Valid(w) && Proceeds(old(w), w, owner)
      ensures ok ==> w.binding.Some? && WellWritten(w.binding.value, owner) && Binds(w.binding.value, owner, next.labels)
      ensures w.writtenRoles == old(w).writtenRoles && forall i :: BindingWrittenAt(old(w), w, owner, next.labels, i)
      ensures Alone(old(w)) ==> Alone(w) && w.role == old(w).role
      ensures w.orderly && old(w).role.Some? ==> w.role.Some?
      ensures Smooth(old(w)) && base == old(w).binding && (base.Some? ==> base.value.roleRef == next.roleRef) ==> ok
    {
      ghost var w0 := w;
      var turn := Next();
      if turn.fails && !turn.applied {
        return false;
      }
      if base.None? && w.binding.Some? {
        return false;
      }
      if base.Some? && (w.binding.None? || w.binding.value.version != base.value.version || base.value.roleRef != next.roleRef) {
        return false;
      }
      ghost var w1 := w;
      assert base.Some? ==> BindingKnown(w0, base.value) && BindingKnown(w1, base.value);
      WriteBinding(next);
      ProceedsTransitive(w0, w1, w, owner);
      ok := !turn.fails;
    }

    method WriteBinding(next: Binding)
      requires Valid(w) && WellWritten(next, owner)
      requires w.binding.Some? ==> Free(w.binding.value.controller, owner) && w.binding.value.roleRef == next.roleRef
      requires w.synced && w.orderly && GroundedNow(w, owner) ==> w.role.Some? && !next.held
      modifies this
      ensures Valid(w) && Proceeds(old(w), w, owner)
      ensures w.binding == Some(next.(version := old(w).nextVersion)) && w.role == old(w).role && w.orderly == old(w).orderly
      ensures w.written == old(w).written + [Change(old(w).binding, w.binding.value)] && w.writtenRoles == old(w).writtenRoles
      ensures Alone(old(w)) ==> Alone(w)
    {
      var w1 := w;
      PutBindingValid(w, next);
      w := PutBinding(w, next);
      StepProceeds(w1, w, owner);
      ghost var w2 := w;
      RemovalValid(w, w.(written := w.written + [Change(w1.binding, w.binding.value)]));
      w := w.(written := w.written + [Change(w1.binding, w.binding.value)]);
      forall i
        ensures WrittenAt(w2, w, owner, i)
      {
      }
      ProceedsTransitive(w1, w2, w, owner);
    }

    method CreateOrUpdateRole(rules: seq<string>, labels: string) returns (err: Option<RbacError>)
      requires Valid(w)
      modifies this
      ensures Valid(w) && Proceeds(old(w), w, owner)
      ensures err.None? && w.synced ==> w.role.Some? && Allows(w.role.value, owner, rules, labels)
      ensures Grants(old(w), w, owner, rules, labels) && (Alone(old(w)) ==> Alone(w))
      ensures Smooth(old(w)) ==>
        && Smooth(w)
        && w.binding == old(w).binding
        && (err.None? <==> (old(w).role.Some? ==> Free(old(w).role.value.controller, owner)))
    {
      ghost var w0 := w;
      var reply := GetRole();
      ghost var w1 := w;
      GrantsNothing(w0, w1, owner, rules, labels);
      match reply
      case Unread => return Some(ApiFailed);
      case NotFound =>
        var ok := PutRoleRequest(None, Role(0, Some(owner.uid), rules, labels));
        ProceedsTransitive(w0, w1, w, owner);
        GrantsTransitive(w0, w1, w, owner, rules, labels);
        err := if ok then None else Some(ApiFailed);
      case Found(role) =>
        if role.controller.Some? && !Ours(role.controller, owner) {
          return Some(AlreadyOwned);
        }
        var next := role.(controller := Some(owner.uid), rules := rules, labels := labels);
        if next == role {
          return None;
        }
        var ok := PutRoleRequest(Some(role), next);
        ProceedsTransitive(w0, w1, w, owner);
        GrantsTransitive(w0, w1, w, owner, rules, labels);
        err := if ok then None else Some(ApiFailed);
    }

    method CreateOrUpdateBinding(labels: string) returns (err: Option<RbacError>)
      requires Valid(w)
      requires w.synced && w.orderly ==> w.role.Some?
      modifies this
      ensures Valid(w) && Proceeds(old(w), w, owner)
      ensures err.None? && w.synced ==>
        w.binding.Some? && WellWritten(w.binding.value, owner) && Binds(w.binding.value, owner, labels)
      ensures w.writtenRoles == old(w).writtenRoles && forall i :: BindingWrittenAt(old(w), w, owner, labels, i)
      ensures Alone(old(w)) ==> Alone(w) && w.role == old(w).role
      ensures w.orderly && old(w).role.Some? ==> w.role.Some?
      ensures Smooth(old(w)) && (old(w).binding.Some? ==> Refers(old(w).binding.value, owner)) ==>
        (err.None? <==> (old(w).binding.Some? ==> Free(old(w).binding.value.controller, owner)))
    {
      ghost var w0 := w;
      var reply := GetBinding();
      ghost var w1 := w;
      var want := WantedRef(owner);
      match reply
      case Unread => return Some(ApiFailed);
      case NotFound =>
        var ok := PutBindingRequest(None, Binding(0, Some(owner.uid), want, [owner.account], labels, false));
        ProceedsTransitive(w0, w1, w, owner);
        BindingsSince(w0, w1, w, owner, labels);
        err := if ok then None else Some(ApiFailed);
      case Found(binding) =>
        if binding.controller.Some? && !Ours(binding.controller, owner) {
          return Some(AlreadyOwned);
        }
        var next := binding.(controller := Some(owner.uid), labels := labels, subjects := [owner.account]);
        if next.roleRef == RoleRef("", "", "") {
          next := next.(roleRef := want);
        } else if next.roleRef != want {
          return Some(RefConflict);
        }
        if next == binding {
          return None;
        }
        var ok := PutBindingRequest(Some(binding), next);
        ProceedsTransitive(w0, w1, w, owner);
        BindingsSince(w0, w1, w, owner, labels);
        err := if ok then None else Some(ApiFailed);
    }

    /** Whether a binding of this name already refers to something else. A failed read is left to the
        write path to report. */
    method CheckWorkloadRoleRef() returns (conflict: bool)
      requires Valid(w)
      modifies this
      ensures Valid(w) && RivalsOnly(old(w), w, owner)
      ensures conflict ==> exists b :: b in w.seenBindings && b.roleRef != WantedRef(owner)
      ensures Alone(old(w)) ==> Alone(w)
      ensures conflict && w.synced ==> w.binding.Some? && w.binding.value.roleRef != WantedRef(owner)
      ensures Smooth(old(w)) ==> Smooth(w) && (conflict <==> w.binding.Some? && !Refers(w.binding.value, owner))
      ensures Alone(old(w)) ==> Now(w) == Now(old(w))
    {
      var reply := GetBinding();
      conflict := reply.Found? && reply.value.roleRef != WantedRef(owner);
    }

    /** Grants the rules to the workload's account, or revokes them when there are none. `doomed` says
        that the pass gave up before its first write. */
    method EnsureWorkloadRBAC(rules: seq<string>, labels: string) returns (err: Option<RbacError>, ghost doomed: bool)
      requires Valid(w)
      modifies this
      ensures Valid(w) && Proceeds(old(w), w, owner)
      ensures doomed ==> err.Some? && RivalsOnly(old(w), w, owner)
      ensures owner.account == "" ==> doomed
      ensures err.None? && rules != [] && w.synced && w.orderly ==>
        w.role.Some? && w.binding.Some? && WellWritten(w.binding.value, owner) && Binds(w.binding.value, owner, labels)
      ensures Grants(old(w), w, owner, rules, labels)
      ensures rules == [] ==> w.written == old(w).written && w.writtenRoles == old(w).writtenRoles
      ensures Alone(old(w)) && w.synced && err.None? && rules != [] ==>
        && w.role.Some? && Allows(w.role.value, owner, rules, labels)
        && w.binding.Some? && Binds(w.binding.value, owner, labels)
      ensures err.None? && rules == [] && w.synced && w.orderly && owner.uid != "" ==> BindingGivenUp(w) && RoleGivenUp(w)
      ensures Smooth(old(w)) && owner.account != "" && rules == [] ==> err.None?
      ensures Smooth(old(w)) && owner.account != "" && rules != [] ==> (err.None? <==> Grantable(Now(old(w)), owner))
      ensures Smooth(old(w)) && old(w).binding.Some? && !Refers(old(w).binding.value, owner) && rules != [] ==> Now(w) == Now(old(w))
    {
      ghost var w0 := w;
      doomed := false;
      StepProceeds(w0, w0, owner);
      GrantsNothing(w0, w0, owner, rules, labels);
      if owner.account == "" {
        return Some(NoAccount), true;
      }
      if |rules| == 0 {
        ghost var binding, role;
        err, binding, role := ReclaimWorkloadRBAC();
        return;
      }
      var conflict := CheckWorkloadRoleRef();
      if conflict {
        return Some(RefConflict), true;
      }
      ghost var w1 := w;
      GrantsNothing(w0, w1, owner, rules, labels);
      err := CreateOrUpdateRole(rules, labels);
      ProceedsTransitive(w0, w1, w, owner);
      GrantsTransitive(w0, w1, w, owner, rules, labels);
      if err.Some? {
        return;
      }
      ghost var w2 := w;
      err := CreateOrUpdateBinding(labels);
      ProceedsTransitive(w0, w2, w, owner);
      GrantsTransitive(w0, w2, w, owner, rules, labels);
    }

    /** Revokes: the binding first, then the Role that spells the permission out. `binding` and `role` are
        what the two reads answered. */
    method ReclaimWorkloadRBAC() returns (err: Option<RbacError>, ghost binding: Option<Binding>, ghost role: Option<Role>)
      requires Valid(w)
      modifies this
      ensures Valid(w) && Proceeds(old(w), w, owner)
      ensures err.None? && w.synced && w.orderly && owner.uid != "" ==> BindingGivenUp(w) && RoleGivenUp(w)
      ensures Alone(old(w)) && err.None? ==> Now(w) == Revoked(Now(old(w)), owner, binding, role)
      ensures Alone(old(w)) && err.None? && w.synced && owner.uid != "" ==> binding == old(w).binding && role == old(w).role
      ensures Smooth(old(w)) ==> err.None?
      ensures w.written == old(w).written && w.writtenRoles == old(w).writtenRoles
    {
      ghost var w0 := w;
      role := None;
      err, binding := DeleteBindingIfOwned();
      if err.Some? {
        return;
      }
      ghost var w1 := w;
      err, role := DeleteRoleIfOwned();
      ProceedsTransitive(w0, w1, w, owner);
    }

    /** This cluster has no binding, unless a finalizer holds it. */
    predicate BindingGivenUp(w: World) {
      w.binding.Some? && Ours(w.binding.value.controller, owner) ==> w.binding.value.held
    }

    predicate RoleGivenUp(w: World) {
      w.role.Some? ==> !Ours(w.role.value.controller, owner)
    }

    method DeleteBindingIfOwned() returns (err: Option<RbacError>, ghost answer: Option<Binding>)
      requires Valid(w)
      modifies this
      ensures Valid(w) && Proceeds(old(w), w, owner)
      ensures w.synced && w.orderly && err.None? && owner.uid != "" ==> BindingGivenUp(w)
      ensures Alone(old(w)) && err.None? ==> Alone(w) && Now(w) == Revoked(Now(old(w)), owner, answer, None)
      ensures Alone(old(w)) && err.None? && w.synced && owner.uid != "" ==> answer == old(w).binding
      ensures Smooth(old(w)) ==> Smooth(w) && err.None?
      ensures w.written == old(w).written && w.writtenRoles == old(w).writtenRoles
    {
      ghost var w0 := w;
      StepProceeds(w0, w0, owner);
      if owner.uid == "" {
        return None, None;
      }
      var reply := GetBinding();
      match reply
      case NotFound => return None, None;
      case Unread => return Some(ApiFailed), None;
      case Found(binding) =>
        if !Ours(binding.controller, owner) {
          return None, Some(binding);
        }
        ghost var w1 := w;
        var ok := RemoveBinding();
        ProceedsTransitive(w0, w1, w, owner);
        err, answer := if ok then None else Some(ApiFailed), Some(binding);
    }

    /** Asks for the binding's deletion; a finalizer keeps it. */
    method RemoveBinding() returns (ok: bool)
      requires Valid(w)
      modifies this
      ensures Valid(w) && Proceeds(old(w), w, owner)
      ensures ok ==> w.binding.None? || w.binding.value.held
      ensures Alone(old(w)) ==> Alone(w) && w.role == old(w).role
      ensures Smooth(old(w)) ==> Smooth(w) && ok
      ensures Alone(old(w)) && ok ==> w.binding == if old(w).binding.Some? && old(w).binding.value.held then old(w).binding else None
      ensures w.written == old(w).written && w.writtenRoles == old(w).writtenRoles
    {
      ghost var w0 := w;
      var turn := Next();
      if turn.fails && !turn.applied {
        return false;
      }
      ghost var w1 := w;
      if w.binding.Some? && !w.binding.value.held {
        RemovalValid(w, Noted(w.(binding := None)));
        w := Noted(w.(binding := None));
      }
      StepProceeds(w1, w, owner);
      ProceedsTransitive(w0, w1, w, owner);
      ok := !turn.fails;
    }

    method DeleteRoleIfOwned() returns (err: Option<RbacError>, ghost answer: Option<Role>)
      requires Valid(w)
      requires w.synced && w.orderly && owner.uid != "" ==> BindingGivenUp(w)
      modifies this
      ensures Valid(w) && Proceeds(old(w), w, owner)
      ensures w.synced && err.None? && owner.uid != "" ==> RoleGivenUp(w)
      ensures w.synced && w.orderly && owner.uid != "" ==> BindingGivenUp(w)
      ensures Alone(old(w)) && err.None? ==> Alone(w) && Now(w) == Revoked(Now(old(w)), owner, None, answer)
      ensures Alone(old(w)) && err.None? && w.synced && owner.uid != "" ==> answer == old(w).role
      ensures Smooth(old(w)) ==> Smooth(w) && err.None?
      ensures w.written == old(w).written && w.writtenRoles == old(w).writtenRoles
    {
      ghost var w0 := w;
      StepProceeds(w0, w0, owner);
      if owner.uid == "" {
        return None, None;
      }
      var reply := GetRole();
      match reply
      case NotFound => return None, None;
      case Unread => return Some(ApiFailed), None;
      case Found(role) =>
        if !Ours(role.controller, owner) {
          return None, Some(role);
        }
        ghost var w1 := w;
        var ok := RemoveRole();
        ProceedsTransitive(w0, w1, w, owner);
        err, answer := if ok then None else Some(ApiFailed), Some(role);
    }

    method RemoveRole() returns (ok: bool)
      requires Valid(w)
      requires w.synced && w.orderly ==> BindingGivenUp(w)
      modifies this
      ensures Valid(w) && Proceeds(old(w), w, owner)
      ensures ok ==> w.role.None?
      ensures w.synced && w.orderly ==> BindingGivenUp(w)
      ensures Alone(old(w)) ==> Alone(w) && w.binding == old(w).binding
      ensures Smooth(old(w)) ==> Smooth(w) && ok
      ensures w.written == old(w).written && w.writtenRoles == old(w).writtenRoles
    {
      ghost var w0 := w;
      var turn := Next();
      if turn.fails && !turn.applied {
        return false;
      }
      ghost var w1 := w;
      if w.role.Some? {
        RemovalValid(w, Noted(w.(role := None)));
        w := Noted(w.(role := None));
      }
      StepProceeds(w1, w, owner);
      ProceedsTransitive(w0, w1, w, owner);
      ok := !turn.fails;
    }
  }
}
