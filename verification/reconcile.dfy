/** One pass of the reconciler: which errors fail it, which it waits for, and when it comes back. */
module Reconcile {
  import opened Wrappers
  import opened Errors
  import opened Extensions
  import Requeue

  const REASON_WAITING := "Waiting"

  datatype WaitState = WaitState(after: int, reason: string, message: string)

  /** The wait as it is reported. */
  function NewWaitState(wait: Err): WaitState
    requires wait.Wait?
  {
    WaitState(
      ClampRequeueAfter(wait.after),
      if wait.reason == "" then REASON_WAITING else wait.reason,
      if wait.message == "" then "waiting (" + wait.reason + "): " + wait.message else wait.message)
  }

  /** What the wait states is reported as it is; what it leaves out is made up for. */
  lemma WaitStateTells(wait: Err)
    requires wait.Wait?
    ensures var w := NewWaitState(wait);
      && w.after >= SECOND
      && (wait.after >= SECOND ==> w.after == wait.after)
      && w.reason == (if wait.reason != "" then wait.reason else "Waiting")
      && w.message != "" && (wait.message != "" ==> w.message == wait.message)
  {
  }

  /** Keeps the shorter of two waits, the earlier one when they are equal. */
  function MergeWait(existing: Option<WaitState>, next: Option<WaitState>): Option<WaitState> {
    if existing.None? then next
    else if next.None? then existing
    else if next.value.after < existing.value.after then next
    else existing
  }

  /** What a pass waits for after these outcomes. */
  function WaitFor(outcomes: seq<Err>): Option<WaitState>
    requires NilOrWaits(outcomes)
  {
    NonNilWaits(outcomes);
    if NonNil(outcomes) == [] then None else Some(NewWaitState(Shortest(LeavesOf(NonNil(outcomes)))))
  }

  lemma {:induction false} NonNilWaits(outcomes: seq<Err>)
    requires NilOrWaits(outcomes)
    ensures OnlyWaits(LeavesOf(NonNil(outcomes)))
    ensures NonNil(outcomes) == [] <==> AllNil(outcomes)
  {
    if outcomes != [] {
      NilOrWaitsFirst(outcomes);
      NonNilWaits(outcomes[1..]);
      if outcomes[0].Nil? {
        assert NonNil(outcomes) == NonNil(outcomes[1..]);
      } else {
        LeavesOfBoth([outcomes[0]], NonNil(outcomes[1..]));
        LeavesOfOne(outcomes[0]);
        OnlyWaitsOfBoth(Leaves(outcomes[0]), LeavesOf(NonNil(outcomes[1..])));
      }
    }
  }

  lemma NilOrWaitsOfBoth(a: seq<Err>, b: seq<Err>)
    ensures NilOrWaits(a + b) <==> NilOrWaits(a) && NilOrWaits(b)
    ensures AllNil(a + b) <==> AllNil(a) && AllNil(b)
  {
    assert forall i :: 0 <= i < |a| ==> (a + b)[i] == a[i];
    assert forall i :: 0 <= i < |b| ==> (a + b)[|a| + i] == b[i];
  }

  /** Merging the waits of two stretches of a pass gives the wait of both. */
  lemma WaitForBoth(a: seq<Err>, b: seq<Err>)
    requires NilOrWaits(a) && NilOrWaits(b)
    ensures NilOrWaits(a + b) && WaitFor(a + b) == MergeWait(WaitFor(a), WaitFor(b))
  {
    NilOrWaitsOfBoth(a, b);
    NonNilWaits(a);
    NonNilWaits(b);
    NonNilOfBoth(a, b);
    LeavesOfBoth(NonNil(a), NonNil(b));
    if NonNil(a) != [] && NonNil(b) != [] {
      ShortestOfBoth(LeavesOf(NonNil(a)), LeavesOf(NonNil(b)));
    } else if NonNil(a) == [] {
      assert [] + NonNil(b) == NonNil(b);
    } else {
      assert NonNil(a) + [] == NonNil(a);
    }
  }

  /** A pass that waits for these outcomes comes back no later than any of them asks. */
  lemma WaitForIsShortest(outcomes: seq<Err>, i: nat, j: nat)
    requires NilOrWaits(outcomes) && i < |outcomes| && !outcomes[i].Nil? && j < |Leaves(outcomes[i])|
    ensures WaitFor(outcomes).Some? && Leaves(outcomes[i])[j].Wait?
    ensures WaitFor(outcomes).value.after <= ClampRequeueAfter(Leaves(outcomes[i])[j].after)
  {
    var a, b := outcomes[..i], outcomes[i..];
    assert outcomes == a + b && b == [outcomes[i]] + b[1..];
    NilOrWaitsOfBoth(a, b);
    NilOrWaitsOfBoth([outcomes[i]], b[1..]);
    WaitForBoth(a, b);
    WaitForBoth([outcomes[i]], b[1..]);
    assert NonNil([outcomes[i]]) == [outcomes[i]] by {
      assert [outcomes[i]][1..] == [];
    }
    LeavesOfOne(outcomes[i]);
    var k := ShortestIsFirstLeast(Leaves(outcomes[i]));
  }

  // ---------------------------------------------------------------------------------------------
  // One role
  // ---------------------------------------------------------------------------------------------

  /** What the parts of one role's reconciliation return when they are run. */
  datatype RoleInputs = RoleInputs(pre: seq<Err>, groups: seq<Err>, pdb: Err, post: seq<Err>)

  /** The outcomes that belong to the role: a PreReconcile error leaves out the rest. */
  function RoleOutcomes(r: RoleInputs): seq<Err> {
    if AllNil(r.pre) then r.groups + [r.pdb] + r.post else r.pre
  }

  lemma StandsForOne(err: Err, text: string)
    requires !err.Nil?
    ensures StandsFor(Wrap(text, err), [err]) && StandsFor(err, [err])
  {
    assert [err][1..] == [] && NonNil([err]) == [err];
    LeavesOfOne(err);
  }

  lemma StandsForWrapped(err: Err, text: string, outcomes: seq<Err>)
    requires StandsFor(err, outcomes) && !err.Nil?
    ensures StandsFor(Wrap(text, err), outcomes)
  {
  }

  /** A list of errors collected so far stands for the outcomes so far. */
  predicate ListStandsFor(errs: seq<Err>, outcomes: seq<Err>) {
    && (errs == [] <==> AllNil(outcomes))
    && (OnlyWaits(LeavesOf(errs)) <==> NilOrWaits(outcomes))
    && (NilOrWaits(outcomes) ==> LeavesOf(errs) == LeavesOf(NonNil(outcomes)))
  }

  lemma Collected(errs: seq<Err>, outcomes: seq<Err>, err: Err, more: seq<Err>)
    requires ListStandsFor(errs, outcomes) && StandsFor(err, more)
    ensures ListStandsFor(if err.Nil? then errs else errs + [err], outcomes + more)
  {
    NilOrWaitsOfBoth(outcomes, more);
    NonNilOfBoth(outcomes, more);
    LeavesOfBoth(NonNil(outcomes), NonNil(more));
    if err.Nil? {
      NonNilOfNil(more);
      assert NonNil(outcomes) + [] == NonNil(outcomes);
    } else {
      LeavesOfBoth(errs, [err]);
      LeavesOfOne(err);
      OnlyWaitsOfBoth(LeavesOf(errs), Leaves(err));
    }
  }

  lemma {:induction false} NonNilOfNil(es: seq<Err>)
    requires AllNil(es)
    ensures NonNil(es) == [] && NilOrWaits(es)
  {
    if es != [] {
      NilOrWaitsFirst(es);
      NonNilOfNil(es[1..]);
    }
  }

  lemma JoinStandsFor(errs: seq<Err>, outcomes: seq<Err>)
    requires ListStandsFor(errs, outcomes)
    ensures StandsFor(JoinErrors(errs), outcomes)
  {
  }

  lemma NothingYet()
    ensures ListStandsFor([], [])
  {
  }

  /** Collects the errors of the role groups; `stopped` is the one that throttled the pass. */
  method ReconcileGroups(groups: seq<Err>) returns (errs: seq<Err>, stopped: Err)
    ensures stopped.Nil? ==> ListStandsFor(errs, groups)
    ensures !stopped.Nil? ==> Throttled(stopped) && stopped in groups
    ensures Raised(LeavesOf(errs), groups)
  {
    errs := [];
    NothingYet();
    for i := 0 to |groups|
      invariant ListStandsFor(errs, groups[..i])
      invariant Raised(LeavesOf(errs), groups)
    {
      assert groups[..i + 1] == groups[..i] + [groups[i]];
      if groups[i].Nil? {
        Collected(errs, groups[..i], Nil, [groups[i]]);
      } else {
        if Throttled(groups[i]) {
          return errs, groups[i];
        }
        StandsForOne(groups[i], "");
        Collected(errs, groups[..i], groups[i], [groups[i]]);
        assert Raised(Leaves(groups[i]), groups);
        OneMoreRaised(errs, groups[i], groups);
        errs := errs + [groups[i]];
      }
    }
    assert groups[..|groups|] == groups;
    stopped := Nil;
  }

  lemma OneMoreRaised(errs: seq<Err>, err: Err, outcomes: seq<Err>)
    requires Raised(LeavesOf(errs), outcomes) && Raised(Leaves(err), outcomes)
    ensures Raised(LeavesOf(errs + [err]), outcomes)
  {
    LeavesOfBoth(errs, [err]);
    LeavesOfOne(err);
  }

  /** Everything that may be raised for a role. */
  function RoleRaised(r: RoleInputs): seq<Err> {
    r.pre + r.groups + [r.pdb] + r.post
  }

  lemma PartsRaised(r: RoleInputs, leaves: seq<Err>)
    ensures Raised(leaves, r.pre) || Raised(leaves, r.groups) || Raised(leaves, [r.pdb]) || Raised(leaves, r.post) ==>
      Raised(leaves, RoleRaised(r))
  {
    var all := RoleRaised(r);
    assert all == [] + r.pre + (r.groups + [r.pdb] + r.post) && all == r.pre + r.groups + ([r.pdb] + r.post);
    assert all == (r.pre + r.groups) + [r.pdb] + r.post && all == (r.pre + r.groups + [r.pdb]) + r.post + [];
    if Raised(leaves, r.pre) {
      RaisedWidens(leaves, [], r.pre, r.groups + [r.pdb] + r.post);
    }
    if Raised(leaves, r.groups) {
      RaisedWidens(leaves, r.pre, r.groups, [r.pdb] + r.post);
    }
    if Raised(leaves, [r.pdb]) {
      RaisedWidens(leaves, r.pre + r.groups, [r.pdb], r.post);
    }
    if Raised(leaves, r.post) {
      RaisedWidens(leaves, r.pre + r.groups + [r.pdb], r.post, []);
    }
  }

  /** One role, best effort: a failing role group stops neither its siblings nor the role's budget. */
  method ReconcileRole(entries: seq<Entry>, r: RoleInputs) returns (err: Err)
    requires |entries| == |r.pre| == |r.post|
    ensures (Throttled(err) && (err in r.groups || err == r.pdb)) || StandsFor(err, RoleOutcomes(r))
    ensures !err.Nil? ==> Raised(Leaves(err), RoleRaised(r))
  {
    var pre := RunHooks(entries, r.pre);
    if !pre.Nil? {
      StandsForWrapped(pre, "RolePreReconcile", r.pre);
      PartsRaised(r, Leaves(pre));
      return Wrap("RolePreReconcile", pre);
    }
    var errs, stopped := ReconcileGroups(r.groups);
    if !stopped.Nil? {
      RaisedItself(stopped, r.groups);
      PartsRaised(r, Leaves(stopped));
      return stopped;
    }
    PartsRaised(r, LeavesOf(errs));
    PartsRaised(r, Leaves(r.pdb));
    if r.pdb.Nil? {
      Collected(errs, r.groups, Nil, [r.pdb]);
    } else {
      RaisedItself(r.pdb, [r.pdb]);
      if Throttled(r.pdb) {
        return r.pdb;
      }
      StandsForOne(r.pdb, "");
      Collected(errs, r.groups, r.pdb, [r.pdb]);
      OneMoreRaised(errs, r.pdb, RoleRaised(r));
      errs := errs + [r.pdb];
    }
    var post := RunHooks(entries, r.post);
    if post.Nil? {
      Collected(errs, r.groups + [r.pdb], Nil, r.post);
    } else {
      StandsForWrapped(post, "RolePostReconcile", r.post);
      Collected(errs, r.groups + [r.pdb], Wrap("RolePostReconcile", post), r.post);
      PartsRaised(r, Leaves(post));
      OneMoreRaised(errs, Wrap("RolePostReconcile", post), RoleRaised(r));
      errs := errs + [Wrap("RolePostReconcile", post)];
    }
    err := JoinErrors(errs);
    JoinStandsFor(errs, RoleOutcomes(r));
  }

  // ---------------------------------------------------------------------------------------------
  // One pass
  // ---------------------------------------------------------------------------------------------

  /** What the parts of one pass return when they are run; roles are in the order of their names. */
  datatype PassInputs = PassInputs(
    serviceAccount: Err,
    rbac: Err,
    pre: seq<Err>,
    dependencies: Err,
    declare: Err,
    roles: seq<RoleInputs>,
    cleanup: Err,
    cleanupRequeue: int,
    post: seq<Err>,
    statusWrite: Err)

  function ClusterOutcomes(p: PassInputs): seq<Err> {
    p.pre + [p.dependencies] + [p.declare]
  }

  function RolesOutcomes(roles: seq<RoleInputs>): seq<Err> {
    if roles == [] then [] else RolesOutcomes(roles[..|roles| - 1]) + RoleOutcomes(roles[|roles| - 1])
  }

  function RolesRaised(roles: seq<RoleInputs>): seq<Err> {
    if roles == [] then [] else RolesRaised(roles[..|roles| - 1]) + RoleRaised(roles[|roles| - 1])
  }

  /** Everything that the parts of the pass may raise. */
  function AllRaised(p: PassInputs): seq<Err> {
    [p.serviceAccount, p.rbac] + ClusterOutcomes(p) + RolesRaised(p.roles) + ([p.cleanup] + p.post + [p.statusWrite])
  }

  lemma PhaseRaised(p: PassInputs, leaves: seq<Err>)
    ensures Raised(leaves, ClusterOutcomes(p)) ==> Raised(leaves, AllRaised(p))
    ensures Raised(leaves, RolesRaised(p.roles) + [p.cleanup] + p.post) ==> Raised(leaves, AllRaised(p))
  {
    var first, cluster := [p.serviceAccount, p.rbac], ClusterOutcomes(p);
    var last := RolesRaised(p.roles) + [p.cleanup] + p.post;
    if Raised(leaves, cluster) {
      RaisedWidens(leaves, first, cluster, last + [p.statusWrite]);
      assert AllRaised(p) == first + cluster + (last + [p.statusWrite]);
    }
    if Raised(leaves, last) {
      RaisedWidens(leaves, first + cluster, last, [p.statusWrite]);
      assert AllRaised(p) == first + cluster + last + [p.statusWrite];
    }
  }

  lemma EndsRaised(p: PassInputs)
    ensures !p.serviceAccount.Nil? ==> Raised(Leaves(p.serviceAccount), AllRaised(p))
    ensures !p.rbac.Nil? ==> Raised(Leaves(p.rbac), AllRaised(p))
    ensures !p.statusWrite.Nil? ==> Raised(Leaves(p.statusWrite), AllRaised(p))
  {
    var all := AllRaised(p);
    assert all[0] == p.serviceAccount && all[1] == p.rbac && all[|all| - 1] == p.statusWrite;
  }

  lemma {:induction false} RoleRaisedIn(roles: seq<RoleInputs>, i: nat, leaves: seq<Err>)
    requires i < |roles| && Raised(leaves, RoleRaised(roles[i]))
    ensures Raised(leaves, RolesRaised(roles))
    decreases |roles|
  {
    var front, last := roles[..|roles| - 1], roles[|roles| - 1];
    if i == |roles| - 1 {
      RaisedWidens(leaves, RolesRaised(front), RoleRaised(last), []);
      assert RolesRaised(front) + RoleRaised(last) + [] == RolesRaised(roles);
    } else {
      RoleRaisedIn(front, i, leaves);
      RaisedWidens(leaves, [], RolesRaised(front), RoleRaised(last));
      assert [] + RolesRaised(front) + RoleRaised(last) == RolesRaised(roles);
    }
  }

  /** Everything raised before the verdict; a cluster-level wait leaves out the roles. */
  function Outcomes(p: PassInputs): seq<Err> {
    if AllNil(ClusterOutcomes(p)) then ClusterOutcomes(p) + RolesOutcomes(p.roles) else ClusterOutcomes(p)
  }

  datatype Waiting = Waiting(raised: bool, reason: string, message: string)

  class GenericReconciler {
    const clusterEntries: seq<Entry>
    const roleEntries: seq<Entry>
    const healthCheckInterval: int
    var waiting: Option<Waiting>
    var complete: Option<bool>

    constructor (clusterEntries: seq<Entry>, roleEntries: seq<Entry>, healthCheckInterval: int)
      ensures this.clusterEntries == clusterEntries && this.roleEntries == roleEntries
      ensures this.healthCheckInterval == healthCheckInterval && waiting.None? && complete.None?
    {
      this.clusterEntries, this.roleEntries := clusterEntries, roleEntries;
      this.healthCheckInterval := healthCheckInterval;
      waiting, complete := None, None;
    }

    predicate Fits(p: PassInputs) {
      && |p.pre| == |clusterEntries| == |p.post|
      && forall i :: 0 <= i < |p.roles| ==> |p.roles[i].pre| == |roleEntries| == |p.roles[i].post|
    }

    /** A step whose error is either a failure of the pass or something to wait for. */
    method Settle(err: Err, waitFor: Option<WaitState>, ghost before: seq<Err>, ghost outcomes: seq<Err>)
      returns (failed: bool, waitFor': Option<WaitState>)
      requires NilOrWaits(before) && waitFor == WaitFor(before) && StandsFor(err, outcomes)
      ensures failed <==> !NilOrWaits(outcomes)
      ensures !failed ==> NilOrWaits(before + outcomes) && waitFor' == WaitFor(before + outcomes)
    {
      if err.Nil? {
        NonNilOfNil(outcomes);
        WaitForBoth(before, outcomes);
        return false, waitFor;
      }
      var wait := WaitingErrors(err);
      if wait.None? {
        return true, waitFor;
      }
      NonNilWaits(outcomes);
      WaitForBoth(before, outcomes);
      return false, MergeWait(waitFor, Some(NewWaitState(wait.value)));
    }

    lemma NilStandsFor(err: Err)
      ensures StandsFor(err, [err])
    {
      if !err.Nil? {
        StandsForOne(err, "");
      }
    }

    /** The steps before the roles: hooks, dependencies, and the roles' declarations. */
    method PrepareCluster(p: PassInputs) returns (err: Err, waitFor: Option<WaitState>)
      requires Fits(p)
      ensures err.Nil? <==> NilOrWaits(ClusterOutcomes(p))
      ensures err.Nil? ==> waitFor == WaitFor(ClusterOutcomes(p))
      ensures !err.Nil? ==> Raised(Leaves(err), ClusterOutcomes(p))
    {
      NilOrWaitsOfBoth(p.pre + [p.dependencies], [p.declare]);
      NilOrWaitsOfBoth(p.pre, [p.dependencies]);
      waitFor := None;
      var failed;
      var pre := RunHooks(clusterEntries, p.pre);
      failed, waitFor := Settle(pre, waitFor, [], p.pre);
      if failed {
        RaisedWidens(Leaves(pre), [], p.pre, [p.dependencies] + [p.declare]);
        assert [] + p.pre + ([p.dependencies] + [p.declare]) == ClusterOutcomes(p);
        return Wrap("PreReconcile", pre), waitFor;
      }
      assert [] + p.pre == p.pre;
      NilStandsFor(p.dependencies);
      failed, waitFor := Settle(p.dependencies, waitFor, p.pre, [p.dependencies]);
      if failed {
        assert p.dependencies in ClusterOutcomes(p) && !p.dependencies.Nil?;
        RaisedItself(p.dependencies, ClusterOutcomes(p));
        return Wrap("DependencyValidation", p.dependencies), waitFor;
      }
      NilStandsFor(p.declare);
      failed, waitFor := Settle(p.declare, waitFor, p.pre + [p.dependencies], [p.declare]);
      err := if failed then p.declare else Nil;
      if failed {
        assert p.declare in ClusterOutcomes(p) && !p.declare.Nil?;
        RaisedItself(p.declare, ClusterOutcomes(p));
      }
    }

    lemma RolesNext(roles: seq<RoleInputs>, i: nat)
      requires i < |roles|
      ensures RolesOutcomes(roles[..i + 1]) == RolesOutcomes(roles[..i]) + RoleOutcomes(roles[i])
    {
      assert roles[..i + 1][..i] == roles[..i];
    }

    /** The roles, best effort; only throttling stops them. */
    method ReconcileRoles(p: PassInputs) returns (errs: seq<Err>, stopped: Err)
      requires Fits(p)
      ensures stopped.Nil? ==> ListStandsFor(errs, RolesOutcomes(p.roles))
      ensures !stopped.Nil? ==> Throttled(stopped) && Raised(Leaves(stopped), RolesRaised(p.roles))
      ensures Raised(LeavesOf(errs), RolesRaised(p.roles))
    {
      errs := [];
      NothingYet();
      for i := 0 to |p.roles|
        invariant ListStandsFor(errs, RolesOutcomes(p.roles[..i]))
        invariant Raised(LeavesOf(errs), RolesRaised(p.roles))
      {
        var err := ReconcileRole(roleEntries, p.roles[i]);
        RolesNext(p.roles, i);
        if !err.Nil? {
          RoleRaisedIn(p.roles, i, Leaves(err));
          OneMoreRaised(errs, err, RolesRaised(p.roles));
        }
        if Throttled(err) {
          return errs, err;
        }
        Collected(errs, RolesOutcomes(p.roles[..i]), err, RoleOutcomes(p.roles[i]));
        if !err.Nil? {
          errs := errs + [err];
        }
      }
      assert p.roles[..|p.roles|] == p.roles;
      stopped := Nil;
    }

    /** Reports the verdict on the cluster. */
    method Report(waitFor: Option<WaitState>)
      modifies this
      ensures complete == Some(waitFor.None?)
      ensures waitFor.Some? ==> waiting == Some(Waiting(true, waitFor.value.reason, waitFor.value.message))
      ensures waitFor.None? ==> (waiting.None? <==> old(waiting).None?) && (waiting.Some? ==> !waiting.value.raised)
    {
      if waitFor.Some? {
        waiting := Some(Waiting(true, waitFor.value.reason, waitFor.value.message));
        complete := Some(false);
      } else {
        if waiting.Some? {
          waiting := Some(Waiting(false, "WaitSatisfied", "Nothing is waiting"));
        }
        complete := Some(true);
      }
    }

    /** The roles and what follows them, up to the verdict. */
    method Converge(p: PassInputs, clusterWait: Option<WaitState>) returns (err: Err, waitFor: Option<WaitState>)
      requires Fits(p) && NilOrWaits(ClusterOutcomes(p)) && clusterWait == WaitFor(ClusterOutcomes(p))
      ensures err.Nil? ==> NilOrWaits(Outcomes(p)) && AllNil(p.post) && !Throttled(p.cleanup)
      ensures err.Nil? ==> waitFor == WaitFor(Outcomes(p))
      ensures !err.Nil? ==> Throttled(err) || Throttled(p.cleanup) || !AllNil(p.post) || !NilOrWaits(Outcomes(p))
      ensures !err.Nil? ==> Raised(Leaves(err), RolesRaised(p.roles) + [p.cleanup] + p.post)
    {
      ghost var raised := RolesRaised(p.roles) + [p.cleanup] + p.post;
      assert raised == [] + RolesRaised(p.roles) + ([p.cleanup] + p.post);
      assert raised == RolesRaised(p.roles) + [p.cleanup] + p.post + [];
      waitFor := clusterWait;
      NonNilWaits(ClusterOutcomes(p));
      var roleErrs: seq<Err> := [];
      if waitFor.None? {
        var stopped;
        roleErrs, stopped := ReconcileRoles(p);
        RaisedWidens(LeavesOf(roleErrs), [], RolesRaised(p.roles), [p.cleanup] + p.post);
        if !stopped.Nil? {
          RaisedWidens(Leaves(stopped), [], RolesRaised(p.roles), [p.cleanup] + p.post);
          return stopped, waitFor;
        }
      }
      if Throttled(p.cleanup) {
        assert p.cleanup in raised;
        RaisedItself(p.cleanup, raised);
        return p.cleanup, waitFor;
      }
      var post := RunHooks(clusterEntries, p.post);
      if !post.Nil? {
        RaisedWidens(Leaves(post), RolesRaised(p.roles) + [p.cleanup], p.post, []);
        return Wrap("PostReconcile", post), waitFor;
      }
      err := Nil;
      if clusterWait.None? {
        var joined := JoinErrors(roleErrs);
        JoinStandsFor(roleErrs, RolesOutcomes(p.roles));
        NilOrWaitsOfBoth(ClusterOutcomes(p), RolesOutcomes(p.roles));
        var failed;
        failed, waitFor := Settle(joined, waitFor, ClusterOutcomes(p), RolesOutcomes(p.roles));
        err := if failed then joined else Nil;
      }
    }

    /** One pass. It ends without an error only if everything raised before the verdict was a wait and
        nothing else failed (even a wait of a PostReconcile hook counts as a failure); then it waits for
        the shortest of them, or, with none, is complete. */
    method ReconcilePass(p: PassInputs) returns (requeueAfter: int, err: Err)
      requires Fits(p)
      modifies this
      ensures err.Nil? ==>
        && NilOrWaits(Outcomes(p))
        && AllNil(p.post)
        && AllNil([p.serviceAccount, p.rbac, p.statusWrite])
        && !Throttled(p.cleanup)
      ensures err.Nil? && AllNil(Outcomes(p)) ==> complete == Some(true) && (waiting.Some? ==> !waiting.value.raised)
      ensures err.Nil? && !AllNil(Outcomes(p)) ==>
        && complete == Some(false)
        && (var w := WaitFor(Outcomes(p));
            w.Some? && 0 < requeueAfter <= w.value.after && waiting == Some(Waiting(true, w.value.reason, w.value.message)))
      ensures err.Nil? ==> ComesBack(requeueAfter, p.cleanupRequeue) && ComesBack(requeueAfter, healthCheckInterval)
      ensures !err.Nil? ==>
        || !p.serviceAccount.Nil? || !p.rbac.Nil? || !p.statusWrite.Nil? || !AllNil(p.post)
        || Throttled(err) || Throttled(p.cleanup) || !NilOrWaits(Outcomes(p))
      ensures !err.Nil? ==> Raised(Leaves(err), AllRaised(p))
      ensures err.Nil? ==>
        || requeueAfter in {0, healthCheckInterval, p.cleanupRequeue}
        || (!AllNil(Outcomes(p)) && requeueAfter == WaitFor(Outcomes(p)).value.after)
      ensures !err.Nil? ==> requeueAfter == 0
      ensures !err.Nil? && p.statusWrite.Nil? ==> waiting == old(waiting) && complete == old(complete)
    {
      if !p.serviceAccount.Nil? {
        EndsRaised(p);
        return 0, Wrap("ServiceAccount", p.serviceAccount);
      }
      if !p.rbac.Nil? {
        EndsRaised(p);
        return 0, Wrap("WorkloadRBAC", p.rbac);
      }
      NilOrWaitsOfBoth(ClusterOutcomes(p), RolesOutcomes(p.roles));
      var waitFor;
      err, waitFor := PrepareCluster(p);
      if !err.Nil? {
        PhaseRaised(p, Leaves(err));
        return 0, err;
      }
      err, waitFor := Converge(p, waitFor);
      if !err.Nil? {
        PhaseRaised(p, Leaves(err));
        return 0, err;
      }
      NonNilWaits(Outcomes(p));
      Report(waitFor);
      if !p.statusWrite.Nil? {
        EndsRaised(p);
        return 0, p.statusWrite;
      }
      requeueAfter := WakeUp(p.cleanupRequeue, waitFor);
      assert forall i :: 0 <= i < 3 ==> [p.serviceAccount, p.rbac, p.statusWrite][i].Nil?;
    }

    predicate ComesBack(requeueAfter: int, candidate: int) {
      candidate > 0 ==> 0 < requeueAfter <= candidate
    }

    /** The earliest of what the health check, the cleanup and the wait ask for. */
    method WakeUp(cleanupRequeue: int, waitFor: Option<WaitState>) returns (requeueAfter: int)
      ensures ComesBack(requeueAfter, cleanupRequeue) && ComesBack(requeueAfter, healthCheckInterval)
      ensures waitFor.Some? ==> ComesBack(requeueAfter, waitFor.value.after)
      ensures requeueAfter in {0, healthCheckInterval, cleanupRequeue} || (waitFor.Some? && requeueAfter == waitFor.value.after)
    {
      var candidates := [healthCheckInterval, cleanupRequeue];
      requeueAfter := Requeue.EarliestRequeue(candidates);
      assert candidates[0] == healthCheckInterval && candidates[1] == cleanupRequeue;
      if waitFor.Some? {
        candidates := [requeueAfter, waitFor.value.after];
        requeueAfter := Requeue.EarliestRequeue(candidates);
        assert candidates[1] == waitFor.value.after;
        assert candidates[0] > 0 ==> 0 < requeueAfter <= candidates[0];
      }
    }
  }
}
