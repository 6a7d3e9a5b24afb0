/**
 The orphan cleaner: it reclaims the resources of role groups that left the spec, one API call at a
 time, keeping all of its progress in the objects themselves.
 */
module Cleaner {
  import opened Wrappers
  import opened ApiServer
  import opened Teardown
  import opened GrayDelete
  import opened TeardownSteps
  import opened TeardownMeasure

  const DEFAULT_DRAIN_POLL_INTERVAL: int := 5 * SECOND
  const DEFAULT_DRAIN_TIMEOUT: int := 600 * SECOND
  const DEFAULT_RATE_LIMIT_RETRY_AFTER: int := 10 * SECOND
  const LABEL_INSTANCE := "app.kubernetes.io/instance"
  const LABEL_MANAGED_BY := "app.kubernetes.io/managed-by"
  const LABEL_COMPONENT := "app.kubernetes.io/component"
  const LABEL_ROLE_GROUP := "app.kubernetes.io/role-group"
  const MANAGED_BY_VALUE := "operator-go"

  const CONFLICT_RETRIES: nat := 4

  datatype CleanupError = RateLimited(retryAfter: int) | CleanupFailed

  datatype DeletionState = Settled | InFlight

  class RoleGroupCleaner {
    const server: Server
    const gracePeriod: int
    const drainPollInterval: int
    const drainTimeout: int
    const rateLimitRetryAfter: int
    const hasApiReader: bool
    const extraKinds: seq<Option<nat>>

    constructor (
      server: Server,
      gracePeriod: int,
      drainPollInterval: int,
      drainTimeout: int,
      rateLimitRetryAfter: int,
      hasApiReader: bool,
      extraKinds: seq<Option<nat>>)
      ensures this.server == server && this.gracePeriod == gracePeriod
      ensures this.drainPollInterval == drainPollInterval && this.drainTimeout == drainTimeout
      ensures this.rateLimitRetryAfter == rateLimitRetryAfter && this.hasApiReader == hasApiReader
      ensures this.extraKinds == extraKinds
    {
      this.server := server;
      this.gracePeriod := gracePeriod;
      this.drainPollInterval := drainPollInterval;
      this.drainTimeout := drainTimeout;
      this.rateLimitRetryAfter := rateLimitRetryAfter;
      this.hasApiReader := hasApiReader;
      this.extraKinds := extraKinds;
    }

    function PollInterval(): (d: int)
      ensures d > 0 && (drainPollInterval > 0 ==> d == drainPollInterval)
      ensures drainPollInterval <= 0 ==> d == 5 * SECOND
    {
      if drainPollInterval > 0 then drainPollInterval else DEFAULT_DRAIN_POLL_INTERVAL
    }

    function DrainDeadline(): (d: int)
      ensures d > 0
      ensures forall stamp, now :: TimedOut(stamp, now) <==> now - stamp * SECOND >= d
    {
      if drainTimeout > 0 then drainTimeout else DEFAULT_DRAIN_TIMEOUT
    }

    /** A throttled request asks for a later retry, by the configured delay or after ten seconds; any
        other failure is a failure. */
    function ApiError(fault: Fault): (e: CleanupError)
      ensures e.RateLimited? <==> fault == TooManyRequests
      ensures e.RateLimited? && rateLimitRetryAfter > 0 ==> e.retryAfter == rateLimitRetryAfter
      ensures e.RateLimited? && rateLimitRetryAfter <= 0 ==> e.retryAfter == 10 * SECOND
    {
      if fault.TooManyRequests? then
        RateLimited(if rateLimitRetryAfter > 0 then rateLimitRetryAfter else DEFAULT_RATE_LIMIT_RETRY_AFTER)
      else
        CleanupFailed
    }

    /** A drain begun in the second `stamp` has lasted for the configured timeout, or for ten minutes if
        none is configured. */
    ghost predicate TimedOut(stamp: int, now: int) {
      && (drainTimeout > 0 ==> now - stamp * SECOND >= drainTimeout)
      && (drainTimeout <= 0 ==> now - stamp * SECOND >= 600 * SECOND)
    }

    /** Zero replicas are asked for, and no pod is left or the drain has timed out. */
    ghost predicate DrainOver(o: Obj, now: int) {
      && o.specReplicas == Some(0)
      && (o.statusReplicas == 0 || (o.drain.Some? && o.drain.value.At? && TimedOut(o.drain.value.second, now)))
    }

    /** The claim matched, label by label, a StatefulSet of this owner that was seen drained. */
    ghost predicate GoesWith(d: Deletion, uid: string, current: bool, name: string, sts: Obj) {
      && (Key(StatefulSet, name), sts) in d.seen
      && (uid == "" || sts.controller == Some(uid))
      && sts.claimTemplates > 0
      && DrainOver(sts, d.now)
      && (current ==> d.key in d.store && forall k :: k in sts.selector ==>
            k in d.store[d.key].labels && d.store[d.key].labels[k] == sts.selector[k])
    }

    ghost predicate ClaimMayGo(d: Deletion, uid: string, current: bool) {
      exists name, sts :: GoesWith(d, uid, current, name, sts)
    }

    /** The StatefulSet is drained and, if its claims are to go, they are on their way. */
    ghost predicate SetMayGo(d: Deletion, claimsToo: bool) {
      d.key in d.store ==>
        var sts := d.store[d.key];
        && DrainOver(sts, d.now)
        && (claimsToo && sts.claimTemplates > 0 ==> forall k :: ClaimGoing(d.store, sts.selector, k))
    }

    /** What the deletions of a StatefulSet and its claims have waited for. */
    ghost predicate DrainedFirst(d: Deletion, uid: string, current: bool, claimsToo: bool) {
      && (d.key.kind.PersistentVolumeClaim? ==> claimsToo && ClaimMayGo(d, uid, current))
      && (current && d.key.kind.StatefulSet? ==> SetMayGo(d, claimsToo))
    }

    ghost predicate DrainedFirstAt(start: nat, log: seq<Deletion>, uid: string, current: bool, claimsToo: bool, i: int) {
      start <= i < |log| ==> DrainedFirst(log[i], uid, current, claimsToo)
    }

    ghost predicate AllDrainedFirst(start: nat, log: seq<Deletion>, uid: string, current: bool, claimsToo: bool) {
      forall i :: DrainedFirstAt(start, log, uid, current, claimsToo, i)
    }

    lemma CoveredMayGo(d: Deletion, r: ClaimRule)
      requires ClaimCovered(d, r) && d.key.kind.PersistentVolumeClaim? && r.key.kind.StatefulSet?
      requires r.deadline == DrainDeadline()
      ensures ClaimMayGo(d, r.uid, r.current)
    {
      var sts :| CoversClaim(d, r, sts);
      assert r.key == Key(StatefulSet, r.key.name);
      assert GoesWith(d, r.uid, r.current, r.key.name, sts);
    }

    lemma StatefulSetDrainedFirst(w: World, w': World, name: string, uid: string, deletePvcs: bool, from: Store)
      requires Confined(w, w', StatefulSetScope(Key(StatefulSet, name), deletePvcs))
      requires w.synced ==> AllAfterDrain(|w.log|, w'.log, Key(StatefulSet, name), deletePvcs, DrainDeadline())
      requires AllClaimsCovered(|w.log|, w'.log, ClaimRule(Key(StatefulSet, name), uid, DrainDeadline(), from, w.synced))
      ensures AllDrainedFirst(|w.log|, w'.log, uid, w.synced, deletePvcs)
    {
      var key := Key(StatefulSet, name);
      var rule := ClaimRule(key, uid, DrainDeadline(), from, w.synced);
      forall i
        ensures DrainedFirstAt(|w.log|, w'.log, uid, w.synced, deletePvcs, i)
      {
        assert DeletionIn(w, w', StatefulSetScope(key, deletePvcs), i) && ClaimCoveredAt(|w.log|, w'.log, rule, i);
        assert w.synced ==> AfterDrainAt(|w.log|, w'.log, key, deletePvcs, DrainDeadline(), i);
        if |w.log| <= i < |w'.log| && w'.log[i].key.kind.PersistentVolumeClaim? {
          CoveredMayGo(w'.log[i], rule);
        }
      }
    }

    // -------------------------------------------------------------------------------------------
    // One resource
    // -------------------------------------------------------------------------------------------

    /** Deletes one owned resource and confirms that it is gone. */
    method DeleteOwned(key: Key, uid: string) returns (state: DeletionState, err: Option<CleanupError>)
      requires Valid(server.w)
      modifies server
      ensures Valid(server.w) && Quiet(old(server.w), server.w, iset{key})
      ensures NamesStable(old(server.w)) ==> OwnTargets(|old(server.w).log|, server.w.log, iset{key}, uid)
      ensures server.w.synced && err.None? && state.Settled? ==> !OwnedAt(server.w.store, key, uid)
      ensures server.w.synced && err.None? && state.InFlight? ==>
        OwnedAt(server.w.store, key, uid) && server.w.store[key].deleting
      ensures err.Some? ==> state.InFlight?
      ensures err.Some? ==> server.w.refused > old(server.w).refused
    {
      ghost var w0 := server.w;
      var reply := server.Get(key, false);
      DriftQuiet(w0, server.w, iset{key});
      match reply
      case NotFound => return Settled, None;
      case Failed(fault) => return InFlight, Some(ApiError(fault));
      case Found(obj) =>
        if !IsOwned(obj, uid) {
          return Settled, None;
        }
        ghost var w1 := server.w;
        var write;
        ghost var at;
        write, at := server.Delete(key);
        DriftQuiet(w1, at, iset{key});
        QuietTransitive(w0, w1, at, iset{key});
        if server.w != at {
          DeleteStep(w0, w1, at, key, obj, uid, iset{key}, iset{key});
        }
        match write {
          case Gone => return Settled, None;
          case Refused(fault) => return InFlight, Some(ApiError(fault));
          case Done =>
        }
        ghost var w2 := server.w;
        state, err := ConfirmDeleted(key);
        DriftQuiet(w2, server.w, iset{key});
        QuietTransitive(w0, w2, server.w, iset{key});
        assert KeyValid(at, key) && DriftedAt(w1.store, at.store, key) && DriftedAt(w2.store, server.w.store, key);
    }

    /** Re-reads a resource whose deletion the API server accepted. */
    method ConfirmDeleted(key: Key) returns (state: DeletionState, err: Option<CleanupError>)
      requires Valid(server.w)
      modifies server
      ensures Valid(server.w) && Drifts(old(server.w), server.w)
      ensures server.w.synced && err.None? ==> (state.InFlight? <==> key in server.w.store)
      ensures err.Some? ==> state.InFlight?
      ensures err.Some? ==> server.w.refused > old(server.w).refused
    {
      var reply := server.Get(key, false);
      match reply
      case NotFound => return Settled, None;
      case Failed(fault) => return InFlight, Some(ApiError(fault));
      case Found(_) => return InFlight, None;
    }

    // -------------------------------------------------------------------------------------------
    // The StatefulSet
    // -------------------------------------------------------------------------------------------

    /** Asks for zero replicas, re-reading the object when somebody else wrote it first. */
    method ScaleToZero(key: Key) returns (err: Option<CleanupError>)
      requires Valid(server.w)
      modifies server
      ensures Valid(server.w) && Quiet(old(server.w), server.w, iset{key}) && server.w.log == old(server.w).log
      ensures server.w.synced && err.None? && key in server.w.store ==> server.w.store[key].specReplicas == Some(0)
      ensures OnlyScaledAt(old(server.w).store, server.w.store, key)
      ensures err.Some? ==> server.w.refused > old(server.w).refused
    {
      ghost var w0 := server.w;
      ghost var scope := iset{key};
      SameObjectsValid(w0, w0);
      DriftQuiet(w0, w0, scope);
      for attempt := 0 to CONFLICT_RETRIES
        invariant Valid(server.w) && Quiet(w0, server.w, scope) && server.w.log == w0.log
        invariant OnlyScaledAt(w0.store, server.w.store, key)
        invariant attempt > 0 ==> server.w.refused > w0.refused
      {
        ghost var w1 := server.w;
        var fault := ScaleOnce(key);
        QuietTransitive(w0, w1, server.w, scope);
        if fault.None? {
          return None;
        }
        if !fault.value.Conflict? {
          return Some(ApiError(fault.value));
        }
      }
      err := Some(ApiError(Conflict));
    }

    /** One attempt at scaling to zero. */
    method ScaleOnce(key: Key) returns (fault: Option<Fault>)
      requires Valid(server.w)
      modifies server
      ensures Valid(server.w) && Quiet(old(server.w), server.w, iset{key}) && server.w.log == old(server.w).log
      ensures server.w.synced && fault.None? && key in server.w.store ==> server.w.store[key].specReplicas == Some(0)
      ensures OnlyScaledAt(old(server.w).store, server.w.store, key)
      ensures fault.Some? ==> server.w.refused > old(server.w).refused
    {
      ghost var w0 := server.w;
      ghost var scope := iset{key};
      var reply := server.Get(key, false);
      DriftQuiet(w0, server.w, scope);
      assert DriftedAt(w0.store, server.w.store, key);
      match reply
      case NotFound => return None;
      case Failed(fault) => return Some(fault);
      case Found(live) =>
        if live.specReplicas == Some(0) {
          return None;
        }
        ghost var w1 := server.w;
        var write;
        ghost var at;
        var scaled := live.(specReplicas := Some(0));
        write, at := server.Update(key, live, scaled);
        DriftsTransitive(w0, w1, at);
        DriftQuiet(w0, at, scope);
        assert DriftedAt(w0.store, at.store, key);
        if server.w != at {
          assert KeyValid(at, key) && VersionValid(at, key, live);
          PutQuiet(at, key, scaled, scope);
          QuietTransitive(w0, at, server.w, scope);
        }
        fault := if write.Refused? then Some(write.fault) else None;
    }

    /** At most the replicas asked for went to zero, and for the rest only the environment acted. */
    ghost predicate OnlyScaledAt(s: Store, s': Store, key: Key) {
      key in s' ==>
        && key in s
        && s'[key] == s[key].(version := s'[key].version, statusReplicas := s'[key].statusReplicas,
                              finalizers := s'[key].finalizers, specReplicas := s'[key].specReplicas)
        && s'[key].specReplicas in {s[key].specReplicas, Some(0)}
    }

    /** At most the drain clock was started, and for the rest only the environment acted. */
    ghost predicate OnlyStampedAt(s: Store, s': Store, key: Key) {
      key in s' ==>
        && key in s
        && s'[key] == s[key].(version := s'[key].version, statusReplicas := s'[key].statusReplicas,
                              finalizers := s'[key].finalizers, drain := s'[key].drain)
    }

    /** Decides whether the drain of `sts`, as it was read, has lasted too long. The first time it is
        asked, it starts the drain clock instead. */
    method DrainDeadlineExpired(sts: Obj, key: Key) returns (expired: bool, err: Option<CleanupError>)
      requires Valid(server.w)
      requires server.w.synced ==> key in server.w.store && server.w.store[key] == sts
      modifies server
      ensures Valid(server.w) && Quiet(old(server.w), server.w, iset{key}) && server.w.log == old(server.w).log
      ensures expired ==> Stamped(sts) && TimedOut(sts.drain.value.second, server.w.now)
      ensures Stamped(sts) && TimedOut(sts.drain.value.second, old(server.w).now) ==> expired
      ensures server.w.synced && !expired && err.None? && key in server.w.store ==> Stamped(server.w.store[key])
      ensures OnlyStampedAt(old(server.w).store, server.w.store, key)
      ensures err.Some? ==> !expired && server.w.refused > old(server.w).refused
    {
      ghost var w0 := server.w;
      ghost var scope := iset{key};
      if Stamped(sts) {
        var now := server.Now();
        DriftQuiet(w0, server.w, scope);
        assert DriftedAt(w0.store, server.w.store, key);
        return now - sts.drain.value.second * SECOND >= DrainDeadline(), None;
      }
      SameObjectsValid(w0, w0);
      DriftQuiet(w0, w0, scope);
      for attempt := 0 to CONFLICT_RETRIES
        invariant Valid(server.w) && Quiet(w0, server.w, scope) && server.w.log == w0.log
        invariant OnlyStampedAt(w0.store, server.w.store, key)
        invariant attempt > 0 ==> server.w.refused > w0.refused
        invariant server.w.synced && key in server.w.store ==> !Stamped(server.w.store[key])
      {
        ghost var w1 := server.w;
        var fault := StartDrainClock(key);
        QuietTransitive(w0, w1, server.w, scope);
        if fault.None? {
          return false, None;
        }
        if !fault.value.Conflict? {
          return false, Some(ApiError(fault.value));
        }
      }
      return false, Some(ApiError(Conflict));
    }

    /** One attempt at starting the drain clock. */
    method StartDrainClock(key: Key) returns (fault: Option<Fault>)
      requires Valid(server.w)
      requires server.w.synced && key in server.w.store ==> !Stamped(server.w.store[key])
      modifies server
      ensures Valid(server.w) && Quiet(old(server.w), server.w, iset{key}) && server.w.log == old(server.w).log
      ensures server.w.synced && fault.None? && key in server.w.store ==> Stamped(server.w.store[key])
      ensures server.w.synced && fault == Some(Conflict) && key in server.w.store ==> !Stamped(server.w.store[key])
      ensures OnlyStampedAt(old(server.w).store, server.w.store, key)
      ensures fault.Some? ==> server.w.refused > old(server.w).refused
    {
      ghost var w0 := server.w;
      ghost var scope := iset{key};
      var reply := server.Get(key, false);
      DriftQuiet(w0, server.w, scope);
      assert DriftedAt(w0.store, server.w.store, key);
      match reply
      case NotFound => return None;
      case Failed(fault) => return Some(fault);
      case Found(live) =>
        ghost var w1 := server.w;
        var now := server.Now();
        DriftsTransitive(w0, w1, server.w);
        ghost var w2 := server.w;
        var write;
        ghost var at;
        var stamped := live.(drain := Some(At(now / SECOND)));
        write, at := server.Update(key, live, stamped);
        DriftsTransitive(w0, w2, at);
        DriftQuiet(w0, at, scope);
        assert DriftedAt(w0.store, at.store, key);
        if server.w != at {
          assert KeyValid(at, key) && VersionValid(at, key, live);
          PutQuiet(at, key, stamped, scope);
          QuietTransitive(w0, at, server.w, scope);
        }
        fault := if write.Refused? then Some(write.fault) else None;
    }

    /** Deletes one claim that was listed, as `item`, for a selector. */
    method DeleteClaim(key: Key, ghost item: Obj, ghost selector: map<string, string>) returns (err: Option<CleanupError>)
      requires Valid(server.w) && key in ClaimScope()
      requires (key, item) in server.w.seen && Matches(item.labels, selector)
      requires server.w.synced && key in server.w.store ==> Matches(server.w.store[key].labels, selector)
      modifies server
      ensures Valid(server.w) && Quiet(old(server.w), server.w, ClaimScope())
      ensures ClaimTargets(|old(server.w).log|, server.w.log, selector, server.w.synced)
      ensures err.None? && key in server.w.store ==> server.w.store[key].deleting
      ensures err.Some? ==> server.w.refused > old(server.w).refused
    {
      ghost var w0 := server.w;
      var write;
      ghost var at;
      write, at := server.Delete(key);
      DriftQuiet(w0, at, ClaimScope());
      assert KeyValid(at, key) && AgedAt(w0.store, at.store, key);
      if server.w != at {
        DeleteQuiet(at, key, ClaimScope());
        QuietTransitive(w0, at, server.w, ClaimScope());
        ghost var d := Deletion(key, at.store, at.now, at.seen);
        assert server.w.log == w0.log + [d] && ClaimTarget(d, selector, server.w.synced);
      }
      err := if write.Refused? then Some(ApiError(write.fault)) else None;
    }

    /** Deletes every claim the StatefulSet's pod selector matches. */
    method DeletePVCsForStatefulSet(sts: Obj) returns (err: Option<CleanupError>)
      requires Valid(server.w)
      modifies server
      ensures Valid(server.w) && Quiet(old(server.w), server.w, ClaimScope())
      ensures ClaimTargets(|old(server.w).log|, server.w.log, sts.selector, server.w.synced)
      ensures sts.claimTemplates == 0 ==> server.w.log == old(server.w).log
      ensures server.w.synced && err.None? && sts.claimTemplates > 0 ==> ClaimsGoing(server.w.store, sts.selector)
      ensures err.Some? ==> server.w.refused > old(server.w).refused
    {
      ghost var w0 := server.w;
      SameObjectsValid(w0, w0);
      DriftQuiet(w0, w0, ClaimScope());
      if sts.claimTemplates == 0 {
        return None;
      }
      var reply := server.List(PersistentVolumeClaim, sts.selector, false);
      DriftQuiet(w0, server.w, ClaimScope());
      if reply.ListFailed? {
        return Some(ApiError(reply.fault));
      }
      ghost var w1 := server.w;
      StoreAgedReflexive(w1.store);
      var todo := reply.items.Keys;
      while todo != {}
        invariant Valid(server.w) && Quiet(w0, server.w, ClaimScope()) && StoreAged(w1.store, server.w.store)
        invariant w1.seen <= server.w.seen && todo <= reply.items.Keys
        invariant ClaimTargets(|w0.log|, server.w.log, sts.selector, w0.synced)
        invariant GoingSoFar(reply.items, todo, server.w.store)
      {
        ghost var w2 := server.w;
        ghost var before := todo;
        var key :| key in todo;
        todo := todo - {key};
        assert AgedAt(w1.store, w2.store, key);
        err := DeleteClaim(key, reply.items[key], sts.selector);
        QuietTransitive(w0, w2, server.w, ClaimScope());
        StoreAgedTransitive(w1.store, w2.store, server.w.store);
        ClaimTargetsTransitive(|w0.log|, w2.log, server.w.log, sts.selector, w0.synced);
        if err.Some? {
          return err;
        }
        GoingNext(reply.items, before, key, w2.store, server.w.store);
      }
      if server.w.synced {
        AllGoing(w1.store, server.w.store, sts.selector);
      }
      return None;
    }

    static ghost predicate GoingSoFar(items: Store, todo: set<Key>, s: Store) {
      forall k :: k in items && k !in todo && k in s ==> s[k].deleting
    }

    static lemma GoingNext(items: Store, todo: set<Key>, key: Key, s: Store, s': Store)
      requires GoingSoFar(items, todo, s) && StoreAged(s, s') && (key in s' ==> s'[key].deleting)
      ensures GoingSoFar(items, todo - {key}, s')
    {
      forall k | k in items && k !in todo - {key} && k in s'
        ensures s'[k].deleting
      {
        assert AgedAt(s, s', k);
      }
    }

    static lemma AllGoing(listed: Store, s: Store, selector: map<string, string>)
      requires GoingSoFar(Selected(listed, PersistentVolumeClaim, selector), {}, s) && StoreAged(listed, s)
      ensures ClaimsGoing(s, selector)
    {
      forall k
        ensures ClaimGoing(s, selector, k)
      {
        assert AgedAt(listed, s, k);
      }
    }

    /** Drives an orphaned StatefulSet through scale-down, drain, claims and deletion, one phase a call. */
    method DeleteStatefulSet(name: string, uid: string, deletePvcs: bool, ghost t: Target)
      returns (state: DeletionState, err: Option<CleanupError>)
      requires Valid(server.w) && t.name == name && t.uid == uid
      modifies server
      ensures Valid(server.w) && Quiet(old(server.w), server.w, StatefulSetScope(Key(StatefulSet, name), deletePvcs))
      ensures server.w.synced ==>
        AllAfterDrain(|old(server.w).log|, server.w.log, Key(StatefulSet, name), deletePvcs, DrainDeadline())
      ensures AllClaimsCovered(|old(server.w).log|, server.w.log,
                               ClaimRule(Key(StatefulSet, name), uid, DrainDeadline(), old(server.w).store, server.w.synced))
      ensures NamesStable(old(server.w)) ==> OwnTargets(|old(server.w).log|, server.w.log, iset{Key(StatefulSet, name)}, uid)
      ensures server.w.synced && err.None? && state.Settled? ==>
        !OwnedAt(server.w.store, Key(StatefulSet, name), uid)
      ensures server.w.synced && err.None? && state.InFlight? ==> OwnedAt(old(server.w).store, Key(StatefulSet, name), uid)
      ensures server.w.synced && err.None? && state.InFlight? ==>
        || Advanced(t, old(server.w).store, server.w.store)
        || Draining(old(server.w), t)
        || Terminating(t, server.w.store, Key(StatefulSet, name))
      ensures err.Some? ==> state.InFlight?
      ensures err.Some? ==> server.w.refused > old(server.w).refused
      ensures AllDrainedFirst(|old(server.w).log|, server.w.log, uid, server.w.synced, deletePvcs)
      ensures server.w.synced ==> ForeignSparedAt(old(server.w).store, server.w.store, uid, Key(StatefulSet, name))
    {
      var key := Key(StatefulSet, name);
      ghost var scope := StatefulSetScope(key, deletePvcs);
      ghost var w0 := server.w;
      var reply := server.Get(key, false);
      DriftQuiet(w0, server.w, scope);
      ghost var w1 := server.w;
      match reply
      case NotFound => return Settled, None;
      case Failed(fault) => return InFlight, Some(ApiError(fault));
      case Found(sts) =>
        if !IsOwned(sts, uid) {
          return Settled, None;
        }
        assert w1.synced ==> DriftedAt(w0.store, w1.store, key);
        var drained;
        drained, err := DrainPods(sts, key, w0, t);
        QuietWidens(w1, server.w, iset{key}, scope);
        QuietTransitive(w0, w1, server.w, scope);
        if err.Some? || !drained {
          return InFlight, err;
        }
        ghost var w2 := server.w;
        assert w1.synced ==> AgedAt(w1.store, w2.store, key) && DrainKeptAt(w1.store, w2.store, key);
        state, err := DeleteDrained(sts, key, uid, deletePvcs, w0.store);
        StatefulSetDrainedFirst(w2, server.w, name, uid, deletePvcs, w0.store);
        QuietTransitive(w0, w2, server.w, scope);
        assert w2.synced ==> AgedAt(w2.store, server.w.store, key) && AgedAt(w0.store, w2.store, key);
    }

    /** Scales an owned StatefulSet, as it was read, to zero, and then waits until its pods are gone or the
        wait has lasted too long. */
    method DrainPods(sts: Obj, key: Key, ghost w0: World, ghost t: Target) returns (drained: bool, err: Option<CleanupError>)
      requires Valid(server.w) && Drifts(w0, server.w) && key == Key(StatefulSet, t.name) && IsOwned(sts, t.uid)
      requires server.w.synced ==> key in server.w.store && server.w.store[key] == sts
      modifies server
      ensures Valid(server.w) && Quiet(old(server.w), server.w, iset{key}) && server.w.log == old(server.w).log
      ensures drained ==> Drained(sts, server.w.now, DrainDeadline()) && DrainOver(sts, server.w.now)
      ensures DrainOver(sts, old(server.w).now) ==> drained
      ensures server.w.synced && err.None? && !drained ==> Advanced(t, w0.store, server.w.store) || Draining(w0, t)
      ensures if sts.specReplicas == Some(0) then OnlyStampedAt(old(server.w).store, server.w.store, key)
        else OnlyScaledAt(old(server.w).store, server.w.store, key)
      ensures err.Some? ==> !drained && server.w.refused > old(server.w).refused
    {
      ghost var w1 := server.w;
      SameObjectsValid(w1, w1);
      DriftQuiet(w1, w1, iset{key});
      assert w1.synced ==> DriftedAt(w0.store, w1.store, key);
      if sts.specReplicas != Some(0) {
        err := ScaleToZero(key);
        assert w1.synced && err.None? ==> ImprovedFor(t, w0.store, server.w.store, key);
        return false, err;
      }
      if sts.statusReplicas > 0 {
        drained, err := DrainDeadlineExpired(sts, key);
        assert w1.synced && err.None? && !drained && !Stamped(sts) ==> ImprovedFor(t, w0.store, server.w.store, key);
        return drained && err.None?, err;
      }
      return true, None;
    }

    /** The end of the teardown of a drained StatefulSet: first its claims, then the object itself. */
    method DeleteDrained(sts: Obj, key: Key, uid: string, deletePvcs: bool, ghost from: Store)
      returns (state: DeletionState, err: Option<CleanupError>)
      requires Valid(server.w) && key.kind.StatefulSet?
      requires (key, sts) in server.w.seen && IsOwned(sts, uid) && Drained(sts, server.w.now, DrainDeadline())
      requires server.w.synced ==> key in from && Aged(from[key], sts)
      requires server.w.synced && key in server.w.store ==>
        Drained(server.w.store[key], server.w.now, DrainDeadline()) && Aged(sts, server.w.store[key])
      modifies server
      ensures Valid(server.w) && Quiet(old(server.w), server.w, StatefulSetScope(key, deletePvcs))
      ensures server.w.synced ==> AllAfterDrain(|old(server.w).log|, server.w.log, key, deletePvcs, DrainDeadline())
      ensures AllClaimsCovered(|old(server.w).log|, server.w.log, ClaimRule(key, uid, DrainDeadline(), from, server.w.synced))
      ensures NamesStable(old(server.w)) ==> OwnTargets(|old(server.w).log|, server.w.log, iset{key}, uid)
      ensures server.w.synced && err.None? && state.Settled? ==> !OwnedAt(server.w.store, key, uid)
      ensures server.w.synced && err.None? && state.InFlight? ==>
        key in server.w.store && server.w.store[key].deleting
      ensures err.Some? ==> state.InFlight?
      ensures err.Some? ==> server.w.refused > old(server.w).refused
    {
      ghost var scope := StatefulSetScope(key, deletePvcs);
      ghost var w0 := server.w;
      SameObjectsValid(w0, w0);
      DriftQuiet(w0, w0, scope);
      ghost var rule := ClaimRule(key, uid, DrainDeadline(), from, w0.synced);
      if deletePvcs {
        err := DeletePVCsForStatefulSet(sts);
        QuietWidens(w0, server.w, ClaimScope(), scope);
        ClaimDeletionsAfterDrain(w0, server.w, sts, deletePvcs, rule);
        if err.Some? {
          return InFlight, err;
        }
      }
      ghost var w1 := server.w;
      var write;
      ghost var at;
      write, at := server.Delete(key);
      if server.w != at {
        DrainedDeleteStep(w0, w1, at, sts, deletePvcs, rule);
      } else {
        DriftQuiet(w1, at, scope);
        QuietTransitive(w0, w1, at, scope);
      }
      match write {
        case Gone => return Settled, None;
        case Refused(fault) => return InFlight, Some(ApiError(fault));
        case Done =>
      }
      ghost var w2 := server.w;
      state, err := ConfirmDeleted(key);
      DriftQuiet(w2, server.w, scope);
      QuietTransitive(w0, w2, server.w, scope);
      assert KeyValid(at, key) && DriftedAt(w2.store, server.w.store, key);
    }

    /** The StatefulSet goes last. */
    static lemma DrainedDeleteStep(w0: World, w1: World, at: World, sts: Obj, deletePvcs: bool, r: ClaimRule)
      requires Valid(at) && r.key in at.store && r.key.kind.StatefulSet?
      requires Quiet(w0, w1, StatefulSetScope(r.key, deletePvcs)) && Drifts(w1, at)
      requires (r.key, sts) in at.seen && IsOwned(sts, r.uid)
      requires AllClaimsCovered(|w0.log|, w1.log, r) && OwnTargets(|w0.log|, w1.log, iset{r.key}, r.uid)
      requires w0.synced ==>
        && AllAfterDrain(|w0.log|, w1.log, r.key, deletePvcs, r.deadline)
        && (r.key in w0.store ==> Drained(w0.store[r.key], w0.now, r.deadline) && Aged(sts, w0.store[r.key]))
        && (deletePvcs && sts.claimTemplates > 0 ==> ClaimsGoing(w1.store, sts.selector))
      ensures var w2 := DeleteEffect(at, r.key);
        && Quiet(w0, w2, StatefulSetScope(r.key, deletePvcs))
        && AllClaimsCovered(|w0.log|, w2.log, r)
        && (NamesStable(w0) ==> OwnTargets(|w0.log|, w2.log, iset{r.key}, r.uid))
        && (w0.synced ==> AllAfterDrain(|w0.log|, w2.log, r.key, deletePvcs, r.deadline))
    {
      DeleteStep(w0, w1, at, r.key, sts, r.uid, StatefulSetScope(r.key, deletePvcs), iset{r.key});
      CoveredNext(w1.log, at, r.key, |w0.log|, r);
      if w0.synced {
        StatefulSetDeleteStep(w0, w1, at, r.key, sts, deletePvcs, r.deadline);
      }
    }

    static lemma CoveredNext(log: seq<Deletion>, at: World, key: Key, start: nat, r: ClaimRule)
      requires AllClaimsCovered(start, log, r) && key in at.store && key.kind.StatefulSet?
      requires DeleteEffect(at, key).log == log + [Deletion(key, at.store, at.now, at.seen)]
      ensures AllClaimsCovered(start, DeleteEffect(at, key).log, r)
    {
      forall i
        ensures ClaimCoveredAt(start, DeleteEffect(at, key).log, r, i)
      {
        assert ClaimCoveredAt(start, log, r, i);
      }
    }

    /** Pods of the role group are leaving, and the clock of the drain has not run out. */
    ghost predicate Draining(w: World, t: Target) {
      var key := Key(StatefulSet, t.name);
      && OwnedAt(w.store, key, t.uid)
      && w.store[key].specReplicas == Some(0)
      && w.store[key].statusReplicas > 0
      && Stamped(w.store[key])
      && w.now - w.store[key].drain.value.second * SECOND < DrainDeadline()
    }

    // -------------------------------------------------------------------------------------------
    // Extra resources
    // -------------------------------------------------------------------------------------------

    /** The labels that identify one role group's extra resources. */
    function ExtraSelector(clusterName: string, roleName: string, groupName: string): map<string, string> {
      map[LABEL_INSTANCE := clusterName, LABEL_MANAGED_BY := MANAGED_BY_VALUE,
          LABEL_COMPONENT := roleName, LABEL_ROLE_GROUP := groupName]
    }

    /** Without a registered kind, an owner and both coordinates, no extra resource is reclaimed. */
    predicate ReclaimsExtras(roleName: string, groupName: string, uid: string) {
      extraKinds != [] && uid != "" && roleName != "" && groupName != ""
    }

    /** `t` is what the teardown of this orphan is about. */
    ghost predicate IsTarget(t: Target, clusterName: string, roleName: string, groupName: string, uid: string) {
      && t.uid == uid
      && t.kinds == extraKinds
      && t.selector == ExtraSelector(clusterName, roleName, groupName)
      && t.extras == ReclaimsExtras(roleName, groupName, uid)
    }

    method DeleteRoleGroupExtras(clusterName: string, roleName: string, groupName: string, uid: string, ghost t: Target)
      returns (state: DeletionState, err: Option<CleanupError>)
      requires Valid(server.w) && IsTarget(t, clusterName, roleName, groupName, uid)
      modifies server
      ensures Valid(server.w) && Quiet(old(server.w), server.w, ExtraScope())
      ensures AllExtrasDue(|old(server.w).log|, server.w.log, t, server.w.synced || hasApiReader, NamesStable(old(server.w)))
      ensures (hasApiReader || server.w.synced) && err.None? && state.Settled? && t.extras ==>
        AllExtrasGone(server.w.store, t.kinds, t.selector, uid)
      ensures (hasApiReader || server.w.synced) && err.None? && state.InFlight? ==>
        && t.extras
        && !AllExtrasGone(old(server.w).store, t.kinds, t.selector, uid)
        && exists k :: BelongsAt(t, old(server.w).store, k) && Moved(old(server.w).store, server.w.store, k)
      ensures err.Some? ==> state.InFlight?
      ensures err.Some? ==> server.w.refused > old(server.w).refused
    {
      ghost var w0 := server.w;
      ghost var going := Key(Extra(0), "");
      ghost var current := w0.synced || hasApiReader;
      SameObjectsValid(w0, w0);
      DriftQuiet(w0, w0, ExtraScope());
      if extraKinds == [] || uid == "" || roleName == "" || groupName == "" {
        return Settled, None;
      }
      var selector := ExtraSelector(clusterName, roleName, groupName);
      state := Settled;
      for i := 0 to |extraKinds|
        invariant Valid(server.w) && Quiet(w0, server.w, ExtraScope())
        invariant AllExtrasDue(|w0.log|, server.w.log, t, current, NamesStable(w0))
        invariant current && state.Settled? ==> AllExtrasGone(server.w.store, extraKinds[..i], selector, uid)
        invariant current && state.InFlight? ==>
          && BelongsAt(t, w0.store, going) && Moved(w0.store, server.w.store, going)
          && !AllExtrasGone(w0.store, extraKinds, selector, uid)
      {
        if extraKinds[i].Some? {
          ghost var w1 := server.w;
          var deleted;
          deleted, err := DeleteExtrasOfKind(extraKinds[i].value, selector, uid, t);
          DueNarrows(|w1.log|, server.w.log, t, current, NamesStable(w1), NamesStable(w0));
          AllExtrasDueTransitive(|w0.log|, w1.log, server.w.log, t, current, NamesStable(w0));
          QuietTransitive(w0, w1, server.w, ExtraScope());
          if err.Some? {
            return InFlight, err;
          }
          if current {
            if state.Settled? {
              AllExtrasGoneStays(w1.store, server.w.store, extraKinds[..i], selector, uid);
            }
            if deleted && state.Settled? {
              if AllExtrasGone(w0.store, extraKinds, selector, uid) {
                ExtrasGoneStays(w0.store, w1.store, extraKinds[i].value, selector, uid);
              }
              going :| BelongsAt(t, w1.store, going) && Moved(w1.store, server.w.store, going);
            }
            assert AgedAt(w0.store, w1.store, going) && AgedAt(w1.store, server.w.store, going);
          }
          if deleted {
            state := InFlight;
          }
        }
      }
      assert extraKinds[..|extraKinds|] == extraKinds;
      err := None;
    }

    static lemma DueNarrows(start: nat, log: seq<Deletion>, t: Target, current: bool, stable: bool, less: bool)
      requires AllExtrasDue(start, log, t, current, stable) && (less ==> stable)
      ensures AllExtrasDue(start, log, t, current, less)
    {
      forall i
        ensures ExtraDueAt(start, log, t, current, less, i)
      {
        assert ExtraDueAt(start, log, t, current, stable, i);
      }
    }

    static lemma HandledNext(items: Store, todo: set<Key>, key: Key, s: Store, s': Store, uid: string)
      requires StoreAged(s, s') && key in items
      requires forall k :: Handled(items, todo, s, uid, k)
      requires !IsOwned(items[key], uid) || key !in s'
      ensures forall k :: Handled(items, todo - {key}, s', uid, k)
    {
      forall k
        ensures Handled(items, todo - {key}, s', uid, k)
      {
        assert Handled(items, todo, s, uid, k) && AgedAt(s, s', k);
      }
    }

    static lemma NoneLeft(listed: Store, s: Store, gvk: nat, selector: map<string, string>, uid: string)
      requires StoreAged(listed, s)
      requires forall k :: Handled(Selected(listed, Extra(gvk), selector), {}, s, uid, k)
      ensures ExtrasGone(s, gvk, selector, uid)
    {
      forall k
        ensures ExtraGone(s, gvk, selector, uid, k)
      {
        assert AgedAt(listed, s, k) && Handled(Selected(listed, Extra(gvk), selector), {}, s, uid, k);
      }
    }

    /** Deletes the role group's owned extra resources of one kind; `deleted` says whether any is on
        its way out. */
    method DeleteExtrasOfKind(gvk: nat, selector: map<string, string>, uid: string, ghost t: Target)
      returns (deleted: bool, err: Option<CleanupError>)
      requires Valid(server.w)
      requires t.extras && Some(gvk) in t.kinds && t.selector == selector && t.uid == uid
      modifies server
      ensures Valid(server.w) && Quiet(old(server.w), server.w, ExtraScope())
      ensures AllExtrasDue(|old(server.w).log|, server.w.log, t, server.w.synced || hasApiReader, NamesStable(old(server.w)))
      ensures (hasApiReader || server.w.synced) && err.None? && !deleted ==>
        ExtrasGone(server.w.store, gvk, selector, uid)
      ensures (hasApiReader || server.w.synced) && err.None? && deleted ==>
        && !ExtrasGone(old(server.w).store, gvk, selector, uid)
        && exists k :: BelongsAt(t, old(server.w).store, k) && Moved(old(server.w).store, server.w.store, k)
      ensures err.Some? ==> server.w.refused > old(server.w).refused
    {
      ghost var w0 := server.w;
      ghost var scope := ExtraScope();
      var reply := server.List(Extra(gvk), selector, hasApiReader);
      DriftQuiet(w0, server.w, scope);
      if reply.ListFailed? {
        return false, Some(ApiError(reply.fault));
      }
      ghost var w1 := server.w;
      ghost var current := w0.synced || hasApiReader;
      StoreAgedReflexive(w1.store);
      deleted := false;
      ghost var going := Key(Extra(gvk), "");
      var todo := reply.items.Keys;
      while todo != {}
        invariant Valid(server.w) && Quiet(w0, server.w, scope) && StoreAged(w1.store, server.w.store)
        invariant w1.seen <= server.w.seen && todo <= reply.items.Keys
        invariant AllExtrasDue(|w0.log|, server.w.log, t, current, NamesStable(w0))
        invariant !deleted ==> forall k :: Handled(reply.items, todo, server.w.store, uid, k)
        invariant deleted ==> going in reply.items && IsOwned(reply.items[going], uid)
        invariant deleted ==> reply.items[going].deleting || Moved(w1.store, server.w.store, going)
      {
        ghost var w2 := server.w;
        ghost var before := todo;
        var key :| key in todo;
        todo := todo - {key};
        assert AgedAt(w1.store, w2.store, key);
        var leaving;
        leaving, err := ReclaimExtra(key, reply.items[key], uid, t, current);
        ExtrasOnwards(w0, w1, w2, server.w, t, current);
        if err.Some? {
          return false, err;
        }
        assert AgedAt(w1.store, w2.store, going) && AgedAt(w2.store, server.w.store, going);
        going := if deleted then going else key;
        deleted := deleted || leaving;
        if !deleted {
          HandledNext(reply.items, before, key, w2.store, server.w.store, uid);
        }
      }
      if current && !deleted {
        NoneLeft(w1.store, server.w.store, gvk, selector, uid);
      }
      if current && deleted {
        assert AgedAt(w0.store, w1.store, going) && AgedAt(w1.store, server.w.store, going);
        assert !ExtraGone(w0.store, gvk, selector, uid, going);
        assert BelongsAt(t, w0.store, going) && Moved(w0.store, server.w.store, going);
      }
      err := None;
    }

    lemma ExtrasOnwards(w0: World, w1: World, w2: World, w': World, t: Target, current: bool)
      requires Quiet(w0, w2, ExtraScope()) && Quiet(w2, w', ExtraScope()) && StoreAged(w1.store, w2.store)
      requires AllExtrasDue(|w0.log|, w2.log, t, current, NamesStable(w0))
      requires AllExtrasDue(|w2.log|, w'.log, t, current, NamesStable(w2))
      ensures Quiet(w0, w', ExtraScope()) && StoreAged(w1.store, w'.store)
      ensures AllExtrasDue(|w0.log|, w'.log, t, current, NamesStable(w0))
    {
      QuietTransitive(w0, w2, w', ExtraScope());
      StoreAgedTransitive(w1.store, w2.store, w'.store);
      DueNarrows(|w2.log|, w'.log, t, current, NamesStable(w2), NamesStable(w0));
      AllExtrasDueTransitive(|w0.log|, w2.log, w'.log, t, current, NamesStable(w0));
    }

    /** Deletes one listed extra resource if it is owned and not already going; `leaving` says that it
        is owned and on its way out. */
    method ReclaimExtra(key: Key, item: Obj, uid: string, ghost t: Target, ghost current: bool)
      returns (leaving: bool, err: Option<CleanupError>)
      requires Valid(server.w) && key.kind.Extra? && (key, item) in server.w.seen
      requires t.uid == uid && ExtraOf(t, key, item)
      requires current && key in server.w.store ==> Aged(item, server.w.store[key])
      modifies server
      ensures Valid(server.w) && Quiet(old(server.w), server.w, ExtraScope())
      ensures AllExtrasDue(|old(server.w).log|, server.w.log, t, current, NamesStable(old(server.w)))
      ensures err.None? && leaving ==>
        IsOwned(item, uid) && (item.deleting || Moved(old(server.w).store, server.w.store, key))
      ensures err.None? && !leaving ==> !IsOwned(item, uid) || key !in server.w.store
      ensures err.Some? ==> server.w.refused > old(server.w).refused
    {
      ghost var w0 := server.w;
      SameObjectsValid(w0, w0);
      DriftQuiet(w0, w0, ExtraScope());
      if !IsOwned(item, uid) {
        return false, None;
      }
      if item.deleting {
        return true, None;
      }
      var write;
      ghost var at;
      write, at := server.Delete(key);
      ExtraDeleteStep(w0, at, server.w, key, item, t, current);
      assert KeyValid(at, key) && DriftedAt(w0.store, at.store, key);
      match write
      case Done => return true, None;
      case Gone => return false, None;
      case Refused(fault) => return false, Some(ApiError(fault));
    }

    /** An item already dealt with that is still there belongs to somebody else. */
    static ghost predicate Handled(items: Store, todo: set<Key>, s: Store, uid: string, k: Key) {
      k in items && k !in todo && k in s ==> !IsOwned(items[k], uid)
    }

    // -------------------------------------------------------------------------------------------
    // Gray delete
    // -------------------------------------------------------------------------------------------

    /** The time this teardown was first marked with. */
    method GrayDeleteMark(primaries: seq<(Key, Obj)>) returns (mark: Option<int>)
      ensures mark == MarkOf(Objects(primaries))
    {
      var i := 0;
      while i < |primaries|
        invariant 0 <= i <= |primaries|
        invariant MarkOf(Objects(primaries)) == MarkOf(Objects(primaries)[i..])
      {
        var pending := primaries[i].1.pending;
        if pending.Some? && pending.value.At? {
          return Some(pending.value.second);
        }
        i := i + 1;
      }
      return None;
    }

    function Objects(primaries: seq<(Key, Obj)>): (objs: seq<Obj>)
      ensures |objs| == |primaries|
      ensures forall i :: 0 <= i < |primaries| ==> objs[i] == primaries[i].1
    {
      seq(|primaries|, i requires 0 <= i < |primaries| => primaries[i].1)
    }

    /** What a list of primaries must satisfy to be marked: versions that were seen, of distinct
        primaries of this group, and, when reads are current, all of them with their present marks. */
    ghost predicate Readable(w: World, primaries: seq<(Key, Obj)>, name: string) {
      && (forall i :: 0 <= i < |primaries| ==> primaries[i] in w.seen && primaries[i].0 in PrimaryScope(name))
      && (forall i, j :: 0 <= i < j < |primaries| ==> primaries[i].0 != primaries[j].0)
      && (w.synced ==> forall i :: 0 <= i < |primaries| ==>
            (primaries[i].0 in w.store ==> w.store[primaries[i].0].pending == primaries[i].1.pending))
      && (w.synced ==> forall k :: k in w.store && k in PrimaryScope(name) ==> Listed(primaries, k))
    }

    ghost predicate Listed(primaries: seq<(Key, Obj)>, k: Key) {
      exists i :: 0 <= i < |primaries| && primaries[i].0 == k
    }

    ghost function Pairs(name: string, sts: Option<Obj>, cm: Option<Obj>): seq<(Key, Obj)> {
      (if sts.Some? then [(Key(StatefulSet, name), sts.value)] else []) +
      (if cm.Some? then [(Key(ConfigMap, name), cm.value)] else [])
    }

    /** `found` is what a current read of the key gives, up to changes that leave the mark alone. */
    ghost predicate ReadNow(w: World, k: Key, found: Option<Obj>) {
      && (found.Some? ==> (k, found.value) in w.seen)
      && (w.synced && k in w.store ==> found.Some? && w.store[k].pending == found.value.pending)
    }

    lemma PairsReadable(w: World, name: string, sts: Option<Obj>, cm: Option<Obj>)
      requires ReadNow(w, Key(StatefulSet, name), sts) && ReadNow(w, Key(ConfigMap, name), cm)
      ensures Readable(w, Pairs(name, sts, cm), name)
      ensures Objects(Pairs(name, sts, cm)) == Opt(sts) + Opt(cm)
    {
      var primaries := Pairs(name, sts, cm);
      assert sts.Some? ==> primaries[0] == (Key(StatefulSet, name), sts.value);
      assert cm.Some? ==> primaries[|primaries| - 1] == (Key(ConfigMap, name), cm.value);
      assert Objects(primaries) == Opt(sts) + Opt(cm);
    }

    /** Reads both primary resources of a role group. */
    method ReadPrimaries(name: string)
      returns (primaries: seq<(Key, Obj)>, err: Option<CleanupError>, ghost sts: Option<Obj>, ghost cm: Option<Obj>)
      requires Valid(server.w)
      modifies server
      ensures Valid(server.w) && Drifts(old(server.w), server.w)
      ensures err.None? ==> Readable(server.w, primaries, name)
      ensures err.None? ==> Objects(primaries) == Opt(sts) + Opt(cm)
      ensures server.w.synced && err.None? ==>
        && ReadAs(old(server.w).store, server.w.store, Key(StatefulSet, name), sts)
        && ReadAs(old(server.w).store, server.w.store, Key(ConfigMap, name), cm)
      ensures err.Some? ==> server.w.refused > old(server.w).refused
    {
      ghost var w0 := server.w;
      var a, b := Key(StatefulSet, name), Key(ConfigMap, name);
      sts, cm, primaries := None, None, [];
      var reply := server.Get(a, false);
      ghost var w1 := server.w;
      match reply {
        case Found(obj) =>
          sts := Some(obj);
          primaries := [(a, obj)];
        case NotFound =>
        case Failed(fault) => return [], Some(ApiError(fault)), None, None;
      }
      reply := server.Get(b, false);
      DriftsTransitive(w0, w1, server.w);
      assert DriftedAt(w0.store, w1.store, a) && DriftedAt(w1.store, server.w.store, a);
      assert DriftedAt(w0.store, server.w.store, b);
      match reply {
        case Found(obj) =>
          cm := Some(obj);
          primaries := primaries + [(b, obj)];
        case NotFound =>
        case Failed(fault) => return [], Some(ApiError(fault)), None, None;
      }
      err := None;
      PairsReadable(server.w, name, sts, cm);
    }

    /** Gives one primary the mark `second` unless it already carries it. */
    method MarkPrimary(key: Key, base: Obj, second: int, ghost name: string, ghost uid: string, ghost since: int)
      returns (err: Option<CleanupError>)
      requires Valid(server.w)
      requires (key, base) in server.w.seen && key in PrimaryScope(name)
      requires server.w.synced && key in server.w.store ==> server.w.store[key].pending == base.pending
      modifies server
      ensures Valid(server.w) && Leads(old(server.w), server.w)
      ensures Confined(old(server.w), server.w, iset{key}) && server.w.log == old(server.w).log
      ensures server.w.synced && err.None? ==> HasMark(server.w.store, key, second)
      ensures err.None? ==> MarkSeen(server.w, name, second)
      ensures (second + 1) * SECOND > since && Unripe(old(server.w).store, name, uid, since) ==>
        Unripe(server.w.store, name, uid, since)
      ensures MarkedAll(old(server.w).store, name, second) ==> MarkedAll(server.w.store, name, second)
      ensures OnlyMarks(old(server.w).store, server.w.store, name)
      ensures err.Some? ==> server.w.refused > old(server.w).refused
    {
      ghost var w0 := server.w;
      SameObjectsValid(w0, w0);
      DriftQuiet(w0, w0, iset{key});
      var next := base.(pending := Some(At(second)));
      if base.pending == next.pending {
        assert MarkedVersion(w0, key, base, second);
        return None;
      }
      var write;
      ghost var at;
      write, at := server.Update(key, base, next);
      DriftQuiet(w0, at, iset{key});
      DriftMarks(w0, at, name, uid, since, second);
      if server.w != at {
        MarkStep(w0, at, key, base, second, name, uid, since);
      }
      err := match write
        case Done => None
        case Gone => Some(CleanupFailed)
        case Refused(fault) => Some(ApiError(fault));
    }

    lemma MarkStep(w0: World, at: World, key: Key, base: Obj, second: int, name: string, uid: string, since: int)
      requires Valid(at) && Drifts(w0, at) && key in at.store && at.store[key] == base && key in PrimaryScope(name)
      ensures var w' := Put(at, key, base.(pending := Some(At(second))));
        && Leads(w0, w') && Confined(w0, w', iset{key})
        && MarkSeen(w', name, second)
        && OnlyMarks(w0.store, w'.store, name)
        && ((second + 1) * SECOND > since && Unripe(w0.store, name, uid, since) ==> Unripe(w'.store, name, uid, since))
        && (MarkedAll(w0.store, name, second) ==> MarkedAll(w'.store, name, second))
    {
      var next := base.(pending := Some(At(second)));
      var w' := Put(at, key, next);
      DriftQuiet(w0, at, iset{key});
      DriftMarks(w0, at, name, uid, since, second);
      assert KeyValid(at, key) && VersionValid(at, key, base);
      PutQuiet(at, key, next, iset{key});
      LeadsTransitive(w0, at, w');
      ConfinedTransitive(w0, at, w', iset{key});
      if (second + 1) * SECOND > since && Unripe(at.store, name, uid, since) {
        UnripePut(at, key, second, name, uid, since);
      }
      if MarkedAll(at.store, name, second) {
        MarkedAllPut(at, key, second, name);
      }
      assert MarkedVersion(w', key, w'.store[key], second);
    }

    /** Gives every primary that lacks it the mark `second`. */
    method MarkPrimaries(primaries: seq<(Key, Obj)>, second: int, ghost name: string, ghost uid: string, ghost since: int)
      returns (err: Option<CleanupError>)
      requires Valid(server.w)
      requires forall i :: 0 <= i < |primaries| ==>
        primaries[i] in server.w.seen && primaries[i].0 in PrimaryScope(name)
      requires forall i, j :: 0 <= i < j < |primaries| ==> primaries[i].0 != primaries[j].0
      requires server.w.synced ==> forall i :: 0 <= i < |primaries| ==>
        (primaries[i].0 in server.w.store ==> server.w.store[primaries[i].0].pending == primaries[i].1.pending)
      modifies server
      ensures Valid(server.w) && Leads(old(server.w), server.w)
      ensures Confined(old(server.w), server.w, PrimaryScope(name)) && server.w.log == old(server.w).log
      ensures server.w.synced && err.None? ==>
        forall i :: 0 <= i < |primaries| ==> HasMark(server.w.store, primaries[i].0, second)
      ensures err.None? && primaries != [] ==> MarkSeen(server.w, name, second)
      ensures (second + 1) * SECOND > since && Unripe(old(server.w).store, name, uid, since) ==>
        Unripe(server.w.store, name, uid, since)
      ensures MarkedAll(old(server.w).store, name, second) ==> MarkedAll(server.w.store, name, second)
      ensures OnlyMarks(old(server.w).store, server.w.store, name)
      ensures err.Some? ==> server.w.refused > old(server.w).refused
    {
      ghost var w0 := server.w;
      ghost var scope := PrimaryScope(name);
      SameObjectsValid(w0, w0);
      DriftQuiet(w0, w0, scope);
      for i := 0 to |primaries|
        invariant MarkedAll(w0.store, name, second) ==> MarkedAll(server.w.store, name, second)
        invariant Valid(server.w) && Leads(w0, server.w) && Confined(w0, server.w, scope)
        invariant server.w.log == w0.log && OnlyMarks(w0.store, server.w.store, name)
        invariant (second + 1) * SECOND > since && Unripe(w0.store, name, uid, since) ==>
          Unripe(server.w.store, name, uid, since)
        invariant server.w.synced ==> forall j :: 0 <= j < i ==> HasMark(server.w.store, primaries[j].0, second)
        invariant server.w.synced ==> forall j :: i <= j < |primaries| ==>
          (primaries[j].0 in server.w.store ==> server.w.store[primaries[j].0].pending == primaries[j].1.pending)
        invariant i > 0 ==> MarkSeen(server.w, name, second)
      {
        ghost var w1 := server.w;
        var (key, base) := primaries[i];
        err := MarkPrimary(key, base, second, name, uid, since);
        ConfinedWidens(w1, server.w, iset{key}, scope);
        LeadsTransitive(w0, w1, server.w);
        ConfinedTransitive(w0, w1, server.w, scope);
        if err.Some? {
          return err;
        }
        forall j | 0 <= j < |primaries| && j != i && primaries[j].0 in server.w.store
          ensures primaries[j].0 in w1.store
          ensures server.w.store[primaries[j].0].pending == w1.store[primaries[j].0].pending
        {
          assert ConfinedAt(w1.store, server.w.store, iset{key}, primaries[j].0);
        }
      }
      err := None;
    }

    method AnyForeign(primaries: seq<(Key, Obj)>, uid: string) returns (foreign: bool)
      ensures foreign <==> exists o :: o in Objects(primaries) && !IsOwned(o, uid)
    {
      for i := 0 to |primaries|
        invariant forall j :: 0 <= j < i ==> IsOwned(Objects(primaries)[j], uid)
      {
        if !IsOwned(primaries[i].1, uid) {
          assert Objects(primaries)[i] in Objects(primaries);
          return true;
        }
      }
      return false;
    }

    /** Opens the gray-delete gate of a role group once its grace period is over, and marks its
        primaries until then. `since` is any time at which the group was already orphaned. */
    method CheckOrMarkGrayDelete(name: string, uid: string, ghost since: int, ghost t: Target)
      returns (ready: bool, remaining: int, err: Option<CleanupError>)
      requires Valid(server.w) && t.name == name && t.uid == uid
      modifies server
      ensures Valid(server.w) && Leads(old(server.w), server.w)
      ensures Confined(old(server.w), server.w, PrimaryScope(name)) && server.w.log == old(server.w).log
      ensures server.w.synced && InGrace(old(server.w), name, uid, since, gracePeriod) ==>
        InGrace(server.w, name, uid, since, gracePeriod)
      ensures server.w.synced && InGrace(old(server.w), name, uid, since, gracePeriod) && ready ==>
        Waited(server.w.now, since, gracePeriod)
      ensures server.w.synced ==> GateKept(old(server.w), server.w, name, gracePeriod)
      ensures server.w.synced && ready ==>
        GateOpen(old(server.w).store, server.w, name, uid)
      ensures server.w.synced && err.None? && NoForeignPrimary(old(server.w).store, name, uid) && OldEnough(old(server.w), name) ==>
        ready
      ensures server.w.synced && err.None? && NoOwnedPrimary(old(server.w).store, name, uid) ==> ready
      ensures server.w.synced && err.None? && ForeignStands(old(server.w).store, name, uid) ==> ready
      ensures server.w.synced && err.None? && !ready ==>
        || Unmarked(server.w.store, name) < Unmarked(old(server.w).store, name)
        || Advanced(t, old(server.w).store, server.w.store)
        || GraceRuns(old(server.w), server.w, t)
      ensures server.w.synced && err.None? ==>
        Unmarked(server.w.store, name) <= Unmarked(old(server.w).store, name)
      ensures err.None? && !ready ==> WakesInTime(server.w, name, old(server.w).now, server.w.now, remaining)
      ensures OnlyMarks(old(server.w).store, server.w.store, name)
      ensures server.w.synced ==>
        && ForeignSparedAt(old(server.w).store, server.w.store, uid, Key(StatefulSet, name))
        && ForeignSparedAt(old(server.w).store, server.w.store, uid, Key(ConfigMap, name))
      ensures err.Some? ==> !ready
      ensures err.Some? ==> server.w.refused > old(server.w).refused
    {
      ghost var w0 := server.w;
      var primaries;
      ghost var sts, cm;
      primaries, err, sts, cm := ReadPrimaries(name);
      DriftQuiet(w0, server.w, PrimaryScope(name));
      GateStays(w0, server.w, name, gracePeriod);
      DriftMarks(w0, server.w, name, uid, since, 0);
      if err.Some? {
        return false, 0, err;
      }
      ghost var w1 := server.w;
      ghost var found := Objects(primaries);
      if w0.synced {
        ReadingTells(w0.store, w1.store, sts, cm, name, uid, since);
        ReadingFindsForeign(w0.store, w1.store, sts, cm, name, uid);
      }
      if primaries == [] {
        return true, 0, None;
      }
      assert found[0] in found;
      var foreign := AnyForeign(primaries, uid);
      if foreign {
        return true, 0, None;
      }
      ready, remaining, err := StampAndWait(primaries, name, uid, since, w0.now);
      GateComposes(w0, w1, server.w, name, since, found, t);
    }

    /** What the marking adds to the reading of the primaries. */
    lemma GateComposes(w: World, w1: World, w': World, name: string, since: int, found: seq<Obj>, t: Target)
      requires Drifts(w, w1) && t.name == name
      requires Leads(w1, w') && Confined(w1, w', PrimaryScope(name)) && w'.log == w1.log
      requires w.synced ==>
        && (forall second :: MarkedAll(w.store, name, second) ==> MarkOf(found) == Some(second))
        && NoForeignPrimary(w1.store, name, t.uid)
        && !NoOwnedPrimary(w.store, name, t.uid)
      requires MarkOf(found).Some? ==> RipeKept(w1, w', name, MarkOf(found).value, gracePeriod)
      ensures Leads(w, w') && Confined(w, w', PrimaryScope(name)) && w'.log == w.log
      ensures w.synced ==> GateKept(w, w', name, gracePeriod)
      ensures w.synced ==> !NoOwnedPrimary(w'.store, name, t.uid) || Advanced(t, w.store, w'.store)
    {
      DriftQuiet(w, w1, PrimaryScope(name));
      LeadsTransitive(w, w1, w');
      ConfinedTransitive(w, w1, w', PrimaryScope(name));
      if w.synced {
        GateStays(w, w1, name, gracePeriod);
        MarkedGateStays(w, w1, w', found, name);
        NoForeignStays(w1.store, w'.store, name, t.uid);
        if NoPrimary(w'.store, name) {
          PrimaryVanished(w.store, w'.store, t);
        }
      }
    }

    lemma NoForeignStays(s: Store, s': Store, name: string, uid: string)
      requires NoForeignPrimary(s, name, uid) && StoreAged(s, s')
      ensures NoForeignPrimary(s', name, uid)
    {
      assert AgedAt(s, s', Key(StatefulSet, name)) && AgedAt(s, s', Key(ConfigMap, name));
    }

    /** If the gate was open, the reading gave its mark, and stamping with that mark leaves it open. */
    lemma MarkedGateStays(w: World, w1: World, w': World, found: seq<Obj>, name: string)
      requires GateKept(w, w1, name, gracePeriod)
      requires forall second :: MarkedAll(w.store, name, second) ==> MarkOf(found) == Some(second)
      requires MarkOf(found).Some? ==> RipeKept(w1, w', name, MarkOf(found).value, gracePeriod)
      ensures GateKept(w, w', name, gracePeriod)
    {
      forall second
        ensures RipeKept(w, w', name, second, gracePeriod)
      {
        assert RipeKept(w, w1, name, second, gracePeriod);
      }
    }

    lemma PrimaryVanished(s: Store, s': Store, t: Target)
      requires !NoOwnedPrimary(s, t.name, t.uid) && NoPrimary(s', t.name)
      ensures Advanced(t, s, s')
    {
      var a, b := Key(StatefulSet, t.name), Key(ConfigMap, t.name);
      assert ImprovedFor(t, s, s', if OwnedAt(s, a, t.uid) then a else b);
    }

    /** The gate of a group whose primaries are all owned: one mark on every one of them, and its age. */
    method StampAndWait(primaries: seq<(Key, Obj)>, name: string, ghost uid: string, ghost since: int, ghost from: int)
      returns (ready: bool, remaining: int, err: Option<CleanupError>)
      requires Valid(server.w) && from <= server.w.now
      requires Readable(server.w, primaries, name) && primaries != []
      modifies server
      ensures Valid(server.w) && Leads(old(server.w), server.w)
      ensures Confined(old(server.w), server.w, PrimaryScope(name)) && server.w.log == old(server.w).log
      ensures var mark := MarkOf(Objects(primaries));
        since <= old(server.w).now && Unripe(old(server.w).store, name, uid, since) &&
        (mark.Some? ==> (mark.value + 1) * SECOND > since) ==>
          Unripe(server.w.store, name, uid, since)
      ensures var mark := MarkOf(Objects(primaries));
        ready ==> mark.Some? && server.w.now - mark.value * SECOND >= gracePeriod
      ensures var mark := MarkOf(Objects(primaries));
        err.None? && !ready && mark.Some? ==> old(server.w).now - mark.value * SECOND < gracePeriod
      ensures var mark := MarkOf(Objects(primaries));
        server.w.synced && err.None? ==>
          Unmarked(server.w.store, name) == 0 && (mark.Some? ==> MarkedAll(server.w.store, name, mark.value))
      ensures var mark := MarkOf(Objects(primaries));
        mark.Some? ==> RipeKept(old(server.w), server.w, name, mark.value, gracePeriod)
      ensures err.None? && !ready ==> WakesInTime(server.w, name, from, server.w.now, remaining)
      ensures OnlyMarks(old(server.w).store, server.w.store, name)
      ensures err.Some? ==> !ready
      ensures err.Some? ==> server.w.refused > old(server.w).refused
    {
      ghost var w1 := server.w;
      ghost var scope := PrimaryScope(name);
      var mark, second;
      mark, second, err := EnsureMarked(primaries, name, uid, since);
      if err.Some? {
        return false, 0, err;
      }
      ghost var w3 := server.w;
      if w1.synced {
        MarkedAllCounts(w3.store, name, second);
      }
      if mark.None? {
        assert WakesAfter(server.w, name, from, server.w.now, gracePeriod, second);
        return false, gracePeriod, None;
      }
      ready, remaining := GraceElapsed(second);
      DriftQuiet(w3, server.w, scope);
      GateStays(w3, server.w, name, gracePeriod);
      assert RipeKept(w3, server.w, name, second, gracePeriod);
      LeadsTransitive(w1, w3, server.w);
      ConfinedTransitive(w1, w3, server.w, scope);
      DriftMarks(w3, server.w, name, uid, since, second);
      MarkSeenLater(w3, server.w, name, second);
      assert !ready ==> WakesAfter(server.w, name, from, server.w.now, remaining, second);
      err := None;
    }

    /** Stamps every primary with the mark one of them already carries, or else with the present. */
    method EnsureMarked(primaries: seq<(Key, Obj)>, name: string, ghost uid: string, ghost since: int)
      returns (mark: Option<int>, second: int, err: Option<CleanupError>)
      requires Valid(server.w)
      requires Readable(server.w, primaries, name)
      modifies server
      ensures Valid(server.w) && Leads(old(server.w), server.w)
      ensures Confined(old(server.w), server.w, PrimaryScope(name)) && server.w.log == old(server.w).log
      ensures mark == MarkOf(Objects(primaries))
      ensures if mark.Some? then second == mark.value
        else (second + 1) * SECOND > old(server.w).now && second * SECOND <= server.w.now
      ensures Unripe(old(server.w).store, name, uid, since) && (second + 1) * SECOND > since ==>
        Unripe(server.w.store, name, uid, since)
      ensures server.w.synced && err.None? ==> MarkedAll(server.w.store, name, second)
      ensures err.None? && primaries != [] ==> MarkSeen(server.w, name, second)
      ensures mark.Some? && MarkedAll(old(server.w).store, name, second) ==> MarkedAll(server.w.store, name, second)
      ensures OnlyMarks(old(server.w).store, server.w.store, name)
      ensures err.Some? ==> server.w.refused > old(server.w).refused
    {
      ghost var w0 := server.w;
      ghost var scope := PrimaryScope(name);
      SameObjectsValid(w0, w0);
      DriftQuiet(w0, w0, scope);
      mark := GrayDeleteMark(primaries);
      if mark.Some? {
        second := mark.value;
      } else {
        var now := server.Now();
        second := now / SECOND;
        DriftQuiet(w0, server.w, scope);
        DriftMarks(w0, server.w, name, uid, since, 0);
      }
      ghost var w1 := server.w;
      forall k | k in w1.store
        ensures k in w0.store && w1.store[k].pending == w0.store[k].pending
      {
        assert AgedAt(w0.store, w1.store, k) && MarkKeptAt(w0.store, w1.store, k);
      }
      err := MarkPrimaries(primaries, second, name, uid, since);
      LeadsTransitive(w0, w1, server.w);
      ConfinedTransitive(w0, w1, server.w, scope);
      forall k | server.w.synced && err.None? && k in PrimaryScope(name)
        ensures HasMark(server.w.store, k, second)
      {
        assert AgedAt(w0.store, server.w.store, k);
        if k in server.w.store {
          assert Listed(primaries, k);
        }
      }
      assert Key(StatefulSet, name) in scope && Key(ConfigMap, name) in scope;
    }

    /** Compares the age of the mark with the grace period, and computes the wakeup. */
    method GraceElapsed(second: int) returns (ready: bool, remaining: int)
      requires Valid(server.w)
      modifies server
      ensures Valid(server.w) && Drifts(old(server.w), server.w)
      ensures ready ==> server.w.now - second * SECOND >= gracePeriod
      ensures !ready ==> old(server.w).now - second * SECOND < gracePeriod
      ensures !ready ==> Rounded(server.w.now, remaining, second * SECOND + gracePeriod)
    {
      ghost var w0 := server.w;
      var now := server.Now();
      if now - second * SECOND >= gracePeriod {
        return true, 0;
      }
      ghost var w1 := server.w;
      var until := server.Now();
      DriftsTransitive(w0, w1, server.w);
      return false, RoundToSecond(second * SECOND + gracePeriod - until) + SECOND;
    }

    /** Why the gate may open: nothing is left to mark, a primary belongs to somebody else, or the
        mark every primary carries is old enough. */
    ghost predicate GateOpen(s: Store, w': World, name: string, uid: string) {
      || NoPrimary(w'.store, name)
      || !NoForeignPrimary(s, name, uid)
      || exists second :: MarkedAll(w'.store, name, second) && w'.now - second * SECOND >= gracePeriod
    }

    ghost predicate OldEnough(w: World, name: string) {
      exists second :: MarkedAll(w.store, name, second) && w.now - second * SECOND >= gracePeriod
    }

    /** The role group still has a primary, and every primary there is carries a mark that is not old
        enough yet. */
    ghost predicate GraceRuns(w: World, w': World, t: Target) {
      && !NoOwnedPrimary(w'.store, t.name, t.uid)
      && exists second :: MarkedAll(w'.store, t.name, second) && w.now - second * SECOND < gracePeriod
    }

    /** What is asked for after `remaining`, at the moment `at`, is the end of the grace period counted
        from this group's mark; with current reads that is the mark every primary carries. `from` is when
        the pass over the group began. */
    ghost predicate WakesInTime(w: World, name: string, from: int, at: int, remaining: int) {
      exists second :: WakesAfter(w, name, from, at, remaining, second)
    }

    ghost predicate WakesAfter(w: World, name: string, from: int, at: int, remaining: int, second: int) {
      && MarkSeen(w, name, second)
      && (w.synced ==> MarkedAll(w.store, name, second))
      && WakesFor(from, at, remaining, second)
    }

    /** The wakeup is computed from the age of the mark, or the mark was only just made. */
    ghost predicate WakesFor(from: int, now: int, remaining: int, second: int) {
      var deadline := second * SECOND + gracePeriod;
      || Rounded(now, remaining, deadline)
      || (remaining == gracePeriod && (second + 1) * SECOND > from && now + remaining >= deadline)
    }

    /** The wakeup is not before the deadline and at most a second and a half after it, and it is
        positive unless the clock moved half a second past the deadline while it was being computed. */
    ghost predicate Rounded(now: int, remaining: int, deadline: int) {
      && now + remaining >= deadline
      && 2 * (now + remaining - deadline) <= 3 * SECOND
      && (remaining > 0 <==> 2 * (now - deadline) < SECOND)
    }

    // -------------------------------------------------------------------------------------------
    // One role group
    // -------------------------------------------------------------------------------------------

    /** What the teardown of this orphan is about. */
    ghost function TargetOf(clusterName: string, orphan: OrphanRef, uid: string, live: set<string>): (t: Target)
      ensures IsTarget(t, clusterName, orphan.roleName, orphan.groupName, uid)
      ensures t.name == orphan.resourceName && t.derived == DerivedSet(orphan.resourceName, live)
    {
      Target(orphan.resourceName, DerivedSet(orphan.resourceName, live), extraKinds,
             ExtraSelector(clusterName, orphan.roleName, orphan.groupName),
             ReclaimsExtras(orphan.roleName, orphan.groupName, uid), uid)
    }

    /** Why a teardown that is not done could not finish: it made progress, or it waits for the drain or
        for a finalizer. */
    ghost predicate Pending(w: World, w': World, t: Target) {
      || Advanced(t, w.store, w'.store)
      || Draining(w, t)
      || exists k :: Terminating(t, w'.store, k)
    }

    method RunStep(step: Step, clusterName: string, orphan: OrphanRef, uid: string, ghost p: Plan, ghost j: nat)
      returns (state: DeletionState, err: Option<CleanupError>)
      requires Valid(server.w)
      requires Follows(p, clusterName, orphan, uid) && p.current == server.w.synced
      requires j < |p.steps| && p.steps[j] == step
      modifies server
      ensures Valid(server.w) && Quiet(old(server.w), server.w, StepScope(step))
      ensures NamesStable(old(server.w)) ==> OwnTargets(|old(server.w).log|, server.w.log, NonClaims(), uid)
      ensures StepTargets(old(server.w), server.w, p, step, NamesStable(old(server.w)))
      ensures server.w.synced && err.None? && state.Settled? ==> StepDone(step, server.w.store, p.target)
      ensures hasApiReader && err.None? && state.Settled? && step.ExtrasStep? ==>
        StepDone(step, server.w.store, p.target)
      ensures server.w.synced && err.None? && state.InFlight? ==>
        !StepDone(step, old(server.w).store, p.target) && Pending(old(server.w), server.w, p.target)
      ensures err.Some? ==> state.InFlight?
      ensures err.Some? ==> server.w.refused > old(server.w).refused
    {
      ghost var w0 := server.w;
      assert FitsAt(p.steps, p.target, j);
      match step
      case OwnedStep(key) =>
        state, err := DeleteOwned(key, uid);
        assert AgedAt(w0.store, server.w.store, key);
        if NamesStable(w0) {
          NarrowTargets(w0, server.w, iset{key}, iset{key}, uid);
        }
        assert w0.synced && err.None? && state.InFlight? ==> Terminating(p.target, server.w.store, key);
      case StatefulSetStep(name, deletePvcs) =>
        state, err := DeleteStatefulSet(name, uid, deletePvcs, p.target);
        if NamesStable(w0) {
          NarrowTargets(w0, server.w, StepScope(step), iset{Key(StatefulSet, name)}, uid);
        }
      case ExtrasStep =>
        state, err := DeleteRoleGroupExtras(clusterName, orphan.roleName, orphan.groupName, uid, p.target);
        if NamesStable(w0) {
          ExtrasDueOwned(|w0.log|, server.w.log, p.target, w0.synced || hasApiReader);
          NarrowTargets(w0, server.w, ExtraScope(), ExtraScope(), uid);
        }
        if w0.synced && err.None? && state.InFlight? {
          var k: Key :| BelongsAt(p.target, w0.store, k) && Moved(w0.store, server.w.store, k);
          assert AgedAt(w0.store, server.w.store, k);
          assert ImprovedFor(p.target, w0.store, server.w.store, k) || Terminating(p.target, server.w.store, k);
        }
    }

    /** `p` is a plan of this cleaner for this orphan. */
    ghost predicate Follows(p: Plan, clusterName: string, orphan: OrphanRef, uid: string) {
      && IsTarget(p.target, clusterName, orphan.roleName, orphan.groupName, uid)
      && p.target.name == orphan.resourceName
      && Fits(p.steps, p.target)
      && (forall j :: 0 <= j < |p.steps| && p.steps[j].StatefulSetStep? ==> p.steps[j].deletePvcs == p.deletePvcs)
      && p.drainDeadline == DrainDeadline()
      && p.uncached == hasApiReader
    }

    /** Whether a resource this cluster owns is still there, by the reader used to confirm. */
    method StillOwned(key: Key, uid: string) returns (present: bool, err: Option<CleanupError>)
      requires Valid(server.w)
      modifies server
      ensures Valid(server.w) && Drifts(old(server.w), server.w)
      ensures (hasApiReader || server.w.synced) && err.None? ==> (present <==> OwnedAt(server.w.store, key, uid))
      ensures err.Some? ==> server.w.refused > old(server.w).refused
    {
      var reply := server.Get(key, hasApiReader);
      match reply
      case NotFound => return false, None;
      case Failed(fault) => return false, Some(ApiError(fault));
      case Found(obj) => return IsOwned(obj, uid), None;
    }

    /** Re-reads every named resource before the role group is taken for reclaimed. */
    method ConfirmRoleGroupReclaimed(name: string, uid: string, derived: seq<string>)
      returns (state: DeletionState, err: Option<CleanupError>)
      requires Valid(server.w)
      modifies server
      ensures Valid(server.w) && Drifts(old(server.w), server.w)
      ensures (hasApiReader || server.w.synced) && err.None? && state.Settled? ==>
        NoneOwned(server.w.store, NamedKeys(name, derived), uid)
      ensures (hasApiReader || server.w.synced) && err.None? && state.InFlight? ==>
        !NoneOwned(old(server.w).store, NamedKeys(name, derived), uid)
      ensures err.Some? ==> state.InFlight?
      ensures err.Some? ==> server.w.refused > old(server.w).refused
    {
      ghost var w0 := server.w;
      SameObjectsValid(w0, w0);
      var keys := NamedKeys(name, derived);
      for i := 0 to |keys|
        invariant Valid(server.w) && Drifts(w0, server.w)
        invariant hasApiReader || server.w.synced ==> NoneOwned(server.w.store, keys[..i], uid)
      {
        ghost var w1 := server.w;
        var present;
        present, err := StillOwned(keys[i], uid);
        DriftsTransitive(w0, w1, server.w);
        assert DriftedAt(w0.store, server.w.store, keys[i]);
        forall j | 0 <= j < i && NoneOwned(w1.store, keys[..i], uid)
          ensures !OwnedAt(server.w.store, keys[j], uid)
        {
          assert keys[..i][j] == keys[j];
          assert DriftedAt(w1.store, server.w.store, keys[j]);
        }
        if err.Some? {
          return InFlight, err;
        }
        if present {
          return InFlight, None;
        }
      }
      assert keys[..|keys|] == keys;
      return Settled, None;
    }

    ghost function PlanOf(w: World, clusterName: string, orphan: OrphanRef, uid: string, deletePvcs: bool,
                          live: set<string>, since: int): Plan
    {
      Plan(TargetOf(clusterName, orphan, uid, live), Steps(orphan.resourceName, live, deletePvcs),
           deletePvcs, DrainDeadline(), w.store, since, gracePeriod,
           w.synced && gracePeriod > 0 && InGrace(w, orphan.resourceName, uid, since, gracePeriod),
           w.synced, hasApiReader, NamesStable(w))
    }

    lemma PendingFrom(w0: World, w1: World, w2: World, t: Target)
      requires w1.synced && Leads(w0, w1) && Leads(w1, w2) && Pending(w1, w2, t)
      ensures Pending(w0, w2, t)
    {
      StoreAgedReflexive(w2.store);
      if Advanced(t, w1.store, w2.store) {
        AdvancedWidens(t, w0.store, w1.store, w2.store, w2.store);
      } else if Draining(w1, t) {
        var key := Key(StatefulSet, t.name);
        assert AgedAt(w0.store, w1.store, key) && DrainKeptAt(w0.store, w1.store, key);
        if !Stamped(w0.store[key]) || w0.store[key].specReplicas != Some(0) {
          assert ImprovedFor(t, w0.store, w1.store, key);
          StoreAgedReflexive(w0.store);
          AdvancedWidens(t, w0.store, w0.store, w1.store, w2.store);
        }
      }
    }

    /** The steps of the teardown in order, up to the first that is not done. */
    method RunSteps(steps: seq<Step>, clusterName: string, orphan: OrphanRef, uid: string, ghost p: Plan)
      returns (state: DeletionState, err: Option<CleanupError>)
      requires Valid(server.w)
      requires Follows(p, clusterName, orphan, uid) && p.steps == steps
      requires p.current == server.w.synced && (p.current ==> StoreAged(p.from, server.w.store))
      requires p.stable ==> NamesStable(server.w)
      requires p.gated ==> Waited(server.w.now, p.since, p.grace)
      modifies server
      ensures Valid(server.w) && Quiet(old(server.w), server.w, ScopeOf(steps))
      ensures AllLawful(|old(server.w).log|, server.w.log, p)
      ensures server.w.synced && err.None? && state.Settled? ==> StepsDone(steps, server.w.store, p.target)
      ensures hasApiReader && err.None? && state.Settled? && ExtrasStep in steps ==>
        StepDone(ExtrasStep, server.w.store, p.target)
      ensures server.w.synced && err.None? && state.InFlight? ==>
        !StepsDone(steps, old(server.w).store, p.target) && Pending(old(server.w), server.w, p.target)
      ensures err.Some? ==> state.InFlight?
      ensures err.Some? ==> server.w.refused > old(server.w).refused
    {
      ghost var w0 := server.w;
      ghost var scope := ScopeOf(steps);
      SameObjectsValid(w0, w0);
      DriftQuiet(w0, w0, scope);
      for j := 0 to |steps|
        invariant Valid(server.w) && Quiet(w0, server.w, scope)
        invariant AllLawful(|w0.log|, server.w.log, p)
        invariant server.w.synced ==> StepsDone(steps[..j], server.w.store, p.target)
        invariant hasApiReader && ExtrasStep in steps[..j] ==> StepDone(ExtrasStep, server.w.store, p.target)
      {
        ghost var w1 := server.w;
        assert FitsAt(steps, p.target, j);
        state, err := RunStep(steps[j], clusterName, orphan, uid, p, j);
        StepInScope(steps, j);
        QuietWidens(w1, server.w, StepScope(steps[j]), scope);
        if p.current {
          StoreAgedTransitive(p.from, w0.store, w1.store);
        }
        StepLawful(w1, server.w, p, j, NamesStable(w1));
        AllLawfulTransitive(|w0.log|, w1.log, server.w.log, p);
        QuietTransitive(w0, w1, server.w, scope);
        if err.Some? {
          return InFlight, err;
        }
        if state.InFlight? {
          if server.w.synced {
            if StepsDone(steps, w0.store, p.target) {
              StepDoneStays(steps[j], w0.store, w1.store, p.target);
            }
            PendingFrom(w0, w1, server.w, p.target);
          }
          return InFlight, None;
        }
        if server.w.synced {
          StepsDoneNext(steps, j, w1.store, server.w.store, p.target);
        }
        if hasApiReader && ExtrasStep in steps[..j + 1] {
          LastOrEarlier(steps, j, ExtrasStep);
          if ExtrasStep in steps[..j] {
            StepDoneStays(ExtrasStep, w1.store, server.w.store, p.target);
          }
        }
      }
      assert steps[..|steps|] == steps;
      return Settled, None;
    }

    /** What an unfinished teardown waits for: its grace period, the drain of its StatefulSet, or a
        finalizer on an object of its own. */
    ghost predicate Waiting(w: World, w': World, t: Target) {
      || GraceRuns(w, w', t)
      || Draining(w, t)
      || exists k :: Terminating(t, w'.store, k)
    }

    /** What is left when one role group counts as reclaimed: none of its named resources, and no
        extra resource the cleaner could find. */
    ghost predicate Reclaimed(s: Store, clusterName: string, orphan: OrphanRef, uid: string, live: set<string>) {
      && NoneOwned(s, NamedKeys(orphan.resourceName, DerivedNames(orphan.resourceName, live)), uid)
      && StepDone(ExtrasStep, s, TargetOf(clusterName, orphan, uid, live))
    }

    /** One pass over one orphan. `deleted` says that nothing of it is left. */
    method CleanupRoleGroup(orphan: OrphanRef, uid: string, deletePvcs: bool, clusterName: string,
                            live: set<string>, ghost since: int)
      returns (deleted: bool, retryAfter: int, err: Option<CleanupError>)
      requires Valid(server.w)
      modifies server
      ensures Valid(server.w) && Leads(old(server.w), server.w)
      ensures Confined(old(server.w), server.w, ScopeOf(Steps(orphan.resourceName, live, deletePvcs)))
      ensures AllLawful(|old(server.w).log|, server.w.log,
                        PlanOf(old(server.w), clusterName, orphan, uid, deletePvcs, live, since))
      ensures PlanOf(old(server.w), clusterName, orphan, uid, deletePvcs, live, since).gated ==>
        && InGrace(server.w, orphan.resourceName, uid, since, gracePeriod)
        && Spared(old(server.w), server.w, orphan.resourceName, since, gracePeriod)
      ensures server.w.synced && gracePeriod > 0 ==> GateKept(old(server.w), server.w, orphan.resourceName, gracePeriod)
      ensures (hasApiReader || server.w.synced) && deleted ==> Reclaimed(server.w.store, clusterName, orphan, uid, live)
      ensures server.w.synced && err.None? ==>
        Held(old(server.w).store, server.w.store, TargetOf(clusterName, orphan, uid, live))
      ensures server.w.synced && err.None? && !deleted ==>
        || Measure(server.w.store, TargetOf(clusterName, orphan, uid, live)) <
             Measure(old(server.w).store, TargetOf(clusterName, orphan, uid, live))
        || Waiting(old(server.w), server.w, TargetOf(clusterName, orphan, uid, live))
      ensures server.w.synced && err.None? && Reclaimed(old(server.w).store, clusterName, orphan, uid, live) ==> deleted
      ensures err.None? && !deleted ==>
        || (gracePeriod > 0 && WakesInTime(server.w, orphan.resourceName, old(server.w).now, server.w.now, retryAfter))
        || (retryAfter == PollInterval() && Polls(old(server.w).store, server.w, orphan.resourceName, uid))
      ensures err.Some? ==> !deleted
      ensures err.Some? ==> server.w.refused > old(server.w).refused
    {
      ghost var w0 := server.w;
      ghost var p := PlanOf(w0, clusterName, orphan, uid, deletePvcs, live, since);
      var open;
      open, retryAfter, err := PassGate(orphan.resourceName, uid, live, deletePvcs, since, p.target);
      if Reclaimed(w0.store, clusterName, orphan, uid, live) {
        ReclaimedIsDone(w0.store, server.w.store, p, live);
      }
      if err.Some? || !open {
        return false, retryAfter, err;
      }
      ghost var w1 := server.w;
      StepsFit(p.target, live, deletePvcs);
      deleted, err := RunTeardown(orphan, uid, deletePvcs, clusterName, live, p);
      TeardownFollows(w0, w1, server.w, p.steps, p.target, err.None?);
      retryAfter := if err.None? && !deleted then PollInterval() else 0;
    }

    /** A group is polled only when no grace period is to be waited for. */
    ghost predicate Polls(s: Store, w: World, name: string, uid: string) {
      w.synced && gracePeriod > 0 ==> GateOpen(s, w, name, uid)
    }

    lemma OpenStays(s: Store, w: World, w': World, name: string, uid: string)
      requires GateOpen(s, w, name, uid)
      requires GateKept(w, w', name, gracePeriod) && StoreAged(w.store, w'.store)
      ensures GateOpen(s, w', name, uid)
    {
      if NoPrimary(w.store, name) {
        assert AgedAt(w.store, w'.store, Key(StatefulSet, name)) && AgedAt(w.store, w'.store, Key(ConfigMap, name));
      } else if NoForeignPrimary(s, name, uid) {
        var second :| MarkedAll(w.store, name, second) && w.now - second * SECOND >= gracePeriod;
        assert RipeKept(w, w', name, second, gracePeriod);
      }
    }

    /** Of a reclaimed role group every step is done, and none of its primaries stands in the gate. */
    lemma ReclaimedIsDone(s: Store, s': Store, p: Plan, live: set<string>)
      requires p.steps == Steps(p.target.name, live, p.deletePvcs) && StoreAged(s, s')
      requires NoneOwned(s, NamedKeys(p.target.name, DerivedNames(p.target.name, live)), p.target.uid)
      requires StepDone(ExtrasStep, s, p.target)
      ensures StepsDone(p.steps, s', p.target) && NoOwnedPrimary(s, p.target.name, p.target.uid)
    {
      NoneOwnedStepsDone(p.target.name, live, p.deletePvcs, s, p.target);
      StepsDoneStays(p.steps, s, s', p.target);
    }

    /** What the teardown adds to the gate it went through. */
    lemma TeardownFollows(w0: World, w1: World, w2: World, steps: seq<Step>, t: Target, clean: bool)
      requires Leads(w0, w1) && Confined(w0, w1, ScopeOf(steps)) && Quiet(w1, w2, ScopeOf(steps))
      requires w0.synced && clean ==> Unmarked(w1.store, t.name) <= Unmarked(w0.store, t.name)
      requires w0.synced && gracePeriod > 0 ==>
        GateKept(w0, w1, t.name, gracePeriod) && GateOpen(w0.store, w1, t.name, t.uid)
      ensures Leads(w0, w2) && Confined(w0, w2, ScopeOf(steps))
      ensures w0.synced && gracePeriod > 0 ==> GateKept(w0, w2, t.name, gracePeriod)
      ensures Polls(w0.store, w2, t.name, t.uid)
      ensures w0.synced && clean ==> Held(w0.store, w2.store, t)
      ensures w0.synced && clean && Pending(w1, w2, t) ==>
        Measure(w2.store, t) < Measure(w0.store, t) || Waiting(w0, w2, t)
    {
      LeadsTransitive(w0, w1, w2);
      ConfinedTransitive(w0, w1, w2, ScopeOf(steps));
      if w0.synced && gracePeriod > 0 {
        GateStays(w1, w2, t.name, gracePeriod);
        GateKeptTransitive(w0, w1, w2, t.name, gracePeriod);
        OpenStays(w0.store, w1, w2, t.name, t.uid);
      }
      if w0.synced && clean {
        UnmarkedShrinks(w1.store, w2.store, t.name);
        AllDrainsKept(w0.store, w2.store, t);
        StoreAgedOwn(t, w0.store, w2.store);
        MeasureDecreases(w0.store, w2.store, t);
        if Pending(w1, w2, t) {
          PendingFrom(w0, w1, w2, t);
        }
      }
    }

    /** The grace period of one orphan; without one the gate is always open. */
    method PassGate(name: string, uid: string, ghost live: set<string>, ghost deletePvcs: bool, ghost since: int, ghost t: Target)
      returns (open: bool, remaining: int, err: Option<CleanupError>)
      requires Valid(server.w) && t.name == name && t.uid == uid
      modifies server
      ensures Valid(server.w) && Leads(old(server.w), server.w)
      ensures Confined(old(server.w), server.w, ScopeOf(Steps(name, live, deletePvcs))) && server.w.log == old(server.w).log
      ensures server.w.synced && gracePeriod > 0 && InGrace(old(server.w), name, uid, since, gracePeriod) ==>
        InGrace(server.w, name, uid, since, gracePeriod) && (open ==> Waited(server.w.now, since, gracePeriod))
      ensures OnlyMarks(old(server.w).store, server.w.store, name)
      ensures server.w.synced && err.None? ==>
        Unmarked(server.w.store, name) <= Unmarked(old(server.w).store, name)
      ensures server.w.synced && gracePeriod > 0 ==> GateKept(old(server.w), server.w, name, gracePeriod)
      ensures server.w.synced && gracePeriod > 0 && open ==> GateOpen(old(server.w).store, server.w, name, uid)
      ensures server.w.synced && err.None? ==> Held(old(server.w).store, server.w.store, t)
      ensures server.w.synced && err.None? && !open ==>
        || Measure(server.w.store, t) < Measure(old(server.w).store, t)
        || GraceRuns(old(server.w), server.w, t)
      ensures server.w.synced && err.None? && NoOwnedPrimary(old(server.w).store, name, uid) ==> open
      ensures err.None? && !open ==> gracePeriod > 0 && WakesInTime(server.w, name, old(server.w).now, server.w.now, remaining)
      ensures err.Some? ==> !open
      ensures err.Some? ==> server.w.refused > old(server.w).refused
    {
      ghost var w0 := server.w;
      SameObjectsValid(w0, w0);
      if gracePeriod <= 0 {
        DriftQuiet(w0, w0, ScopeOf(Steps(name, live, deletePvcs)));
        GateMoves(w0, w0, t);
        return true, 0, None;
      }
      open, remaining, err := CheckOrMarkGrayDelete(name, uid, since, t);
      PrimariesInScope(name, live, deletePvcs);
      ConfinedWidens(w0, server.w, PrimaryScope(name), ScopeOf(Steps(name, live, deletePvcs)));
      if w0.synced && err.None? {
        GateMoves(w0, server.w, t);
      }
    }

    lemma GateMoves(w: World, w': World, t: Target)
      requires Leads(w, w') && Unmarked(w'.store, t.name) <= Unmarked(w.store, t.name)
      ensures w.synced ==> Held(w.store, w'.store, t)
      ensures w.synced && (Advanced(t, w.store, w'.store) || Unmarked(w'.store, t.name) < Unmarked(w.store, t.name)) ==>
        Measure(w'.store, t) < Measure(w.store, t)
    {
      if w.synced {
        AllDrainsKept(w.store, w'.store, t);
        StoreAgedOwn(t, w.store, w'.store);
        MeasureDecreases(w.store, w'.store, t);
      }
    }

    /** The teardown behind the gate: the steps in order, then the confirmation. */
    method RunTeardown(orphan: OrphanRef, uid: string, deletePvcs: bool, clusterName: string, live: set<string>, ghost p: Plan)
      returns (deleted: bool, err: Option<CleanupError>)
      requires Valid(server.w)
      requires Follows(p, clusterName, orphan, uid) && p.target == TargetOf(clusterName, orphan, uid, live)
      requires p.steps == Steps(orphan.resourceName, live, deletePvcs) && p.deletePvcs == deletePvcs
      requires p.current == server.w.synced && (p.current ==> StoreAged(p.from, server.w.store))
      requires p.stable ==> NamesStable(server.w)
      requires p.gated ==> Waited(server.w.now, p.since, p.grace)
      modifies server
      ensures Valid(server.w) && Quiet(old(server.w), server.w, ScopeOf(p.steps))
      ensures AllLawful(|old(server.w).log|, server.w.log, p)
      ensures (hasApiReader || server.w.synced) && deleted ==> Reclaimed(server.w.store, clusterName, orphan, uid, live)
      ensures server.w.synced && err.None? && !deleted ==>
        !StepsDone(p.steps, old(server.w).store, p.target) && Pending(old(server.w), server.w, p.target)
      ensures err.Some? ==> !deleted
      ensures err.Some? ==> server.w.refused > old(server.w).refused
    {
      ghost var w0 := server.w;
      var name := orphan.resourceName;
      var steps := Steps(name, live, deletePvcs);
      ghost var scope := ScopeOf(steps);
      assert steps[2] == ExtrasStep;
      var state;
      state, err := RunSteps(steps, clusterName, orphan, uid, p);
      if err.Some? || state.InFlight? {
        return false, err;
      }
      ghost var w1 := server.w;
      if w1.synced {
        StepsDoneNoneOwned(name, live, deletePvcs, w1.store, p.target);
      }
      state, err := ConfirmRoleGroupReclaimed(name, uid, DerivedNames(name, live));
      DriftQuiet(w1, server.w, scope);
      QuietTransitive(w0, w1, server.w, scope);
      if err.Some? || state.InFlight? {
        return false, err;
      }
      if hasApiReader || server.w.synced {
        StepDoneStays(ExtrasStep, w1.store, server.w.store, p.target);
      }
      return true, None;
    }
  }
}
