/**
 A Kubernetes API server as the orphan cleaner sees it: a store of objects, a clock, a cache that
 may lag, and an environment that acts between any two calls.

 Every call first consumes one Turn of a script. The turn says what the environment does before the
 call is served, whether the call fails (and whether its effect landed all the same), and what a
 lagging cache answers. A statement about every script is therefore a statement about every
 interleaving, every fault and every crash point.
 */
module ApiServer {
  import opened Wrappers

  const SECOND: int := 1_000_000_000

  datatype Kind =
    | PodDisruptionBudget
    | StatefulSet
    | ConfigMap
    | Service
    | PersistentVolumeClaim
    | Extra(gvk: nat)

  datatype Key = Key(kind: Kind, name: string)

  /** An annotation meant to hold an RFC 3339 time: whole seconds, or text that does not parse. */
  datatype Stamp = At(second: int) | Garbled

  datatype Obj = Obj(
    version: nat,
    controller: Option<string>,
    labels: map<string, string>,
    pending: Option<Stamp>,
    drain: Option<Stamp>,
    specReplicas: Option<nat>,
    statusReplicas: nat,
    selector: map<string, string>,
    claimTemplates: nat,
    finalizers: bool,
    deleting: bool)

  type Store = map<Key, Obj>

  /** A deletion that took effect, with the store, the clock and what had been seen just before it did. */
  datatype Deletion = Deletion(key: Key, store: Store, now: int, seen: set<(Key, Obj)>)

  datatype EnvStep =
    | Tick(nanos: nat)
    | PodsObserved(name: string, replicas: nat)
    | FinalizersCleared(key: Key)

  datatype Fault = TooManyRequests | Conflict | Unavailable | Crash

  /** The caller never learned the outcome, so the request may have taken effect. */
  predicate Lost(fault: Fault) {
    fault.Unavailable? || fault.Crash?
  }

  datatype CacheAnswer = Latest | Missing | Version(obj: Obj)

  datatype Turn = Turn(
    env: seq<EnvStep>,
    fault: Option<Fault>,
    applied: bool,
    cached: CacheAnswer,
    listed: Option<Store>)

  /** `seen` holds every version of every object that ever existed; a lagging cache answers from it.
      `synced` says that the cache never lags. `log` records deletions, `refused` counts the requests
      that failed. */
  datatype World = World(
    store: Store,
    now: int,
    seen: set<(Key, Obj)>,
    nextVersion: nat,
    synced: bool,
    script: seq<Turn>,
    down: bool,
    refused: nat,
    log: seq<Deletion>)

  predicate Matches(labels: map<string, string>, selector: map<string, string>) {
    forall k :: k in selector ==> k in labels && labels[k] == selector[k]
  }

  function Selected(s: Store, kind: Kind, selector: map<string, string>): (items: Store)
    ensures forall k :: k in items <==> k in s && k.kind == kind && Matches(s[k].labels, selector)
    ensures forall k :: k in items ==> items[k] == s[k]
  {
    map k | k in s && k.kind == kind && Matches(s[k].labels, selector) :: s[k]
  }

  /** The objects of one kind that carry a label, whatever its value. */
  function Labelled(s: Store, kind: Kind, labelKey: string): (items: Store)
    ensures forall k :: k in items <==> k in s && k.kind == kind && labelKey in s[k].labels
    ensures forall k :: k in items ==> items[k] == s[k]
  {
    map k | k in s && k.kind == kind && labelKey in s[k].labels :: s[k]
  }

  // Facts about a whole store are stated key by key, each under a name of its own; a proof that
  // needs the fact for one key says so.

  /** Every current object has been seen, and outlives its deletion only behind a finalizer. */
  ghost predicate KeyValid(w: World, k: Key) {
    k in w.store ==> (k, w.store[k]) in w.seen && (w.store[k].deleting ==> w.store[k].finalizers)
  }

  /** Version numbers identify versions. */
  ghost predicate VersionValid(w: World, k: Key, o: Obj) {
    (k, o) in w.seen ==>
      && o.version < w.nextVersion
      && (k in w.store && o.version == w.store[k].version ==> o == w.store[k])
  }

  ghost predicate Valid(w: World) {
    && (forall k :: KeyValid(w, k))
    && (forall k, o :: VersionValid(w, k, o))
  }

  ghost predicate SameController(w: World, k: Key, o: Obj) {
    (k, o) in w.seen && k in w.store ==> o.controller == w.store[k].controller
  }

  /** No foreign object takes over a name: all versions seen under one name have one controller. */
  ghost predicate NamesStable(w: World) {
    forall k, o :: SameController(w, k, o)
  }

  // ---------------------------------------------------------------------------------------------
  // What the environment may do
  // ---------------------------------------------------------------------------------------------

  /** One object under the environment alone: its status moves, its finalizers clear. Pods only
      leave once the replica count asked for is zero. */
  ghost predicate Drifted(o: Obj, o': Obj) {
    && o' == o.(version := o'.version, statusReplicas := o'.statusReplicas, finalizers := o'.finalizers)
    && o.version <= o'.version
    && (o.specReplicas == Some(0) ==> o'.statusReplicas <= o.statusReplicas)
    && (o'.finalizers ==> o.finalizers)
    && (o.deleting && o.finalizers ==> o'.finalizers)
  }

  /** The environment creates nothing, and an object left only if it was already terminating. */
  ghost predicate DriftedAt(s: Store, s': Store, k: Key) {
    if k in s' then k in s && Drifted(s[k], s'[k])
    else k in s ==> s[k].deleting
  }

  ghost predicate Drifts(w: World, w': World) {
    && w.now <= w'.now
    && w'.synced == w.synced
    && w'.log == w.log
    && w.seen <= w'.seen
    && w.refused <= w'.refused
    && (forall k :: DriftedAt(w.store, w'.store, k))
    && (NamesStable(w) ==> NamesStable(w'))
  }

  lemma DriftsTransitive(a: World, b: World, c: World)
    requires Drifts(a, b) && Drifts(b, c)
    ensures Drifts(a, c)
  {
    forall k
      ensures DriftedAt(a.store, c.store, k)
    {
      assert DriftedAt(a.store, b.store, k) && DriftedAt(b.store, c.store, k);
    }
  }

  function Put(w: World, key: Key, o: Obj): World {
    var o' := o.(version := w.nextVersion);
    w.(store := w.store[key := o'], seen := w.seen + {(key, o')}, nextVersion := w.nextVersion + 1)
  }

  function Remove(w: World, key: Key): World {
    w.(store := w.store - {key})
  }

  function EnvEffect(w: World, step: EnvStep): World {
    match step
    case Tick(nanos) => w.(now := w.now + nanos)
    case PodsObserved(name, replicas) =>
      var key := Key(StatefulSet, name);
      if key in w.store && (w.store[key].specReplicas == Some(0) ==> replicas <= w.store[key].statusReplicas)
      then Put(w, key, w.store[key].(statusReplicas := replicas))
      else w
    case FinalizersCleared(key) =>
      if key !in w.store then w
      else if w.store[key].deleting then Remove(w, key)
      else Put(w, key, w.store[key].(finalizers := false))
  }

  lemma SameObjectsValid(w: World, w': World)
    requires Valid(w) && w'.store == w.store && w'.seen == w.seen && w'.nextVersion == w.nextVersion
    ensures Valid(w') && (NamesStable(w) ==> NamesStable(w'))
    ensures forall k :: DriftedAt(w.store, w'.store, k)
  {
    forall k
      ensures KeyValid(w', k)
    {
      assert KeyValid(w, k);
    }
    forall k, p
      ensures VersionValid(w', k, p)
    {
      assert VersionValid(w, k, p);
    }
    if NamesStable(w) {
      forall k, p
        ensures SameController(w', k, p)
      {
        assert SameController(w, k, p);
      }
    }
  }

  lemma PutValid(w: World, key: Key, o: Obj)
    requires Valid(w) && key in w.store && o.controller == w.store[key].controller
    requires o.deleting ==> o.finalizers
    ensures Valid(Put(w, key, o))
    ensures NamesStable(w) ==> NamesStable(Put(w, key, o))
  {
    var w' := Put(w, key, o);
    forall k
      ensures KeyValid(w', k)
    {
      assert KeyValid(w, k);
    }
    forall k, p
      ensures VersionValid(w', k, p)
    {
      assert VersionValid(w, k, p) && KeyValid(w, k);
      if k in w.store {
        assert VersionValid(w, k, w.store[k]);
      }
    }
    if NamesStable(w) {
      forall k, p
        ensures SameController(w', k, p)
      {
        assert SameController(w, k, p);
      }
    }
  }

  lemma RemoveValid(w: World, key: Key)
    requires Valid(w)
    ensures Valid(Remove(w, key))
    ensures NamesStable(w) ==> NamesStable(Remove(w, key))
  {
    var w' := Remove(w, key);
    forall k
      ensures KeyValid(w', k)
    {
      assert KeyValid(w, k);
    }
    forall k, p
      ensures VersionValid(w', k, p)
    {
      assert VersionValid(w, k, p);
    }
    if NamesStable(w) {
      forall k, p
        ensures SameController(w', k, p)
      {
        assert SameController(w, k, p);
      }
    }
  }

  lemma EnvEffectDrifts(w: World, step: EnvStep)
    requires Valid(w)
    ensures Valid(EnvEffect(w, step)) && Drifts(w, EnvEffect(w, step))
  {
    var w' := EnvEffect(w, step);
    match step {
      case Tick(_) =>
        SameObjectsValid(w, w');
      case PodsObserved(name, replicas) =>
        var key := Key(StatefulSet, name);
        if w' != w {
          assert KeyValid(w, key) && VersionValid(w, key, w.store[key]);
          PutValid(w, key, w.store[key].(statusReplicas := replicas));
        }
      case FinalizersCleared(key) =>
        if key in w.store && w.store[key].deleting {
          RemoveValid(w, key);
        } else if key in w.store {
          assert KeyValid(w, key) && VersionValid(w, key, w.store[key]);
          PutValid(w, key, w.store[key].(finalizers := false));
        }
    }
    forall k
      ensures DriftedAt(w.store, w'.store, k)
    {
    }
  }

  // ---------------------------------------------------------------------------------------------
  // What a write does
  // ---------------------------------------------------------------------------------------------

  function Logged(w: World, key: Key): World {
    w.(log := w.log + [Deletion(key, w.store, w.now, w.seen)])
  }

  /** A deletion is recorded, and removes the object unless a finalizer holds it. */
  function DeleteEffect(w: World, key: Key): World
    requires key in w.store
  {
    var o := w.store[key];
    if !o.finalizers then Remove(Logged(w, key), key)
    else if o.deleting then Logged(w, key)
    else Put(Logged(w, key), key, o.(deleting := true))
  }

  lemma DeleteEffectValid(w: World, key: Key)
    requires Valid(w) && key in w.store
    ensures Valid(DeleteEffect(w, key))
    ensures NamesStable(w) ==> NamesStable(DeleteEffect(w, key))
  {
    SameObjectsValid(w, Logged(w, key));
    var o := w.store[key];
    if !o.finalizers {
      RemoveValid(Logged(w, key), key);
    } else if !o.deleting {
      PutValid(Logged(w, key), key, o.(deleting := true));
    }
  }

  datatype Reply = Found(obj: Obj) | NotFound | Failed(fault: Fault)
  datatype ListReply = Listed(items: Store) | ListFailed(fault: Fault)
  datatype WriteReply = Done | Gone | Refused(fault: Fault)

  class Server {
    var w: World

    constructor (w: World)
      ensures this.w == w
    {
      this.w := w;
    }

    /** Takes the next turn of the script and lets the environment act. */
    method Next() returns (turn: Turn)
      requires Valid(w)
      modifies this
      ensures Valid(w) && Drifts(old(w), w) && w.refused == old(w).refused
    {
      turn := Turn([], None, false, Latest, None);
      SameObjectsValid(w, w);
      if w.script != [] {
        turn := w.script[0];
        SameObjectsValid(w, w.(script := w.script[1..]));
        w := w.(script := w.script[1..]);
      }
      var i := 0;
      while i < |turn.env|
        invariant 0 <= i <= |turn.env|
        invariant Valid(w) && Drifts(old(w), w) && w.refused == old(w).refused
      {
        EnvEffectDrifts(w, turn.env[i]);
        DriftsTransitive(old(w), w, EnvEffect(w, turn.env[i]));
        w := EnvEffect(w, turn.env[i]);
        i := i + 1;
      }
      if w.down {
        turn := turn.(fault := Some(Crash), applied := false);
      } else if turn.fault == Some(Crash) {
        SameObjectsValid(w, w.(down := true));
        DriftsTransitive(old(w), w, w.(down := true));
        w := w.(down := true);
      }
    }

    /** Counts a request that failed. */
    method Refuse()
      requires Valid(w)
      modifies this
      ensures Valid(w) && Drifts(old(w), w) && w == old(w).(refused := old(w).refused + 1)
    {
      SameObjectsValid(w, w.(refused := w.refused + 1));
      w := w.(refused := w.refused + 1);
    }

    /** Takes a turn; a request that is refused in it is counted. */
    method Request() returns (turn: Turn)
      requires Valid(w)
      modifies this
      ensures Valid(w) && Drifts(old(w), w)
      ensures turn.fault.Some? ==> w.refused > old(w).refused
    {
      turn := Next();
      if turn.fault.Some? {
        ghost var between := w;
        Refuse();
        DriftsTransitive(old(w), between, w);
      }
    }

    /** Reads the clock. */
    method Now() returns (now: int)
      requires Valid(w)
      modifies this
      ensures Valid(w) && Drifts(old(w), w) && now == w.now
    {
      var _ := Next();
      now := w.now;
    }

    /** Reads one object, through the cache or, when `direct`, from the server itself. */
    method Get(key: Key, direct: bool) returns (reply: Reply)
      requires Valid(w)
      modifies this
      ensures Valid(w) && Drifts(old(w), w)
      ensures reply.Found? ==> (key, reply.obj) in w.seen
      ensures direct || w.synced ==> (reply.Found? ==> key in w.store && w.store[key] == reply.obj)
      ensures direct || w.synced ==> (reply.NotFound? ==> key !in w.store)
      ensures reply.Failed? ==> w.refused > old(w).refused
    {
      var turn := Request();
      if turn.fault.Some? {
        return Failed(turn.fault.value);
      }
      if !direct && !w.synced {
        if turn.cached.Missing? {
          return NotFound;
        }
        if turn.cached.Version? && (key, turn.cached.obj) in w.seen {
          return Found(turn.cached.obj);
        }
      }
      assert KeyValid(w, key);
      reply := if key in w.store then Found(w.store[key]) else NotFound;
    }

    /** Lists the objects of one kind whose labels match. */
    method List(kind: Kind, selector: map<string, string>, direct: bool) returns (reply: ListReply)
      requires Valid(w)
      modifies this
      ensures Valid(w) && Drifts(old(w), w)
      ensures reply.Listed? ==> forall k :: k in reply.items ==>
        k.kind == kind && Matches(reply.items[k].labels, selector) && (k, reply.items[k]) in w.seen
      ensures reply.Listed? && (direct || w.synced) ==> reply.items == Selected(w.store, kind, selector)
      ensures reply.ListFailed? ==> w.refused > old(w).refused
    {
      var turn := Request();
      if turn.fault.Some? {
        return ListFailed(turn.fault.value);
      }
      if !direct && !w.synced && turn.listed.Some? {
        var cache := turn.listed.value;
        return Listed(Selected(map k | k in cache && (k, cache[k]) in w.seen :: cache[k], kind, selector));
      }
      reply := Listed(Selected(w.store, kind, selector));
      forall k | k in reply.items
        ensures (k, reply.items[k]) in w.seen
      {
        assert KeyValid(w, k);
      }
    }

    /** Lists, through the cache, the objects of one kind that carry a label. */
    method ListLabelled(kind: Kind, labelKey: string) returns (reply: ListReply)
      requires Valid(w)
      modifies this
      ensures Valid(w) && Drifts(old(w), w)
      ensures reply.Listed? ==> forall k :: k in reply.items ==>
        k.kind == kind && labelKey in reply.items[k].labels && (k, reply.items[k]) in w.seen
      ensures reply.Listed? && w.synced ==> reply.items == Labelled(w.store, kind, labelKey)
      ensures reply.ListFailed? ==> w.refused > old(w).refused
    {
      var turn := Request();
      if turn.fault.Some? {
        return ListFailed(turn.fault.value);
      }
      if !w.synced && turn.listed.Some? {
        var cache := turn.listed.value;
        return Listed(Labelled(map k | k in cache && (k, cache[k]) in w.seen :: cache[k], kind, labelKey));
      }
      reply := Listed(Labelled(w.store, kind, labelKey));
      forall k | k in reply.items
        ensures (k, reply.items[k]) in w.seen
      {
        assert KeyValid(w, k);
      }
    }

    /** Deletes by name. `at` is the world in which the request was served. */
    method Delete(key: Key) returns (reply: WriteReply, ghost at: World)
      requires Valid(w)
      modifies this
      ensures Valid(w) && Valid(at) && Drifts(old(w), at)
      ensures w == at || (key in at.store && w == DeleteEffect(at, key))
      ensures reply.Done? ==> key in at.store && w == DeleteEffect(at, key)
      ensures reply.Gone? ==> w == at && key !in at.store
      ensures reply.Refused? && !Lost(reply.fault) ==> w == at
      ensures reply.Refused? ==> w.refused > old(w).refused
    {
      var turn := Request();
      at := w;
      if key !in w.store {
        return if turn.fault.Some? then Refused(turn.fault.value) else Gone, at;
      }
      if turn.fault.None? || (turn.applied && Lost(turn.fault.value)) {
        DeleteEffectValid(w, key);
        w := DeleteEffect(w, key);
      }
      reply := if turn.fault.Some? then Refused(turn.fault.value) else Done;
    }

    /** Replaces `base` by `next` if `base` is still the current version. */
    method Update(key: Key, base: Obj, next: Obj) returns (reply: WriteReply, ghost at: World)
      requires Valid(w) && (key, base) in w.seen && next.controller == base.controller
      requires next.deleting == base.deleting && next.finalizers == base.finalizers
      modifies this
      ensures Valid(w) && Valid(at) && Drifts(old(w), at)
      ensures w == at || (key in at.store && at.store[key] == base && w == Put(at, key, next))
      ensures reply.Done? ==> key in at.store && at.store[key] == base && w == Put(at, key, next)
      ensures reply.Gone? ==> w == at && key !in at.store
      ensures reply.Refused? && !Lost(reply.fault) ==> w == at
      ensures !reply.Done? ==> w.refused > old(w).refused
    {
      var turn := Request();
      if turn.fault.None? && (key !in w.store || w.store[key].version != base.version) {
        ghost var between := w;
        Refuse();
        DriftsTransitive(old(w), between, w);
      }
      at := w;
      if key !in w.store {
        return if turn.fault.Some? then Refused(turn.fault.value) else Gone, at;
      }
      if w.store[key].version != base.version {
        return Refused(if turn.fault.Some? then turn.fault.value else Conflict), at;
      }
      assert VersionValid(w, key, base) && KeyValid(w, key);
      if turn.fault.None? || (turn.applied && Lost(turn.fault.value)) {
        PutValid(w, key, next);
        w := Put(w, key, next);
      }
      reply := if turn.fault.Some? then Refused(turn.fault.value) else Done;
    }
  }
}
