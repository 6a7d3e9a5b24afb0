/** A Secret whose values are generated once. */
module GeneratedSecret {
  // Any number of reconciles fill it concurrently, over stale reads, conflicts, lost replies and crashes.
  // Every call is a process that takes single steps against the API server; a run is any list of steps of
  // any number of processes.

  import opened Wrappers
  import Ordering

  datatype Secret = Secret(
    version: nat,
    data: map<string, string>,
    labels: map<string, string>,
    annotations: map<string, string>,
    controller: Option<string>,
    kind: string)

  /** What a call wants of the Secret; `generated` holds the values it would fill in. */
  datatype Wanted = Wanted(
    owner: string,
    generated: map<string, string>,
    labels: map<string, string>,
    annotations: map<string, string>,
    kind: string)

  /** Where a call is: about to start, holding what it read, about to read again, or through. */
  datatype Phase =
    | Idle
    | Holding(base: Option<Secret>)
    | Beaten
    | Returned(secret: Secret)
    | Failed

  /** The Secret, every version of it there ever was, and the calls in progress. */
  datatype System = System(store: Option<Secret>, seen: set<Secret>, nextVersion: nat, calls: map<nat, Phase>)

  datatype Action =
    | Read(call: nat, cached: Option<Secret>)
    | Write(call: nat, wanted: Wanted)
    | ReadAgain(call: nat, cached: Option<Secret>)
    | Crash(call: nat)

  function PhaseOf(s: System, call: nat): Phase {
    if call in s.calls then s.calls[call] else Idle
  }

  function Moved(s: System, call: nat, phase: Phase): System {
    s.(calls := s.calls[call := phase])
  }

  /** The values already there stay; missing ones are filled in. */
  function FilledIn(data: map<string, string>, generated: map<string, string>): map<string, string> {
    generated + data
  }

  /** The object a call would write, unless another controller owns it. */
  function Mutated(base: Option<Secret>, wanted: Wanted): Option<Secret> {
    match base
    case None =>
      Some(Secret(0, wanted.generated, wanted.labels, wanted.annotations, Some(wanted.owner),
                  if wanted.kind == "" then "Opaque" else wanted.kind))
    case Some(b) =>
      if b.controller.Some? && b.controller != Some(wanted.owner) then None
      else Some(b.(data := FilledIn(b.data, wanted.generated), labels := wanted.labels,
                   annotations := b.annotations + wanted.annotations, controller := Some(wanted.owner)))
  }

  function Stored(s: System, secret: Secret): System {
    var o := secret.(version := s.nextVersion);
    s.(store := Some(o), seen := s.seen + {o}, nextVersion := s.nextVersion + 1)
  }

  /** A write: create-if-absent, or compare-and-swap on the version that was read. */
  function WriteStep(s: System, call: nat, base: Option<Secret>, wanted: Wanted): System {
    match Mutated(base, wanted)
    case None => Moved(s, call, Failed)
    case Some(next) =>
      if base == Some(next) then Moved(s, call, Returned(next))
      else if base.None? then
        if s.store.Some? then Moved(s, call, Beaten)
        else Moved(Stored(s, next), call, Returned(next.(version := s.nextVersion)))
      else if s.store.None? || s.store.value.version != next.version then Moved(s, call, Failed)
      else Moved(Stored(s, next), call, Returned(next.(version := s.nextVersion)))
  }

  /** A reader sees some version there once was, or none. */
  predicate Readable(s: System, cached: Option<Secret>) {
    cached.Some? ==> cached.value in s.seen
  }

  /** One step; a step that cannot be taken changes nothing. */
  function Step(s: System, a: Action): System {
    match a
    case Read(call, cached) =>
      if PhaseOf(s, call).Idle? && Readable(s, cached) then Moved(s, call, Holding(cached)) else s
    case Write(call, wanted) =>
      var phase := PhaseOf(s, call);
      if phase.Holding? then WriteStep(s, call, phase.base, wanted) else s
    case ReadAgain(call, cached) =>
      if !PhaseOf(s, call).Beaten? || !Readable(s, cached) then s
      else Moved(s, call, if cached.Some? then Returned(cached.value) else Failed)
    case Crash(call) => Moved(s, call, Idle)
  }

  function Run(s: System, actions: seq<Action>): System
    decreases |actions|
  {
    if actions == [] then s else Run(Step(s, actions[0]), actions[1..])
  }

  lemma {:induction false} RunConcat(s: System, a: seq<Action>, b: seq<Action>)
    ensures Run(s, a + b) == Run(Run(s, a), b)
    decreases |a|
  {
    if a == [] {
      assert a + b == b;
    } else {
      assert (a + b)[1..] == a[1..] + b;
      RunConcat(Step(s, a[0]), a[1..], b);
    }
  }

  // ---------------------------------------------------------------------------------------------
  // What every run keeps
  // ---------------------------------------------------------------------------------------------

  /** Every key of `a` has the same value in `b`. */
  predicate Within(a: map<string, string>, b: map<string, string>) {
    forall k :: k in a ==> k in b && b[k] == a[k]
  }

  /** Everything ever stored is still stored. */
  ghost predicate Kept(s: System, was: Secret) {
    was in s.seen ==>
      && was.version < s.nextVersion
      && s.store.Some?
      && (was.version == s.store.value.version ==> was == s.store.value)
      && Within(was.data, s.store.value.data)
  }

  predicate PhaseKept(s: System, call: nat) {
    match PhaseOf(s, call)
    case Holding(base) => base.Some? ==> base.value in s.seen
    case Returned(secret) => secret in s.seen
    case _ => true
  }

  ghost predicate Inv(s: System) {
    && (s.store.Some? ==> s.store.value in s.seen)
    && (forall was :: Kept(s, was))
    && (forall call :: PhaseKept(s, call))
  }

  const INITIAL: System := System(None, {}, 0, map[])

  /** The store only gains keys; a key it has keeps its value. */
  predicate Grows(s: System, s': System) {
    && s.seen <= s'.seen
    && (s.store.Some? ==> s'.store.Some? && Within(s.store.value.data, s'.store.value.data))
  }

  lemma MovedInv(s: System, call: nat, phase: Phase)
    requires Inv(s)
    requires phase.Holding? && phase.base.Some? ==> phase.base.value in s.seen
    requires phase.Returned? ==> phase.secret in s.seen
    ensures Inv(Moved(s, call, phase)) && Grows(s, Moved(s, call, phase))
  {
    var s' := Moved(s, call, phase);
    forall was
      ensures Kept(s', was)
    {
      assert Kept(s, was);
    }
    forall c
      ensures PhaseKept(s', c)
    {
      assert PhaseKept(s, c);
    }
  }

  lemma StoredInv(s: System, secret: Secret)
    requires Inv(s)
    requires s.store.Some? ==> Within(s.store.value.data, secret.data)
    ensures Inv(Stored(s, secret)) && Grows(s, Stored(s, secret))
  {
    var s' := Stored(s, secret);
    forall was
      ensures Kept(s', was)
    {
      assert Kept(s, was);
    }
    forall c
      ensures PhaseKept(s', c)
    {
      assert PhaseKept(s, c);
    }
  }

  lemma WriteStepInv(s: System, call: nat, base: Option<Secret>, wanted: Wanted)
    requires Inv(s) && (base.Some? ==> base.value in s.seen)
    ensures Inv(WriteStep(s, call, base, wanted)) && Grows(s, WriteStep(s, call, base, wanted))
  {
    var mutated := Mutated(base, wanted);
    if mutated.None? {
      MovedInv(s, call, Failed);
    } else {
      var next := mutated.value;
      if base == Some(next) {
        MovedInv(s, call, Returned(next));
      } else if base.None? && s.store.Some? {
        MovedInv(s, call, Beaten);
      } else if base.Some? && (s.store.None? || s.store.value.version != next.version) {
        MovedInv(s, call, Failed);
      } else {
        if base.Some? {
          assert Kept(s, base.value);
        }
        StoredInv(s, next);
        MovedInv(Stored(s, next), call, Returned(next.(version := s.nextVersion)));
      }
    }
  }

  lemma StepInv(s: System, a: Action)
    requires Inv(s)
    ensures Inv(Step(s, a)) && Grows(s, Step(s, a))
  {
    assert PhaseKept(s, a.call);
    match a
    case Read(call, cached) =>
      if PhaseOf(s, call).Idle? && Readable(s, cached) {
        MovedInv(s, call, Holding(cached));
      }
    case Write(call, wanted) =>
      if PhaseOf(s, call).Holding? {
        WriteStepInv(s, call, PhaseOf(s, call).base, wanted);
      }
    case ReadAgain(call, cached) =>
      if PhaseOf(s, call).Beaten? && Readable(s, cached) {
        MovedInv(s, call, if cached.Some? then Returned(cached.value) else Failed);
      }
    case Crash(call) => MovedInv(s, call, Idle);
  }

  /** In every run of any number of calls, a stored value never changes and only missing keys are ever
      filled. */
  lemma {:induction false} RunGrows(s: System, actions: seq<Action>)
    requires Inv(s)
    ensures Inv(Run(s, actions)) && Grows(s, Run(s, actions))
    decreases |actions|
  {
    if actions != [] {
      StepInv(s, actions[0]);
      RunGrows(Step(s, actions[0]), actions[1..]);
    }
  }

  predicate Agree(a: map<string, string>, b: map<string, string>) {
    forall k :: k in a && k in b ==> a[k] == b[k]
  }

  /** Two calls of one run that both return a key return the same value for it, whenever they returned
      and whatever happened in between. */
  lemma Agreement(before: seq<Action>, between: seq<Action>, first: nat, second: nat)
    requires var s, s' := Run(INITIAL, before), Run(INITIAL, before + between);
      PhaseOf(s, first).Returned? && PhaseOf(s', second).Returned?
    ensures var s, s' := Run(INITIAL, before), Run(INITIAL, before + between);
      Agree(PhaseOf(s, first).secret.data, PhaseOf(s', second).secret.data)
  {
    var s := Run(INITIAL, before);
    RunConcat(INITIAL, before, between);
    RunGrows(INITIAL, before);
    RunGrows(s, between);
    var s' := Run(s, between);
    assert PhaseKept(s, first) && PhaseKept(s', second);
    assert Kept(s', PhaseOf(s, first).secret) && Kept(s', PhaseOf(s', second).secret);
  }

  // ---------------------------------------------------------------------------------------------
  // Which keys the Secret has
  // ---------------------------------------------------------------------------------------------

  /** Every version there ever was has the key. */
  ghost predicate AllHave(s: System, k: string) {
    forall was :: was in s.seen ==> k in was.data
  }

  /** A write that takes effect carries the key: it was generated, or it was there already. */
  ghost predicate Covers(s: System, a: Action, k: string) {
    a.Write? && Step(s, a).store != s.store ==>
      var base := PhaseOf(s, a.call).base;
      k in a.wanted.generated || (base.Some? && k in base.value.data)
  }

  ghost predicate AllCover(s: System, actions: seq<Action>, k: string)
    decreases |actions|
  {
    actions != [] ==> Covers(s, actions[0], k) && AllCover(Step(s, actions[0]), actions[1..], k)
  }

  lemma StepCovers(s: System, a: Action, k: string)
    requires Inv(s)
    ensures AllHave(Step(s, a), k) <==> AllHave(s, k) && Covers(s, a, k)
  {
    StepInv(s, a);
    var s' := Step(s, a);
    if a.Write? && s'.store != s.store {
      var mutated := Mutated(PhaseOf(s, a.call).base, a.wanted);
      assert s'.seen == s.seen + {s'.store.value} && s'.store.value.data == mutated.value.data;
    } else if a.Write? && PhaseOf(s, a.call).Holding? {
      UnstoredSeen(s, a.call, PhaseOf(s, a.call).base, a.wanted);
    }
  }

  lemma UnstoredSeen(s: System, call: nat, base: Option<Secret>, wanted: Wanted)
    requires Inv(s) && WriteStep(s, call, base, wanted).store == s.store
    ensures WriteStep(s, call, base, wanted).seen == s.seen
  {
    assert s.store.Some? ==> Kept(s, s.store.value);
  }

  /** In every run, every version of the Secret has the key exactly when every write that took effect
      carried it. */
  lemma {:induction false} KeyEverywhere(s: System, actions: seq<Action>, k: string)
    requires Inv(s)
    ensures AllHave(Run(s, actions), k) <==> AllHave(s, k) && AllCover(s, actions, k)
    decreases |actions|
  {
    if actions != [] {
      StepCovers(s, actions[0], k);
      StepInv(s, actions[0]);
      KeyEverywhere(Step(s, actions[0]), actions[1..], k);
    }
  }

  /** What a call returns has the key when every write so far carried it. */
  lemma ReturnedHasKey(s: System, actions: seq<Action>, call: nat, k: string)
    requires Inv(s) && AllHave(s, k) && AllCover(s, actions, k)
    requires PhaseOf(Run(s, actions), call).Returned?
    ensures k in PhaseOf(Run(s, actions), call).secret.data
  {
    KeyEverywhere(s, actions, k);
    RunGrows(s, actions);
    assert PhaseKept(Run(s, actions), call);
  }

  // ---------------------------------------------------------------------------------------------
  // Where what is stored comes from
  // ---------------------------------------------------------------------------------------------

  /** The write was asked for this very value under the key. */
  predicate Gives(a: Action, k: string, v: string) {
    a.Write? && k in a.wanted.generated && a.wanted.generated[k] == v
  }

  ghost predicate Given(actions: seq<Action>, k: string, v: string) {
    exists i :: 0 <= i < |actions| && Gives(actions[i], k, v)
  }

  ghost predicate Held(s: System, k: string, v: string) {
    exists was :: was in s.seen && k in was.data && was.data[k] == v
  }

  lemma StepHolds(s: System, a: Action, k: string, v: string)
    requires Inv(s) && Held(Step(s, a), k, v)
    ensures Held(s, k, v) || Gives(a, k, v)
  {
    StepInv(s, a);
    var was :| was in Step(s, a).seen && k in was.data && was.data[k] == v;
    if was !in s.seen {
      assert PhaseKept(s, a.call);
      var base := PhaseOf(s, a.call).base;
      assert was.data == Mutated(base, a.wanted).value.data;
    }
  }

  /** Every value in any version of the Secret was asked for, under its key, by some write. */
  lemma {:induction false} ValuesAreGiven(s: System, actions: seq<Action>, k: string, v: string)
    requires Inv(s) && Held(Run(s, actions), k, v)
    ensures Held(s, k, v) || Given(actions, k, v)
    decreases |actions|
  {
    if actions != [] {
      StepInv(s, actions[0]);
      ValuesAreGiven(Step(s, actions[0]), actions[1..], k, v);
      if Given(actions[1..], k, v) {
        var i :| 0 <= i < |actions[1..]| && Gives(actions[1..][i], k, v);
        assert Gives(actions[i + 1], k, v);
      } else {
        StepHolds(s, actions[0], k, v);
      }
    }
  }

  /** Metadata of a version that a write produced. */
  predicate Dresses(a: Action, was: Secret) {
    && a.Write?
    && was.labels == a.wanted.labels
    && was.controller == Some(a.wanted.owner)
    && (forall k :: k in a.wanted.annotations ==> k in was.annotations && was.annotations[k] == a.wanted.annotations[k])
  }

  ghost predicate Dressed(actions: seq<Action>, was: Secret) {
    exists i :: 0 <= i < |actions| && Dresses(actions[i], was)
  }

  lemma StepDresses(s: System, a: Action, was: Secret)
    requires Inv(s) && was in Step(s, a).seen && was !in s.seen
    ensures Dresses(a, was)
  {
    assert PhaseKept(s, a.call);
  }

  /** Nobody takes a Secret over from its controller, and its type, which the API server would not let
      anybody change, never changes. */
  lemma {:induction false} ControllerStays(s: System, actions: seq<Action>)
    requires Inv(s) && s.store.Some?
    ensures Run(s, actions).store.Some? && Run(s, actions).store.value.kind == s.store.value.kind
    ensures s.store.value.controller.Some? ==> Run(s, actions).store.value.controller == s.store.value.controller
    decreases |actions|
  {
    if actions != [] {
      var a := actions[0];
      var phase := PhaseOf(s, a.call);
      if a.Write? && phase.Holding? && phase.base.Some? {
        assert PhaseKept(s, a.call);
        assert Kept(s, phase.base.value);
      }
      StepInv(s, a);
      ControllerStays(Step(s, a), actions[1..]);
    }
  }

  /** Every version has the labels, the annotations and the owner that the write behind it asked for. */
  lemma {:induction false} VersionsAreDressed(s: System, actions: seq<Action>, was: Secret)
    requires Inv(s) && was in Run(s, actions).seen && was !in s.seen
    ensures Dressed(actions, was)
    decreases |actions|
  {
    StepInv(s, actions[0]);
    if was in Step(s, actions[0]).seen {
      StepDresses(s, actions[0], was);
    } else {
      VersionsAreDressed(Step(s, actions[0]), actions[1..], was);
      var i :| 0 <= i < |actions[1..]| && Dresses(actions[1..][i], was);
      assert Dresses(actions[i + 1], was);
    }
  }

  /** A call that lost the race to create the Secret takes what the winner wrote, even when it lacks a key
      of its own. */
  lemma BeatenTakesTheWinners(mine: Wanted, theirs: Wanted)
    ensures var won := Mutated(None, theirs).value.(version := 0);
      var s := Run(INITIAL, [Read(0, None), Read(1, None), Write(1, theirs), Write(0, mine), ReadAgain(0, Some(won))]);
      PhaseOf(s, 0) == Returned(won) && won.data == theirs.generated
  {
    var won := Mutated(None, theirs).value.(version := 0);
    var s1 := Step(Step(INITIAL, Read(0, None)), Read(1, None));
    var s2 := Step(Step(s1, Write(1, theirs)), Write(0, mine));
    RunTwo(INITIAL, Read(0, None), Read(1, None));
    RunTwo(s1, Write(1, theirs), Write(0, mine));
    RunConcat(INITIAL, [Read(0, None), Read(1, None)], [Write(1, theirs), Write(0, mine)]);
    var four := [Read(0, None), Read(1, None), Write(1, theirs), Write(0, mine)];
    assert [Read(0, None), Read(1, None)] + [Write(1, theirs), Write(0, mine)] == four;
    assert s2.store == Some(won) && PhaseOf(s2, 0) == Beaten;
    RunConcat(INITIAL, four, [ReadAgain(0, Some(won))]);
    assert Run(s2, [ReadAgain(0, Some(won))]) == Step(s2, ReadAgain(0, Some(won)));
    assert four + [ReadAgain(0, Some(won))] == [Read(0, None), Read(1, None), Write(1, theirs), Write(0, mine), ReadAgain(0, Some(won))];
  }

  lemma RunTwo(s: System, a: Action, b: Action)
    ensures Run(s, [a, b]) == Step(Step(s, a), b)
  {
    RunConcat(s, [a], [b]);
    assert [a] + [b] == [a, b] && [a][1..] == [] && [b][1..] == [];
    assert Run(s, [a]) == Step(s, a);
  }

  // ---------------------------------------------------------------------------------------------
  // One call
  // ---------------------------------------------------------------------------------------------

  datatype SecretError = NoGenerators | GenerateFailed(key: string) | ApiFailed

  /** A turn of the script: what the other calls do first, whether the request fails, whether it took
      effect all the same, and what a lagging cache answers. */
  datatype Turn = Turn(rivals: seq<Action>, fails: bool, applied: bool, cached: Option<Secret>, lagging: bool)

  /** A generator's value for this call, or None when it fails. */
  type Generators = map<string, Option<string>>

  function Values(generators: Generators): map<string, string> {
    map k | k in generators && generators[k].Some? :: generators[k].value
  }

  predicate Missing(data: map<string, string>, generators: Generators, k: string) {
    k in generators && k !in data
  }

  /** Runs the generators of the missing keys, in the order of the keys, up to the first that fails. */
  method Generate(data: map<string, string>, generators: Generators)
    returns (generated: map<string, string>, failed: Option<string>, ghost invoked: set<string>)
    ensures invoked <= generators.Keys && forall k :: k in invoked ==> Missing(data, generators, k)
    ensures forall k :: k in generated <==> k in invoked && generators[k].Some?
    ensures forall k :: k in generated ==> Some(generated[k]) == generators[k]
    ensures failed.None? ==> forall k :: Missing(data, generators, k) <==> k in generated
    ensures failed.Some? ==> Missing(data, generators, failed.value) && generators[failed.value].None?
    ensures failed.Some? ==> forall k :: Missing(data, generators, k) && Ordering.Less(k, failed.value) ==> k in generated
  {
    var keys := Ordering.SortedKeys(generators.Keys);
    assert forall k :: k in keys <==> k in Ordering.Elements(keys);
    generated, invoked := map[], {};
    for i := 0 to |keys|
      invariant invoked <= generators.Keys && forall k :: k in invoked ==> Missing(data, generators, k)
      invariant forall k :: k in generated <==> k in invoked && generators[k].Some?
      invariant forall k :: k in generated ==> Some(generated[k]) == generators[k]
      invariant forall j :: 0 <= j < i && keys[j] !in data ==> keys[j] in generated
    {
      var key := keys[i];
      if key in data {
        continue;
      }
      invoked := invoked + {key};
      if generators[key].None? {
        forall k | Missing(data, generators, k) && Ordering.Less(k, key)
          ensures k in generated
        {
          assert k in keys;
          var j :| 0 <= j < |keys| && keys[j] == k;
          EarlierKey(keys, j, i);
        }
        return generated, Some(key), invoked;
      }
      generated := generated[key := generators[key].value];
    }
    failed := None;
    forall k | Missing(data, generators, k)
      ensures k in generated
    {
      assert k in keys;
    }
  }

  lemma EarlierKey(keys: seq<string>, j: nat, i: nat)
    requires Ordering.Sorted(keys) && j < |keys| && i < |keys| && Ordering.Less(keys[j], keys[i])
    ensures j < i
  {
    if j == i {
      Ordering.LessIrreflexive(keys[j]);
    } else if i < j {
      Ordering.LessTransitive(keys[i], keys[j], keys[i]);
      Ordering.LessIrreflexive(keys[i]);
    }
  }

  class Client {
    var system: System
    var script: seq<Turn>
    const call: nat

    constructor (system: System, script: seq<Turn>, call: nat)
      ensures this.system == system && this.script == script && this.call == call
    {
      this.system, this.script, this.call := system, script, call;
    }

    /** The steps of other calls among these. */
    function Rivals(actions: seq<Action>): seq<Action> {
      if actions == [] then []
      else (if actions[0].call == call then [] else [actions[0]]) + Rivals(actions[1..])
    }

    /** Nobody else acts, and reads are current. */
    static ghost predicate Alone(script: seq<Turn>) {
      forall i :: 0 <= i < |script| ==> script[i].rivals == [] && !script[i].lagging
    }

    /** ... and no request fails. */
    static ghost predicate Smooth(script: seq<Turn>) {
      Alone(script) && forall i :: 0 <= i < |script| ==> !script[i].fails
    }

    /** Lets the other calls take their steps before a request is served. */
    method Next() returns (turn: Turn, ghost trace: seq<Action>)
      modifies this
      ensures system == Run(old(system), trace) && (forall a :: a in trace ==> a.call != call)
      ensures Alone(old(script)) ==> Alone(script) && trace == [] && !turn.lagging
      ensures Smooth(old(script)) ==> Smooth(script) && !turn.fails
    {
      turn := Turn([], false, false, None, false);
      if script != [] {
        turn, script := script[0], script[1..];
      }
      trace := Rivals(turn.rivals);
      RivalsOnly(turn.rivals);
      system := Run(system, Rivals(turn.rivals));
    }

    lemma {:induction false} RivalsOnly(actions: seq<Action>)
      ensures forall a :: a in Rivals(actions) ==> a.call != call
    {
      if actions != [] {
        RivalsOnly(actions[1..]);
      }
    }

    /** Rivals do not move this call. */
    lemma {:induction false} RivalsKeepPhase(s: System, actions: seq<Action>)
      requires forall a :: a in actions ==> a.call != call
      ensures PhaseOf(Run(s, actions), call) == PhaseOf(s, call)
      decreases |actions|
    {
      if actions != [] {
        assert actions[0] in actions;
        RivalsKeepPhase(Step(s, actions[0]), actions[1..]);
      }
    }

    lemma {:induction false} OneMore(s: System, actions: seq<Action>, a: Action)
      ensures Run(s, actions + [a]) == Step(Run(s, actions), a)
    {
      RunConcat(s, actions, [a]);
      assert [a][1..] == [];
    }

    /** Reads the Secret, through a cache that may lag. */
    method Get(again: bool) returns (found: Option<Secret>, failed: bool, ghost trace: seq<Action>)
      requires Inv(system)
      requires if again then PhaseOf(system, call).Beaten? else PhaseOf(system, call).Idle?
      modifies this
      ensures Inv(system) && system == Run(old(system), trace)
      ensures found.Some? ==> found.value in system.seen
      ensures failed ==> found.None?
      ensures !failed && !again ==> PhaseOf(system, call) == Holding(found)
      ensures !failed && again ==> PhaseOf(system, call) == if found.Some? then Returned(found.value) else Failed
      ensures forall a :: a in trace && a.call == call ==> !a.Write?
      ensures Alone(old(script)) ==> Alone(script) && system.store == old(system).store && (!failed ==> found == system.store)
      ensures Smooth(old(script)) ==> Smooth(script) && !failed
    {
      ghost var s := system;
      var turn;
      turn, trace := Next();
      RunGrows(s, trace);
      RivalsKeepPhase(s, trace);
      if turn.fails {
        return None, true, trace;
      }
      found := if turn.lagging && (turn.cached.Some? ==> turn.cached.value in system.seen) then turn.cached else system.store;
      ghost var a := if again then ReadAgain(call, found) else Read(call, found);
      OneMore(s, trace, a);
      StepInv(system, a);
      system := Step(system, if again then ReadAgain(call, found) else Read(call, found));
      failed, trace := false, trace + [a];
    }

    /** Creates or updates the Secret, or leaves it when nothing would change. The outcome is what the
        server did, unless the reply was lost. */
    method Put(wanted: Wanted) returns (outcome: Phase, ghost trace: seq<Action>)
      requires Inv(system) && PhaseOf(system, call).Holding?
      modifies this
      ensures Inv(system) && system == Run(old(system), trace)
      ensures outcome in {Failed, Beaten} || outcome.Returned?
      ensures outcome.Returned? || outcome.Beaten? ==> PhaseOf(system, call) == outcome
      ensures outcome.Returned? ==> forall k :: k in wanted.generated ==> k in outcome.secret.data
      ensures outcome.Returned? && PhaseOf(old(system), call).base.Some? ==>
        forall k :: k in PhaseOf(old(system), call).base.value.data ==> k in outcome.secret.data
      ensures forall a :: a in trace && a.call == call ==> a == Write(call, wanted)
      ensures Alone(old(script)) && PhaseOf(old(system), call).base == old(system).store ==> !outcome.Beaten?
      ensures Alone(old(script)) && PhaseOf(old(system), call).base == old(system).store && outcome.Returned? ==>
        && Mutated(old(system).store, wanted).Some?
        && outcome.secret == Mutated(old(system).store, wanted).value.(version := outcome.secret.version)
      ensures Smooth(old(script)) && PhaseOf(old(system), call).base == old(system).store ==>
        (outcome.Returned? <==> MayWrite(old(system).store, wanted.owner))
    {
      ghost var s := system;
      var turn;
      turn, trace := Next();
      RunGrows(s, trace);
      RivalsKeepPhase(s, trace);
      if turn.fails && !turn.applied {
        return Failed, trace;
      }
      OneMore(s, trace, Write(call, wanted));
      StepInv(system, Write(call, wanted));
      system := Step(system, Write(call, wanted));
      trace := trace + [Write(call, wanted)];
      outcome := if turn.fails then Failed else PhaseOf(system, call);
    }

    /** The Secret is not controlled by somebody else. */
    ghost predicate MayWrite(store: Option<Secret>, owner: string) {
      store.Some? ==> store.value.controller.None? || store.value.controller == Some(owner)
    }

    /** Some generator that is needed fails. */
    ghost predicate CannotGenerate(store: Option<Secret>, generators: Generators) {
      exists k :: k in generators && generators[k].None? && (store.Some? ==> k !in store.value.data)
    }

    /** The Secret has every key that all versions had and all writes since then carried. */
    ghost predicate HasCovered(s: System, trace: seq<Action>, secret: Secret) {
      forall k :: AllHave(s, k) && AllCover(s, trace, k) ==> k in secret.data
    }

    lemma HasCoveredKeys(s: System, trace: seq<Action>)
      requires Inv(s) && PhaseOf(Run(s, trace), call).Returned?
      ensures HasCovered(s, trace, PhaseOf(Run(s, trace), call).secret)
    {
      forall k | AllHave(s, k) && AllCover(s, trace, k)
        ensures k in PhaseOf(Run(s, trace), call).secret.data
      {
        ReturnedHasKey(s, trace, call, k);
      }
    }

    /** The one write of a call asks for what its caller gave: values that its generators produced, and its
        owner, labels, annotations and kind. */
    ghost predicate AsksFor(wanted: Wanted, generators: Generators, owner: string, labels: map<string, string>,
                            annotations: map<string, string>, kind: string)
    {
      && wanted.owner == owner && wanted.labels == labels && wanted.annotations == annotations && wanted.kind == kind
      && (forall k :: k in wanted.generated ==> k in generators && generators[k] == Some(wanted.generated[k]))
    }

    /** Every write of this call does. */
    ghost predicate AllAskFor(trace: seq<Action>, generators: Generators, owner: string, labels: map<string, string>,
                              annotations: map<string, string>, kind: string)
    {
      forall a :: a in trace && a.call == call && a.Write? ==>
        AsksFor(a.wanted, generators, owner, labels, annotations, kind)
    }

    lemma AsksJoined(trace: seq<Action>, more: seq<Action>, wanted: Wanted, generators: Generators)
      requires forall a :: a in trace && a.call == call ==> !a.Write?
      requires forall a :: a in more && a.call == call ==> a == Write(call, wanted)
      requires AsksFor(wanted, generators, wanted.owner, wanted.labels, wanted.annotations, wanted.kind)
      ensures AllAskFor(trace + more, generators, wanted.owner, wanted.labels, wanted.annotations, wanted.kind)
    {
    }

    lemma AsksStill(trace: seq<Action>, more: seq<Action>, generators: Generators, owner: string,
                    labels: map<string, string>, annotations: map<string, string>, kind: string)
      requires AllAskFor(trace, generators, owner, labels, annotations, kind)
      requires forall a :: a in more && a.call == call ==> !a.Write?
      ensures AllAskFor(trace + more, generators, owner, labels, annotations, kind)
    {
    }

    /** What a call that nobody interferes with leaves behind: what was there stays, what was missing is
        generated, and the metadata is as asked for. */
    ghost predicate Ensured(before: Option<Secret>, after: Secret, generators: Generators, owner: string,
                            labels: map<string, string>, annotations: map<string, string>, kind: string)
    {
      var data := if before.Some? then before.value.data else map[];
      && (forall k :: k in after.data <==> k in data || k in generators)
      && (forall k :: k in data ==> k in after.data && after.data[k] == data[k])
      && (forall k :: k in generators && k !in data ==> k in after.data && generators[k] == Some(after.data[k]))
      && after.labels == labels
      && after.controller == Some(owner)
      && after.annotations == (if before.Some? then before.value.annotations else map[]) + annotations
      && after.kind == if before.Some? then before.value.kind else if kind == "" then "Opaque" else kind
    }

    lemma MutatedEnsures(before: Option<Secret>, after: Secret, wanted: Wanted, generators: Generators)
      requires Mutated(before, wanted).Some? && after == Mutated(before, wanted).value.(version := after.version)
      requires forall k :: k in wanted.generated ==> k in generators && generators[k] == Some(wanted.generated[k])
      requires var data := if before.Some? then before.value.data else map[];
        forall k :: Missing(data, generators, k) <==> k in wanted.generated
      ensures Ensured(before, after, generators, wanted.owner, wanted.labels, wanted.annotations, wanted.kind)
    {
      var data := if before.Some? then before.value.data else map[];
      forall k
        ensures k in after.data <==> k in data || k in generators
      {
        assert Missing(data, generators, k) <==> k in wanted.generated;
      }
    }

    /** Makes sure that the Secret has a value for every key, generating the missing ones. A Secret that
        somebody else created meanwhile is read again and taken as it is: then `taken` is set. */
    method EnsureGeneratedSecret(generators: Generators, owner: string, labels: map<string, string>,
                                 annotations: map<string, string>, kind: string)
      returns (result: Result<Secret, SecretError>, ghost trace: seq<Action>, ghost taken: bool)
      requires Inv(system) && PhaseOf(system, call).Idle?
      modifies this
      ensures Inv(system) && system == Run(old(system), trace)
      ensures generators == map[] <==> result == Failure(NoGenerators)
      ensures result.Success? ==> PhaseOf(system, call) == Returned(result.value)
      ensures result.Success? && !taken ==> forall k :: k in generators ==> k in result.value.data
      ensures result.Success? ==> HasCovered(old(system), trace, result.value)
      ensures result.Failure? && result.error.GenerateFailed? ==>
        result.error.key in generators && generators[result.error.key].None?
      ensures AllAskFor(trace, generators, owner, labels, annotations, kind)
      ensures Alone(old(script)) && result.Success? ==>
        Ensured(old(system).store, result.value, generators, owner, labels, annotations, kind)
      ensures taken ==> !Alone(old(script))
      ensures Smooth(old(script)) && generators != map[] ==>
        (result.Failure? <==> CannotGenerate(old(system).store, generators) || !MayWrite(old(system).store, owner))
    {
      taken := false;
      if |generators| == 0 {
        return Failure(NoGenerators), [], false;
      }
      ghost var s := system;
      var found, unread;
      found, unread, trace := Get(false);
      if unread {
        return Failure(ApiFailed), trace, false;
      }
      var data := if found.Some? then found.value.data else map[];
      var generated, failed;
      ghost var invoked;
      generated, failed, invoked := Generate(data, generators);
      if failed.Some? {
        return Failure(GenerateFailed(failed.value)), trace, false;
      }
      var outcome;
      ghost var more;
      outcome, more := Put(Wanted(owner, generated, labels, annotations, kind));
      RunConcat(s, trace, more);
      AsksJoined(trace, more, Wanted(owner, generated, labels, annotations, kind), generators);
      trace := trace + more;
      if outcome.Returned? {
        forall k | k in generators
          ensures k in outcome.secret.data
        {
          assert k !in data ==> Missing(data, generators, k);
        }
        if Alone(old(script)) {
          MutatedEnsures(s.store, outcome.secret, Wanted(owner, generated, labels, annotations, kind), generators);
        }
        HasCoveredKeys(s, trace);
        return Success(outcome.secret), trace, false;
      }
      if outcome.Failed? {
        return Failure(ApiFailed), trace, false;
      }
      taken := true;
      found, unread, more := Get(true);
      RunConcat(s, trace, more);
      AsksStill(trace, more, generators, owner, labels, annotations, kind);
      trace := trace + more;
      result := if found.Some? then Success(found.value) else Failure(ApiFailed);
      if result.Success? {
        HasCoveredKeys(s, trace);
      }
    }
  }

  /** A pass over a complete Secret writes nothing: exactly when no key is missing and the metadata is
      already as wanted. */
  lemma SteadyState(b: Secret, wanted: Wanted)
    ensures Mutated(Some(b), wanted) == Some(b) <==>
      && b.controller == Some(wanted.owner)
      && b.labels == wanted.labels
      && (forall k :: k in wanted.annotations ==> k in b.annotations && b.annotations[k] == wanted.annotations[k])
      && (forall k :: k in wanted.generated ==> k in b.data)
  {
    var next := Mutated(Some(b), wanted);
    if next == Some(b) {
      forall k | k in wanted.annotations
        ensures k in b.annotations && b.annotations[k] == wanted.annotations[k]
      {
        assert k in b.annotations + wanted.annotations;
      }
      forall k | k in wanted.generated
        ensures k in b.data
      {
        assert k in FilledIn(b.data, wanted.generated);
      }
    } else if && b.controller == Some(wanted.owner)
              && (forall k :: k in wanted.annotations ==> k in b.annotations && b.annotations[k] == wanted.annotations[k])
              && (forall k :: k in wanted.generated ==> k in b.data) {
      assert b.annotations + wanted.annotations == b.annotations;
      assert FilledIn(b.data, wanted.generated) == b.data;
    }
  }
}
