/** Applying a StatefulSet next to another writer. */
module Apply {
  import opened Wrappers
  import opened ApplyMounts
  import opened ApplyCoherence
  import opened ApplyOrder

  /** A claim template; `volumeMode` and `status` are the fields the API server fills in. */
  datatype Claim = Claim(name: string, volumeMode: Option<string>, status: Option<string>, rest: string)

  datatype Template = Template(
    annotations: map<string, string>,
    labels: map<string, string>,
    containers: seq<Container>,
    volumes: seq<string>,
    rest: string)

  datatype SetState = SetState(
    labels: map<string, string>,
    annotations: map<string, string>,
    selector: Option<string>,
    serviceName: string,
    claims: seq<Claim>,
    podManagementPolicy: string,
    template: Template,
    rest: string)

  // ---------------------------------------------------------------------------------------------
  // Claim templates
  // ---------------------------------------------------------------------------------------------

  /** The live claim template without what the server filled in and the handler did not state. */
  function ClaimTemplateAsRequested(desired: Claim, live: Claim): Claim {
    live.(volumeMode := if desired.volumeMode.None? then None else live.volumeMode,
          status := if desired.status.None? then None else live.status)
  }

  /** The live claim template is what was asked for: everything the handler stated is as stated. */
  predicate Honours(desired: Claim, live: Claim) {
    && live.name == desired.name
    && live.rest == desired.rest
    && (desired.volumeMode.Some? ==> live.volumeMode == desired.volumeMode)
    && (desired.status.Some? ==> live.status == desired.status)
  }

  predicate ClaimsHonoured(desired: seq<Claim>, live: seq<Claim>) {
    |desired| == |live| && forall i :: 0 <= i < |desired| ==> Honours(desired[i], live[i])
  }

  /** Whether the handler asks for other claim templates than the live ones. */
  method ClaimTemplatesDiffer(desired: seq<Claim>, live: seq<Claim>) returns (differ: bool)
    ensures differ <==> !ClaimsHonoured(desired, live)
  {
    if |desired| != |live| {
      return true;
    }
    for i := 0 to |desired|
      invariant forall j :: 0 <= j < i ==> Honours(desired[j], live[j])
    {
      if desired[i] != ClaimTemplateAsRequested(desired[i], live[i]) {
        return true;
      }
    }
    return false;
  }

  function ClaimNames(claims: seq<Claim>): set<string> {
    set c | c in claims :: c.name
  }

  lemma HonouredNames(desired: seq<Claim>, live: seq<Claim>)
    requires ClaimsHonoured(desired, live)
    ensures ClaimNames(desired) == ClaimNames(live)
  {
    forall name
      ensures name in ClaimNames(desired) <==> name in ClaimNames(live)
    {
      if name in ClaimNames(desired) {
        var i :| 0 <= i < |desired| && desired[i].name == name;
        assert live[i] in live && live[i].name == name;
      }
      if name in ClaimNames(live) {
        var i :| 0 <= i < |live| && live[i].name == name;
        assert desired[i] in desired && desired[i].name == name;
      }
    }
  }

  // ---------------------------------------------------------------------------------------------
  // What an apply does
  // ---------------------------------------------------------------------------------------------

  function NamesOf(desired: SetState, live: SetState): Names {
    Names((set v | v in desired.template.volumes), ClaimNames(desired.claims), ClaimNames(live.claims))
  }

  /** Live annotations with desired's over them. */
  function MergeAnnotations(live: map<string, string>, desired: map<string, string>): map<string, string> {
    live + desired
  }

  ghost predicate MergedSomehow(desired: seq<Container>, live: seq<Container>, after: seq<Container>, n: Names) {
    exists dropped, restored :: MergedBy(desired, live, after, n, dropped, restored)
  }

  ghost predicate MergedBy(desired: seq<Container>, live: seq<Container>, after: seq<Container>, n: Names,
                           dropped: seq<string>, restored: seq<string>) {
    Lists(dropped, ToDrop(n)) && Lists(restored, ToRestore(n)) && after == Merged(desired, live, dropped, restored)
  }

  ghost predicate ContainersApplied(desired: SetState, live: SetState, after: SetState) {
    if ClaimsHonoured(desired.claims, live.claims) then after.template.containers == desired.template.containers
    else MergedSomehow(desired.template.containers, live.template.containers, after.template.containers, NamesOf(desired, live))
  }

  /** `after` is the live StatefulSet once the desired one was applied to it: immutable fields as they
      were, annotations merged, everything else as desired but for the mounts of claims. */
  ghost predicate Applied(desired: SetState, live: SetState, after: SetState) {
    && after == live.(
         labels := desired.labels,
         annotations := MergeAnnotations(live.annotations, desired.annotations),
         template := after.template,
         rest := desired.rest)
    && after.template == desired.template.(
         annotations := MergeAnnotations(live.template.annotations, desired.template.annotations),
         containers := after.template.containers)
    && ContainersApplied(desired, live, after)
  }

  /** The changes that were dropped: fields the handler stated otherwise than they are. */
  function Ignored(desired: SetState, live: SetState): set<string> {
    (if desired.selector.Some? && desired.selector != live.selector then {"spec.selector"} else {}) +
    (if desired.serviceName != "" && desired.serviceName != live.serviceName then {"spec.serviceName"} else {}) +
    (if !ClaimsHonoured(desired.claims, live.claims) then {"spec.volumeClaimTemplates"} else {}) +
    (if desired.podManagementPolicy != "" && desired.podManagementPolicy != live.podManagementPolicy
     then {"spec.podManagementPolicy"} else {})
  }

  /** A field is reported exactly if the handler stated it and the result is not as stated. */
  lemma IgnoredExactly(desired: SetState, live: SetState, after: SetState)
    requires Applied(desired, live, after)
    ensures Ignored(desired, live) <=
      {"spec.selector", "spec.serviceName", "spec.volumeClaimTemplates", "spec.podManagementPolicy"}
    ensures "spec.selector" in Ignored(desired, live) <==> desired.selector.Some? && after.selector != desired.selector
    ensures "spec.serviceName" in Ignored(desired, live) <==> desired.serviceName != "" && after.serviceName != desired.serviceName
    ensures "spec.podManagementPolicy" in Ignored(desired, live) <==>
      desired.podManagementPolicy != "" && after.podManagementPolicy != desired.podManagementPolicy
    ensures "spec.volumeClaimTemplates" !in Ignored(desired, live) <==>
      |desired.claims| == |after.claims| && forall i :: 0 <= i < |desired.claims| ==> Honours(desired.claims[i], after.claims[i])
  {
  }

  /** A StatefulSet as the API server takes it. */
  predicate Admitted(s: SetState) {
    WellFormed(s.template.containers)
  }

  /** A pod template that mounts only its volumes and its claims. */
  predicate Backed(s: SetState) {
    MountOnly(s.template.containers, (set v | v in s.template.volumes) + ClaimNames(s.claims))
  }

  /** After an apply the template mounts only declared volumes and claims that exist, and no two mounts
      of a container share a path, whenever that held of what was desired. */
  lemma ApplyCoherent(desired: SetState, live: SetState, after: SetState)
    requires Applied(desired, live, after) && Admitted(desired) && Admitted(live) && Backed(desired)
    ensures Admitted(after) && Backed(after)
  {
    var n := NamesOf(desired, live);
    if ClaimsHonoured(desired.claims, live.claims) {
      HonouredNames(desired.claims, live.claims);
    } else {
      var dropped, restored :|
        MergedBy(desired.template.containers, live.template.containers, after.template.containers, n, dropped, restored);
      MergedUniqueNames(desired.template.containers, live.template.containers, n, dropped, restored);
      Coherent(desired.template.containers, live.template.containers, n, dropped, restored);
    }
  }

  /** Every live mount of a preserved claim is kept if its container survives and its path is free. */
  lemma ApplyKeepsMounts(desired: SetState, live: SetState, after: SetState, i: nat, j: nat, m: Mount)
    requires Applied(desired, live, after) && Admitted(desired) && Admitted(live)
    requires i < |desired.template.containers| && j < |live.template.containers|
    requires desired.template.containers[i].name == live.template.containers[j].name
    requires m in live.template.containers[j].mounts
    requires m.name in ClaimNames(live.claims) && m.name !in ClaimNames(desired.claims)
    requires PathFree(desired.template.containers[i].mounts, NamesOf(desired, live), m.path)
    ensures |after.template.containers| == |desired.template.containers|
    ensures m in after.template.containers[i].mounts
  {
    if ClaimsHonoured(desired.claims, live.claims) {
      HonouredNames(desired.claims, live.claims);
    } else {
      var n := NamesOf(desired, live);
      var dropped, restored :|
        MergedBy(desired.template.containers, live.template.containers, after.template.containers, n, dropped, restored);
      KeepsPreserved(desired.template.containers, live.template.containers, n, dropped, restored, i, j, m);
    }
  }

  /** Equal but for the order of volume mounts. */
  predicate SameSetButOrder(a: SetState, b: SetState) {
    && b == a.(template := a.template.(containers := b.template.containers))
    && AllSameButOrder(a.template.containers, b.template.containers)
  }

  /** Whatever order the claims are visited in, the result differs in the order of mounts at most. */
  lemma ApplyAnyOrder(desired: SetState, live: SetState, a: SetState, b: SetState)
    requires Admitted(desired) && Admitted(live)
    requires Applied(desired, live, a) && Applied(desired, live, b)
    ensures SameSetButOrder(a, b)
  {
    if !ClaimsHonoured(desired.claims, live.claims) {
      var n := NamesOf(desired, live);
      var cs, ls := desired.template.containers, live.template.containers;
      var dropped, restored :| MergedBy(cs, ls, a.template.containers, n, dropped, restored);
      var dropped', restored' :| MergedBy(cs, ls, b.template.containers, n, dropped', restored');
      AnyOrder(cs, ls, n, dropped, restored, dropped', restored');
    }
  }

  /** Applying the same desired state again changes nothing but the order of restored mounts. */
  lemma {:induction false} ApplyFixedPoint(desired: SetState, live: SetState, once: SetState, twice: SetState)
    requires Admitted(desired) && Admitted(live)
    requires Applied(desired, live, once) && Applied(desired, once, twice)
    ensures SameSetButOrder(once, twice)
    ensures ClaimsHonoured(desired.claims, live.claims) ==> twice == once
  {
    assert MergeAnnotations(once.annotations, desired.annotations) == once.annotations;
    assert MergeAnnotations(once.template.annotations, desired.template.annotations) == once.template.annotations;
    if !ClaimsHonoured(desired.claims, live.claims) {
      var n := NamesOf(desired, live);
      var cs, ls := desired.template.containers, live.template.containers;
      var dropped, restored :| MergedBy(cs, ls, once.template.containers, n, dropped, restored);
      var dropped', restored' :|
        MergedBy(cs, once.template.containers, twice.template.containers, n, dropped', restored');
      AppliedTwice(cs, ls, n, dropped, restored, dropped', restored');
    }
  }

  ghost predicate SteadyIn(desired: SetState, live: SetState, once: SetState, twice: SetState) {
    Applied(desired, live, once) && Applied(desired, once, twice) ==> twice == once
  }

  /** In whatever order the claims are visited, a second apply changes nothing. */
  ghost predicate Steady(desired: SetState, live: SetState) {
    forall once, twice :: SteadyIn(desired, live, once, twice)
  }

  /** The mounts of at most one preserved claim go back into each container. */
  ghost predicate OneClaimEach(desired: SetState, live: SetState) {
    forall i :: 0 <= i < |desired.template.containers| ==>
      OneClaim(desired.template.containers[i], live.template.containers, NamesOf(desired, live))
  }

  /** A second apply changes nothing at all exactly when the claim templates are as asked for, or no
      container gets mounts of two preserved claims back. */
  lemma SteadyExactly(desired: SetState, live: SetState)
    requires Admitted(desired) && Admitted(live)
    ensures Steady(desired, live) <==> ClaimsHonoured(desired.claims, live.claims) || OneClaimEach(desired, live)
  {
    if ClaimsHonoured(desired.claims, live.claims) || OneClaimEach(desired, live) {
      forall once, twice
        ensures SteadyIn(desired, live, once, twice)
      {
        if Applied(desired, live, once) && Applied(desired, once, twice) {
          SteadyWhenOneClaim(desired, live, once, twice);
        }
      }
    } else {
      UnsteadyOtherwise(desired, live);
    }
  }

  lemma {:induction false} SteadyWhenOneClaim(desired: SetState, live: SetState, once: SetState, twice: SetState)
    requires Admitted(desired) && Admitted(live)
    requires Applied(desired, live, once) && Applied(desired, once, twice)
    requires ClaimsHonoured(desired.claims, live.claims) || OneClaimEach(desired, live)
    ensures twice == once
  {
    ApplyFixedPoint(desired, live, once, twice);
    if !ClaimsHonoured(desired.claims, live.claims) {
      var n := NamesOf(desired, live);
      var cs, ls := desired.template.containers, live.template.containers;
      var dropped, restored :| MergedBy(cs, ls, once.template.containers, n, dropped, restored);
      var dropped', restored' :|
        MergedBy(cs, once.template.containers, twice.template.containers, n, dropped', restored');
      SameWhenOneClaim(cs, ls, n, dropped, restored, dropped', restored');
    }
  }

  /** The live StatefulSet with these containers and everything else as an apply leaves it. */
  function AppliedWith(desired: SetState, live: SetState, containers: seq<Container>): SetState {
    live.(labels := desired.labels,
          annotations := MergeAnnotations(live.annotations, desired.annotations),
          template := desired.template.(
            annotations := MergeAnnotations(live.template.annotations, desired.template.annotations),
            containers := containers),
          rest := desired.rest)
  }

  lemma MergedIsApplied(desired: SetState, live: SetState, dropped: seq<string>, restored: seq<string>)
    requires !ClaimsHonoured(desired.claims, live.claims)
    requires Lists(dropped, ToDrop(NamesOf(desired, live))) && Lists(restored, ToRestore(NamesOf(desired, live)))
    ensures var merged := Merged(desired.template.containers, live.template.containers, dropped, restored);
      Applied(desired, live, AppliedWith(desired, live, merged))
  {
    var merged := Merged(desired.template.containers, live.template.containers, dropped, restored);
    assert MergedBy(desired.template.containers, live.template.containers, merged, NamesOf(desired, live), dropped, restored);
  }

  lemma UnsteadyOtherwise(desired: SetState, live: SetState)
    requires Admitted(desired) && Admitted(live)
    requires !ClaimsHonoured(desired.claims, live.claims) && !OneClaimEach(desired, live)
    ensures !Steady(desired, live)
  {
    var n := NamesOf(desired, live);
    var cs, ls := desired.template.containers, live.template.containers;
    var i :| 0 <= i < |cs| && !OneClaim(cs[i], ls, n);
    var a, b :| GoesBack(cs[i], ls, n, a) && GoesBack(cs[i], ls, n, b) && a.name != b.name;
    var dropped, rest := Listing(ToDrop(n)), Listing(ToRestore(n));
    DiffersWithTwoClaims(cs, ls, n, dropped, rest, i, a, b);
    var once := AppliedWith(desired, live, Merged(cs, ls, dropped, [a.name, b.name] + rest));
    MergedIsApplied(desired, live, dropped, [a.name, b.name] + rest);
    var twice := AppliedWith(desired, once, Merged(cs, once.template.containers, dropped, [b.name, a.name] + rest));
    MergedIsApplied(desired, once, dropped, [b.name, a.name] + rest);
    assert !SteadyIn(desired, live, once, twice);
  }

  // ---------------------------------------------------------------------------------------------
  // The second writer
  // ---------------------------------------------------------------------------------------------

  /** What happens to the annotations of the pod template: the framework applies, or another controller
      writes one. */
  datatype Write = ApplyAgain | Foreign(key: string, value: string)

  function AfterWrite(live: map<string, string>, desired: map<string, string>, w: Write): map<string, string> {
    match w
    case ApplyAgain => MergeAnnotations(live, desired)
    case Foreign(key, value) => live[key := value]
  }

  function AfterWrites(live: map<string, string>, desired: map<string, string>, ws: seq<Write>): map<string, string>
    decreases |ws|
  {
    if ws == [] then live else AfterWrites(AfterWrite(live, desired, ws[0]), desired, ws[1..])
  }

  function ForeignOnly(ws: seq<Write>): seq<Write> {
    if ws == [] then [] else (if ws[0].Foreign? then [ws[0]] else []) + ForeignOnly(ws[1..])
  }

  /** The other controller writes only keys the framework has no opinion about. */
  predicate Disjoint(ws: seq<Write>, desired: map<string, string>) {
    forall i :: 0 <= i < |ws| && ws[i].Foreign? ==> ws[i].key !in desired
  }

  predicate SameAt(a: map<string, string>, b: map<string, string>, k: string) {
    (k in a <==> k in b) && (k in a ==> a[k] == b[k])
  }

  /** However the two interleave, a foreign annotation is what its own writer left. */
  lemma {:induction false} ForeignSurvives(live: map<string, string>, other: map<string, string>, desired: map<string, string>,
                                           ws: seq<Write>, k: string)
    requires k !in desired && SameAt(live, other, k)
    ensures SameAt(AfterWrites(live, desired, ws), AfterWrites(other, desired, ForeignOnly(ws)), k)
    decreases |ws|
  {
    if ws != [] {
      if ws[0].Foreign? {
        assert ForeignOnly(ws) == [ws[0]] + ForeignOnly(ws[1..]);
        assert ForeignOnly(ws)[1..] == ForeignOnly(ws[1..]);
        ForeignSurvives(AfterWrite(live, desired, ws[0]), AfterWrite(other, desired, ws[0]), desired, ws[1..], k);
      } else {
        assert ForeignOnly(ws) == ForeignOnly(ws[1..]);
        ForeignSurvives(AfterWrite(live, desired, ws[0]), other, desired, ws[1..], k);
      }
    }
  }

  predicate Holds(live: map<string, string>, desired: map<string, string>) {
    forall k :: k in desired ==> k in live && live[k] == desired[k]
  }

  lemma {:induction false} HoldsThrough(live: map<string, string>, desired: map<string, string>, ws: seq<Write>)
    requires Disjoint(ws, desired) && (Holds(live, desired) || ApplyAgain in ws)
    ensures Holds(AfterWrites(live, desired, ws), desired)
    decreases |ws|
  {
    if ws != [] {
      assert ws == [ws[0]] + ws[1..];
      assert forall i :: 0 <= i < |ws[1..]| ==> ws[1..][i] == ws[i + 1];
      HoldsThrough(AfterWrite(live, desired, ws[0]), desired, ws[1..]);
    }
  }

  /** The two never undo each other: once the framework has applied, applying again after any number of
      foreign writes changes nothing. */
  lemma NoFight(live: map<string, string>, desired: map<string, string>, ws: seq<Write>)
    requires Disjoint(ws, desired) && ApplyAgain in ws
    ensures AfterWrite(AfterWrites(live, desired, ws), desired, ApplyAgain) == AfterWrites(live, desired, ws)
  {
    HoldsThrough(live, desired, ws);
  }
}
