/** The apply of a StatefulSet as it runs: the live object is changed in place, the desired one is not
    touched. */
module ApplyStatefulSet {
  import opened Wrappers
  import opened ApplyMounts
  import opened ApplyCoherence
  import opened Apply

  lemma {:induction false} DroppedNext(cs: seq<Container>, names: seq<string>, name: string)
    ensures DroppedAll(cs, names + [name]) == Dropped(DroppedAll(cs, names), name)
    decreases |names|
  {
    if names == [] {
      assert names + [name] == [name] && [name][1..] == [];
    } else {
      assert (names + [name])[1..] == names[1..] + [name];
      DroppedNext(Dropped(cs, names[0]), names[1..], name);
    }
  }

  lemma {:induction false} RestoredNext(cs: seq<Container>, live: seq<Container>, names: seq<string>, name: string)
    ensures RestoredVolumes(cs, live, names + [name]) == RestoredVolume(RestoredVolumes(cs, live, names), live, name)
    decreases |names|
  {
    if names == [] {
      assert names + [name] == [name] && [name][1..] == [];
    } else {
      assert (names + [name])[1..] == names[1..] + [name];
      RestoredNext(RestoredVolume(cs, live, names[0]), live, names[1..], name);
    }
  }

  lemma {:induction false} WithoutNext(mounts: seq<Mount>, i: nat, name: string)
    requires i < |mounts|
    ensures Without(mounts[..i + 1], name) ==
      Without(mounts[..i], name) + (if mounts[i].name == name then [] else [mounts[i]])
  {
    if i == 0 {
      assert mounts[..1][1..] == [];
    } else {
      assert mounts[..i + 1][1..] == mounts[1..][..i] && mounts[..i][1..] == mounts[1..][..i - 1];
      WithoutNext(mounts[1..], i - 1, name);
    }
  }

  method KeepOthers(mounts: seq<Mount>, name: string) returns (kept: seq<Mount>)
    ensures kept == Without(mounts, name)
  {
    kept := [];
    for i := 0 to |mounts|
      invariant kept == Without(mounts[..i], name)
    {
      WithoutNext(mounts, i, name);
      if mounts[i].name != name {
        kept := kept + [mounts[i]];
      }
    }
    assert mounts[..|mounts|] == mounts;
  }

  /** Adds the live mounts of one volume whose paths are free, re-checking as the list grows. */
  method RestoreInto(mounts: seq<Mount>, live: seq<Mount>, name: string) returns (r: seq<Mount>)
    ensures r == Restored(mounts, live, name)
  {
    r := mounts;
    assert live[0..] == live;
    for i := 0 to |live|
      invariant Restored(mounts, live, name) == Restored(r, live[i..], name)
    {
      assert live[i..][1..] == live[i + 1..];
      if live[i].name == name && !MountsPath(r, live[i].path) {
        r := r + [live[i]];
      }
    }
  }

  class PodTemplate {
    var annotations: map<string, string>
    var labels: map<string, string>
    var containers: seq<Container>
    var volumes: seq<string>
    var rest: string

    constructor (t: Template)
      ensures Value() == t
    {
      annotations, labels, containers, volumes, rest := t.annotations, t.labels, t.containers, t.volumes, t.rest;
    }

    function Value(): Template
      reads this
    {
      Template(annotations, labels, containers, volumes, rest)
    }

    /** Removes every mount of the named volume from every container. */
    method DropVolumeMount(name: string)
      modifies this`containers
      ensures containers == Dropped(old(containers), name)
    {
      for i := 0 to |containers|
        invariant |containers| == |old(containers)|
        invariant forall j :: 0 <= j < i ==>
          containers[j] == old(containers)[j].(mounts := Without(old(containers)[j].mounts, name))
        invariant forall j :: i <= j < |containers| ==> containers[j] == old(containers)[j]
      {
        var kept := KeepOthers(containers[i].mounts, name);
        containers := containers[i := containers[i].(mounts := kept)];
      }
    }

    /** Copies every live mount of the named volume back onto the containers of the same names. */
    method RestoreVolumeMount(live: seq<Container>, name: string)
      modifies this`containers
      ensures containers == RestoredVolume(old(containers), live, name)
    {
      assert live[0..] == live;
      for i := 0 to |live|
        invariant RestoredVolume(old(containers), live, name) == RestoredVolume(containers, live[i..], name)
      {
        assert live[i..][1..] == live[i + 1..];
        var target := Find(containers, live[i].name);
        if target.Some? {
          var mounts := RestoreInto(containers[target.value].mounts, live[i].mounts, name);
          containers := containers[target.value := containers[target.value].(mounts := mounts)];
        }
      }
    }

    /** Drops the mounts of claims that were not created. */
    method DropUncreated(n: Names) returns (ghost dropped: seq<string>)
      requires n.volumes == set v | v in volumes
      modifies this`containers
      ensures Lists(dropped, ToDrop(n)) && containers == DroppedAll(old(containers), dropped)
    {
      dropped := [];
      var todo := n.desired;
      while todo != {}
        invariant todo <= n.desired
        invariant forall m :: m in dropped <==> m in ToDrop(n) - todo
        invariant containers == DroppedAll(old(containers), dropped)
      {
        var name :| name in todo;
        todo := todo - {name};
        if name in n.live || name in volumes {
          continue;
        }
        DropVolumeMount(name);
        DroppedNext(old(containers), dropped, name);
        dropped := dropped + [name];
      }
    }

    /** Restores the mounts of claims that were preserved. */
    method RestorePreserved(n: Names, live: seq<Container>) returns (ghost restored: seq<string>)
      modifies this`containers
      ensures Lists(restored, ToRestore(n)) && containers == RestoredVolumes(old(containers), live, restored)
    {
      restored := [];
      var todo := n.live;
      while todo != {}
        invariant todo <= n.live
        invariant forall m :: m in restored <==> m in ToRestore(n) - todo
        invariant containers == RestoredVolumes(old(containers), live, restored)
      {
        var name :| name in todo;
        todo := todo - {name};
        if name in n.desired {
          continue;
        }
        RestoreVolumeMount(live, name);
        RestoredNext(old(containers), live, restored, name);
        restored := restored + [name];
      }
    }

    /** Brings the mounts in line with the claim templates that exist. */
    method ReconcileClaimVolumeMounts(n: Names, live: seq<Container>)
      requires n.volumes == set v | v in volumes
      modifies this`containers
      ensures MergedSomehow(old(containers), live, containers, n)
    {
      ghost var dropped := DropUncreated(n);
      ghost var restored := RestorePreserved(n, live);
      assert MergedBy(old(containers), live, containers, n, dropped, restored);
    }
  }

  class StatefulSet {
    var labels: map<string, string>
    var annotations: map<string, string>
    var selector: Option<string>
    var serviceName: string
    var claims: seq<Claim>
    var podManagementPolicy: string
    var template: PodTemplate
    var rest: string

    constructor (s: SetState)
      ensures State() == s && fresh(template)
    {
      labels, annotations, selector, serviceName := s.labels, s.annotations, s.selector, s.serviceName;
      claims, podManagementPolicy, rest := s.claims, s.podManagementPolicy, s.rest;
      template := new PodTemplate(s.template);
    }

    function State(): SetState
      reads this, template
    {
      SetState(labels, annotations, selector, serviceName, claims, podManagementPolicy, template.Value(), rest)
    }

    /** Copies the desired labels and annotations onto this live object. */
    method CopyMetadata(desired: StatefulSet)
      requires desired != this
      modifies this`labels, this`annotations
      ensures labels == desired.labels
      ensures annotations == MergeAnnotations(old(annotations), desired.annotations)
    {
      labels := desired.labels;
      var todo := desired.annotations.Keys;
      while todo != {}
        invariant todo <= desired.annotations.Keys
        invariant annotations == old(annotations) + (desired.annotations - todo)
        invariant labels == desired.labels
      {
        var k :| k in todo;
        annotations := annotations[k := desired.annotations[k]];
        todo := todo - {k};
      }
      assert desired.annotations - {} == desired.annotations;
    }

    /** Which of the desired immutable fields differ from what is live. */
    method IgnoredChanges(desired: StatefulSet, claimsDiffer: bool) returns (ignored: seq<string>)
      requires claimsDiffer <==> !ClaimsHonoured(desired.claims, claims)
      ensures forall f :: f in ignored <==> f in Ignored(desired.State(), State())
    {
      ignored := [];
      if desired.selector.Some? && desired.selector != selector {
        ignored := ignored + ["spec.selector"];
      }
      if desired.serviceName != "" && desired.serviceName != serviceName {
        ignored := ignored + ["spec.serviceName"];
      }
      if claimsDiffer {
        ignored := ignored + ["spec.volumeClaimTemplates"];
      }
      if desired.podManagementPolicy != "" && desired.podManagementPolicy != podManagementPolicy {
        ignored := ignored + ["spec.podManagementPolicy"];
      }
    }

    /** Replaces the pod template by the desired one, keeping foreign annotations and the mounts of
        preserved claims. */
    method CopyTemplate(desired: StatefulSet, claimsDiffer: bool)
      requires desired != this && desired.template != template
      requires claimsDiffer <==> !ClaimsHonoured(desired.claims, claims)
      modifies this`template
      ensures fresh(template)
      ensures template.Value() == desired.template.Value().(
                annotations := MergeAnnotations(old(template.annotations), desired.template.annotations),
                containers := template.containers)
      ensures ContainersApplied(desired.State(), old(State()), State())
    {
      ghost var before := State();
      var live := template;
      template := new PodTemplate(desired.template.Value());
      if claimsDiffer {
        var n := Names((set v | v in template.volumes), ClaimNames(desired.claims), ClaimNames(claims));
        template.ReconcileClaimVolumeMounts(n, live.containers);
        assert n == NamesOf(desired.State(), before);
      }
      template.annotations := MergeAnnotations(live.annotations, desired.template.annotations);
    }

    /** Copies the desired spec, preserves the immutable fields, and reports the changes dropped. */
    method CopyStatefulSetState(desired: StatefulSet) returns (ignored: seq<string>)
      requires desired != this && desired.template != template
      modifies this`template, this`rest
      ensures fresh(template) && rest == desired.rest
      ensures template.Value() == desired.template.Value().(
                annotations := MergeAnnotations(old(template.annotations), desired.template.annotations),
                containers := template.containers)
      ensures ContainersApplied(desired.State(), old(State()), State())
      ensures forall f :: f in ignored <==> f in Ignored(desired.State(), old(State()))
    {
      var claimsDiffer := ClaimTemplatesDiffer(desired.claims, claims);
      ignored := IgnoredChanges(desired, claimsDiffer);
      CopyTemplate(desired, claimsDiffer);
      rest := desired.rest;
    }

    /** Applies the desired state to this live object and reports the changes that were dropped. The
        desired object, its template included, is only read. */
    method CopyDesiredState(desired: StatefulSet) returns (ignored: seq<string>)
      requires desired != this && desired.template != template
      modifies this
      ensures Applied(desired.State(), old(State()), State()) && fresh(template)
      ensures forall f :: f in ignored <==> f in Ignored(desired.State(), old(State()))
    {
      CopyMetadata(desired);
      ignored := CopyStatefulSetState(desired);
    }
  }
}
