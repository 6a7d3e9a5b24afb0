/** The part of the cluster status the orphan cleaner reads and writes. */
module ClusterStatus {
  import opened Wrappers

  /** A role and one of its role groups. */
  type Slot = (string, string)

  /** The roles of the spec with their role groups. */
  type Spec = map<string, set<string>>

  function SlotsOf(spec: Spec): set<Slot> {
    set role, group | role in spec && group in spec[role] :: (role, group)
  }

  function SlotsIn(roleGroups: map<string, seq<string>>): set<Slot> {
    set role, group | role in roleGroups && group in roleGroups[role] :: (role, group)
  }

  /** ConditionOrphanCleanupPending: whether it is raised, and the role groups it names. */
  datatype Condition = Condition(raised: bool, groups: seq<string>)

  class GenericClusterStatus {
    var roleGroups: map<string, seq<string>>
    var orphanCleanup: Option<Condition>

    /** The role groups the operator remembers having created. */
    function Ledger(): set<Slot>
      reads this
    {
      SlotsIn(roleGroups)
    }

    predicate Raised()
      reads this
    {
      orphanCleanup.Some? && orphanCleanup.value.raised
    }

    /** The remembered role groups that the spec no longer declares. */
    method GetOrphanedRoleGroups(spec: Spec) returns (orphaned: map<string, seq<string>>)
      ensures SlotsIn(orphaned) == Ledger() - SlotsOf(spec)
    {
      orphaned := map[];
      var todo := roleGroups.Keys;
      while todo != {}
        invariant todo <= roleGroups.Keys
        invariant orphaned.Keys <= roleGroups.Keys - todo
        invariant forall slot: Slot :: slot.0 !in todo ==>
          (slot in SlotsIn(orphaned) <==> slot in Ledger() - SlotsOf(spec))
      {
        var role :| role in todo;
        ghost var before := orphaned;
        todo := todo - {role};
        if role !in spec {
          orphaned := orphaned[role := roleGroups[role]];
        } else {
          var groups := Undeclared(roleGroups[role], spec[role]);
          if |groups| > 0 {
            orphaned := orphaned[role := groups];
          }
        }
        forall slot: Slot | slot.0 !in todo
          ensures slot in SlotsIn(orphaned) <==> slot in Ledger() - SlotsOf(spec)
        {
          assert slot.0 != role ==> (slot in SlotsIn(orphaned) <==> slot in SlotsIn(before));
        }
      }
    }

    static method Undeclared(groups: seq<string>, declared: set<string>) returns (rest: seq<string>)
      ensures forall group :: group in rest <==> group in groups && group !in declared
    {
      rest := [];
      for i := 0 to |groups|
        invariant forall group :: group in rest <==> group in groups[..i] && group !in declared
      {
        if groups[i] !in declared {
          rest := rest + [groups[i]];
        }
      }
      assert groups[..|groups|] == groups;
    }

    /** Forgets one role group, and a role with its last one. */
    method RemoveRoleGroup(role: string, group: string)
      modifies this`roleGroups
      ensures Ledger() == old(Ledger()) - {(role, group)}
    {
      if role !in roleGroups {
        return;
      }
      var rest := Undeclared(roleGroups[role], {group});
      if |rest| == 0 {
        roleGroups := roleGroups - {role};
      } else {
        roleGroups := roleGroups[role := rest];
      }
      forall slot: Slot
        ensures slot in Ledger() <==> slot in old(Ledger()) - {(role, group)}
      {
        if slot.0 == role {
          assert slot.1 in rest <==> slot.1 in old(roleGroups)[role] && slot.1 != group;
        }
      }
    }
  }
}
