/** The name every resource of one role group derives from. */
module ResourceNames {
  const MAX_ROLE_GROUP_NAME_LEN: nat := 54
  const HASH_LEN: nat := 8

  /** Removes every '-' from the end. */
  function TrimRight(s: string): (r: string)
    ensures r <= s && (r == "" || r[|r| - 1] != '-')
    ensures forall i :: |r| <= i < |s| ==> s[i] == '-'
  {
    if s != "" && s[|s| - 1] == '-' then TrimRight(s[..|s| - 1]) else s
  }

  function Joined(cluster: string, role: string, group: string): string {
    cluster + "-" + role + "-" + group
  }

  /** `digest` stands for the hexadecimal SHA-256 digest of a name. */
  function RoleGroupResourceName(cluster: string, role: string, group: string, digest: string -> string): string {
    var name := Joined(cluster, role, group);
    if |name| <= MAX_ROLE_GROUP_NAME_LEN then name
    else
      var suffix := if |digest(name)| < HASH_LEN then digest(name) else digest(name)[..HASH_LEN];
      TrimRight(name[..MAX_ROLE_GROUP_NAME_LEN - |suffix| - 1]) + "-" + suffix
  }

  /** A name of at most 54 characters is the joined one; a longer one is what of its first 45 characters is
      left without dashes at the end, a dash, and the first eight digits of its digest. */
  lemma NameExactly(cluster: string, role: string, group: string, digest: string -> string)
    requires |digest(Joined(cluster, role, group))| >= 8
    ensures var name, r := cluster + "-" + role + "-" + group, RoleGroupResourceName(cluster, role, group, digest);
      if |name| <= 54 then r == name
      else
        && 9 <= |r| <= 54
        && r[|r| - 9] == '-'
        && r[|r| - 8..] == digest(name)[..8]
        && r[..|r| - 9] <= name[..45]
        && (forall i :: |r| - 9 <= i < 45 ==> name[i] == '-')
        && (|r| > 9 ==> r[|r| - 10] != '-')
  {
    var name := Joined(cluster, role, group);
    if |name| > 54 {
      var head, suffix := TrimRight(name[..45]), digest(name)[..8];
      var r := head + "-" + suffix;
      assert r[..|head|] == head && r[|head| + 1..] == suffix;
    }
  }

  /** Cut names differ if the digests behind them begin differently. */
  lemma CutNamesDiffer(cluster: string, r1: string, g1: string, r2: string, g2: string, digest: string -> string)
    requires var a, b := Joined(cluster, r1, g1), Joined(cluster, r2, g2);
      |a| > 54 && |b| > 54 && |digest(a)| >= 8 && |digest(b)| >= 8 && digest(a)[..8] != digest(b)[..8]
    ensures RoleGroupResourceName(cluster, r1, g1, digest) != RoleGroupResourceName(cluster, r2, g2, digest)
  {
    NameExactly(cluster, r1, g1, digest);
    NameExactly(cluster, r2, g2, digest);
  }

  /** Even with the longest suffix the framework appends, the name stays within a DNS label. */
  lemma NameFitsLabel(cluster: string, role: string, group: string, digest: string -> string)
    ensures |RoleGroupResourceName(cluster, role, group, digest) + "-headless"| <= 63
  {
  }

  predicate Uncut(cluster: string, role: string, group: string) {
    |Joined(cluster, role, group)| <= MAX_ROLE_GROUP_NAME_LEN
  }

  /** The second role's name goes on where the first one's ends, with a '-', and the groups make up for
      it. */
  ghost predicate Overlaps(r1: string, g1: string, r2: string, g2: string) {
    exists x :: Overlap(r1, g1, r2, g2, x)
  }

  predicate Overlap(r1: string, g1: string, r2: string, g2: string, x: string) {
    r2 == r1 + "-" + x && g1 == x + "-" + g2
  }

  lemma SameTail(cluster: string, r1: string, g1: string, r2: string, g2: string)
    ensures Joined(cluster, r1, g1) == Joined(cluster, r2, g2) <==> r1 + "-" + g1 == r2 + "-" + g2
  {
    var a, b := Joined(cluster, r1, g1), Joined(cluster, r2, g2);
    assert a == cluster + "-" + (r1 + "-" + g1) && b == cluster + "-" + (r2 + "-" + g2);
    assert a[|cluster| + 1..] == r1 + "-" + g1 && b[|cluster| + 1..] == r2 + "-" + g2;
  }

  lemma OverlapFound(r1: string, g1: string, r2: string, g2: string)
    requires r1 + "-" + g1 == r2 + "-" + g2 && |r1| < |r2|
    ensures Overlaps(r1, g1, r2, g2)
  {
    var tail, x := r1 + "-" + g1, r2[|r1| + 1..];
    assert r2 == tail[..|r2|] && tail[..|r1| + 1] == r1 + "-" && r2[..|r1| + 1] == tail[..|r1| + 1];
    assert r2 == r1 + "-" + x;
    assert g1 == tail[|r1| + 1..] && tail == r1 + "-" + (x + "-" + g2);
    assert Overlap(r1, g1, r2, g2, x);
  }

  /** As long as nothing is cut, two role groups share a name exactly when they are the same, or one
      role's name is the other's with a '-' and more behind it and the group names make up for it. */
  lemma {:induction false} NamesCoincide(cluster: string, r1: string, g1: string, r2: string, g2: string, digest: string -> string)
    requires Uncut(cluster, r1, g1) && Uncut(cluster, r2, g2)
    ensures RoleGroupResourceName(cluster, r1, g1, digest) == RoleGroupResourceName(cluster, r2, g2, digest) <==>
      (r1 == r2 && g1 == g2) || Overlaps(r1, g1, r2, g2) || Overlaps(r2, g2, r1, g1)
  {
    SameTail(cluster, r1, g1, r2, g2);
    if x :| Overlap(r1, g1, r2, g2, x) {
      assert r1 + "-" + (x + "-" + g2) == r1 + "-" + x + "-" + g2;
    }
    if x :| Overlap(r2, g2, r1, g1, x) {
      assert r2 + "-" + (x + "-" + g1) == r2 + "-" + x + "-" + g1;
    }
    if r1 + "-" + g1 == r2 + "-" + g2 {
      if |r1| < |r2| {
        OverlapFound(r1, g1, r2, g2);
      } else if |r2| < |r1| {
        OverlapFound(r2, g2, r1, g1);
      } else {
        assert r1 == (r1 + "-" + g1)[..|r1|] && r2 == (r2 + "-" + g2)[..|r2|];
        assert g1 == (r1 + "-" + g1)[|r1| + 1..] && g2 == (r2 + "-" + g2)[|r2| + 1..];
      }
    }
  }

  /** Some groups of the two roles share an uncut name. */
  ghost predicate Confusable(cluster: string, r1: string, r2: string, digest: string -> string) {
    exists g1, g2 :: Confused(cluster, r1, g1, r2, g2, digest)
  }

  ghost predicate Confused(cluster: string, r1: string, g1: string, r2: string, g2: string, digest: string -> string) {
    && g1 != "" && g2 != ""
    && Uncut(cluster, r1, g1) && Uncut(cluster, r2, g2)
    && RoleGroupResourceName(cluster, r1, g1, digest) == RoleGroupResourceName(cluster, r2, g2, digest)
  }

  /** Two roles can be confused exactly when one's name is the beginning of the other's up to a '-', and
      the longer one leaves room for a group. */
  lemma {:induction false} RolesConfusable(cluster: string, r1: string, r2: string, digest: string -> string)
    requires r1 != r2
    ensures Confusable(cluster, r1, r2, digest) <==>
      (r1 + "-" <= r2 && Uncut(cluster, r2, "x")) || (r2 + "-" <= r1 && Uncut(cluster, r1, "x"))
  {
    if g1, g2 :| Confused(cluster, r1, g1, r2, g2, digest) {
      NamesCoincide(cluster, r1, g1, r2, g2, digest);
      if x :| Overlap(r1, g1, r2, g2, x) {
        assert r2[..|r1| + 1] == r1 + "-";
      }
      if x :| Overlap(r2, g2, r1, g1, x) {
        assert r1[..|r2| + 1] == r2 + "-";
      }
    }
    if r1 + "-" <= r2 && Uncut(cluster, r2, "x") {
      ConfusedBy(cluster, r1, r2, digest);
    }
    if r2 + "-" <= r1 && Uncut(cluster, r1, "x") {
      ConfusedBy(cluster, r2, r1, digest);
      var g2 := r1[|r2| + 1..] + "-x";
      assert Confused(cluster, r1, "x", r2, g2, digest);
    }
  }

  lemma ConfusedBy(cluster: string, r1: string, r2: string, digest: string -> string)
    requires r1 + "-" <= r2 && Uncut(cluster, r2, "x")
    ensures Confused(cluster, r1, r2[|r1| + 1..] + "-x", r2, "x", digest)
  {
    var x := r2[|r1| + 1..];
    assert r2 == r1 + "-" + x && x + "-x" == x + "-" + "x";
    assert Overlap(r1, x + "-x", r2, "x", x);
    assert Overlaps(r1, x + "-x", r2, "x");
    NamesCoincide(cluster, r1, x + "-x", r2, "x", digest);
  }

  /** Roles without a '-' keep the names of different role groups apart, as long as nothing is cut. */
  lemma NamesDistinct(cluster: string, r1: string, g1: string, r2: string, g2: string, digest: string -> string)
    requires '-' !in r1 && '-' !in r2
    requires Uncut(cluster, r1, g1) && Uncut(cluster, r2, g2)
    requires RoleGroupResourceName(cluster, r1, g1, digest) == RoleGroupResourceName(cluster, r2, g2, digest)
    ensures r1 == r2 && g1 == g2
  {
    NamesCoincide(cluster, r1, g1, r2, g2, digest);
    OverlapsAtDash(r1, g1, r2, g2);
    OverlapsAtDash(r2, g2, r1, g1);
  }

  lemma OverlapsAtDash(r1: string, g1: string, r2: string, g2: string)
    ensures Overlaps(r1, g1, r2, g2) ==> '-' in r2
  {
    if x :| Overlap(r1, g1, r2, g2, x) {
      assert r2[|r1|] == '-';
    }
  }

  /** With a '-' in a role name they can coincide. */
  lemma NamesCollide(cluster: string, digest: string -> string)
    ensures RoleGroupResourceName(cluster, "a-b", "c", digest) == RoleGroupResourceName(cluster, "a", "b-c", digest)
  {
    assert Joined(cluster, "a-b", "c") == cluster + "-a-b-c" == Joined(cluster, "a", "b-c");
  }
}
