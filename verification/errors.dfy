/** Errors as trees, and when a tree is a wait rather than a failure. */
module Errors {
  import opened Wrappers

  const SECOND: int := 1_000_000_000
  const MIN_REQUEUE_AFTER: int := SECOND
  const DEFAULT_REQUEUE_AFTER: int := 10 * SECOND

  /** An error, `Nil` when there is none. A wrapper shows one inner error, or `Nil` when it is opaque; a
      join shows its members. */
  datatype Err =
    | Nil
    | Wait(after: int, reason: string, message: string)
    | Other(text: string)
    | RateLimit(retryAfter: int, cause: Err)
    | Wrap(text: string, inner: Err)
    | Join(members: seq<Err>)

  /** The delay a wait really gets: never zero, never a hot loop. */
  function ClampRequeueAfter(after: int): (d: int)
    ensures d >= 1_000_000_000
    ensures after >= 1_000_000_000 ==> d == after
    ensures after < 1_000_000_000 ==> d == if after > 0 then 1_000_000_000 else 10_000_000_000
  {
    if after <= 0 then DEFAULT_REQUEUE_AFTER else if after < MIN_REQUEUE_AFTER then MIN_REQUEUE_AFTER else after
  }

  /** The causes an error comes down to, from left to right. */
  function Leaves(e: Err): (leaves: seq<Err>)
    ensures leaves != []
    decreases e
  {
    match e
    case Join(members) => if members == [] then [e] else LeavesOf(members)
    case Wrap(_, inner) => if inner.Nil? then [e] else Leaves(inner)
    case RateLimit(_, cause) => if cause.Nil? then [e] else Leaves(cause)
    case _ => [e]
  }

  function LeavesOf(es: seq<Err>): (leaves: seq<Err>)
    ensures es != [] ==> leaves != []
    decreases es
  {
    if es == [] then [] else Leaves(es[0]) + LeavesOf(es[1..])
  }

  predicate OnlyWaits(leaves: seq<Err>) {
    forall i :: 0 <= i < |leaves| ==> leaves[i].Wait?
  }

  /** Nothing but waits, all the way down. */
  predicate AllWaits(e: Err) {
    OnlyWaits(Leaves(e))
  }

  /** The first of the waits with the least delay. */
  function Shortest(waits: seq<Err>): (w: Err)
    requires waits != [] && OnlyWaits(waits)
    ensures w.Wait?
  {
    if |waits| == 1 then waits[0]
    else
      var s, last := Shortest(waits[..|waits| - 1]), waits[|waits| - 1];
      if ClampRequeueAfter(last.after) < ClampRequeueAfter(s.after) then last else s
  }

  /** No leaf asks for less, and every leaf before the chosen one asks for more. */
  lemma {:induction false} ShortestIsFirstLeast(waits: seq<Err>) returns (i: nat)
    requires waits != [] && OnlyWaits(waits)
    ensures i < |waits| && waits[i] == Shortest(waits)
    ensures forall j :: 0 <= j < |waits| ==> ClampRequeueAfter(waits[i].after) <= ClampRequeueAfter(waits[j].after)
    ensures forall j :: 0 <= j < i ==> ClampRequeueAfter(waits[i].after) < ClampRequeueAfter(waits[j].after)
  {
    if |waits| == 1 {
      i := 0;
    } else {
      var front := waits[..|waits| - 1];
      i := ShortestIsFirstLeast(front);
      assert forall j :: 0 <= j < |front| ==> front[j] == waits[j];
      if ClampRequeueAfter(waits[|waits| - 1].after) < ClampRequeueAfter(front[i].after) {
        i := |waits| - 1;
      }
    }
  }

  function Sooner(a: Err, b: Err): Err
    requires a.Wait? && b.Wait?
  {
    if ClampRequeueAfter(b.after) < ClampRequeueAfter(a.after) then b else a
  }

  lemma {:induction false} ShortestOfBoth(a: seq<Err>, b: seq<Err>)
    requires a != [] && b != [] && OnlyWaits(a) && OnlyWaits(b)
    ensures OnlyWaits(a + b) && Shortest(a + b) == Sooner(Shortest(a), Shortest(b))
    decreases |b|
  {
    assert (a + b)[..|a + b| - 1] == a + b[..|b| - 1];
    if |b| == 1 {
      assert a + b[..0] == a;
    } else {
      ShortestOfBoth(a, b[..|b| - 1]);
    }
  }

  lemma OnlyWaitsOfBoth(a: seq<Err>, b: seq<Err>)
    ensures OnlyWaits(a + b) <==> OnlyWaits(a) && OnlyWaits(b)
  {
    if OnlyWaits(a + b) {
      assert forall i :: 0 <= i < |a| ==> a[i] == (a + b)[i];
      assert forall i :: 0 <= i < |b| ==> b[i] == (a + b)[|a| + i];
    }
  }

  lemma {:induction false} LeavesOfBoth(a: seq<Err>, b: seq<Err>)
    ensures LeavesOf(a + b) == LeavesOf(a) + LeavesOf(b)
    decreases |a|
  {
    if a == [] {
      assert a + b == b;
    } else {
      assert (a + b)[1..] == a[1..] + b;
      LeavesOfBoth(a[1..], b);
      assert Leaves(a[0]) + LeavesOf(a[1..]) + LeavesOf(b) == Leaves(a[0]) + (LeavesOf(a[1..]) + LeavesOf(b));
    }
  }

  lemma LeavesOfOne(e: Err)
    ensures LeavesOf([e]) == Leaves(e)
  {
    assert [e][1..] == [] && Leaves(e) + [] == Leaves(e);
  }

  /** A list comes down to waits exactly when each of its errors does. */
  lemma {:induction false} OnlyWaitsEach(es: seq<Err>)
    ensures OnlyWaits(LeavesOf(es)) <==> forall i :: 0 <= i < |es| ==> AllWaits(es[i])
    decreases |es|
  {
    if es != [] {
      OnlyWaitsOfBoth(Leaves(es[0]), LeavesOf(es[1..]));
      OnlyWaitsEach(es[1..]);
      assert forall i :: 1 <= i < |es| ==> es[i] == es[1..][i - 1];
    }
  }

  /** The wait an error amounts to: only if everything in it is a wait, and then the first with the
      least delay. */
  method WaitingErrors(e: Err) returns (wait: Option<Err>)
    ensures wait == if AllWaits(e) then Some(Shortest(Leaves(e))) else None
    decreases e
  {
    match e
    case Wait(_, _, _) => return Some(e);
    case Join(members) =>
      if |members| == 0 {
        return None;
      }
      wait := WaitingMembers(e, members);
    case Wrap(_, inner) =>
      if inner.Nil? {
        return None;
      }
      wait := WaitingErrors(inner);
    case RateLimit(_, cause) =>
      if cause.Nil? {
        return None;
      }
      wait := WaitingErrors(cause);
    case _ => return None;
  }

  method WaitingMembers(e: Err, members: seq<Err>) returns (shortest: Option<Err>)
    requires e.Join? && e.members == members && members != []
    ensures shortest == if OnlyWaits(LeavesOf(members)) then Some(Shortest(LeavesOf(members))) else None
    decreases e, 0
  {
    shortest := None;
    for i := 0 to |members|
      invariant OnlyWaits(LeavesOf(members[..i]))
      invariant shortest == if i == 0 then None else Some(Shortest(LeavesOf(members[..i])))
    {
      var wait := WaitingErrors(members[i]);
      assert members == members[..i] + members[i..] && members[i..][0] == members[i];
      LeavesOfBoth(members[..i], members[i..]);
      OnlyWaitsOfBoth(LeavesOf(members[..i]), LeavesOf(members[i..]));
      OnlyWaitsOfBoth(Leaves(members[i]), LeavesOf(members[i..][1..]));
      if wait.None? {
        return None;
      }
      assert members[..i + 1] == members[..i] + [members[i]];
      LeavesOfBoth(members[..i], [members[i]]);
      LeavesOfOne(members[i]);
      OnlyWaitsOfBoth(LeavesOf(members[..i]), Leaves(members[i]));
      if i > 0 {
        ShortestOfBoth(LeavesOf(members[..i]), Leaves(members[i]));
      }
      if shortest.None? || ClampRequeueAfter(wait.value.after) < ClampRequeueAfter(shortest.value.after) {
        shortest := wait;
      }
    }
    assert members[..|members|] == members;
  }

  /** Somewhere in the tree the API server throttled a request. */
  predicate Throttled(e: Err)
    decreases e
  {
    match e
    case RateLimit(_, _) => true
    case Wrap(_, inner) => Throttled(inner)
    case Join(members) => exists i :: 0 <= i < |members| && Throttled(members[i])
    case _ => false
  }

  /** The error at the end of a path down the tree, `Nil` where there is none. */
  function Below(e: Err, path: seq<nat>): Err
    decreases path
  {
    if path == [] then e
    else match e
      case Wrap(_, inner) => Below(inner, path[1..])
      case RateLimit(_, cause) => Below(cause, path[1..])
      case Join(members) => if path[0] < |members| then Below(members[path[0]], path[1..]) else Nil
      case _ => Nil
  }

  ghost predicate ThrottledBelow(e: Err) {
    exists path :: Below(e, path).RateLimit?
  }

  /** Throttling is found wherever in the tree it is, and nothing else is taken for it. */
  lemma {:induction false} ThrottledExactly(e: Err)
    ensures Throttled(e) <==> ThrottledBelow(e)
    decreases e
  {
    match e
    case RateLimit(_, _) =>
      assert Below(e, []).RateLimit?;
    case Wrap(_, inner) =>
      ThrottledExactly(inner);
      PathsBelow(e, 0, inner);
      if ThrottledBelow(e) {
        var path :| Below(e, path).RateLimit?;
        assert Below(inner, path[1..]).RateLimit?;
      }
    case Join(members) =>
      forall i | 0 <= i < |members|
        ensures Throttled(members[i]) <==> ThrottledBelow(members[i])
        ensures ThrottledBelow(members[i]) ==> ThrottledBelow(e)
      {
        ThrottledExactly(members[i]);
        PathsBelow(e, i, members[i]);
      }
      if ThrottledBelow(e) {
        var path :| Below(e, path).RateLimit?;
        assert Below(members[path[0]], path[1..]).RateLimit?;
      }
    case _ =>
  }

  lemma PathsBelow(e: Err, i: nat, child: Err)
    requires forall path :: path != [] && path[0] == i ==> Below(e, path) == Below(child, path[1..])
    ensures ThrottledBelow(child) ==> ThrottledBelow(e)
  {
    if ThrottledBelow(child) {
      var path :| Below(child, path).RateLimit?;
      assert ([i] + path)[1..] == path;
      assert Below(e, [i] + path).RateLimit?;
    }
  }

  /** Joins what is there; nothing when there is nothing. */
  function JoinErrors(es: seq<Err>): (e: Err)
    ensures e.Nil? <==> es == []
    ensures es != [] ==> Leaves(e) == LeavesOf(es)
  {
    if es == [] then Nil else Join(es)
  }
}
