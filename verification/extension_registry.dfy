/** The extensions of a product: the order they run in, and what becomes of their errors. */
module Extensions {
  import opened Wrappers
  import opened Errors

  datatype Entry = Entry(extension: string, priority: int, seqNo: nat, stopOnError: Option<bool>)

  datatype HookPolicy = HookPolicy(stopOnError: bool, aggregate: bool)

  /** Higher priority first, then earlier registration. */
  predicate Before(a: Entry, b: Entry) {
    if a.priority != b.priority then a.priority > b.priority else a.seqNo < b.seqNo
  }

  ghost predicate Ordered(entries: seq<Entry>) {
    forall i, j :: 0 <= i < j < |entries| ==> Before(entries[i], entries[j])
  }

  /** Puts a new entry, the latest registered, into its place. */
  method Place(entries: seq<Entry>, entry: Entry) returns (r: seq<Entry>)
    requires Ordered(entries) && forall i :: 0 <= i < |entries| ==> entries[i].seqNo < entry.seqNo
    ensures Ordered(r) && multiset(r) == multiset(entries) + multiset{entry}
    ensures forall i :: 0 <= i < |r| ==> r[i].seqNo <= entry.seqNo
  {
    var i := 0;
    while i < |entries| && Before(entries[i], entry)
      invariant 0 <= i <= |entries|
      invariant forall j :: 0 <= j < i ==> Before(entries[j], entry)
    {
      i := i + 1;
    }
    r := entries[..i] + [entry] + entries[i..];
    Placed(entries, i, entry);
  }

  lemma Placed(entries: seq<Entry>, i: nat, entry: Entry)
    requires i <= |entries| && Ordered(entries)
    requires forall j :: 0 <= j < i ==> Before(entries[j], entry)
    requires i < |entries| ==> Before(entry, entries[i])
    ensures var r := entries[..i] + [entry] + entries[i..];
      Ordered(r) && multiset(r) == multiset(entries) + multiset{entry}
  {
    assert entries == entries[..i] + entries[i..];
    var r := entries[..i] + [entry] + entries[i..];
    forall x, y | 0 <= x < y < |r|
      ensures Before(r[x], r[y])
    {
      InOrder(entries, i, entry, x, y);
    }
  }

  lemma InOrder(entries: seq<Entry>, i: nat, entry: Entry, x: nat, y: nat)
    requires i <= |entries| && Ordered(entries) && x < y <= |entries|
    requires forall j :: 0 <= j < i ==> Before(entries[j], entry)
    requires i < |entries| ==> Before(entry, entries[i])
    ensures var r := entries[..i] + [entry] + entries[i..]; Before(r[x], r[y])
  {
    var r := entries[..i] + [entry] + entries[i..];
    assert r[x] == if x < i then entries[x] else if x == i then entry else entries[x - 1];
    assert r[y] == if y < i then entries[y] else if y == i then entry else entries[y - 1];
    assert x == i && i < y - 1 ==> Before(entries[i], entries[y - 1]);
  }

  class ExtensionRegistry {
    var entries: seq<Entry>
    var nextSeq: nat

    ghost predicate Valid()
      reads this
    {
      Ordered(entries) && forall i :: 0 <= i < |entries| ==> entries[i].seqNo < nextSeq
    }

    constructor ()
      ensures Valid() && entries == []
    {
      entries, nextSeq := [], 0;
    }

    method TakeSeq() returns (s: nat)
      modifies this`nextSeq
      ensures s == old(nextSeq) && nextSeq == s + 1
    {
      s := nextSeq;
      nextSeq := nextSeq + 1;
    }

    /** Registers an extension; the entries stay in the order in which they run. */
    method Register(extension: string, priority: int, stopOnError: Option<bool>)
      requires Valid()
      modifies this
      ensures Valid() && nextSeq == old(nextSeq) + 1
      ensures multiset(entries) == multiset(old(entries)) + multiset{Entry(extension, priority, old(nextSeq), stopOnError)}
    {
      var s := TakeSeq();
      entries := Place(entries, Entry(extension, priority, s, stopOnError));
    }
  }

  // ---------------------------------------------------------------------------------------------
  // Running the hooks
  // ---------------------------------------------------------------------------------------------

  /** An entry's own setting, or else the default of the hook. */
  function StopsOnError(entry: Entry, hookDefault: bool): (stops: bool)
    ensures stops <==> entry.stopOnError == Some(true) || (entry.stopOnError.None? && hookDefault)
  {
    if entry.stopOnError.Some? then entry.stopOnError.value else hookDefault
  }

  /** A failure that is not a wait ends the loop if the entry says so. */
  predicate Stops(entry: Entry, policy: HookPolicy, outcome: Err) {
    && !outcome.Nil?
    && !AllWaits(outcome)
    && (entry.stopOnError == Some(true) || (entry.stopOnError.None? && policy.stopOnError))
  }

  /** A wait and a failure that ends the loop are reported in any case. */
  predicate Kept(entry: Entry, policy: HookPolicy, outcome: Err) {
    !outcome.Nil? && (AllWaits(outcome) || Stops(entry, policy, outcome) || policy.aggregate)
  }

  /** The errors that are reported. */
  function Reported(entries: seq<Entry>, policy: HookPolicy, outcomes: seq<Err>): seq<Err>
    requires |entries| == |outcomes|
    decreases |entries|
  {
    if entries == [] then []
    else (if Kept(entries[0], policy, outcomes[0]) then [outcomes[0]] else []) + Reported(entries[1..], policy, outcomes[1..])
  }

  lemma {:induction false} ReportedNext(entries: seq<Entry>, policy: HookPolicy, outcomes: seq<Err>, n: nat)
    requires |entries| == |outcomes| && n < |entries|
    ensures Reported(entries[..n + 1], policy, outcomes[..n + 1]) ==
      Reported(entries[..n], policy, outcomes[..n]) + (if Kept(entries[n], policy, outcomes[n]) then [outcomes[n]] else [])
  {
    if n == 0 {
      assert entries[..1][1..] == [] && outcomes[..1][1..] == [];
    } else {
      assert entries[..n + 1][1..] == entries[1..][..n] && outcomes[..n + 1][1..] == outcomes[1..][..n];
      assert entries[..n][1..] == entries[1..][..n - 1] && outcomes[..n][1..] == outcomes[1..][..n - 1];
      ReportedNext(entries[1..], policy, outcomes[1..], n - 1);
    }
  }

  /** Every error there is, is a wait. */
  predicate NilOrWaits(outcomes: seq<Err>) {
    forall i :: 0 <= i < |outcomes| ==> outcomes[i].Nil? || AllWaits(outcomes[i])
  }

  predicate AllNil(outcomes: seq<Err>) {
    forall i :: 0 <= i < |outcomes| ==> outcomes[i].Nil?
  }

  lemma NilOrWaitsFirst(outcomes: seq<Err>)
    requires outcomes != []
    ensures NilOrWaits(outcomes) <==> (outcomes[0].Nil? || AllWaits(outcomes[0])) && NilOrWaits(outcomes[1..])
    ensures AllNil(outcomes) <==> outcomes[0].Nil? && AllNil(outcomes[1..])
  {
    assert forall i :: 1 <= i < |outcomes| ==> outcomes[i] == outcomes[1..][i - 1];
  }

  lemma {:induction false} ReportedEach(entries: seq<Entry>, policy: HookPolicy, outcomes: seq<Err>)
    requires |entries| == |outcomes| && policy.aggregate
    ensures OnlyWaits(LeavesOf(Reported(entries, policy, outcomes))) <==> NilOrWaits(outcomes)
    ensures Reported(entries, policy, outcomes) == [] <==> AllNil(outcomes)
    decreases |entries|
  {
    if entries != [] {
      var rest := Reported(entries[1..], policy, outcomes[1..]);
      ReportedEach(entries[1..], policy, outcomes[1..]);
      NilOrWaitsFirst(outcomes);
      if outcomes[0].Nil? {
        assert Reported(entries, policy, outcomes) == rest;
      } else {
        LeavesOfBoth([outcomes[0]], rest);
        LeavesOfOne(outcomes[0]);
        OnlyWaitsOfBoth(Leaves(outcomes[0]), LeavesOf(rest));
      }
    }
  }

  /** Each error in a wrapper of its own shows the same leaves. */
  lemma {:induction false} WrappedLeaves(errs: seq<Err>, outcomes: seq<Err>)
    requires |errs| == |outcomes|
    requires forall i :: 0 <= i < |errs| ==> Leaves(errs[i]) == Leaves(outcomes[i])
    ensures LeavesOf(errs) == LeavesOf(outcomes)
    decreases |errs|
  {
    if errs != [] {
      WrappedLeaves(errs[1..], outcomes[1..]);
    }
  }

  /** Which of the hooks ran: all of them, or those up to the first that stops the loop. */
  ghost predicate Ran(entries: seq<Entry>, policy: HookPolicy, outcomes: seq<Err>, n: nat)
    requires |entries| == |outcomes|
  {
    && n <= |entries|
    && (forall i :: 0 <= i < n && i + 1 < n ==> !Stops(entries[i], policy, outcomes[i]))
    && (n < |entries| ==> n > 0 && Stops(entries[n - 1], policy, outcomes[n - 1]))
  }

  ghost predicate SameLeaves(errs: seq<Err>, outcomes: seq<Err>) {
    |errs| == |outcomes| && forall i :: 0 <= i < |errs| ==> Leaves(errs[i]) == Leaves(outcomes[i])
  }

  /** `err` holds the leaves of these errors, and there is none without them. */
  predicate Holds(err: Err, reported: seq<Err>) {
    (err.Nil? <==> reported == []) && (reported != [] ==> Leaves(err) == LeavesOf(reported))
  }

  /** The first `n` hooks are those that run, and `err` holds what they report. */
  ghost predicate Executed(entries: seq<Entry>, policy: HookPolicy, outcomes: seq<Err>, err: Err, n: nat)
    requires |entries| == |outcomes|
  {
    Ran(entries, policy, outcomes, n) && Holds(err, Reported(entries[..n], policy, outcomes[..n]))
  }

  /** Runs the hooks in order; `outcomes` is what each of them returns when it is run. */
  method ExecuteHooks(entries: seq<Entry>, policy: HookPolicy, outcomes: seq<Err>) returns (err: Err)
    requires |entries| == |outcomes|
    ensures exists ran :: Executed(entries, policy, outcomes, err, ran)
  {
    ghost var ran := 0;
    var errs: seq<Err> := [];
    for i := 0 to |entries|
      invariant forall j :: 0 <= j < i ==> !Stops(entries[j], policy, outcomes[j])
      invariant SameLeaves(errs, Reported(entries[..i], policy, outcomes[..i]))
    {
      ReportedNext(entries, policy, outcomes, i);
      if outcomes[i].Nil? {
        continue;
      }
      var extensionErr := Wrap(entries[i].extension, outcomes[i]);
      var wait := WaitingErrors(outcomes[i]);
      if wait.Some? {
        errs := errs + [extensionErr];
        continue;
      }
      if StopsOnError(entries[i], policy.stopOnError) {
        ran := i + 1;
        WrappedLeaves(errs + [extensionErr], Reported(entries[..ran], policy, outcomes[..ran]));
        if |errs| == 0 {
          LeavesOfOne(extensionErr);
          assert errs + [extensionErr] == [extensionErr];
          assert Executed(entries, policy, outcomes, extensionErr, ran);
          return extensionErr;
        }
        err := JoinErrors(errs + [extensionErr]);
        assert Executed(entries, policy, outcomes, err, ran);
        return;
      }
      if policy.aggregate {
        errs := errs + [extensionErr];
      }
    }
    ran := |entries|;
    WrappedLeaves(errs, Reported(entries[..ran], policy, outcomes[..ran]));
    err := JoinErrors(errs);
    assert Executed(entries, policy, outcomes, err, ran);
  }

  /** What the hooks report is a wait exactly when every error raised by those that ran is one: a
      genuine failure is never taken for a wait. */
  lemma {:induction false} HooksNeverLaunder(entries: seq<Entry>, policy: HookPolicy, outcomes: seq<Err>, err: Err)
    requires |entries| == |outcomes| && policy.aggregate
    requires Holds(err, Reported(entries, policy, outcomes))
    ensures err.Nil? <==> AllNil(outcomes)
    ensures !err.Nil? ==> (AllWaits(err) <==> NilOrWaits(outcomes))
  {
    ReportedEach(entries, policy, outcomes);
  }

  function NonNil(es: seq<Err>): seq<Err> {
    if es == [] then [] else (if es[0].Nil? then [] else [es[0]]) + NonNil(es[1..])
  }

  lemma {:induction false} NonNilOfBoth(a: seq<Err>, b: seq<Err>)
    ensures NonNil(a + b) == NonNil(a) + NonNil(b)
    decreases |a|
  {
    if a == [] {
      assert a + b == b;
    } else {
      assert (a + b)[1..] == a[1..] + b;
      NonNilOfBoth(a[1..], b);
    }
  }

  lemma {:induction false} AggregatedAll(entries: seq<Entry>, policy: HookPolicy, outcomes: seq<Err>)
    requires |entries| == |outcomes| && policy.aggregate
    ensures Reported(entries, policy, outcomes) == NonNil(outcomes)
    decreases |entries|
  {
    if entries != [] {
      AggregatedAll(entries[1..], policy, outcomes[1..]);
    }
  }

  /** `err` stands for everything in `outcomes`: nothing if there is nothing, a wait exactly when all of
      it is waits, and then the very same waits. */
  predicate StandsFor(err: Err, outcomes: seq<Err>) {
    && (err.Nil? <==> AllNil(outcomes))
    && (!err.Nil? ==> (AllWaits(err) <==> NilOrWaits(outcomes)))
    && (!err.Nil? && NilOrWaits(outcomes) ==> Leaves(err) == LeavesOf(NonNil(outcomes)))
  }

  /** The leaf is one of an error that was raised. */
  ghost predicate RaisedIn(leaf: Err, outcomes: seq<Err>) {
    exists i :: 0 <= i < |outcomes| && !outcomes[i].Nil? && leaf in Leaves(outcomes[i])
  }

  /** None of these leaves is invented. */
  ghost predicate Raised(leaves: seq<Err>, outcomes: seq<Err>) {
    forall leaf :: leaf in leaves ==> RaisedIn(leaf, outcomes)
  }

  lemma RaisedWidens(leaves: seq<Err>, before: seq<Err>, outcomes: seq<Err>, after: seq<Err>)
    requires Raised(leaves, outcomes)
    ensures Raised(leaves, before + outcomes + after)
  {
    forall leaf | leaf in leaves
      ensures RaisedIn(leaf, before + outcomes + after)
    {
      var i :| 0 <= i < |outcomes| && !outcomes[i].Nil? && leaf in Leaves(outcomes[i]);
      assert (before + outcomes + after)[|before| + i] == outcomes[i];
    }
  }

  lemma RaisedBoth(left: seq<Err>, right: seq<Err>, outcomes: seq<Err>)
    requires Raised(left, outcomes) && Raised(right, outcomes)
    ensures Raised(left + right, outcomes)
  {
  }

  lemma RaisedItself(err: Err, outcomes: seq<Err>)
    requires err in outcomes && !err.Nil?
    ensures Raised(Leaves(err), outcomes)
  {
  }

  lemma {:induction false} NonNilRaised(outcomes: seq<Err>)
    ensures Raised(LeavesOf(NonNil(outcomes)), outcomes)
  {
    if outcomes != [] {
      var first, rest := outcomes[0], outcomes[1..];
      NonNilRaised(rest);
      RaisedWidens(LeavesOf(NonNil(rest)), [first], rest, []);
      assert [first] + rest + [] == outcomes;
      if first.Nil? {
        assert NonNil(outcomes) == NonNil(rest);
      } else {
        assert NonNil(outcomes) == [first] + NonNil(rest);
        LeavesOfBoth([first], NonNil(rest));
        LeavesOfOne(first);
        RaisedItself(first, outcomes);
        RaisedBoth(Leaves(first), LeavesOf(NonNil(rest)), outcomes);
      }
    }
  }

  const RECONCILE_HOOK_POLICY := HookPolicy(true, true)

  /** The hooks after this one still run: it succeeded, it waits, or its failure is tolerated. */
  predicate PassesOn(entry: Entry, outcome: Err) {
    outcome.Nil? || AllWaits(outcome) || entry.stopOnError == Some(false)
  }

  lemma StopsOrPasses(entry: Entry, outcome: Err)
    ensures Stops(entry, RECONCILE_HOOK_POLICY, outcome) <==> !PassesOn(entry, outcome)
  {
    match entry.stopOnError
    case None =>
    case Some(stops) =>
      assert stops || !stops;
  }

  /** The hooks that run are the first `n`: all of them, or those up to the first that does not pass on. */
  ghost predicate RunTo(entries: seq<Entry>, outcomes: seq<Err>, n: nat)
    requires |entries| == |outcomes|
  {
    && n <= |entries|
    && (forall i :: 0 <= i < n - 1 ==> PassesOn(entries[i], outcomes[i]))
    && (n < |entries| ==> n > 0 && !PassesOn(entries[n - 1], outcomes[n - 1]))
  }

  ghost predicate Summed(entries: seq<Entry>, outcomes: seq<Err>, err: Err, n: nat)
    requires |entries| == |outcomes|
  {
    RunTo(entries, outcomes, n) && Holds(err, NonNil(outcomes[..n]))
  }

  /** The hooks of one phase. The error holds everything that the hooks that ran raised. */
  method RunHooks(entries: seq<Entry>, outcomes: seq<Err>) returns (err: Err)
    requires |entries| == |outcomes|
    ensures StandsFor(err, outcomes)
    ensures !err.Nil? ==> Raised(Leaves(err), outcomes)
    ensures exists n :: Summed(entries, outcomes, err, n)
  {
    err := ExecuteHooks(entries, RECONCILE_HOOK_POLICY, outcomes);
    ghost var ran: nat :| Executed(entries, RECONCILE_HOOK_POLICY, outcomes, err, ran);
    var front := outcomes[..ran];
    HooksNeverLaunder(entries[..ran], RECONCILE_HOOK_POLICY, front, err);
    AggregatedAll(entries[..ran], RECONCILE_HOOK_POLICY, front);
    forall i | 0 <= i < |entries|
      ensures Stops(entries[i], RECONCILE_HOOK_POLICY, outcomes[i]) <==> !PassesOn(entries[i], outcomes[i])
    {
      StopsOrPasses(entries[i], outcomes[i]);
    }
    assert Summed(entries, outcomes, err, ran);
    NonNilRaised(front);
    RaisedWidens(LeavesOf(NonNil(front)), [], front, outcomes[ran..]);
    assert [] + front + outcomes[ran..] == outcomes;
    if ran < |entries| {
      assert front[ran - 1] == outcomes[ran - 1];
    } else {
      assert front == outcomes;
    }
  }
}
