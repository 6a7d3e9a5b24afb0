# Verified model of the operator framework's protocols

This project models the parts of a Kubernetes operator framework that are algorithms rather than
object construction, and proves what they promise over every input and every run.

* **Orphan teardown.** `ApiServer` is the API server as the cleaner meets it: a store of objects, a
  clock, and a script that says, before every single call, what the environment does (time passes, a
  StatefulSet drains, finalizers clear and free what was being deleted), whether the call fails, whether it took
  effect all the same, and what a lagging cache answers. `RoleGroupCleaner` and `ClusterCleaner` are the
  cleaner's methods, call by call, against that server. A process that dies in the middle of a pass is
  a pass whose remaining calls all fail without effect, so every contract that does not ask for an
  error-free pass covers every crash point. `CleanupRuns` states the theorems over whole runs of passes.
* **Text formats.** `.properties` and environment files: what the printers write, what the hand-written
  parsers read, and that the two fit together; wrapped lines, padding, Unicode escapes, and a POSIX
  shell as a second reader.
* **Apply.** Merging the desired StatefulSet or Service onto the live one, in place, next to a second
  writer.
* **Write-once Secret and RBAC grant.** Small protocols over optimistic concurrency, with other actors
  stepping in before every request.
* **Layered configuration.** The fold of resources, timeouts, logging and affinity.
* **Waiting or failing.** Error trees, hooks, and the verdict of one reconcile pass.
* **log4j2 logger ids.** Distinct identifiers from colliding names.

Code that changes objects step by step is a class or a method with loops, proved against a
specification; code made of expressions is functions and lemmas. Durations are nanoseconds, annotations
that hold a time hold whole seconds, strings are sequences of Unicode scalar values. SHA-256 is a
parameter (`digest`).

## Where the code and its promises part

Each of these is proved, with the exact condition or a concrete input.

* A written `.properties` map is read back exactly if each of its lines fits the scanner's 64 KiB buffer
  (`PropertiesRoundTrip.RoundTrip`); otherwise reading it is an error.
* A comment in a `.properties` file that ends in an odd run of backslashes swallows the line after it
  (`PropertiesLines.CommentSwallows`); any other comment is skipped (`PropertiesLines.CommentAnywhere`).
* In a hand-written file `a = b` reads as the value `= b`: a space before the separator is itself taken
  for the separator (`PropertiesLayout.Padding`, exact; `PropertiesLayout.SpacedEquals`).
* The wakeup of a grace period is not positive exactly when the clock, read a second time, is half a
  second past the deadline; such a wakeup is dropped, and the pass comes back by its other wakeups only
  (`GrayDelete.WakeupIsNotEarly`, `GrayDelete.WakeupCanVanish`, `OrphanCleanup.ClusterCleaner.StaleWakeup`).
* The guard that spares a live group's derived Services does not cover an orphan whose own name is such
  a derived name (`CleanupRuns.GuardIsExact`, exact).
* Names of role groups that are not cut coincide exactly when one role's name is the other's with a `-`
  and more behind it and the group names make up for it (`ResourceNames.NamesCoincide`, exact for two
  groups; `ResourceNames.RolesConfusable`, exact for two roles; `ResourceNames.NamesCollide`).
* A revocation over a stale read of the binding, or of a binding that a finalizer holds, leaves the
  binding without its Role (`WorkloadRbac.RevokedExactly`, exact for the answers that
  `ReclaimWorkloadRBAC` got; `WorkloadRbac.StaleRevokeDangles`).
* A Service port that reuses another port's name takes over its node port, so two ports can end up with
  one (`ApplyService.KeepsNodePort`, exact; `ApplyService.ReusedNameCollides`).
* A call that loses the race to create a Secret returns the winner's, which may lack a key
  (`GeneratedSecret.BeatenTakesTheWinners`). Every version of the Secret has a key exactly if every
  write that took effect carried it (`GeneratedSecret.KeyEverywhere`, exact over every run).
* Restored volume mounts come in map order, so a second apply is equal up to that order. It changes
  nothing at all, whatever the order, exactly if the claim templates are as asked for or no container
  gets the mounts of two preserved claims back (`Apply.SteadyExactly`, exact).
* No grace period is granted to a group without primary resources of its own, or with a primary of
  somebody else that nobody is deleting; with current reads the gate opens for no other reason but a
  mark that is old enough (`Cleaner.RoleGroupCleaner.CheckOrMarkGrayDelete`).

## Assumptions

* One worker per cluster resource: passes over one cluster do not overlap.
* During a pass nobody else creates or deletes objects, scales an orphan up, or changes labels, selectors,
  owners or claim templates; between two passes anything may happen but for what a theorem says about
  the orphan's own objects. Statements that speak of ownership at the
  moment of a deletion ask, in addition, that no foreign object takes a name over (`NamesStable`).
* The API server is assumed to create only what is absent, to compare resource versions on updates and
  to keep a roleRef immutable, and nothing else.
* Go's library does what it documents: sorting, map iteration in any order, `strings`, `bufio.Scanner`
  with its default buffer, time arithmetic. Conflict retries are those of `retry.DefaultBackoff`, four
  attempts.
* Affinity terms, quantities, policy rules and the unmanaged rest of an object are opaque strings. The
  containers of a pod template are one list, init containers first.

## Model

| member | source | states |
|---|---|---|
| CleanupRuns.DeletionsInOrder | pkg/reconciler/cleaner.go:677-768 | with current reads, every deletion in every pass, whatever fails, is of a vanished role's budget or belongs to one orphan and is in turn: no later kind goes while an earlier owned one exists; a claim or the StatefulSet goes only at zero desired replicas with no pod left or a drain clock that is older than the configured timeout (ten minutes if none is configured); a claim goes only if the cluster's annotation says "true" and it matches the selector of the orphan's own StatefulSet; an extra resource goes only if it is owned, of a registered kind and carries the orphan's labels |
| CleanupRuns.ClaimsSurvive | pkg/reconciler/cleaner.go:291-298 | as long as the cluster's annotation does not say "true", no run of passes, with stale reads and failures anywhere, deletes a claim: one that was not being deleted is still there after every pass |
| CleanupRuns.GraceOverRun | pkg/reconciler/cleaner.go:915-990 | in every run of passes with current reads, with failures anywhere, until the grace period, counted from a time the group was already orphaned, is over (to the second the marks are stored in), nothing is deleted for it and nothing but marks is written to its primaries: it keeps its replicas, and no drain begins; no teardown of another group touches its primaries, what carries the labels of its extra resources, or the claims of its StatefulSet, if no other StatefulSet's selector can match them |
| CleanupRuns.GateStaysOpen | pkg/reconciler/cleaner.go:915-1005 | once the gate of a teardown is open it stays open in every run of passes with current reads, through failures and while StatefulSet and ConfigMap disappear one after the other; no pass waits for the grace period again |
| CleanupRuns.FreshGrace | pkg/reconciler/cleaner.go:300-315 | with current reads, a group that was reset while declared, as every declared group is by a pass without a refused request, starts a full grace period when it is removed again, whatever its earlier teardowns left behind |
| CleanupRuns.AllCleared | pkg/reconciler/cleaner.go:300-315 | a pass that had no request refused has reset every declared group |
| CleanupRuns.PrunedForGood | pkg/reconciler/cleaner.go:385-392 | a role group leaves the ledger only if the spec does not declare it and, the last look being an uncached one, nothing of it (object by object: its named resources, derived Services, labelled extras, as far as this cluster controls them) is in the store, then or at any later pass, as long as nobody creates an object of its own between passes |
| CleanupRuns.RedoForgetsAgain | pkg/reconciler/cleaner.go:744-823 | if the status write is lost, an error-free pass over the same spec and ledger forgets the role group again, as long as nobody creates an object of its own |
| CleanupRuns.TeardownEnds | pkg/reconciler/cleaner.go:677-768 | a sequence of error-free passes longer than the orphan's measure contains one that reclaimed it or found it waiting for its grace period, the drain of its StatefulSet, or a finalizer on an object of its own; between the passes anything may happen to other objects |
| CleanupRuns.DiligentPass | pkg/reconciler/cleaner.go:364-403 | one error-free pass, as every pass without a refused request is, reclaims a remembered orphan, finds it waiting for one of these, or strictly decreases its measure |
| CleanupRuns.GuardIsExact | pkg/reconciler/cleaner.go:730-742 | the guard on derived names spares every resource of a declared group exactly if the orphan's own name is neither the group's nor one of its derived names |
| CleanupRuns.StepOrder | pkg/reconciler/cleaner.go:700-752 | what the position of a step in the teardown means for the objects that are gone when it deletes, for the drain, for the claim's StatefulSet and for the extra resource's labels |
| CleanupRuns.OthersMissGroup | pkg/reconciler/cleaner.go:1198-1389 | with current reads, what goes for one orphan is no primary, labelled extra resource or claim of another group |
| TeardownSteps.PrimariesApart | pkg/reconciler/cleaner.go:700-752 | no step of one group's teardown reaches the primary resources of another |
| TeardownSteps.StepLawful | pkg/reconciler/cleaner.go:700-752 | a deletion issued by a step is lawful when the steps before it are done: in order, after the grace period, of an owned object; a claim with its own StatefulSet after the drain, an extra resource with the group's labels |
| TeardownSteps.NothingBelongs | pkg/reconciler/cleaner.go:744-823 | a role group counts as reclaimed exactly when no object in the store is its own |
| TeardownMeasure.MeasureDecreases | pkg/reconciler/cleaner.go:1047-1136 | time never increases a teardown's measure, which counts the role group's own objects alone, and every irreversible change of one of them decreases it |
| TeardownReset.ClearedStartsOver | pkg/reconciler/cleaner.go:1259-1294 | a group whose two primaries carry no mark has its whole grace period in front of it |
| GrayDelete.GateStays | pkg/reconciler/cleaner.go:946-989 | as long as marks stay where they are an open gate stays open, whichever primaries are left |
| GrayDelete.ReadingTells | pkg/reconciler/cleaner.go:915-950 | what two reads of the primaries, taken at different moments, tell about the marks at either moment |
| GrayDelete.FirstMark | pkg/reconciler/cleaner.go:994-1005 | the mark is that of the first primary whose mark parses, and there is none exactly if none does |
| GrayDelete.WakeupIsNotEarly | pkg/reconciler/cleaner.go:985-989 | the rounded wakeup never comes before the deadline, and is positive exactly as long as the deadline is not half a second past |
| GrayDelete.WakeupCanVanish | pkg/reconciler/cleaner.go:985-989 | a clock that is a second past the deadline gives a wakeup of zero |
| Cleaner.RoleGroupCleaner.CleanupRoleGroup | pkg/reconciler/cleaner.go:677-768 | one pass over one orphan: its deletions are lawful and confined to it, its grace period keeps running, "deleted" means reclaimed, anything else decreases the measure or waits for the group's own grace period, drain or finalizers, and the wakeup is the end of the grace period, to a second and a half, or the poll interval when the gate is open |
| Cleaner.RoleGroupCleaner.PassGate | pkg/reconciler/cleaner.go:687-698 | without a grace period the gate is open; with one it opens only after it, and stays open once no owned primary is left |
| Cleaner.RoleGroupCleaner.CheckOrMarkGrayDelete | pkg/reconciler/cleaner.go:915-990 | why the gate opens (nothing to mark, a foreign primary, or one mark on every primary that is old enough), that it does open then, that a closed gate marked something, changed something or has the period running, that nothing but marks is written, and nothing to an object of somebody else, that marks never move, and when the wakeup comes |
| Cleaner.RoleGroupCleaner.StampAndWait | pkg/reconciler/cleaner.go:951-989 | every primary carries the one mark afterwards, and its age decides |
| Cleaner.RoleGroupCleaner.EnsureMarked | pkg/reconciler/cleaner.go:951-974 | the mark is the one some primary carried already, or else the present second |
| Cleaner.RoleGroupCleaner.GrayDeleteMark | pkg/reconciler/cleaner.go:994-1005 | the first parsable mark, unparsable ones being passed over |
| Cleaner.RoleGroupCleaner.GraceElapsed | pkg/reconciler/cleaner.go:980-989 | the gate opens exactly at the deadline as the clock was read, and otherwise the wakeup lies between the deadline and a second and a half later |
| Cleaner.RoleGroupCleaner.ReadPrimaries | pkg/reconciler/cleaner.go:915-943 | the primaries found are those there were at the moments they were read, and no others |
| Cleaner.RoleGroupCleaner.MarkPrimaries | pkg/reconciler/cleaner.go:959-973 | marks exactly the primaries that lack the mark and writes nothing else to them |
| Cleaner.RoleGroupCleaner.DeleteOwned | pkg/reconciler/cleaner.go:849-881 | deletes nothing but an owned object of this name; settled means no owned one is left, in flight that one was and is going |
| Cleaner.RoleGroupCleaner.ConfirmDeleted | pkg/reconciler/cleaner.go:888-901 | an accepted deletion counts as settled only when the object is gone |
| Cleaner.RoleGroupCleaner.DeleteStatefulSet | pkg/reconciler/cleaner.go:1047-1136 | claims and StatefulSet are deleted only at zero desired replicas with no pod left or a drain clock older than the configured timeout (ten minutes if none is configured), only claims that match the selector of this very StatefulSet, first and only when asked for; an unfinished call progressed or found the drain or a finalizer pending; with current reads a StatefulSet of somebody else is neither scaled, stamped nor deleted |
| Cleaner.RoleGroupCleaner.DeleteDrained | pkg/reconciler/cleaner.go:1122-1135 | every claim the selector matched is deleted before the StatefulSet, and no other claim |
| Cleaner.RoleGroupCleaner.DrainPods | pkg/reconciler/cleaner.go:1070-1097 | drained only at zero desired replicas with no pod left or a drain clock older than the configured timeout (ten minutes if none is), and always then; otherwise it scaled down, started the clock or found the drain running |
| Cleaner.RoleGroupCleaner.DrainDeadlineExpired | pkg/reconciler/cleaner.go:1143-1170 | expired means that a drain clock stamped earlier is older than the configured timeout (ten minutes if none is), and such a clock does expire; the first call starts the clock, and nothing else is written; no call restarts it |
| Cleaner.RoleGroupCleaner.ScaleToZero | pkg/reconciler/cleaner.go:1175-1192 | a successful call leaves zero desired replicas or no StatefulSet, over conflicts, and writes nothing else |
| Cleaner.RoleGroupCleaner.DeletePVCsForStatefulSet | pkg/reconciler/cleaner.go:1198-1223 | without an error every matching claim is gone or going, and only matching claims were deleted |
| Cleaner.RoleGroupCleaner.DeleteRoleGroupExtras | pkg/reconciler/cleaner.go:1318-1389 | only owned extras of a registered kind that carry the group's labels are deleted; settled means that none of them is left, in flight that there was one and that it is going |
| Cleaner.RoleGroupCleaner.DeleteExtrasOfKind | pkg/reconciler/cleaner.go:1335-1386 | the same for one kind |
| Cleaner.RoleGroupCleaner.ConfirmRoleGroupReclaimed | pkg/reconciler/cleaner.go:775-810 | confirms only if a fresh look finds none of the group's named resources owned |
| Cleaner.RoleGroupCleaner.RunSteps | pkg/reconciler/cleaner.go:700-752 | steps run in order, each only after the ones before it are done |
| Cleaner.RoleGroupCleaner.RunTeardown | pkg/reconciler/cleaner.go:700-768 | behind the gate: lawful deletions, reclaimed when done, otherwise the group's own objects progressed or wait |
| ClusterStatus.GenericClusterStatus.GetOrphanedRoleGroups | pkg/apis/commons/v1alpha1/cluster_status.go:373-398 | exactly the remembered role groups the spec does not declare |
| ClusterStatus.GenericClusterStatus.RemoveRoleGroup | pkg/apis/commons/v1alpha1/cluster_status.go:348-370 | forgets exactly one role group |
| OrphanCleanup.ClusterCleaner.Cleanup | pkg/reconciler/cleaner.go:284-404 | a whole pass: every deletion is, in the objects' own terms, due to a group that was remembered or seen alive and is not declared, or is of a vanished role's budget; no claim goes unless the cluster's annotation says "true"; every remembered orphan is dealt with in the order of names, the condition names exactly what is pending, all declared groups are reset but for as many as requests were refused, error-free passes progress on every orphan and forget exactly what is gone, the pass comes back no later than any pending orphan asks for itself, and it fails only if a request was refused |
| OrphanCleanup.ClusterCleaner.CleanupOrphans | pkg/reconciler/cleaner.go:364-403 | a failure is confined to its orphan, throttling ends the loop, and the wakeups are combined to the earliest |
| OrphanCleanup.ClusterCleaner.CleanupOrphan | pkg/reconciler/cleaner.go:364-395 | forgets the role group exactly when it was reclaimed |
| OrphanCleanup.ClusterCleaner.ReclaimedPlainly | pkg/reconciler/cleaner.go:744-823 | a group counts as reclaimed exactly if no object of its own, named, derived from its name or labelled as its extra, and controlled by this cluster, is in the store |
| OrphanCleanup.ClusterCleaner.OrphanMoves | pkg/reconciler/cleaner.go:364-395 | an error-free pass over one orphan moves it and sets no other back |
| OrphanCleanup.ClusterCleaner.KeptByOrphan | pkg/reconciler/cleaner.go:364-395 | what a pass keeps at every moment survives the teardown step of one orphan |
| OrphanCleanup.ClusterCleaner.StaleWakeup | pkg/reconciler/cleaner.go:985-989 | a wakeup that is not positive was computed half a second or more after the grace period counted from the orphan's present mark ended |
| OrphanCleanup.ClusterCleaner.PendingWakesUp | pkg/reconciler/cleaner.go:364-403 | for each pending orphan, the pass comes back within the poll interval, if it failed or no grace period is to be waited for, or else no later than a second and a half after the end of its grace period (a whole period after a fresh mark), unless that end was half a second past when the wakeup was computed |
| OrphanCleanup.ClusterCleaner.SetOrphanCleanupCondition | pkg/reconciler/cleaner.go:409-432 | raised exactly while something is pending, with the same groups in sorted order, and cleared only if it was there |
| OrphanCleanup.ClusterCleaner.DescriptionsTell | pkg/reconciler/cleaner.go:504-511 | the condition tells role groups apart: two of them are never described alike, as long as no role name holds a slash |
| OrphanCleanup.ClusterCleaner.DiscoverOrphans | pkg/reconciler/cleaner.go:534-568 | sorted and duplicate-free; sound: each is remembered or seen alive, owned and correctly named, and not declared; complete: every remembered undeclared group, and every live one when reads are current |
| OrphanCleanup.ClusterCleaner.DiscoverLiveOrphans | pkg/reconciler/cleaner.go:577-634 | finds every undeclared role group with an owned, labelled, correctly named StatefulSet or ConfigMap, whatever the ledger says |
| OrphanCleanup.ClusterCleaner.SlotOfExactly | pkg/reconciler/cleaner.go:617-660 | an object is taken for a role group's exactly if it bears the four identity labels of that role and that group, is named after it and is controlled by this cluster |
| OrphanCleanup.ClusterCleaner.IdentityMatches | pkg/reconciler/cleaner.go:1325-1331 | the selector for a group's extra resources matches exactly the labels that identify that role and that group |
| OrphanCleanup.ClusterCleaner.SelectOrphans | pkg/reconciler/cleaner.go:617-660 | the undeclared slots among the candidates, each name once |
| OrphanCleanup.ClusterCleaner.ClearTeardownProgress | pkg/reconciler/cleaner.go:1259-1294 | without an error both primaries carry neither mark nor drain clock; nothing else is written, nothing at all to objects of somebody else, and everything outside the two primaries stays as it is |
| OrphanCleanup.ClusterCleaner.ResetDeclared | pkg/reconciler/cleaner.go:300-320 | takes marks and drain clocks off this cluster's primaries of declared groups and writes nothing else; every group counted as cleared is clear, and all are but for as many as requests were refused |
| OrphanCleanup.ClusterCleaner.CleanupOrphanedRolePDBs | pkg/reconciler/cleaner.go:452-502 | deletes only owned role budgets of roles the spec does not declare, and without an error leaves none |
| Requeue.EarliestRequeue | pkg/reconciler/generic_reconciler.go:769-780 | the least positive candidate, or zero when there is none |
| ResourceNames.NameFitsLabel | pkg/reconciler/generic_reconciler.go:1046-1056 | a role group's resource name never exceeds its limit, so derived names fit a DNS label |
| ResourceNames.NameExactly | pkg/reconciler/generic_reconciler.go:1046-1056 | a name of at most 54 characters is the joined one; a longer one is what is left of its first 45 characters without dashes at the end, a dash, and eight digits of its digest |
| ResourceNames.CutNamesDiffer | pkg/reconciler/generic_reconciler.go:1046-1056 | cut names differ if the digests behind them begin differently |
| ResourceNames.NamesDistinct | pkg/reconciler/generic_reconciler.go:1046-1056 | uncut names of different role groups differ if the role names hold no dash |
| ResourceNames.NamesCoincide | pkg/reconciler/generic_reconciler.go:1046-1056 | uncut names of two role groups coincide exactly if they are the same, or one role goes on where the other ends, with a dash, and the group names make up for it |
| ResourceNames.RolesConfusable | pkg/reconciler/generic_reconciler.go:1046-1056 | uncut names of two roles can coincide exactly if one role is the beginning of the other up to a dash and the longer one leaves room for a group |
| ResourceNames.NamesCollide | pkg/reconciler/generic_reconciler.go:1046-1056 | with a dash they can coincide |
| PropertiesRoundTrip.RoundTrip | pkg/config/properties_adapter.go:58-310 | for every map, every order of its keys and either separator, reading what was written gives the map back exactly when every entry fits the scanner's buffer, and is an error otherwise |
| PropertiesRoundTrip.EntryReads | pkg/config/properties_adapter.go:150-310 | a written line reads as exactly its key and value: empty ones, separators, comment marks, edge spaces, backslashes and breaks included |
| PropertiesRoundTrip.UnescapeInverts | pkg/config/properties_adapter.go:228-310 | reading undoes the escapes of keys and of values |
| PropertiesRoundTrip.ParityTells | pkg/config/properties_adapter.go:217-223 | counting the backslashes at the end decides whether the last one escapes |
| PropertiesLayout.WrappedText | pkg/config/properties_adapter.go:98-146 | splitting a line of a file with backslash, line feed and indentation, outside an escape and not before a blank, changes nothing that is read |
| PropertiesLayout.WrappedLine | pkg/config/properties_adapter.go:104-137 | the same on lines, wherever the line stands |
| PropertiesLayout.DanglingText | pkg/config/properties_adapter.go:138-145 | a backslash at the end of the input is dropped and its entry kept |
| PropertiesLayout.Padding | pkg/config/properties_adapter.go:150-214 | padding after the separator is dropped; padding before it is dropped exactly if it holds no space |
| PropertiesLayout.SpacedEquals | pkg/config/properties_adapter.go:195-214 | `a = b` reads as the value `= b` |
| PropertiesLines.Concatenated | pkg/config/properties_adapter.go:98-190 | of a file that ends a line where it is cut, the entries are those of the first part overridden by those of the second: nothing else is carried from line to line |
| PropertiesLines.CommentAnywhere | pkg/config/properties_adapter.go:150-154 | a blank line, or a comment with `#` or `!`, however indented, can stand between complete lines of any file without changing what is read |
| PropertiesLines.CommentSwallows | pkg/config/properties_adapter.go:124-154 | a comment that ends in an odd run of backslashes swallows the line after it |
| PropertiesLines.KeyAlone | pkg/config/properties_adapter.go:150-170 | a line without a separator reads as its key with an empty value |
| PropertiesLines.EntryAlone | pkg/config/properties_adapter.go:150-170 | an indented line with `=`, `:` or a space between reads as exactly that key and value |
| PropertiesLines.CarriageReturn | pkg/config/properties_adapter.go:98-146 | a file reads the same with line ends of either kind |
| PropertiesLines.AsciiFits | pkg/config/properties_adapter.go:98-146 | a line of ASCII is read, rather than refused by the scanner, exactly if it is shorter than 64 KiB |
| PropertiesLines.OtherEscape | pkg/config/properties_adapter.go:270-310 | a backslash before any other character stays |
| PropertiesUnicode.UnicodeRoundTrip | pkg/config/properties_adapter.go:316-353 | every character written as its UTF-16 units (section 2.1 of RFC 2781) reads as itself, whatever follows |
| PropertiesUnicode.PairOfUnits | pkg/config/properties_adapter.go:316-341 | a surrogate pair reads as its one character |
| PropertiesUnicode.LoneLowSurrogate | pkg/config/properties_adapter.go:316-341 | a lone low surrogate is no character: its backslash stays |
| PropertiesUnicode.EitherCase | pkg/config/properties_adapter.go:316-353 | an escape reads the same in either case, and only four hexadecimal digits make one |
| PropertiesUnicode.AsciiRoundTrip | pkg/config/properties_adapter.go:270-353 | a text written entirely in escapes reads as itself |
| PropertiesAdapters.PropertiesAdapter.Marshal | pkg/config/properties_adapter.go:58-81 | writes every entry once, in the order of the keys |
| PropertiesAdapters.PropertiesAdapter.Unmarshal | pkg/config/properties_adapter.go:98-146 | the loop with its pending continuation reads what the specification reads, and fails on a line that does not fit; what that specification reads is told by the round trip, PropertiesLayout and PropertiesLines |
| PropertiesAdapters.PropertiesAdapter.ReadsBack | pkg/config/properties_adapter.go:58-146 | what Marshal wrote, Unmarshal reads back exactly when every entry fits |
| PropertiesAdapters.PropertiesAdapter.Reproducible | pkg/config/properties_adapter.go:58-81 | the order of writing does not depend on map iteration |
| PropertiesAdapters.TrimPropertiesSpace | pkg/config/properties_adapter.go:173-186 | strips layout from both ends up to an escaped blank |
| PropertiesAdapters.PropertiesSeparatorIndex | pkg/config/properties_adapter.go:195-214 | the first unescaped separator, a space counting from the second character on |
| PropertiesAdapters.EscapeEdgeSpaces | pkg/config/properties_adapter.go:254-267 | escapes the spaces at both edges |
| PropertiesAdapters.UnescapeProperties | pkg/config/properties_adapter.go:270-310 | the loop over runes reads what the specification reads |
| EnvRoundTrip.EnvReadsBack | pkg/config/env_adapter.go:47-209 | for every map of valid names, exported or not, reading what was written gives the map back |
| EnvRoundTrip.EnvLineReads | pkg/config/env_adapter.go:88-133 | a written line reads as exactly its name and value |
| EnvRoundTrip.ShellSafe | pkg/config/env_adapter.go:166-178 | under the double-quote rules of section 2.2.3 of the POSIX Shell Command Language the written word expands nothing and ends where it should; the shell assigns the value itself exactly if it holds no line feed, return or tab |
| EnvFileLines.Concatenated | pkg/config/env_adapter.go:88-133 | of two files joined by a line feed the assignments are those of the first overridden by those of the second |
| EnvFileLines.CommentAnywhere | pkg/config/env_adapter.go:95-101 | a blank line or a comment, however indented, can stand anywhere in a file without changing what is assigned |
| EnvFileLines.NoAssignment | pkg/config/env_adapter.go:106-110 | a line without `=` assigns nothing |
| EnvFileLines.SingleQuoted | pkg/config/env_adapter.go:88-133 | between single quotes nothing is an escape, padding around the line is dropped, and so is `export` |
| EnvFileLines.PaddedLine | pkg/config/env_adapter.go:88-133 | a written line may be padded and still reads as its name and value |
| EnvAdapters.EnvAdapter.Marshal | pkg/config/env_adapter.go:47-76 | writes every variable once in the order of names, or fails exactly when a key is not a name |
| EnvAdapters.EnvAdapter.Unmarshal | pkg/config/env_adapter.go:88-133 | the loop reads what the specification reads; what that is, is told by the round trip and EnvFileLines |
| EnvAdapters.EnvAdapter.ReadsBack | pkg/config/env_adapter.go:47-133 | what Marshal wrote, Unmarshal reads back |
| EnvAdapters.UnescapeEnvValue | pkg/config/env_adapter.go:181-209 | the loop undoes the escapes as the specification does |
| ApplyCoherence.MergedExactly | pkg/reconciler/apply.go:323-447 | every container of the merge has exactly the mounts that belong to it, each at a path of its own |
| ApplyCoherence.Coherent | pkg/reconciler/apply.go:323-447 | the merge mounts only declared volumes and live claims exactly if the desired template mounted only volumes, claims it asked for, and live claims |
| ApplyCoherence.AnyOrder | pkg/reconciler/apply.go:323-346 | the order in which claims are visited changes nothing but the order of mounts |
| ApplyCoherence.AppliedTwice | pkg/reconciler/apply.go:323-447 | merging onto the result again changes nothing but the order of mounts |
| ApplyCoherence.KeepsPreserved | pkg/reconciler/apply.go:395-413 | a live mount of a preserved claim survives the merge if its container does and its path is free |
| Apply.ClaimTemplatesDiffer | pkg/reconciler/apply.go:280-305 | claim templates differ exactly if some field the handler stated is not live; fields the server filled in do not count |
| Apply.IgnoredExactly | pkg/reconciler/apply.go:171-239 | a field is reported as ignored exactly if the handler stated it and the result is not as stated, claim templates included |
| Apply.ApplyCoherent | pkg/reconciler/apply.go:171-239 | if the desired mounts are backed and paths unique, so they are after the apply |
| Apply.ApplyKeepsMounts | pkg/reconciler/apply.go:395-413 | every live mount of a preserved claim stays if its container survives and its path is free |
| Apply.ApplyAnyOrder | pkg/reconciler/apply.go:323-346 | any two results of one apply agree up to the order of mounts |
| Apply.ApplyFixedPoint | pkg/reconciler/apply.go:58-239 | applying the same state again changes nothing but the order of mounts, and nothing at all if no claim template was dropped |
| Apply.SteadyExactly | pkg/reconciler/apply.go:323-447 | a second apply changes nothing, in whatever order claims are visited, exactly if the claim templates are as asked for or no container gets mounts of two preserved claims back |
| Apply.ForeignSurvives | pkg/reconciler/apply.go:219-236 | in every interleaving a foreign annotation is what its own writer left |
| Apply.NoFight | pkg/reconciler/apply.go:452-460 | once the framework has applied, applying again after any foreign writes changes nothing |
| ApplyStatefulSet.StatefulSet.CopyDesiredState | pkg/reconciler/apply.go:58-118 | the live object becomes the applied state, immutable fields kept and ignored changes reported, and the desired object is not touched |
| ApplyStatefulSet.StatefulSet.CopyStatefulSetState | pkg/reconciler/apply.go:171-239 | the spec, template included, and exactly the ignored immutable fields |
| ApplyStatefulSet.PodTemplate.ReconcileClaimVolumeMounts | pkg/reconciler/apply.go:323-346 | in place, some order of dropping and restoring as specified |
| ApplyStatefulSet.PodTemplate.DropVolumeMount | pkg/reconciler/apply.go:368-382 | in place, every mount of the volume and no other |
| ApplyStatefulSet.PodTemplate.RestoreVolumeMount | pkg/reconciler/apply.go:395-413 | in place, the live mounts of the volume whose paths are free |
| ApplyService.Service.CopyServiceState | pkg/reconciler/apply.go:502-546 | allocated fields stay, each port carries over its counterpart's node port unless it states one and is otherwise as desired, and a vain clusterIP is reported |
| ApplyService.FindServicePort | pkg/reconciler/apply.go:551-565 | by name first, then by number |
| ApplyService.NodePortExactly | pkg/reconciler/apply.go:502-565 | a port that states a node port keeps it; otherwise it takes that of the live port of its name, or else of its number, or none |
| ApplyService.PortsFixedPoint | pkg/reconciler/apply.go:502-565 | applying the same ports again changes nothing if names are unique |
| ApplyService.KeepsNodePort | pkg/reconciler/apply.go:551-565 | a port keeps the node port of its number exactly if its name does not belong to a live port with another one |
| ApplyService.RenameKeepsAll | pkg/reconciler/apply.go:502-565 | a rename that reuses no name keeps all node ports, and keeps them distinct |
| ApplyService.ReusedNameCollides | pkg/reconciler/apply.go:551-565 | a reused name can put two ports on one node port |
| GeneratedSecret.RunGrows | pkg/reconciler/generated_secret.go:170-222 | in every run of any number of calls, with stale reads, conflicts, lost replies and crashes, a stored value never changes and only missing keys are filled |
| GeneratedSecret.Agreement | pkg/reconciler/generated_secret.go:170-222 | any two calls that return a key return the same value for it |
| GeneratedSecret.StepInv | pkg/reconciler/generated_secret.go:170-222 | every single step of any call keeps the invariant |
| GeneratedSecret.SteadyState | pkg/reconciler/generated_secret.go:170-206 | a call writes nothing exactly if no key is missing and the metadata is as wanted |
| GeneratedSecret.BeatenTakesTheWinners | pkg/reconciler/generated_secret.go:211-221 | after a lost race the winner's Secret is returned as it is, wanted keys or not |
| GeneratedSecret.KeyEverywhere | pkg/reconciler/generated_secret.go:170-222 | in every run, every version of the Secret has a key exactly if every write that took effect carried it |
| GeneratedSecret.ControllerStays | pkg/reconciler/generated_secret.go:190-206 | in every run nobody takes the Secret over from its controller, and its type never changes |
| GeneratedSecret.ValuesAreGiven | pkg/reconciler/generated_secret.go:170-206 | in every run, each value in any version of the Secret was there from the start or was generated for that key by some write |
| GeneratedSecret.VersionsAreDressed | pkg/reconciler/generated_secret.go:170-206 | in every run, each new version has the owner, labels and annotations that the write behind it asked for |
| GeneratedSecret.Generate | pkg/reconciler/generated_secret.go:173-189 | generates exactly the missing keys, each with its own generator's value, in the order of keys, up to the first generator that fails |
| GeneratedSecret.Client.EnsureGeneratedSecret | pkg/reconciler/generated_secret.go:131-223 | the call is a run of those steps among others; every write it issues carries, for missing keys only, their own generators' values and the caller's owner, labels, annotations and kind; a success that was not taken from a winner has every key, and any success has every key that all versions had and all writes meanwhile carried; with nobody else acting a success leaves the stored values and the generators' values for the missing keys, dressed as asked, and with no request failing either, the call fails exactly if a generator it needs does or somebody else controls the Secret |
| WorkloadRbacClient.Client.EnsureWorkloadRBAC | pkg/reconciler/workload_rbac.go:132-218 | whatever others do between the requests, every Role this framework writes carries exactly the wanted rules and labels, every binding refers to that Role, neither is written over an object that somebody else controls, and no roleRef is ever changed; its binding is never without its Role, a revocation writes nothing, and a grant or a revocation that reports success holds; with nobody else acting a grant that succeeds leaves a Role of this cluster with the rules and a binding to it, and with current reads and no request failing it succeeds exactly if neither object is somebody else's and the binding, if there is one, refers to this Role |
| WorkloadRbacClient.Client.ReclaimWorkloadRBAC | pkg/reconciler/workload_rbac.go:309-316 | the binding goes before the Role, success means both are given up, and with nobody else acting the outcome is determined by what the two reads answered |
| WorkloadRbacClient.Client.CreateOrUpdateBinding | pkg/reconciler/workload_rbac.go:187-217 | writes a binding only with the wanted roleRef, over conflicts and races |
| WorkloadRbacClient.Client.CheckWorkloadRoleRef | pkg/reconciler/workload_rbac.go:271-280 | a conflict means that a binding with another roleRef was there, and nothing was written |
| WorkloadRbac.RevokedExactly | pkg/reconciler/workload_rbac.go:309-345 | exactly when a revocation, for the answers its two reads got, leaves this cluster's binding without its Role |
| WorkloadRbac.StaleRevokeDangles | pkg/reconciler/workload_rbac.go:309-345 | a concrete stale read that does |
| WorkloadRbac.RivalEffectKept | pkg/reconciler/workload_rbac.go:149-217 | no step of another actor breaks what the protocol keeps |
| Errors.WaitingErrors | pkg/common/errors.go:130-163 | an error is a wait exactly if it is not empty and every leaf of its tree is one; the wait returned is the first with the least clamped delay |
| Errors.ShortestIsFirstLeast | pkg/common/errors.go:130-163 | no leaf asks for less, and every leaf before the chosen one for more |
| Errors.ClampRequeueAfter | pkg/common/errors.go:98-107 | a delay of a second or more is kept, a shorter one becomes a second, and none becomes ten |
| Errors.ThrottledExactly | pkg/reconciler/errors.go:228-257 | throttling is found wherever in the error tree it is, and nothing else is taken for it |
| Extensions.ExtensionRegistry.Register | pkg/common/extension_registry.go:127-181 | entries stay in order of priority, then of registration, and none is lost |
| Extensions.Place | pkg/common/extension_registry.go:161-181 | a new entry goes behind all of its own or higher priority, and the order holds |
| Extensions.ExecuteHooks | pkg/common/extension_registry.go:196-240 | hooks run up to the first failure that stops (the entry's own setting, or else the policy's), and the error holds exactly the leaves of what is reported |
| Extensions.HooksNeverLaunder | pkg/common/extension_registry.go:196-240 | the hooks report a wait exactly if every error raised was one |
| Extensions.RunHooks | pkg/common/extension_registry.go:196-240 | a phase runs its hooks up to the first failure that is no wait and is not tolerated, and its error holds exactly what those that ran raised |
| Reconcile.WaitForBoth | pkg/reconciler/errors.go:308-319 | merging the waits of two stretches of a pass gives the wait of both together |
| Reconcile.WaitForIsShortest | pkg/reconciler/errors.go:291-319 | a pass that waits comes back no later than any wait it met asks |
| Reconcile.ReconcileRole | pkg/reconciler/generic_reconciler.go:823-878 | a role's error stands for everything its hooks, groups and budget raised, unless one of its groups or its budget was throttled: then it is that very error; no leaf is invented |
| Reconcile.GenericReconciler.PrepareCluster | pkg/reconciler/generic_reconciler.go:583-644 | the steps before the roles fail exactly if one of them failed, and otherwise yield their merged wait |
| Reconcile.GenericReconciler.Converge | pkg/reconciler/generic_reconciler.go:646-712 | roles, cleanup and PostReconcile: no failure among the outcomes is taken for a wait |
| Reconcile.GenericReconciler.ReconcilePass | pkg/reconciler/generic_reconciler.go:515-764 | a pass without an error met only waits; it reports Waiting exactly if it met one and comes back within the shortest, or else is complete; every leaf of its error was raised by one of its parts, and the wakeup is one of those asked for |
| Reconcile.GenericReconciler.WakeUp | pkg/reconciler/generic_reconciler.go:746-764 | no later than the health check, the cleanup and the wait ask, and just when one of them asks, or never |
| ProductLogging.MergeLoggingSpec | pkg/productlogging/logging.go:537-565 | containers are united, and in each the upper layer wins level by level |
| ProductLogging.MergeContainerLogging | pkg/productlogging/logging.go:568-602 | one container, an empty level stating nothing |
| ProductLogging.LogConfigFromSpec | pkg/productlogging/logging.go:433-458 | exactly the stated levels, the root logger set apart |
| ProductLogging.RenderIsHomomorphic | pkg/productlogging/logging.go:433-602 | merging and then rendering equals rendering and then overriding point by point |
| ConfigFold.FoldCommonConfig | pkg/reconciler/config_fold.go:145-179 | fails exactly if some layer's affinity cannot be decoded; otherwise every leaf, the affinity and the reports are those of the layers |
| ConfigFold.HighestAt | pkg/reconciler/config_fold.go:151-171 | a leaf of the fold is what the highest layer stating it says |
| ConfigFold.HighestNone | pkg/reconciler/config_fold.go:151-171 | a leaf is absent exactly if no layer states it |
| ConfigFold.LeavesTell | pkg/reconciler/config_fold.go:237-283 | the leaves leave nothing out: configurations that state the same at every leaf have the same resources and timeout |
| ConfigFold.FoldResources | pkg/reconciler/config_fold.go:237-283 | leaf by leaf the upper layer's value or else the lower one's, an empty block stating nothing |
| ConfigFold.FoldAffinity | pkg/reconciler/config_fold.go:202-210 | replaced as a whole, cleared by an affinity without terms, and a clear reports nothing |
| ConfigFold.DroppedAffinityMembers | pkg/reconciler/config_fold.go:218-234 | exactly the members whose terms the upper layer takes away without mentioning them, in a fixed order |
| ConfigFold.HighestAffinity | pkg/reconciler/config_fold.go:202-210 | the affinity is that of the highest layer stating one, or none if that layer clears it |
| ConfigFold.NothingVanishesSilently | pkg/reconciler/config_fold.go:202-234 | a member's terms are kept unless a higher layer states the member, clears the affinity, or is reported as losing it |
| ConfigFold.LostWasThere | pkg/reconciler/config_fold.go:218-234 | a report is never a false alarm |
| ConfigFold.ReportsExactly | pkg/reconciler/config_fold.go:166-169 | a layer is reported exactly if it loses something, with just what it loses |
| ConfigFold.ReportsAscend | pkg/reconciler/config_fold.go:166-169 | reports come in the order of the layers, none twice |
| ConfigFold.NormalizeAffinity | pkg/reconciler/affinity.go:161-187 | the same terms without empty members, and nothing when there is no term |
| ConfigFold.NormalIsUnique | pkg/reconciler/affinity.go:152-187 | affinities of the same terms have the same normal form |
| LoggerIds.Log4j2LoggerIDs | pkg/productlogging/generator.go:331-348 | one identifier per name, pairwise distinct, each a bare key segment and the first candidate of its name that is free |
| LoggerIds.FreeIdentifier | pkg/productlogging/generator.go:340-343 | the suffix search ends, at the first free candidate |
| LoggerIds.SearchIsBounded | pkg/productlogging/generator.go:340-343 | as long as all candidates so far are taken, there are no more of them than taken identifiers |
| LoggerIds.CandidateInjective | pkg/productlogging/generator.go:340-343 | different suffixes give different candidates |
| LoggerIds.ItoaInjective | pkg/productlogging/generator.go:341-343 | decimal numerals of different numbers differ |
| LoggerIds.EscapeLoggerName | pkg/productlogging/generator.go:316-325 | keeps letters, digits and underscores and turns everything else into an underscore |
| LoggerIds.KeepsItsName | pkg/productlogging/generator.go:331-348 | a name that is a key segment keeps its own identifier exactly if no earlier logger has it |

## Left out

- The Kubernetes client, informers, event recorder, metrics and logging: external I/O. The pending gauge is not modelled.
- Fluent builders, probes, security contexts, listener, S3, OAuth2 and image wiring: field copying with easy members only.
- Strategic merge patches, pod overrides, YAML, XML and INI adapters: the library code that decides them is not visible, or they add little beyond the two formats here.
- `FoldProductConfig` and deep copying by reflection, health probing, the text of rendered log files, Job and generic-object apply.
- Server-side defaulting, admission, and the explanation of RBAC escalation errors.
- Aliasing between source objects other than in ApplyStatefulSet, where the frames show that the desired object is only read; elsewhere values stand for the copies the code takes.
- The cluster-level methods of the cleaner are in a class of their own, ClusterCleaner; in the source they are methods of the same object.
- Cleaner.RoleGroupCleaner.DeleteRoleGroupExtras: extras without the identity labels are not found, as in the code; nothing is promised about them.
- CleanupRuns.GraceOverRun: asks for current reads, and that between passes only the environment touches the two primaries of the group; the time since which the group is orphaned is a parameter; marks are stored in whole seconds, so real time may fall up to a second short. A Service of the group may go early when another orphan's derived name equals its name, and a budget when it carries the label of a vanished role.
- CleanupRuns.GateStaysOpen: asks for current reads, and that between passes only the environment touches the two primaries of the group.
- CleanupRuns.FreshGrace: asks for current reads, that no orphan of the resetting pass has the group's name, and that a primary of the group stands.
- CleanupRuns.DeletionsInOrder: asks for current reads; with a lagging cache only ownership, confinement and the pruning of the ledger are promised, and that every claim matched a drained StatefulSet of the orphan and every extra resource its labels in versions that were seen.
- CleanupRuns.TeardownEnds: asks that the reads are current, that no other name in the ledger equals the orphan's, that between two passes only the environment touches the orphan's own objects and its two primaries, and that no declared group gives up a derived name of the orphan.
- CleanupRuns.PrunedForGood: asks that between passes nobody creates an object of the role group's own.
- OrphanCleanup.ClusterCleaner.ResetDeclared: requests refused are counted, not named, so which group was missed is not told apart when several requests were refused.
- WorkloadRbacClient.Client.EnsureWorkloadRBAC: that the binding is never without its Role asks for current reads and that nobody else deletes these objects; WorkloadRbac.RevokedExactly says what happens otherwise.
- PropertiesLayout.WrappedText: says nothing about a file with a line the reader refuses, before or after wrapping.
