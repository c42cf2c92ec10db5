# RBAC drift, cluster degradation and certificate expiry: a verified model

This Dafny project models the three reconcilers of the monitoring operator and the generated deep copies of its
baselines, and proves what they promise. `dafny verify dfyconfig.toml` checks everything.

**The RBAC drift engine** is the core.

- `StringOrder`, `InsertionSort`, `PolicyRules`: `sortStrings` and `sortPolicyRules` sort string lists in place, on the
  heap. Two fields may hold the same array, in one rule or in different ones, and a list may be nil. A check is compared
  with a recorded state of the lists it is about to sort.
- `Rbac`, `Drift`, `Unexpected`, `DriftTheorems`, `DriftByKind`, `Snapshots`, `WatchFilter`, `MonitorStatus`: drift,
  unexpected resources, snapshots, the watch filter and the status as functions of a baseline and a cluster, with their
  theorems, some of them written out without the functions of the model.
- `Api`, `Worker`, `RunInvariant`, `RunLength`, `RunTraces`: one reconcile as an automaton that makes one API call after
  the other, and the calls that it makes. Any call may fail, and anything may happen to the cluster between two calls.
- `Monitors`, `RulesCheck`, `Detect`, `Capture`, `Reconciler`: the imperative reconcile on an in-memory monitor, proved
  to make the calls of the automaton and to compute its status.
- `Controller`, `ControllerInvariant`, `Freshness`, `Consistency`, `Suspension`, `Timers`, `Recovery`, `SnapshotHistory`:
  the event-driven controller. A state holds the API store, undelivered events, the queue, the RequeueAfter timers and one
  run per monitor in progress. A step is a cluster change, a spec edit, the delivery of an event, a firing timer, the
  start of a run, one API response, or a restart. Status writes carry resource versions and fail on a conflict. A timer
  is armed by the successful write of a rules-based check and by nothing else, and a restart forgets it.

A monitor is *disturbed* while it is queued, while an event that will queue it is under way, or after an event that would
have queued it was lost since its last run began. `Consistency.QuiescentConsistency` is about monitors that are not
disturbed; `Consistency.MisreadsOnlyHide` says what they store if reads failed.

**The other reconcilers**: `Conditions`, `Counting` and `Degradation` model the fold over operator conditions, the
counters, the health decision and the watch filter; `Certificates` models the scan loops and the severities.
**Deep copies**: in `BaselineHeap`, `DeepCopy` and `CopyIsolation` every slice and every pointer is a reference, so that
sharing can be expressed. An image records what the arrays of a baseline hold.

## What the code does that its documentation does not say

- The mode constants are `rules` and `snapshot` (`api/v1alpha1/rbacdriftmonitor_types.go:25-26`) while the CRD admits
  `RulesBased` and `SnapshotBased` only (line 53). The model compares the mode string with the code's constants, so
  every mode but `snapshot` is checked against the rules.
- Rule order inside a role matters; only the five lists inside each rule are normalised.
- A snapshot captures four kinds but only its ClusterRoles are checked. The check's status is not written, DriftDetected
  is never cleared, and the monitor is not requeued (`SnapshotHistory.SnapshotModeReportsNothing`).
- If the write of a fresh snapshot fails, a second write follows that carries the snapshot together with the condition
  BaselineSnapshotFailed. If it succeeds the snapshot is stored although its capture was reported as failed.
- A read error other than NotFound drops the entry silently, so the stored items may be a proper subsequence of the true
  ones (`Consistency.MisreadsOnlyHide`). A watch event is lost when the monitors cannot be listed; what then wakes an idle
  monitor is its timer alone (`Timers.TimersHold`).
- Unexpected resources go to events only, never to the status.
- Every status write that changes something triggers the controller's own watch. The theorems hold regardless.
- A certificate counts as Expired during the last day before its expiry, since days are truncated toward zero.
- The message of a degraded operator depends on the order of its conditions in exactly one situation
  (`Conditions.MessageIgnoresOrderExactly`).

## Model

| member | source | states |
|---|---|---|
| `InsertionSort.SortStrings` | internal/controller/rbacdriftmonitor_controller.go:621-627 | the in-place adjacent-swap sort leaves the canonical form of the slice and makes exactly one swap per inversion of the original; nil is a slice of length 0 |
| `StringOrder.LessIsLexicographic` | internal/controller/rbacdriftmonitor_controller.go:624 | the order of the sort is lexicographic: one string is a proper prefix of the other, or has the smaller character where they first differ |
| `InsertionSort.Sink` | internal/controller/rbacdriftmonitor_controller.go:623-625 | the inner loop sinks element i to its place in the sorted prefix, touches nothing behind it, and counts its swaps |
| `InsertionSort.CanonicalIsSorted` | internal/controller/rbacdriftmonitor_controller.go:620-627 | the canonical form is a sorted permutation of the slice |
| `InsertionSort.SortedPermutationIsUnique` | internal/controller/rbacdriftmonitor_controller.go:621-627 | there is only one sorted permutation under the total order of strings by code points |
| `InsertionSort.CanonicalDecidesPermutation` | internal/controller/rbacdriftmonitor_controller.go:215 | two lists have the same sorted form if and only if they are equal as multisets |
| `InsertionSort.SwapsCountInversions` | internal/controller/rbacdriftmonitor_controller.go:623-625 | the number of swaps equals the number of inversions |
| `InsertionSort.SwapBounds` | internal/controller/rbacdriftmonitor_controller.go:621-627 | at most n(n-1)/2 swaps, and none if and only if the input is sorted |
| `PolicyRules.CanonicalRulesDecide` | internal/controller/rbacdriftmonitor_controller.go:605-618 | normalised rule slices are equal if and only if they have the same length and, index by index, all five lists agree as multisets and in nilness |
| `PolicyRules.SortPolicyRules` | internal/controller/rbacdriftmonitor_controller.go:606-618 | the result is a new outer slice over the argument's own lists, each of which has been sorted in place, whatever lists are shared and however often |
| `PolicyRules.CompareRules` | internal/controller/rbacdriftmonitor_controller.go:215 | the comparison with its heap effects decides the multiset match of the rules as they were when recorded, even if earlier comparisons have already sorted some of their lists; it sorts exactly the lists of both sides |
| `Drift.DriftMembers` | internal/controller/rbacdriftmonitor_controller.go:198-315 | an item is reported if and only if its key is an entry's that is absent (Deleted) or differs (Modified), stamped with the check time |
| `Drift.ClassifyPermuted` | internal/controller/rbacdriftmonitor_controller.go:215 | a verdict does not depend on the order inside the baseline's own lists |
| `RulesCheck.CheckRole` | internal/controller/rbacdriftmonitor_controller.go:198-224 | one role: one Get; Deleted if it is not found, nothing if the read fails; for a found role nothing if and only if it has as many rules and each of their five lists has the same strings equally often and the same nilness, on the values at the start of the check, else exactly one Modified item; the lists are sorted only if the role was found |
| `RulesCheck.CheckBinding` | internal/controller/rbacdriftmonitor_controller.go:227-253 | one binding: for a found one nothing if and only if RoleRef and Subjects both equal the baseline's, nil told from empty, else exactly one Modified item; Deleted if not found, nothing if the read fails |
| `RulesCheck.CheckRules` | internal/controller/rbacdriftmonitor_controller.go:198-315 | the mutating check refines the pure one: its items are those of the baseline's original value in baseline order, one Get per entry, and exactly the lists of the found roles end up sorted |
| `RulesCheck.CheckSnapshot` | internal/controller/rbacdriftmonitor_controller.go:133-159 | the same for the snapshot's ClusterRoles, the only kind that the snapshot check reads |
| `DriftTheorems.FailedReadsOnlyHide` | internal/controller/rbacdriftmonitor_controller.go:211-214 | failed reads leave a subsequence of the true items, and all of them if and only if every failed read was of a matching resource |
| `DriftTheorems.NoDriftMeansMatching` | internal/controller/rbacdriftmonitor_controller.go:198-315 | no item if and only if every entry is present and matches |
| `DriftTheorems.AllUnexpectedMembers` | internal/controller/rbacdriftmonitor_controller.go:413-582 | over complete listings, exactly the cluster's resources outside the baseline and outside the exclusions are Unexpected |
| `DriftTheorems.UnexpectedExactly` | internal/controller/rbacdriftmonitor_controller.go:413-582 | written out: exactly the cluster's resources that are not in the baseline, whose name has none of the patterns as a prefix and that carry none of the annotation keys are Unexpected |
| `DriftTheorems.ZeroDrift` | internal/controller/rbacdriftmonitor_controller.go:198-582 | without exclusions, check and detectors report nothing if and only if the key sets are equal and every entry matches |
| `DriftByKind.ZeroDriftPerKind` | internal/controller/rbacdriftmonitor_controller.go:198-582 | written out kind by kind: without exclusions nothing is reported if and only if the cluster has every role with the same strings in the five lists of each rule, every binding with the same RoleRef and Subjects, and nothing that the baseline does not name |
| `DriftByKind.DriftExactly` | internal/controller/rbacdriftmonitor_controller.go:198-315 | written out kind by kind: a resource that the baseline names is Deleted if it is absent and Modified if it differs from an entry, and there are no other items |
| `DriftByKind.DriftOfOne` | internal/controller/rbacdriftmonitor_controller.go:198-224 | one entry gives one item or none, by what its read returned |
| `Drift.CheckDriftConcat` | internal/controller/rbacdriftmonitor_controller.go:198-315 | the items of a baseline are those of its parts one after the other, in baseline order |
| `DriftTheorems.Partition` | internal/controller/rbacdriftmonitor_controller.go:198-582 | for a baseline with unique keys, every key has one class (matching, Modified, Deleted, Unexpected, excluded, or absent from both sides) and exactly one item if it has drifted, none otherwise |
| `Unexpected.UnexpectedMembers` | internal/controller/rbacdriftmonitor_controller.go:431-455 | the items are exactly those of listed objects outside the known keys and the exclusions |
| `Unexpected.ExcludedMeans` | internal/controller/rbacdriftmonitor_controller.go:743-763 | excluded means that a pattern is a prefix of the name or an annotation key is present |
| `Unexpected.UnexpectedConcat` | internal/controller/rbacdriftmonitor_controller.go:431-455 | the items of a listing are those of its parts, in listing order |
| `Unexpected.UnexpectedOfOne` | internal/controller/rbacdriftmonitor_controller.go:431-455 | one object gives one item unless it is known, has a pattern as a prefix, or carries an annotation key |
| `Unexpected.DetectionIsAntitone` | internal/controller/rbacdriftmonitor_controller.go:431-455 | enlarging the baseline, the prefixes or the annotation keys leaves a subsequence of the earlier items |
| `Detect.ShouldExclude` | internal/controller/rbacdriftmonitor_controller.go:743-763 | excluded if and only if some pattern is a prefix of the name or some annotation key is present, through two early-return loops |
| `Detect.DetectUnexpectedCRBs` | internal/controller/rbacdriftmonitor_controller.go:413-462 | the map-based detector returns, in listing order, the set difference; a failed list is an error |
| `Detect.DetectUnexpectedClusterRoles` | internal/controller/rbacdriftmonitor_controller.go:465-500 | the same for ClusterRoles |
| `Detect.DetectUnexpectedRBs` | internal/controller/rbacdriftmonitor_controller.go:503-541 | the same for RoleBindings, by namespace and name |
| `Detect.DetectUnexpectedRoles` | internal/controller/rbacdriftmonitor_controller.go:544-582 | the same for Roles, by namespace and name |
| `Detect.DetectUnexpectedDrifts` | internal/controller/rbacdriftmonitor_controller.go:368-399 | the four lists are made in this order, and a detector that fails adds nothing without stopping the others |
| `Detect.DetectionMembers` | internal/controller/rbacdriftmonitor_controller.go:368-399 | reported is what some list that did not fail lists outside the baseline and the exclusions: a failed list hides its own kind and no other |
| `Snapshots.SnapshotRoundTrip` | internal/controller/rbacdriftmonitor_controller.go:684-741 | on an unchanged cluster a snapshot shows no drift: not in the snapshot check, and not as a spec baseline with any exclusions and any later listing order |
| `Snapshots.SnapshotCheckIsExact` | internal/controller/rbacdriftmonitor_controller.go:133-159 | against any later cluster the snapshot check is silent if and only if every captured ClusterRole is still there and matches: new ClusterRoles and the other three kinds go unseen |
| `Snapshots.SnapshotCheckIsAPrefix` | internal/controller/rbacdriftmonitor_controller.go:133-159 | against the same baseline the snapshot check finds a prefix of what the rules check finds: all about ClusterRoles, and nothing else |
| `Snapshots.SnapshotHasEveryKey` | internal/controller/rbacdriftmonitor_controller.go:687-737 | a snapshot of complete lists names every resource of the cluster and nothing else |
| `Snapshots.SnapshotFields` | internal/controller/rbacdriftmonitor_controller.go:687-737 | one entry for each listed object in listing order, with its name, its namespace and its rules, or its RoleRef and Subjects; nil for a kind without objects |
| `Capture.CaptureAll` | internal/controller/rbacdriftmonitor_controller.go:687-737 | the in-memory snapshot has the value of the four lists, nil for an empty list, on lists of its own |
| `Capture.MakeBaselineSnapshot` | internal/controller/rbacdriftmonitor_controller.go:684-741 | the first failing list ends the capture with the snapshot still nil; a failing write leaves it in memory only |
| `WatchFilter.BaselineReferencesResource` | internal/controller/rbacdriftmonitor_controller.go:651-682 | the four linear searches decide, kind by kind, whether an entry of that kind has the resource's name and, if the kind is namespaced, its namespace |
| `WatchFilter.DroppedChangesAreInvisible` | internal/controller/rbacdriftmonitor_controller.go:651-682 | no sequence of creates, updates and deletes of unreferenced resources changes the drift list |
| `WatchFilter.NamedChangesAreVisible` | internal/controller/rbacdriftmonitor_controller.go:651-682 | in every cluster, some change of a referenced resource changes the drift list |
| `WatchFilter.FilterIsExact` | internal/controller/rbacdriftmonitor_controller.go:651-682 | so the filter accepts a resource if and only if a change of it alone can change the drift list |
| `Controller.MapRBACToMonitor` | internal/controller/rbacdriftmonitor_controller.go:630-648 | a monitor is requested if and only if it is not suspended and its baseline names the resource, each once; none if the monitors cannot be listed |
| `Controller.EventWakesExactly` | internal/controller/rbacdriftmonitor_controller.go:630-648 | delivering a resource's event queues the unsuspended monitors whose baseline names it and no other; a lost one queues none |
| `MonitorStatus.SetConditionSets` | internal/controller/rbacdriftmonitor_controller.go:327-357 | setting a condition gives its type that status and no other type a different one |
| `MonitorStatus.SetConditionMeans` | internal/controller/rbacdriftmonitor_controller.go:327-357 | the condition of the given type becomes the given one, but keeps its transition time if its status does not change; the others stay as they are |
| `MonitorStatus.ConditionOfMeans` | internal/controller/rbacdriftmonitor_controller.go:327-357 | the condition of a type is the first one of that type, if there is one |
| `MonitorStatus.RulesCheckedMeans` | internal/controller/rbacdriftmonitor_controller.go:327-357 | a rules check writes its items, their number, the time and the generation, sets Ready to True and DriftDetected to whether there are items, and changes nothing else |
| `MonitorStatus.SnapshotCheckedMeans` | internal/controller/rbacdriftmonitor_controller.go:171-185 | a snapshot check sets the same fields in memory, sets DriftDetected to True if it finds drift, and changes no condition otherwise |
| `MonitorStatus.SuspendedMeans` | internal/controller/rbacdriftmonitor_controller.go:78-84 | a suspended reconcile sets Ready to False with reason Suspended and changes nothing else |
| `MonitorStatus.SnapshotFailedMeans` | internal/controller/rbacdriftmonitor_controller.go:96-102 | a failed capture sets Ready to False with reason BaselineSnapshotFailed and changes nothing else |
| `MonitorStatus.RulesCheckKeepsCoherent` | internal/controller/rbacdriftmonitor_controller.go:327-357 | a rules check keeps the status coherent: count and items agree, items are Modified or Deleted at the check time, condition types are unique, and DriftDetected tells whether there are items |
| `MonitorStatus.SuspendKeepsCoherent` | internal/controller/rbacdriftmonitor_controller.go:75-106 | the suspended and the BaselineSnapshotFailed status keep it coherent |
| `MonitorStatus.SnapshotCheckIsCoherentWhen` | internal/controller/rbacdriftmonitor_controller.go:171-187 | a snapshot check leaves its in-memory status coherent if and only if it finds drift or an earlier check found none, because it never clears DriftDetected |
| `Worker.ReadsOfRules` | internal/controller/rbacdriftmonitor_controller.go:198-315 | the rules check of the automaton reads the baseline's entries one by one, in order, whatever is answered |
| `RunInvariant.FeedIsOk` | internal/controller/rbacdriftmonitor_controller.go:64-123 | no response takes a run to a phase that its spec does not allow, and what it may still write stays coherent |
| `RunLength.RunShrinks` | internal/controller/rbacdriftmonitor_controller.go:64-123 | every response, successful or not, brings a reconcile nearer to its end, so every reconcile makes finitely many calls |
| `RunTraces.CheckCalls` | internal/controller/rbacdriftmonitor_controller.go:111-123 | the calls of an unsuspended reconcile that has its snapshot or needs none: if detection is on the lists of ClusterRoleBindings, ClusterRoles, RoleBindings and Roles; one Get per baseline entry or snapshot ClusterRole in order; one status write, in rules mode only |
| `RunTraces.CaptureCalls` | internal/controller/rbacdriftmonitor_controller.go:684-741 | the calls of a capture while nothing fails: the lists of ClusterRoles, ClusterRoleBindings, Roles and RoleBindings, and a write that adds to the status the snapshot made of what they returned, and nothing else |
| `RunTraces.FailedListEnds` | internal/controller/rbacdriftmonitor_controller.go:94-106 | after a list of the capture failed, at most one call follows: a write of the stored status with Ready False, BaselineSnapshotFailed, without a snapshot |
| `RunTraces.FailedStoreEnds` | internal/controller/rbacdriftmonitor_controller.go:94-106 | after the write of a captured snapshot was refused, at most one call follows: a write of Ready False, BaselineSnapshotFailed, that carries the snapshot |
| `RunTraces.StoredThenChecked` | internal/controller/rbacdriftmonitor_controller.go:107-119 | after a successful capture the reconcile makes the calls of one whose status had that snapshot |
| `RunTraces.WithoutDetection` | internal/controller/rbacdriftmonitor_controller.go:111-114 | with detection off a reconcile adds no event, and lists nothing but the four kinds of a snapshot that an unsuspended monitor in snapshot mode lacks |
| `RunTraces.SuspendedRunCalls` | internal/controller/rbacdriftmonitor_controller.go:75-88 | a suspended reconcile makes at most one call: a write of its status with Ready False, Suspended, and nothing else changed |
| `RunTraces.RunEnds` | internal/controller/rbacdriftmonitor_controller.go:359-365 | a reconcile fails if and only if its last call is a refused write, and asks for the interval if and only if that is a successful write of an unsuspended monitor that is not in snapshot mode |
| `Reconciler.CheckDriftRulesBased` | internal/controller/rbacdriftmonitor_controller.go:191-366 | on the heap: the calls and the final status are those of the automaton; requeue after the interval unless the write fails, which is an error |
| `Reconciler.CheckDriftSnapshotBased` | internal/controller/rbacdriftmonitor_controller.go:126-188 | on the heap: reads only, no write, no requeue, and the computed status stays in memory |
| `Reconciler.DetectPhase` | internal/controller/rbacdriftmonitor_controller.go:111-114 | the detection makes its four lists, leaves spec and status as they were, and returns the unexpected resources of the automaton: those of the lists that succeeded, in order, or none if detection is off |
| `Reconciler.ReconcileCapturing` | internal/controller/rbacdriftmonitor_controller.go:86-110 | a failed capture ends with BaselineSnapshotFailed and no unexpected resources; a successful one goes on to detection and check, with their outcome |
| `Reconciler.Reconcile` | internal/controller/rbacdriftmonitor_controller.go:75-123 | a whole reconcile, with all its in-place sorting, makes exactly the calls of the worker automaton and ends with its status, its unexpected resources, its error and its requeue interval |
| `Reconciler.QuietRunReportsAllDrift` | internal/controller/rbacdriftmonitor_controller.go:111-123 | on an unchanging cluster and without errors, a rules-mode reconcile with detection reports all drift: the items that it writes together with the unexpected resources that it sends to events |
| `Reconciler.QuietRunIsSilentExactly` | internal/controller/rbacdriftmonitor_controller.go:111-123 | so without exclusions it reports nothing if and only if baseline and cluster agree |
| `ControllerInvariant.BooksStep` | internal/controller/rbacdriftmonitor_controller.go:64-123 | every step keeps the books: a run on the current version works on the stored spec, cannot replace a stored snapshot and carries the stored report up to its last write; a run on an outdated version will be followed by another |
| `Consistency.ConsistentStep` | internal/controller/rbacdriftmonitor_controller.go:64-123 | every step keeps a watched, undisturbed monitor's items or, while it is being processed, everything its run has read so far, in agreement with the cluster |
| `Consistency.InvariantHolds` | internal/controller/rbacdriftmonitor_controller.go:766-774 | both invariants hold in every state of every behavior |
| `Consistency.QuiescentConsistency` | internal/controller/rbacdriftmonitor_controller.go:191-366 | in every state of every interleaving of cluster changes, edits, suspends, restarts, failures and reconciles, an unsuspended rules-mode monitor that is neither being processed nor disturbed, and whose last run had no failed read, stores exactly the drift of its baseline against the cluster as it is |
| `Consistency.MisreadsOnlyHide` | internal/controller/rbacdriftmonitor_controller.go:211-214 | if reads of its last run failed, it stores a subsequence of that drift, and all of it if and only if every read that failed was of a matching resource |
| `Consistency.PersistedStatusIsCoherent` | internal/controller/rbacdriftmonitor_controller.go:327-361 | every persisted status of every behavior is coherent, across modes and suspensions |
| `Consistency.QuiescentIsReady` | internal/controller/rbacdriftmonitor_controller.go:351-357 | in every state of every behavior, such a quiescent rules-mode monitor stores a True Ready condition and its own generation as the observed one |
| `Suspension.SuspendedRunWrites` | internal/controller/rbacdriftmonitor_controller.go:75-88 | what a run of a suspended monitor has left to do is to write a False Ready condition |
| `Suspension.SuspendedIsNotReady` | internal/controller/rbacdriftmonitor_controller.go:75-88 | in every state of every behavior, a suspended monitor that is idle and not queued, with no event about its spec under way, stores a False Ready condition |
| `Timers.TimersHold` | internal/controller/rbacdriftmonitor_controller.go:363-365 | in every state of every behavior, a watched monitor that is idle and not queued, with no event about its spec under way, has its RequeueAfter timer running |
| `Timers.OnlyRulesChecksArm` | internal/controller/rbacdriftmonitor_controller.go:363-365 | no step but the successful last write of an unsuspended rules-mode run with a positive interval arms a timer |
| `Recovery.RunGivesUp` | internal/controller/rbacdriftmonitor_controller.go:64-123 | a run in progress comes to its end even if every list and every write fails |
| `Recovery.RunSucceeds` | internal/controller/rbacdriftmonitor_controller.go:64-123 | an undisturbed run that meets no error settles its monitor |
| `Recovery.ControllerCanSettle` | internal/controller/rbacdriftmonitor_controller.go:766-774 | from every state of every behavior the controller alone can bring a watched monitor with a positive interval to the drift of its baseline against the cluster; if no event wakes it, the timer that its last check armed does |
| `SnapshotHistory.SnapshotIsWrittenOnce` | internal/controller/rbacdriftmonitor_controller.go:86-109 | while a monitor exists, a stored snapshot never changes, through all modes, suspensions, failures, restarts and in-memory sorting |
| `SnapshotHistory.SnapshotModeReportsNothing` | internal/controller/rbacdriftmonitor_controller.go:126-188 | while a monitor stays in snapshot mode, its stored items, count, check time and DriftDetected condition never change |
| `SnapshotHistory.EverythingIsSourced` | internal/controller/rbacdriftmonitor_controller.go:684-741 | whatever a run has listed, or a monitor has stored, was listed completely at moments of the behavior |
| `SnapshotHistory.SnapshotIsComplete` | internal/controller/rbacdriftmonitor_controller.go:684-741 | a stored snapshot is the result of four complete lists taken one after the other: it is never partial |
| `Conditions.FoldConditions` | internal/controller/clusterdegradationmonitor_controller.go:127-146 | the loop with its in-place updates computes the fold |
| `Conditions.FoldReadsFlags` | internal/controller/clusterdegradationmonitor_controller.go:127-141 | for distinct types, each flag says whether the condition of its type is True |
| `Conditions.FlagsSay` | internal/controller/clusterdegradationmonitor_controller.go:127-141 | for any conditions, each flag is what the last condition of its type says, and False if there is none |
| `Conditions.FoldTakesMaximum` | internal/controller/clusterdegradationmonitor_controller.go:142-145 | LastTransitionTime is the maximum over all conditions, of every type |
| `Conditions.FoldReadsMessage` | internal/controller/clusterdegradationmonitor_controller.go:129-138 | the message is that of the Available condition if it is not True, else that of a True Degraded one, unless the two compete |
| `Conditions.MessageExactly` | internal/controller/clusterdegradationmonitor_controller.go:129-138 | for any conditions, the message is that of the last Available condition that is not True; if that is empty or there is none, the first non-empty one of the True Degraded conditions after it |
| `Conditions.FlagsIgnoreOrder` | internal/controller/clusterdegradationmonitor_controller.go:127-146 | permuting the conditions changes at most the message |
| `Conditions.MessageIgnoresOrderExactly` | internal/controller/clusterdegradationmonitor_controller.go:129-138 | no permutation changes the message if and only if there is not both a non-True Available condition with an empty message and a True Degraded one with a message |
| `Degradation.FindVersion` | internal/controller/clusterdegradationmonitor_controller.go:149-154 | the version of the operand named operator with the lowest index, or empty if there is none |
| `Degradation.Correlate` | internal/controller/clusterdegradationmonitor_controller.go:105-183 | the filter set, the nested loops, the int32 counters and the decision switch compute the report that ReportExactly, EntriesConcat and EntryOfOne describe |
| `Degradation.CountsAreCardinalities` | internal/controller/clusterdegradationmonitor_controller.go:156-164 | the counters are the numbers of monitored operators that are degraded, unavailable and progressing |
| `Degradation.ReportExactly` | internal/controller/clusterdegradationmonitor_controller.go:114-183 | below 2^31 operators: the counters are the numbers of listed operators that pass the filter and say that they are degraded, do not say that they are available, or say that they are progressing; the health is Critical if and only if one is unavailable or as many as the threshold, 3 for 0, are degraded, and Warning if and only if none is unavailable and some, but fewer, are degraded |
| `Degradation.EntriesConcat` | internal/controller/clusterdegradationmonitor_controller.go:114-167 | the entries of a list of operators are those of its parts, in listing order |
| `Degradation.EntryOfOne` | internal/controller/clusterdegradationmonitor_controller.go:114-167 | an operator that passes the filter gives one entry: its name, what the last conditions of the three types say, the message, the latest transition time and its operator version; one that does not gives none |
| `Degradation.ReportIgnoresOrder` | internal/controller/clusterdegradationmonitor_controller.go:114-183 | permuting the operators permutes the entries and changes no counter and no decision |
| `Degradation.OverallHealthIsMonotone` | internal/controller/clusterdegradationmonitor_controller.go:169-183 | operators that are less available or more degraded, or a lower threshold, never improve the overall health |
| `Degradation.MapClusterOperatorToMonitor` | internal/controller/clusterdegradationmonitor_controller.go:263-292 | a monitor is requested if and only if it is not suspended and its filter is empty or names the operator, in listing order |
| `Degradation.UnnoticedEditsAreInvisible` | internal/controller/clusterdegradationmonitor_controller.go:105-120 | no series of insertions, removals and replacements that wakes nobody changes an entry, a count or the overall health |
| `Degradation.WatchIsExact` | internal/controller/clusterdegradationmonitor_controller.go:274-286 | the filter is empty or names an operator if and only if the operator's presence in the list makes a difference to the report |
| `Certificates.ParseCertificate` | internal/controller/certificateexpirymonitor_controller.go:284-306 | severity and day count after parsing, with the int32 conversion, at the moment at which the clock is read |
| `Certificates.SeverityIntervals` | internal/controller/certificateexpirymonitor_controller.go:284-296 | each severity is an interval of the remaining time; Expired includes the whole last day before expiry |
| `Certificates.SeverityAges` | internal/controller/certificateexpirymonitor_controller.go:284-296 | time never lowers a severity, for thresholds in any order |
| `Certificates.ScanNamespace` | internal/controller/certificateexpirymonitor_controller.go:134-163 | the inner loop adds what the namespace's TLS secrets add, each parsed at its own reading of the clock |
| `Certificates.ScanAll` | internal/controller/certificateexpirymonitor_controller.go:104-164 | with thresholds of 30 and 7 days for 0 and the given ones otherwise, the nested loops compute the scan of the included, listable namespaces that ScanIsExact describes; the readings of the clock lie between start and end |
| `Certificates.ScanIsConserved` | internal/controller/certificateexpirymonitor_controller.go:123-164 | expired <= expiring = number of items <= scanned, and no item from an excluded namespace |
| `Certificates.FindingMeans` | internal/controller/certificateexpirymonitor_controller.go:284-306 | the item of a certificate has the secret's name and namespace, its subject, issuer and expiry, the remaining time in whole days truncated toward zero, and the severity of the interval in which it lies |
| `Certificates.ExaminedExactly` | internal/controller/certificateexpirymonitor_controller.go:123-138 | examined are exactly the secrets of type kubernetes.io/tls in the namespaces that are not excluded and can be listed |
| `Certificates.ExaminedConcat` | internal/controller/certificateexpirymonitor_controller.go:123-138 | namespaces are examined one after the other, in the order given |
| `Certificates.InfosConcat` | internal/controller/certificateexpirymonitor_controller.go:134-163 | the items are those of the parts of what is examined, in order |
| `Certificates.ScanIsExact` | internal/controller/certificateexpirymonitor_controller.go:104-164 | complete and sound for the thresholds as given: every TLS secret of an included, listable namespace is examined at some moment, an item is reported if and only if it is that of a secret examined, and the three counters are the numbers of secrets examined, of items and of Expired items |
| `Certificates.ScanAges` | internal/controller/certificateexpirymonitor_controller.go:123-164 | for fixed secrets, each parsed no earlier, time never lowers a severity or either count |
| `DeepCopy.CopyRules` | api/v1alpha1/zz_generated.deepcopy.go:296-302 | make and loop over the rules of a role: a new array of equal rules on new string lists, nil for nil |
| `DeepCopy.CopyClusterRoleInto` | api/v1alpha1/zz_generated.deepcopy.go:294-303 | ClusterRoleBaseline.DeepCopyInto, through a pointer to an array element: the struct, with its rules copied unless they are nil |
| `DeepCopy.CopyRoleInto` | api/v1alpha1/zz_generated.deepcopy.go:519-528 | RoleBaseline.DeepCopyInto: the same for a Role |
| `DeepCopy.CopyClusterRoleBindingInto` | api/v1alpha1/zz_generated.deepcopy.go:316-324 | ClusterRoleBindingBaseline.DeepCopyInto: the struct, with its subjects copied unless they are nil |
| `DeepCopy.CopyRoleBindingInto` | api/v1alpha1/zz_generated.deepcopy.go:541-549 | RoleBindingBaseline.DeepCopyInto: the same for a RoleBinding |
| `DeepCopy.CopyClusterRoles` | api/v1alpha1/zz_generated.deepcopy.go:339-345 | the ClusterRoles loop: a new array of equal structs, on rules and lists of their own |
| `DeepCopy.CopyClusterRoleBindings` | api/v1alpha1/zz_generated.deepcopy.go:346-352 | the ClusterRoleBindings loop: a new array of equal structs, on subjects of their own |
| `DeepCopy.CopyRoles` | api/v1alpha1/zz_generated.deepcopy.go:353-359 | the Roles loop: a new array of equal structs, on rules and lists of their own |
| `DeepCopy.CopyRoleBindings` | api/v1alpha1/zz_generated.deepcopy.go:360-366 | the RoleBindings loop: a new array of equal structs, on subjects of their own |
| `DeepCopy.DeepCopyBaseline` | api/v1alpha1/zz_generated.deepcopy.go:337-367 | RBACBaseline.DeepCopyInto: an equal value, nil for nil; every array of the copy, at any depth, is new, and none is an array of the source, which keeps its value |
| `DeepCopy.DeepCopyStatus` | api/v1alpha1/zz_generated.deepcopy.go:481-506 | RBACDriftMonitorStatus.DeepCopyInto: the same status on new condition and item arrays, a new check time and a new snapshot, which is a deep copy |
| `CopyIsolation.WriteToCopy` | api/v1alpha1/zz_generated.deepcopy.go:337-367 | whatever is written to whichever arrays of a copy, at any depth, the source has the value it had |
| `CopyIsolation.SortACopy` | api/v1alpha1/zz_generated.deepcopy.go:337-367 | in particular, sorting every role of a copy leaves the source as it was |
| `CopyIsolation.CheckFetched` | internal/controller/rbacdriftmonitor_controller.go:191-315 | a check of a copy gives the items of the cached baseline and leaves the cache unchanged |

## Left out

- In the checks, the capture and the reconcile, baselines, rules and outer slices are values and only the string lists,
  which that code sorts in place, are heap arrays; in the deep copies all slices are arrays. Two slices are the same array
  or disjoint; overlapping sub-slices of one array are not modelled.
- Strings are sequences of characters and are compared character by character; UTF-8 is not modelled.
- The clock of a drift reconcile is one `now`, so the detection and the check see the same time.
- The JSON encoding of stored objects, in particular that it may turn empty slices into nil ones, is not modelled.
- The client's cache is taken to equal the store; an event that has not been delivered stands for a cache that lags.
- The API client is nondeterministic: every call may fail, and a status write fails on a version conflict.
- A running RequeueAfter timer may fire at any time; rate limiting and back-off of the work queue are not modelled. The
  CRD's minimum of 1 for the check interval is not enforced: `Recovery.ControllerCanSettle` asks for a positive interval.
- Message text, `formatSubjects`, logging and the emission of events are presentation.
- Leader election, scheme registration, `main.go`, CRD and template YAML are not part of this model.
- `meta.SetStatusCondition` is an upsert by type that moves the transition time only when the status changes.
- Quiescent consistency is about rules mode: the watch filter consults the spec baseline only, and the snapshot check
  writes nothing.
- The status and the Ready conditions of the degradation and certificate monitors, their suspended and list-failed
  branches, and the requeue intervals they return are not modelled.
- PEM decoding and X.509 parsing: a certificate is its subject, issuer and expiry, or unparsable.
- Label selectors and the listing of namespaces: the namespaces to scan are given, and a namespace whose secrets cannot be
  listed is one without an entry in the store.
- Days are computed with integer division where the code divides a floating-point number of hours.
- Certificate event deduplication and the namespace count in the Ready message.
- `mapTLSSecretToMonitor` is not modelled.
- Deep copies of the other API types. Conditions, drift items and subjects hold no references apart from the location of
  a time, which is not modelled, so their element copies are assignments.
- The interior pointer of `(*in)[i].DeepCopyInto(&(*out)[i])` is an array and an index.
- `PolicyRule.DeepCopyInto` belongs to Kubernetes and is not part of this model; `CopyRule` copies its five lists, nil for nil.
