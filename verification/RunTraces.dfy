/** The calls that a whole reconcile makes, in order. */
module RunTraces {
  import opened Prelude
  import opened Rbac
  import opened Drift
  import opened DriftTheorems
  import opened Snapshots
  import opened MonitorStatus
  import opened Api
  import opened Worker

  /** The kinds in the order in which a snapshot lists them, and the detection. */
  const CAPTURED := [ClusterRole, ClusterRoleBinding, Role, RoleBinding]
  const DETECTED := [ClusterRoleBinding, ClusterRole, RoleBinding, Role]

  /** Every response is one to its call. */
  ghost predicate Answered(trace: seq<Access>) {
    forall i :: 0 <= i < |trace| ==>
      match trace[i].call
      case Get(_) => trace[i].response.Got?
      case List(_) => trace[i].response.Listed?
      case Update(_) => trace[i].response.Updated?
  }

  lemma FollowsTake(run: Run, trace: seq<Access>, i: nat)
    requires i < |trace| && Follows(run, trace) && Answered(trace)
    ensures Follows(run, trace[..i]) && Answered(trace[..i])
    ensures NextCall(After(run, trace[..i])) == Some(trace[i].call)
  {
    assert CallsAt(run, trace, i);
    forall j | 0 <= j < i ensures CallsAt(run, trace[..i], j) {
      assert CallsAt(run, trace, j);
      assert trace[..i][..j] == trace[..j];
    }
  }

  // ---- a check --------------------------------------------------------------

  /** The number of lists of the detection. */
  function Detections(spec: Spec): nat {
    if spec.detectUnexpected then 4 else 0
  }

  /** The entries that the run checks. */
  function Checks(run: Run): seq<Entry> {
    if run.spec.mode == SNAPSHOT_BASED then run.SnapshotEntries() else Entries(run.spec.baseline)
  }

  /** Where an unsuspended run that need not capture anything is after k calls. */
  ghost predicate CheckAt(run: Run, spec: Spec, es: seq<Entry>, k: nat) {
    var d, n, rules := Detections(spec), |es|, spec.mode != SNAPSHOT_BASED;
    run.spec == spec
    && if k < d then run.phase == Detecting(k) && Checks(run) == es
       else if k < d + n then
         (if rules then run.phase.Checking? else run.phase.Comparing?)
         && |run.phase.got| == k - d && Checks(run) == es
       else if rules && k == d + n then run.phase.Writing?
       else k <= (if rules then d + n + 1 else d + n) && run.phase.Finished?
  }

  lemma CheckStart(generation: int, spec: Spec, status: Status, now: int)
    requires !spec.suspend && (spec.mode == SNAPSHOT_BASED ==> status.snapshot.Some?)
    ensures var run := Start(generation, spec, status, now);
      CheckAt(run, spec, if spec.mode == SNAPSHOT_BASED then ClusterRoleEntries(status.snapshot.value)
                         else Entries(spec.baseline), 0)
  {
  }

  lemma CheckFeed(run: Run, spec: Spec, es: seq<Entry>, k: nat, r: Response)
    requires CheckAt(run, spec, es, k) && NextCall(run).Some?
    requires match NextCall(run).value
             case Get(_) => r.Got?
             case List(_) => r.Listed?
             case Update(_) => r.Updated?
    ensures CheckAt(Feed(run, r), spec, es, k + 1)
  {
  }

  lemma {:induction false} CheckAfter(run: Run, spec: Spec, es: seq<Entry>, trace: seq<Access>)
    requires CheckAt(run, spec, es, 0) && Follows(run, trace) && Answered(trace)
    ensures CheckAt(After(run, trace), spec, es, |trace|)
  {
    if trace != [] {
      var n := |trace| - 1;
      FollowsTake(run, trace, n);
      CheckAfter(run, spec, es, trace[..n]);
      CheckFeed(After(run, trace[..n]), spec, es, n, trace[n].response);
      assert After(run, trace) == Feed(After(run, trace[..n]), trace[n].response);
    }
  }

  lemma CheckCall(run: Run, spec: Spec, es: seq<Entry>, k: nat, call: Call)
    requires CheckAt(run, spec, es, k) && NextCall(run) == Some(call)
    ensures var d := Detections(spec);
      if k < d then call == List(DETECTED[k])
      else if k < d + |es| then call == Get(es[k - d].key)
      else k == d + |es| && call.Update? && spec.mode != SNAPSHOT_BASED
  {
  }

  /** The calls of an unsuspended reconcile that has what it checks against: the four
      lists of the detection if it is on; one read per entry in order, of the baseline or
      of the ClusterRoles of the snapshot; and one write after a check of the baseline. */
  lemma CheckCalls(generation: int, spec: Spec, status: Status, now: int, trace: seq<Access>, i: nat)
    requires !spec.suspend && (spec.mode == "snapshot" ==> status.snapshot.Some?) && i < |trace|
    requires Follows(Start(generation, spec, status, now), trace) && Answered(trace)
    ensures var d := if spec.detectUnexpected then 4 else 0;
      var es := if spec.mode == "snapshot" then ClusterRoleEntries(status.snapshot.value) else Entries(spec.baseline);
      if i < d then trace[i].call == List([ClusterRoleBinding, ClusterRole, RoleBinding, Role][i])
      else if i < d + |es| then trace[i].call == Get(es[i - d].key)
      else i == d + |es| && trace[i].call.Update? && spec.mode != "snapshot"
  {
    var run := Start(generation, spec, status, now);
    var es :=
      if spec.mode == SNAPSHOT_BASED then ClusterRoleEntries(status.snapshot.value) else Entries(spec.baseline);
    CheckStart(generation, spec, status, now);
    FollowsTake(run, trace, i);
    CheckAfter(run, spec, es, trace[..i]);
    CheckCall(After(run, trace[..i]), spec, es, i, trace[i].call);
  }

  // ---- a capture first ------------------------------------------------------

  lemma FollowsDrop(run: Run, trace: seq<Access>, k: nat)
    requires k <= |trace| && Follows(run, trace) && Answered(trace)
    ensures Follows(After(run, trace[..k]), trace[k..]) && Answered(trace[k..])
  {
    forall j | 0 <= j < |trace| - k ensures CallsAt(After(run, trace[..k]), trace[k..], j) {
      assert CallsAt(run, trace, k + j);
      assert trace[..k + j] == trace[..k] + trace[k..][..j];
      AfterConcat(run, trace[..k], trace[k..][..j]);
    }
  }

  /** The first k responses are successful lists. */
  ghost predicate AllListed(trace: seq<Access>, k: nat) {
    k <= |trace| && forall j :: 0 <= j < k ==> trace[j].response.Listed? && trace[j].response.items.Some?
  }

  ghost function ItemsAt(trace: seq<Access>, j: nat): seq<Item>
    requires AllListed(trace, j + 1)
  {
    trace[j].response.items.value
  }

  /** The reconcile of an unsuspended monitor in snapshot mode that has no snapshot. */
  ghost predicate Capture(generation: int, spec: Spec, status: Status, now: int, trace: seq<Access>) {
    !spec.suspend && spec.mode == "snapshot" && status.snapshot.None?
    && Follows(Start(generation, spec, status, now), trace) && Answered(trace)
  }

  lemma AfterNext(run: Run, trace: seq<Access>, k: nat)
    requires k < |trace|
    ensures After(run, trace[..k + 1]) == Feed(After(run, trace[..k]), trace[k].response)
  {
    assert trace[..k + 1] == trace[..k] + [trace[k]];
    AfterLast(run, trace[..k], trace[k]);
  }

  lemma CaptureStep(run: Run, items: seq<Item>)
    requires run.phase.Capturing? && |run.phase.lists| < 3
    ensures Feed(run, Listed(Some(items))) == run.(phase := Capturing(run.phase.lists + [items]))
  {
  }

  lemma {:induction false} CaptureUpTo(generation: int, spec: Spec, status: Status, now: int, trace: seq<Access>,
                                       k: nat)
    requires Capture(generation, spec, status, now, trace) && AllListed(trace, k) && k < 4
    ensures var run := After(Start(generation, spec, status, now), trace[..k]);
      run == Start(generation, spec, status, now).(phase := run.phase) && run.phase.Capturing?
      && |run.phase.lists| == k && forall j :: 0 <= j < k ==> run.phase.lists[j] == ItemsAt(trace, j)
  {
    var start := Start(generation, spec, status, now);
    if k == 0 {
      assert trace[..0] == [];
    } else {
      CaptureUpTo(generation, spec, status, now, trace, k - 1);
      AfterNext(start, trace, k - 1);
      CaptureStep(After(start, trace[..k - 1]), ItemsAt(trace, k - 1));
    }
  }

  ghost function Captured(status: Status, trace: seq<Access>): Status
    requires AllListed(trace, 4)
  {
    status.(snapshot := Some(SnapshotOf(
      Listings(ItemsAt(trace, 0), ItemsAt(trace, 1), ItemsAt(trace, 2), ItemsAt(trace, 3)))))
  }

  lemma CapturedAll(generation: int, spec: Spec, status: Status, now: int, trace: seq<Access>)
    requires Capture(generation, spec, status, now, trace) && AllListed(trace, 4)
    ensures After(Start(generation, spec, status, now), trace[..4])
      == Start(generation, spec, status, now).(phase := Storing, status := Captured(status, trace))
  {
    CaptureUpTo(generation, spec, status, now, trace, 3);
    AfterNext(Start(generation, spec, status, now), trace, 3);
  }

  /** Its calls while nothing fails: four lists, and a write that adds the snapshot made
      of what they returned to the status. */
  lemma CaptureCalls(generation: int, spec: Spec, status: Status, now: int, trace: seq<Access>, i: nat)
    requires Capture(generation, spec, status, now, trace) && i < |trace| && i <= 4 && AllListed(trace, i)
    ensures if i < 4 then trace[i].call == List([ClusterRole, ClusterRoleBinding, Role, RoleBinding][i])
            else trace[i].call == Update(Captured(status, trace))
  {
    FollowsTake(Start(generation, spec, status, now), trace, i);
    if i < 4 {
      CaptureUpTo(generation, spec, status, now, trace, i);
    } else {
      CapturedAll(generation, spec, status, now, trace);
    }
  }

  /** A run that reports a failed snapshot writes its status, and no more. */
  lemma FailingCalls(run: Run, rest: seq<Access>)
    requires run.phase.Failing? && Follows(run, rest) && Answered(rest)
    ensures |rest| <= 1 && (rest != [] ==> rest[0].call == Update(run.status))
  {
    if rest != [] { assert CallsAt(run, rest, 0) && rest[..0] == []; }
    if |rest| > 1 {
      assert CallsAt(run, rest, 1) && rest[..1] == [] + [rest[0]];
      AfterLast(run, [], rest[0]);
    }
  }

  /** The one call that may follow is a write that only sets Ready to False. */
  ghost predicate OnlyReportsFailure(rest: seq<Access>, status: Status, generation: int) {
    |rest| <= 1
    && (rest != [] ==>
          rest[0].call.Update?
          && Has(rest[0].call.status.conditions, "Ready", false, "BaselineSnapshotFailed", generation)
          && rest[0].call.status == status.(conditions := rest[0].call.status.conditions))
  }

  /** After a list that failed there is no other list and no check, and no snapshot. */
  lemma FailedListEnds(generation: int, spec: Spec, status: Status, now: int, trace: seq<Access>, j: nat)
    requires Capture(generation, spec, status, now, trace) && j < |trace| && j < 4
    requires AllListed(trace, j) && trace[j].response == Listed(None)
    ensures OnlyReportsFailure(trace[j + 1..], status, generation)
  {
    var start := Start(generation, spec, status, now);
    CaptureUpTo(generation, spec, status, now, trace, j);
    AfterNext(start, trace, j);
    FollowsDrop(start, trace, j + 1);
    FailingCalls(After(start, trace[..j + 1]), trace[j + 1..]);
    SnapshotFailedMeans(status, generation, now);
  }

  lemma AfterStoring(generation: int, spec: Spec, status: Status, now: int, trace: seq<Access>)
    requires Capture(generation, spec, status, now, trace) && |trace| > 4 && AllListed(trace, 4)
    ensures var start := Start(generation, spec, status, now);
      trace[4].response.Updated?
      && After(start, trace[..5])
        == Feed(start.(phase := Storing, status := Captured(status, trace)), trace[4].response)
  {
    CapturedAll(generation, spec, status, now, trace);
    CaptureCalls(generation, spec, status, now, trace, 4);
    AfterNext(Start(generation, spec, status, now), trace, 4);
  }

  /** After a refused write of the snapshot neither; the failure is reported with the
      snapshot still in memory. */
  lemma FailedStoreEnds(generation: int, spec: Spec, status: Status, now: int, trace: seq<Access>)
    requires Capture(generation, spec, status, now, trace) && |trace| > 4 && AllListed(trace, 4)
    requires trace[4].response == Updated(false)
    ensures OnlyReportsFailure(trace[5..], Captured(status, trace), generation)
  {
    var start := Start(generation, spec, status, now);
    AfterStoring(generation, spec, status, now, trace);
    FollowsDrop(start, trace, 5);
    FailingCalls(After(start, trace[..5]), trace[5..]);
    SnapshotFailedMeans(Captured(status, trace), generation, now);
  }

  /** After a successful one come the calls of a reconcile that has that snapshot. */
  lemma StoredThenChecked(generation: int, spec: Spec, status: Status, now: int, trace: seq<Access>)
    requires Capture(generation, spec, status, now, trace) && |trace| > 4 && AllListed(trace, 4)
    requires trace[4].response == Updated(true)
    ensures Follows(Start(generation, spec, Captured(status, trace), now), trace[5..]) && Answered(trace[5..])
  {
    AfterStoring(generation, spec, status, now, trace);
    FollowsDrop(Start(generation, spec, status, now), trace, 5);
  }

  // ---- without detection ----------------------------------------------------

  /** Where a run that does not look for unexpected resources can be after k calls. */
  ghost predicate QuietAt(run: Run, spec: Spec, captures: bool, k: nat) {
    run.spec == spec && run.events == [] && !run.phase.Detecting?
    && (run.phase.Capturing? ==> captures && k < 4 && |run.phase.lists| == k)
  }

  lemma QuietStart(generation: int, spec: Spec, status: Status, now: int)
    requires !spec.detectUnexpected
    ensures QuietAt(Start(generation, spec, status, now), spec,
                    !spec.suspend && spec.mode == SNAPSHOT_BASED && status.snapshot.None?, 0)
  {
  }

  lemma QuietFeed(run: Run, spec: Spec, captures: bool, k: nat, r: Response)
    requires !spec.detectUnexpected && QuietAt(run, spec, captures, k) && (run.phase.Capturing? ==> r.Listed?)
    ensures QuietAt(Feed(run, r), spec, captures, k + 1)
  {
  }

  lemma {:induction false} QuietAfter(run: Run, spec: Spec, captures: bool, trace: seq<Access>)
    requires !spec.detectUnexpected && QuietAt(run, spec, captures, 0) && Follows(run, trace) && Answered(trace)
    ensures QuietAt(After(run, trace), spec, captures, |trace|)
  {
    if trace != [] {
      var n := |trace| - 1;
      FollowsTake(run, trace, n);
      QuietAfter(run, spec, captures, trace[..n]);
      QuietFeed(After(run, trace[..n]), spec, captures, n, trace[n].response);
    }
  }

  lemma QuietList(run: Run, spec: Spec, captures: bool, trace: seq<Access>, i: nat)
    requires !spec.detectUnexpected && QuietAt(run, spec, captures, 0) && Follows(run, trace) && Answered(trace)
    requires i < |trace| && trace[i].call.List?
    ensures captures && i < 4 && trace[i].call.kind == CAPTURED[i]
  {
    FollowsTake(run, trace, i);
    QuietAfter(run, spec, captures, trace[..i]);
  }

  /** Without detection a reconcile adds no event; and it lists nothing, except for the
      four lists of a snapshot that an unsuspended monitor in snapshot mode lacks. */
  lemma WithoutDetection(generation: int, spec: Spec, status: Status, now: int, trace: seq<Access>)
    requires !spec.detectUnexpected && Follows(Start(generation, spec, status, now), trace) && Answered(trace)
    ensures After(Start(generation, spec, status, now), trace).events == []
    ensures forall i :: 0 <= i < |trace| && trace[i].call.List? ==>
      !spec.suspend && spec.mode == "snapshot" && status.snapshot.None?
      && i < 4 && trace[i].call.kind == [ClusterRole, ClusterRoleBinding, Role, RoleBinding][i]
  {
    var run := Start(generation, spec, status, now);
    var captures := !spec.suspend && spec.mode == SNAPSHOT_BASED && status.snapshot.None?;
    QuietStart(generation, spec, status, now);
    QuietAfter(run, spec, captures, trace);
    forall i | 0 <= i < |trace| && trace[i].call.List?
      ensures captures && i < 4 && trace[i].call.kind == CAPTURED[i]
    {
      QuietList(run, spec, captures, trace, i);
    }
  }

  // ---- a suspended monitor --------------------------------------------------

  lemma {:induction false} SuspendedAfter(run: Run, trace: seq<Access>)
    requires run.phase == Suspending && run.events == [] && Follows(run, trace) && Answered(trace)
    ensures |trace| <= 1 && After(run, trace).events == []
    ensures trace == [] || After(run, trace).phase.Finished?
  {
    if trace != [] {
      FollowsTake(run, trace, |trace| - 1);
      SuspendedAfter(run, trace[..|trace| - 1]);
    }
  }

  /** The reconcile of a suspended monitor makes one call at most: it writes its status
      with a False Ready condition. */
  lemma SuspendedRunCalls(generation: int, spec: Spec, status: Status, now: int, trace: seq<Access>)
    requires spec.suspend && Follows(Start(generation, spec, status, now), trace) && Answered(trace)
    ensures |trace| <= 1 && After(Start(generation, spec, status, now), trace).events == []
    ensures trace != [] ==>
      trace[0].call.Update?
      && Has(trace[0].call.status.conditions, "Ready", false, "Suspended", generation)
      && trace[0].call.status == status.(conditions := trace[0].call.status.conditions)
  {
    var run := Start(generation, spec, status, now);
    SuspendedAfter(run, trace);
    SuspendedMeans(status, generation, now);
    if trace != [] { FollowsTake(run, trace, 0); }
  }

  // ---- the end --------------------------------------------------------------

  /** The phases of a monitor with this spec. */
  ghost predicate Suits(phase: Phase, spec: Spec) {
    match phase
    case Suspending => spec.suspend
    case Checking(_) => !spec.suspend && spec.mode != SNAPSHOT_BASED
    case Writing => !spec.suspend && spec.mode != SNAPSHOT_BASED
    case Detecting(_) => !spec.suspend
    case Finished(_, _) => true
    case _ => !spec.suspend && spec.mode == SNAPSHOT_BASED
  }

  /** How a run that is over after these accesses has ended: it failed exactly if the last
      one is a refused write, and asks to be repeated after the interval exactly if it is a
      successful write of an unsuspended monitor that is not in snapshot mode. */
  ghost predicate EndsAfter(phase: Phase, spec: Spec, trace: seq<Access>)
    requires phase.Finished?
  {
    var last := if trace == [] then None else Some(trace[|trace| - 1].response);
    phase.failed == (last == Some(Updated(false)))
    && phase.requeueAfter == if last == Some(Updated(true)) && !spec.suspend && spec.mode != "snapshot"
                             then Some(spec.checkIntervalMinutes) else None
  }

  ghost predicate OnItsWay(run: Run, spec: Spec, trace: seq<Access>) {
    run.spec == spec && Suits(run.phase, spec) && (run.phase.Finished? ==> EndsAfter(run.phase, spec, trace))
  }

  lemma OnItsWayFeed(run: Run, spec: Spec, trace: seq<Access>, x: Access)
    requires OnItsWay(run, spec, trace) && NextCall(run) == Some(x.call) && Answered([x])
    ensures OnItsWay(Feed(run, x.response), spec, trace + [x])
  {
    assert [x][0] == x;
  }

  lemma {:induction false} OnItsWayAfter(run: Run, trace: seq<Access>)
    requires OnItsWay(run, run.spec, []) && Follows(run, trace) && Answered(trace)
    ensures OnItsWay(After(run, trace), run.spec, trace)
  {
    if trace != [] {
      var n := |trace| - 1;
      FollowsTake(run, trace, n);
      OnItsWayAfter(run, trace[..n]);
      OnItsWayFeed(After(run, trace[..n]), run.spec, trace[..n], trace[n]);
      assert trace == trace[..n] + [trace[n]];
    }
  }

  lemma RunEnds(generation: int, spec: Spec, status: Status, now: int, trace: seq<Access>)
    requires Follows(Start(generation, spec, status, now), trace) && Answered(trace)
    requires After(Start(generation, spec, status, now), trace).phase.Finished?
    ensures EndsAfter(After(Start(generation, spec, status, now), trace).phase, spec, trace)
  {
    OnItsWayAfter(Start(generation, spec, status, now), trace);
  }
}
