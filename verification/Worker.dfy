/** One `Reconcile` as an automaton: the API call it makes next, and what it does with
    the response.  Between two calls anything may happen to the cluster. */
module Worker {
  import opened Prelude
  import opened Rbac
  import opened Drift
  import opened Unexpected
  import opened DriftTheorems
  import opened Snapshots
  import opened MonitorStatus
  import opened Api

  datatype Phase =
    | Suspending                            // about to write the suspended status
    | Capturing(lists: seq<seq<Item>>)      // listing the four kinds for a snapshot
    | Storing                               // about to write the snapshot
    | Failing                               // about to write that the snapshot failed
    | Detecting(n: nat)                     // listing the four kinds for unexpected resources
    | Comparing(got: seq<ReadResult>)       // reading the ClusterRoles of the snapshot
    | Checking(got: seq<ReadResult>)        // reading the resources of the baseline
    | Writing                               // about to write the result of the check
    | Finished(failed: bool, requeueAfter: Option<int>)

  /** The in-memory monitor, how far the reconcile has come, and the unexpected
      resources that it has found, which go to events. */
  datatype Run = Run(generation: int, spec: Spec, status: Status, now: int, phase: Phase, events: seq<RBACDrift>) {
    function SnapshotEntries(): seq<Entry> {
      if status.snapshot.Some? then ClusterRoleEntries(status.snapshot.value) else []
    }
  }

  /** The order of the lists in `MakeBaselineSnapshot` and in `DetectUnexpectedDrifts`. */
  function CaptureOrder(n: nat): Kind {
    if n == 0 then ClusterRole else if n == 1 then ClusterRoleBinding else if n == 2 then Role else RoleBinding
  }

  function DetectOrder(n: nat): Kind {
    if n == 0 then ClusterRoleBinding else if n == 1 then ClusterRole else if n == 2 then RoleBinding else Role
  }

  function Start(generation: int, spec: Spec, status: Status, now: int): Run {
    if spec.suspend then
      Run(generation, spec, Suspended(status, generation, now), now, Suspending, [])
    else
      var run := Run(generation, spec, status, now, Capturing([]), []);
      if spec.mode == SNAPSHOT_BASED && status.snapshot.None? then run else Detect(run)
  }

  function Detect(run: Run): Run {
    if run.spec.detectUnexpected then run.(phase := Detecting(0)) else Check(run)
  }

  function Check(run: Run): Run {
    if run.spec.mode == SNAPSHOT_BASED then Compared(run, []) else Checked(run, [])
  }

  /** After the last read of a snapshot check nothing is written. */
  function Compared(run: Run, got: seq<ReadResult>): Run {
    if |got| == |run.SnapshotEntries()| then
      var items := CheckDrift(run.SnapshotEntries(), got, run.now);
      run.(status := SnapshotChecked(run.status, items, run.generation, run.now), phase := Finished(false, None))
    else run.(phase := Comparing(got))
  }

  function Checked(run: Run, got: seq<ReadResult>): Run {
    var es := Entries(run.spec.baseline);
    if |got| == |es| then
      run.(status := RulesChecked(run.status, CheckDrift(es, got, run.now), run.generation, run.now), phase := Writing)
    else run.(phase := Checking(got))
  }

  /** The next call, unless the reconcile is over. */
  function NextCall(run: Run): Option<Call> {
    match run.phase
    case Suspending => Some(Update(run.status))
    case Capturing(lists) => Some(List(CaptureOrder(|lists|)))
    case Storing => Some(Update(run.status))
    case Failing => Some(Update(run.status))
    case Detecting(n) => Some(List(DetectOrder(n)))
    case Comparing(got) =>
      if |got| < |run.SnapshotEntries()| then Some(Get(run.SnapshotEntries()[|got|].key)) else None
    case Checking(got) =>
      var es := Entries(run.spec.baseline);
      if |got| < |es| then Some(Get(es[|got|].key)) else None
    case Writing => Some(Update(run.status))
    case Finished(_, _) => None
  }

  function FailSnapshot(run: Run): Run {
    run.(status := SnapshotFailed(run.status, run.generation, run.now), phase := Failing)
  }

  /** One detector has had its response. */
  function Noted(run: Run, r: Option<seq<Item>>): Run {
    run.(events := run.events + UnexpectedIn(r, KeysOf(Entries(run.spec.baseline)), run.spec.exclusions, run.now))
  }

  /** What the reconcile does with a response. */
  function Feed(run: Run, r: Response): Run {
    match (run.phase, r)
    case (Suspending, Updated(ok)) => run.(phase := Finished(!ok, None))
    case (Capturing(_), Listed(None)) => FailSnapshot(run)
    case (Capturing(lists), Listed(Some(items))) =>
      if |lists| < 3 then run.(phase := Capturing(lists + [items]))
      else
        var all := Listings(lists[0], lists[1], lists[2], items);
        run.(status := run.status.(snapshot := Some(SnapshotOf(all))), phase := Storing)
    // A failed write of the snapshot is reported with the snapshot still in memory.
    case (Storing, Updated(ok)) => if ok then Detect(run) else FailSnapshot(run)
    case (Failing, Updated(ok)) => run.(phase := Finished(!ok, None))
    // The outcome of the detection goes to events only.
    case (Detecting(n), Listed(r)) =>
      if n < 3 then Noted(run, r).(phase := Detecting(n + 1)) else Check(Noted(run, r))
    case (Comparing(got), Got(result)) => Compared(run, got + [result])
    case (Checking(got), Got(result)) => Checked(run, got + [result])
    // Only a check against the rules asks to be repeated.
    case (Writing, Updated(ok)) =>
      run.(phase := Finished(!ok, if ok then Some(run.spec.checkIntervalMinutes) else None))
    case _ => run
  }

  // ---- traces -------------------------------------------------------------

  function After(run: Run, trace: seq<Access>): Run {
    if trace == [] then run else Feed(After(run, trace[..|trace| - 1]), trace[|trace| - 1].response)
  }

  /** The i-th access of the trace is the call that the reconcile makes at that point. */
  ghost predicate CallsAt(run: Run, trace: seq<Access>, i: nat)
    requires i < |trace|
  {
    NextCall(After(run, trace[..i])) == Some(trace[i].call)
  }

  /** Every access of the trace is. */
  ghost predicate Follows(run: Run, trace: seq<Access>) {
    forall i :: 0 <= i < |trace| ==> CallsAt(run, trace, i)
  }

  lemma AfterLast(run: Run, a: seq<Access>, x: Access)
    ensures After(run, a + [x]) == Feed(After(run, a), x.response)
  {
  }

  lemma {:induction false} AfterConcat(run: Run, a: seq<Access>, b: seq<Access>)
    ensures After(run, a + b) == After(After(run, a), b)
  {
    if b == [] {
      assert a + b == a;
    } else {
      var init, x := b[..|b| - 1], b[|b| - 1];
      AfterConcat(run, a, init);
      AfterLast(run, a + init, x);
      AfterLast(After(run, a), init, x);
      assert b == init + [x] && a + b == a + init + [x];
    }
  }

  lemma FollowsConcat(run: Run, a: seq<Access>, b: seq<Access>)
    requires Follows(run, a) && Follows(After(run, a), b)
    ensures Follows(run, a + b)
  {
    forall i | 0 <= i < |a + b| ensures CallsAt(run, a + b, i) {
      if i < |a| {
        assert CallsAt(run, a, i);
        assert (a + b)[..i] == a[..i];
      } else {
        assert CallsAt(After(run, a), b, i - |a|);
        assert (a + b)[..i] == a + b[..i - |a|];
        AfterConcat(run, a, b[..i - |a|]);
      }
    }
  }

  /** One call that the automaton makes. */
  lemma FollowsStep(run: Run, a: seq<Access>, x: Access)
    requires Follows(run, a) && NextCall(After(run, a)) == Some(x.call)
    ensures Follows(run, a + [x]) && After(run, a + [x]) == Feed(After(run, a), x.response)
  {
    assert [x][..0] == [] && CallsAt(After(run, a), [x], 0);
    FollowsConcat(run, a, [x]);
    AfterLast(run, a, x);
  }

  /** The reads of some entries in order. */
  ghost function Accesses(es: seq<Entry>, got: seq<ReadResult>): seq<Access>
    requires |es| == |got|
  {
    seq(|es|, i requires 0 <= i < |es| => Access(Get(es[i].key), Got(got[i])))
  }

  lemma AccessesLast(es: seq<Entry>, got: seq<ReadResult>)
    requires 0 < |got| <= |es|
    ensures var n := |got| - 1;
      got == got[..n] + [got[n]]
      && Accesses(es[..|got|], got) == Accesses(es[..n], got[..n]) + [Access(Get(es[n].key), Got(got[n]))]
  {
  }

  lemma CheckedStep(run: Run, got: seq<ReadResult>, r: ReadResult)
    requires |got| < |Entries(run.spec.baseline)|
    ensures NextCall(Checked(run, got)) == Some(Get(Entries(run.spec.baseline)[|got|].key))
    ensures Feed(Checked(run, got), Got(r)) == Checked(run, got + [r])
  {
  }

  /** One more read of a rules check. */
  lemma ReadOfRules(start: Run, trace: seq<Access>, run: Run, got: seq<ReadResult>, r: ReadResult)
    requires |got| < |Entries(run.spec.baseline)| && Follows(start, trace) && After(start, trace) == Checked(run, got)
    ensures var t := trace + [Access(Get(Entries(run.spec.baseline)[|got|].key), Got(r))];
      Follows(start, t) && After(start, t) == Checked(run, got + [r])
  {
    CheckedStep(run, got, r);
    FollowsStep(start, trace, Access(Get(Entries(run.spec.baseline)[|got|].key), Got(r)));
  }

  /** The reads of the first entries bring a rules check to where it has their results. */
  ghost predicate RulesRead(run: Run, es: seq<Entry>, got: seq<ReadResult>)
    requires |got| <= |es|
  {
    var t := Accesses(es[..|got|], got);
    Follows(Checked(run, []), t) && After(Checked(run, []), t) == Checked(run, got)
  }

  lemma NoRulesRead(run: Run, es: seq<Entry>)
    ensures RulesRead(run, es, [])
  {
    assert Accesses(es[..0], []) == [];
  }

  lemma OneMoreRulesRead(run: Run, es: seq<Entry>, got: seq<ReadResult>, k: nat)
    requires es == Entries(run.spec.baseline) && k < |got| <= |es| && RulesRead(run, es, got[..k])
    ensures RulesRead(run, es, got[..k + 1])
  {
    AccessesLast(es, got[..k + 1]);
    assert got[..k + 1][..k] == got[..k] && got[..k + 1] == got[..k] + [got[k]];
    ReadOfRules(Checked(run, []), Accesses(es[..k], got[..k]), run, got[..k], got[k]);
  }

  lemma {:induction false} RulesReadUpTo(run: Run, es: seq<Entry>, got: seq<ReadResult>, k: nat)
    requires es == Entries(run.spec.baseline) && k <= |got| <= |es|
    ensures RulesRead(run, es, got[..k])
  {
    if k == 0 {
      NoRulesRead(run, es);
    } else {
      RulesReadUpTo(run, es, got, k - 1);
      OneMoreRulesRead(run, es, got, k - 1);
    }
  }

  lemma ReadsOfRules(run: Run, got: seq<ReadResult>)
    requires |got| <= |Entries(run.spec.baseline)|
    ensures RulesRead(run, Entries(run.spec.baseline), got)
  {
    assert got[..|got|] == got;
    RulesReadUpTo(run, Entries(run.spec.baseline), got, |got|);
  }

  lemma ComparedStep(run: Run, got: seq<ReadResult>, r: ReadResult)
    requires |got| < |run.SnapshotEntries()|
    ensures NextCall(Compared(run, got)) == Some(Get(run.SnapshotEntries()[|got|].key))
    ensures Feed(Compared(run, got), Got(r)) == Compared(run, got + [r])
  {
  }

  /** One more read of a snapshot check. */
  lemma ReadOfSnapshot(start: Run, trace: seq<Access>, run: Run, got: seq<ReadResult>, r: ReadResult)
    requires |got| < |run.SnapshotEntries()| && Follows(start, trace) && After(start, trace) == Compared(run, got)
    ensures var t := trace + [Access(Get(run.SnapshotEntries()[|got|].key), Got(r))];
      Follows(start, t) && After(start, t) == Compared(run, got + [r])
  {
    ComparedStep(run, got, r);
    FollowsStep(start, trace, Access(Get(run.SnapshotEntries()[|got|].key), Got(r)));
  }

  ghost predicate SnapshotRead(run: Run, es: seq<Entry>, got: seq<ReadResult>)
    requires |got| <= |es|
  {
    var t := Accesses(es[..|got|], got);
    Follows(Compared(run, []), t) && After(Compared(run, []), t) == Compared(run, got)
  }

  lemma NoSnapshotRead(run: Run, es: seq<Entry>)
    ensures SnapshotRead(run, es, [])
  {
    assert Accesses(es[..0], []) == [];
  }

  lemma OneMoreSnapshotRead(run: Run, es: seq<Entry>, got: seq<ReadResult>, k: nat)
    requires es == run.SnapshotEntries() && k < |got| <= |es| && SnapshotRead(run, es, got[..k])
    ensures SnapshotRead(run, es, got[..k + 1])
  {
    AccessesLast(es, got[..k + 1]);
    assert got[..k + 1][..k] == got[..k] && got[..k + 1] == got[..k] + [got[k]];
    ReadOfSnapshot(Compared(run, []), Accesses(es[..k], got[..k]), run, got[..k], got[k]);
  }

  lemma {:induction false} SnapshotReadUpTo(run: Run, es: seq<Entry>, got: seq<ReadResult>, k: nat)
    requires es == run.SnapshotEntries() && k <= |got| <= |es|
    ensures SnapshotRead(run, es, got[..k])
  {
    if k == 0 {
      NoSnapshotRead(run, es);
    } else {
      SnapshotReadUpTo(run, es, got, k - 1);
      OneMoreSnapshotRead(run, es, got, k - 1);
    }
  }

  lemma ReadsOfSnapshot(run: Run, got: seq<ReadResult>)
    requires |got| <= |run.SnapshotEntries()|
    ensures SnapshotRead(run, run.SnapshotEntries(), got)
  {
    assert got[..|got|] == got;
    SnapshotReadUpTo(run, run.SnapshotEntries(), got, |got|);
  }
}
