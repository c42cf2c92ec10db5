/** `Reconcile` on an in-memory monitor: it makes the calls of the worker automaton
    and computes its status, while the checks sort the monitor's own lists. */
module Reconciler {
  import opened Prelude
  import opened PolicyRules
  import opened Rbac
  import opened Drift
  import opened Unexpected
  import opened DriftTheorems
  import opened MonitorStatus
  import opened Api
  import opened Worker
  import opened RulesCheck
  import opened Monitors
  import opened Detect
  import opened Capture

  datatype Result = Result(requeueAfter: Option<int>, failed: bool)

  /** The run is at the point that the in-memory monitor has reached. */
  ghost predicate InStep(m: Monitor, run: Run, now: int)
    reads m, m.SnapshotLists(), m.SpecLists()
  {
    m.Valid() && run.generation == m.generation && run.now == now
    && run.spec == SpecValue(m.spec) && run.status == m.StatusValue()
  }

  /** The run has come to the end that the reconcile has come to. */
  ghost predicate EndsAs(end: Run, m: Monitor, result: Result, events: seq<RBACDrift>)
    reads m
  {
    end.phase == Finished(result.failed, result.requeueAfter) && end.events == events
    && end.status.conditions == m.conditions && end.status.driftItems == m.driftItems
    && end.status.driftCount == m.driftCount && end.status.lastCheckTime == m.lastCheckTime
    && end.status.observedGeneration == m.observedGeneration
  }

  // ---- unexpected resources -----------------------------------------------

  lemma DetectStep(run: Run, n: nat, r: Option<seq<Item>>)
    requires n < 4
    ensures NextCall(run.(phase := Detecting(n))) == Some(List(DetectOrder(n)))
    ensures Feed(run.(phase := Detecting(n)), Listed(r))
      == if n < 3 then Noted(run, r).(phase := Detecting(n + 1)) else Check(Noted(run, r))
  {
  }

  /** One of the four lists of a detection. */
  lemma DetectAccess(start: Run, trace: seq<Access>, run: Run, n: nat, r: Option<seq<Item>>)
    requires n < 4 && Follows(start, trace) && After(start, trace) == run.(phase := Detecting(n))
    ensures var t := trace + [Access(List(DetectOrder(n)), Listed(r))];
      Follows(start, t)
      && After(start, t) == if n < 3 then Noted(run, r).(phase := Detecting(n + 1)) else Check(Noted(run, r))
  {
    DetectStep(run, n, r);
    FollowsStep(start, trace, Access(List(DetectOrder(n)), Listed(r)));
  }

  lemma DetectTrace(run: Run, rs: seq<Option<seq<Item>>>)
    requires run.spec.detectUnexpected && |rs| == 4
    ensures var t := DetectionAccesses(rs);
      Follows(Worker.Detect(run), t) && After(Worker.Detect(run), t) == Check(Reporting(run, rs))
  {
    var start := run.(phase := Detecting(0));
    var t := DetectionAccesses(rs);
    assert t == [] + [t[0]] + [t[1]] + [t[2]] + [t[3]];
    DetectAccess(start, [], run, 0, rs[0]);
    DetectAccess(start, [] + [t[0]], Noted(run, rs[0]), 1, rs[1]);
    DetectAccess(start, [] + [t[0]] + [t[1]], Noted(Noted(run, rs[0]), rs[1]), 2, rs[2]);
    DetectAccess(start, [] + [t[0]] + [t[1]] + [t[2]], Noted(Noted(Noted(run, rs[0]), rs[1]), rs[2]), 3, rs[3]);
    ReportingSteps(run, rs);
  }

  /** The run once the four detectors have reported. */
  ghost function Reporting(run: Run, rs: seq<Option<seq<Item>>>): Run
    requires |rs| == 4
  {
    run.(events := run.events + DetectionOf(rs, KeysOf(Entries(run.spec.baseline)), run.spec.exclusions, run.now))
  }

  lemma Regroup<T>(s: seq<T>, a: seq<T>, b: seq<T>, c: seq<T>, d: seq<T>)
    ensures s + a + b + c + d == s + (a + b + c + d)
  {
  }

  lemma ReportingSteps(run: Run, rs: seq<Option<seq<Item>>>)
    requires |rs| == 4
    ensures Noted(Noted(Noted(Noted(run, rs[0]), rs[1]), rs[2]), rs[3])
      == Reporting(run, rs)
  {
    var known, ex := KeysOf(Entries(run.spec.baseline)), run.spec.exclusions;
    Regroup(run.events, UnexpectedIn(rs[0], known, ex, run.now), UnexpectedIn(rs[1], known, ex, run.now),
            UnexpectedIn(rs[2], known, ex, run.now), UnexpectedIn(rs[3], known, ex, run.now));
  }

  // ---- the rules-based check ----------------------------------------------

  /** The end of `checkDriftRulesBased`: the status fields, then the two conditions. */
  method ReportRules(m: Monitor, items: seq<RBACDrift>, now: int, ghost snap: Option<Baseline>)
    modifies m`conditions, m`driftItems, m`driftCount, m`lastCheckTime, m`observedGeneration
    ensures m.Report(snap) == RulesChecked(old(m.Report(snap)), items, m.generation, now)
  {
    m.driftItems := items;
    m.driftCount := Int32(|items|);
    m.lastCheckTime := Some(now);
    m.observedGeneration := m.generation;
    if |items| > 0 {
      m.SetStatusCondition(Condition(DRIFT_DETECTED, true, "DriftFound", m.generation, now));
    } else {
      m.SetStatusCondition(Condition(DRIFT_DETECTED, false, "NoDrift", m.generation, now));
    }
    m.SetStatusCondition(Condition(READY, true, "ReconcileComplete", m.generation, now));
  }

  lemma WritingIsLast(run: Run, trace: seq<Access>, ok: bool)
    requires After(run, trace).phase == Writing
    ensures NextCall(After(run, trace)) == Some(Update(After(run, trace).status))
    ensures Feed(After(run, trace), Updated(ok)) == After(run, trace).(phase :=
        Finished(!ok, if ok then Some(After(run, trace).spec.checkIntervalMinutes) else None))
  {
  }

  /** The reads of a whole rules-based check bring the run to its write. */
  lemma ReadsReachWriting(run: Run, got: seq<ReadResult>) returns (trace: seq<Access>)
    requires run.spec.mode != SNAPSHOT_BASED && |got| == |Entries(run.spec.baseline)|
    ensures trace == Accesses(Entries(run.spec.baseline), got) && Follows(Check(run), trace)
    ensures After(Check(run), trace) == run.(
        status := RulesChecked(
          run.status, CheckDrift(Entries(run.spec.baseline), got, run.now), run.generation, run.now),
        phase := Writing)
  {
    var es := Entries(run.spec.baseline);
    trace := Accesses(es, got);
    assert es[..|got|] == es;
    ReadsOfRules(run, got);
  }

  /** The write at the end of `checkDriftRulesBased`. */
  method WriteReport(client: Client, m: Monitor, ghost run: Run, ghost trace: seq<Access>, ghost before: seq<Access>)
    returns (result: Result, ghost trace': seq<Access>)
    requires Follows(run, trace) && client.log == before + trace
    requires After(run, trace).phase == Writing && After(run, trace).status == m.StatusValue()
    requires After(run, trace).spec.checkIntervalMinutes == m.spec.checkIntervalMinutes
    modifies client
    ensures Follows(run, trace') && client.log == before + trace'
    ensures After(run, trace') == After(run, trace).(phase := Finished(result.failed, result.requeueAfter))
    ensures result.requeueAfter == if result.failed then None else Some(m.spec.checkIntervalMinutes)
  {
    var status := m.StatusValue();
    var ok := client.Update(status);
    WritingIsLast(run, trace, ok);
    trace' := Extend(run, trace, before, client.log, Update(status), Updated(ok));
    result := if ok then Result(Some(m.spec.checkIntervalMinutes), false) else Result(None, true);
  }

  method CheckDriftRulesBased(client: Client, m: Monitor, now: int, ghost run: Run)
    returns (result: Result, ghost trace: seq<Access>)
    requires InStep(m, run, now) && m.spec.mode != SNAPSHOT_BASED
    modifies client, m`conditions, m`driftItems, m`driftCount, m`lastCheckTime, m`observedGeneration, m.SpecLists()
    ensures client.log == old(client.log) + trace && Follows(Check(run), trace)
    ensures var end := After(Check(run), trace);
      EndsAs(end, m, result, run.events) && end.status.snapshot == run.status.snapshot
    ensures result.requeueAfter == if result.failed then None else Some(m.spec.checkIntervalMinutes)
  {
    ghost var before := client.log;
    ghost var was := Record(m.SnapshotLists());
    m.StatusUnchanged(was);
    EntriesOfValue(m.spec.baseline);
    ListsOfBaseline(m.spec.baseline);
    var items; ghost var got;
    items, got := CheckRules(client, m.spec.baseline, now);
    trace := ReadsReachWriting(run, got);
    ReportRules(m, items, now, run.status.snapshot);
    m.StatusUnchanged(was);
    result, trace := WriteReport(client, m, Check(run), trace, before);
  }

  // ---- the snapshot-based check -------------------------------------------

  /** The end of `checkDriftSnapshotBased`, which only changes the in-memory status. */
  method ReportSnapshot(m: Monitor, items: seq<RBACDrift>, now: int, ghost snap: Option<Baseline>)
    modifies m`conditions, m`driftItems, m`driftCount, m`lastCheckTime, m`observedGeneration
    ensures m.Report(snap) == SnapshotChecked(old(m.Report(snap)), items, m.generation, now)
  {
    m.driftItems := items;
    m.driftCount := Int32(|items|);
    m.lastCheckTime := Some(now);
    m.observedGeneration := m.generation;
    if |items| > 0 {
      m.SetStatusCondition(Condition(DRIFT_DETECTED, true, "DriftFound", m.generation, now));
    }
  }

  lemma ReadsFinishSnapshot(run: Run, got: seq<ReadResult>) returns (trace: seq<Access>)
    requires run.spec.mode == SNAPSHOT_BASED && |got| == |run.SnapshotEntries()|
    ensures trace == Accesses(run.SnapshotEntries(), got) && Follows(Check(run), trace)
    ensures After(Check(run), trace) == run.(
        status := SnapshotChecked(
          run.status, CheckDrift(run.SnapshotEntries(), got, run.now), run.generation, run.now),
        phase := Finished(false, None))
  {
    var es := run.SnapshotEntries();
    trace := Accesses(es, got);
    assert es[..|got|] == es;
    ReadsOfSnapshot(run, got);
  }

  method CheckDriftSnapshotBased(client: Client, m: Monitor, now: int, ghost run: Run)
    returns (result: Result, ghost trace: seq<Access>)
    requires InStep(m, run, now) && m.spec.mode == SNAPSHOT_BASED && m.snapshot.Some?
    modifies client, m`conditions, m`driftItems, m`driftCount, m`lastCheckTime, m`observedGeneration, m.SnapshotLists()
    ensures client.log == old(client.log) + trace && Follows(Check(run), trace)
    ensures var end := After(Check(run), trace);
      EndsAs(end, m, result, run.events) && end.status.snapshot == run.status.snapshot
    ensures result == Result(None, false)
  {
    var b := m.snapshot.value;
    EntriesOfValue(b);
    ListsOfBaseline(b);
    var items; ghost var got;
    items, got := CheckSnapshot(client, b, now);
    trace := ReadsFinishSnapshot(run, got);
    ReportSnapshot(m, items, now, run.status.snapshot);
    result := Result(None, false);
  }

  // ---- Reconcile ----------------------------------------------------------

  method DetectPhase(client: Client, m: Monitor, now: int, ghost run: Run)
    returns (events: seq<RBACDrift>, ghost trace: seq<Access>)
    requires InStep(m, run, now)
    modifies client
    ensures InStep(m, run, now) && client.log == old(client.log) + trace && Follows(Worker.Detect(run), trace)
    ensures After(Worker.Detect(run), trace) == Check(run.(events := run.events + events))
  {
    events, trace := [], [];
    if m.spec.detectUnexpected {
      ghost var was, its := Record(m.SnapshotLists()), Record(m.SpecLists());
      m.StatusUnchanged(was);
      BaselineUnchanged(its, m.spec.baseline);
      ghost var rs;
      events, rs := DetectUnexpectedDrifts(client, m.spec.baseline, m.spec.exclusions, now);
      m.StatusUnchanged(was);
      BaselineUnchanged(its, m.spec.baseline);
      KeysOfValue(m.spec.baseline);
      DetectTrace(run, rs);
      trace := DetectionAccesses(rs);
    } else {
      assert run.(events := run.events + []) == run;
    }
  }

  lemma Associate<T>(s: seq<T>, a: seq<T>, b: seq<T>)
    ensures s + a + b == s + (a + b)
  {
  }

  lemma Join(run: Run, a: seq<Access>, b: seq<Access>, log0: seq<Access>, log1: seq<Access>, log2: seq<Access>)
    returns (trace: seq<Access>)
    requires Follows(run, a) && Follows(After(run, a), b) && log1 == log0 + a && log2 == log1 + b
    ensures log2 == log0 + trace && Follows(run, trace) && After(run, trace) == After(After(run, a), b)
  {
    trace := a + b;
    Associate(log0, a, b);
    FollowsConcat(run, a, b);
    AfterConcat(run, a, b);
  }

  /** Detection and check, once there is a snapshot to compare with if one is needed. */
  method DetectAndCheck(client: Client, m: Monitor, now: int, ghost run: Run)
    returns (result: Result, events: seq<RBACDrift>, ghost trace: seq<Access>)
    requires InStep(m, run, now) && run.events == [] && (m.spec.mode == SNAPSHOT_BASED ==> m.snapshot.Some?)
    modifies client, m, m.SpecLists(), m.SnapshotLists()
    ensures client.log == old(client.log) + trace && Follows(Worker.Detect(run), trace)
    ensures EndsAs(After(Worker.Detect(run), trace), m, result, events)
    ensures result.requeueAfter
      == if result.failed || m.spec.mode == SNAPSHOT_BASED then None else Some(m.spec.checkIntervalMinutes)
  {
    ghost var log0, detection, check := client.log, [], [];
    events, detection := DetectPhase(client, m, now, run);
    ghost var log1 := client.log;
    ghost var run' := run.(events := events);
    assert [] + events == events;
    if m.spec.mode == SNAPSHOT_BASED {
      result, check := CheckDriftSnapshotBased(client, m, now, run');
    } else {
      result, check := CheckDriftRulesBased(client, m, now, run');
    }
    trace := Join(Worker.Detect(run), detection, check, log0, log1, client.log);
  }

  /** Write a status that ends the reconcile. */
  method WriteLast(client: Client, m: Monitor, ghost run: Run, ghost trace: seq<Access>, ghost before: seq<Access>)
    returns (result: Result, ghost trace': seq<Access>)
    requires Follows(run, trace) && client.log == before + trace
    requires After(run, trace).phase in {Suspending, Failing} && After(run, trace).status == m.StatusValue()
    modifies client
    ensures Follows(run, trace') && client.log == before + trace'
    ensures After(run, trace') == After(run, trace).(phase := Finished(result.failed, result.requeueAfter))
    ensures result.requeueAfter == None
  {
    var status := m.StatusValue();
    var ok := client.Update(status);
    trace' := Extend(run, trace, before, client.log, Update(status), Updated(ok));
    result := Result(None, !ok);
  }

  method ReconcileSuspended(client: Client, m: Monitor, now: int, ghost run: Run)
    returns (result: Result, ghost trace: seq<Access>)
    requires m.spec.suspend && run == Start(m.generation, SpecValue(m.spec), m.StatusValue(), now)
    modifies client, m`conditions
    ensures client.log == old(client.log) + trace && Follows(run, trace) && result.requeueAfter == None
    ensures EndsAs(After(run, trace), m, result, run.events)
  {
    ghost var was := Record(m.SnapshotLists());
    m.StatusUnchanged(was);
    m.SetStatusCondition(Condition(READY, false, "Suspended", m.generation, now));
    m.StatusUnchanged(was);
    result, trace := WriteLast(client, m, run, [], client.log);
  }

  /** Capture the missing snapshot; if that succeeds, detect and check. */
  method ReconcileCapturing(client: Client, m: Monitor, now: int, ghost run: Run)
    returns (result: Result, events: seq<RBACDrift>, ghost trace: seq<Access>)
    requires InStep(m, run, now) && run.phase == Capturing([]) && m.spec.mode == SNAPSHOT_BASED && m.snapshot == None
    requires run.events == []
    modifies client, m, m.SpecLists()
    ensures client.log == old(client.log) + trace && Follows(run, trace) && result.requeueAfter == None
    ensures EndsAs(After(run, trace), m, result, events)
  {
    events := [];
    ghost var log0, rest := client.log, [];
    ghost var its := Record(m.SpecLists());
    BaselineUnchanged(its, m.spec.baseline);
    var ok;
    ok, trace := MakeBaselineSnapshot(client, m, run);
    ghost var run', log1 := run.(status := m.StatusValue()), client.log;
    if !ok {
      ghost var was := Record(m.SnapshotLists());
      m.StatusUnchanged(was);
      m.SetStatusCondition(Condition(READY, false, "BaselineSnapshotFailed", m.generation, now));
      m.StatusUnchanged(was);
      result, trace := WriteLast(client, m, run, trace, log0);
    } else {
      BaselineUnchanged(its, m.spec.baseline);
      result, events, rest := DetectAndCheck(client, m, now, run');
      trace := Join(run, trace, rest, log0, log1, client.log);
    }
  }

  /** `Reconcile`, from the point where the monitor has been fetched.  Its calls are
      those of the worker automaton, and so are the status it computes, the unexpected
      resources it reports and the result it returns. */
  method Reconcile(client: Client, m: Monitor, now: int)
    returns (result: Result, events: seq<RBACDrift>, ghost trace: seq<Access>)
    requires m.Valid()
    modifies client, m, m.SpecLists(), m.SnapshotLists()
    ensures client.log == old(client.log) + trace
    ensures Follows(old(Start(m.generation, SpecValue(m.spec), m.StatusValue(), now)), trace)
    ensures EndsAs(After(old(Start(m.generation, SpecValue(m.spec), m.StatusValue(), now)), trace), m, result, events)
    ensures result.requeueAfter
      == if result.failed || m.spec.suspend || m.spec.mode == SNAPSHOT_BASED then None
         else Some(m.spec.checkIntervalMinutes)
  {
    events := [];
    ghost var run := Start(m.generation, SpecValue(m.spec), m.StatusValue(), now);
    ghost var begun := Run(m.generation, SpecValue(m.spec), m.StatusValue(), now, Capturing([]), []);
    if m.spec.suspend {
      result, trace := ReconcileSuspended(client, m, now, run);
    } else if m.spec.mode == SNAPSHOT_BASED && m.snapshot == None {
      result, events, trace := ReconcileCapturing(client, m, now, begun);
    } else {
      result, events, trace := DetectAndCheck(client, m, now, begun);
    }
  }

  // ---- what a whole reconcile reports -------------------------------------

  /** The calls and responses of a rules-mode reconcile that meets no error and an
      unchanging cluster. */
  ghost function QuietTrace(spec: Spec, c: Cluster, ls: Listings): seq<Access> {
    DetectionAccesses([Some(ls.clusterRoleBindings), Some(ls.clusterRoles), Some(ls.roleBindings), Some(ls.roles)])
    + Accesses(Entries(spec.baseline), Lookups(Entries(spec.baseline), c))
  }

  /** The lists of a detection and then the reads of a rules check bring a run to its write. */
  lemma DetectAndReadTrace(run: Run, rs: seq<Option<seq<Item>>>, got: seq<ReadResult>)
    requires run.spec.detectUnexpected && |rs| == 4
    requires run.spec.mode != SNAPSHOT_BASED && |got| == |Entries(run.spec.baseline)|
    ensures var t, es := DetectionAccesses(rs) + Accesses(Entries(run.spec.baseline), got), Entries(run.spec.baseline);
      Follows(Worker.Detect(run), t)
      && After(Worker.Detect(run), t) == Reporting(run, rs).(
        status := RulesChecked(run.status, CheckDrift(es, got, run.now), run.generation, run.now), phase := Writing)
  {
    DetectTrace(run, rs);
    var accesses := ReadsReachWriting(Reporting(run, rs), got);
    FollowsConcat(Worker.Detect(run), DetectionAccesses(rs), accesses);
    AfterConcat(Worker.Detect(run), DetectionAccesses(rs), accesses);
  }

  /** Such a reconcile reports all drift: the items that it writes together with the
      unexpected resources that it sends to events are `AllDrift`. */
  lemma QuietRunReportsAllDrift(generation: int, spec: Spec, status: Status, now: int, c: Cluster, ls: Listings)
    requires !spec.suspend && spec.mode != SNAPSHOT_BASED && spec.detectUnexpected && AreListings(c, ls)
    ensures Follows(Start(generation, spec, status, now), QuietTrace(spec, c, ls))
    ensures var end := After(Start(generation, spec, status, now), QuietTrace(spec, c, ls));
      end.phase == Writing
      && end.status.driftItems + end.events == AllDrift(Entries(spec.baseline), c, ls, spec.exclusions, now)
  {
    var es := Entries(spec.baseline);
    var run := Run(generation, spec, status, now, Capturing([]), []);
    var rs := [Some(ls.clusterRoleBindings), Some(ls.clusterRoles), Some(ls.roleBindings), Some(ls.roles)];
    DetectAndReadTrace(run, rs, Lookups(es, c));
    DetectionIsComplete(ls, KeysOf(es), spec.exclusions, now);
    assert Reporting(run, rs).events == AllUnexpected(ls, KeysOf(es), spec.exclusions, now);
  }

  /** So without exclusions it is silent exactly when baseline and cluster agree. */
  lemma QuietRunIsSilentExactly(generation: int, spec: Spec, status: Status, now: int, c: Cluster, ls: Listings)
    requires !spec.suspend && spec.mode != SNAPSHOT_BASED && spec.detectUnexpected && AreListings(c, ls)
    requires spec.exclusions == NOTHING_EXCLUDED
    ensures var end := After(Start(generation, spec, status, now), QuietTrace(spec, c, ls));
      end.status.driftItems == [] && end.events == [] <==> Agrees(Entries(spec.baseline), c)
  {
    QuietRunReportsAllDrift(generation, spec, status, now, c, ls);
    ZeroDrift(Entries(spec.baseline), c, ls, now);
  }
}
