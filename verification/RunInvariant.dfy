/** What every run satisfies between two of its calls. */
module RunInvariant {
  import opened Rbac
  import opened Drift
  import opened MonitorStatus
  import opened Api
  import opened Worker

  /** The phase fits the spec, and what the run may still write is coherent. */
  ghost predicate RunOk(run: Run) {
    (run.phase.Finished? || Coherent(run.status))
    && match run.phase
       case Suspending => run.spec.suspend && ReadyIs(run.status, false)
       case Capturing(lists) => !run.spec.suspend && run.spec.mode == SNAPSHOT_BASED && |lists| < 4
         && run.status.snapshot.None?
       case Storing => !run.spec.suspend && run.spec.mode == SNAPSHOT_BASED && run.status.snapshot.Some?
       case Failing => !run.spec.suspend && run.spec.mode == SNAPSHOT_BASED && ReadyIs(run.status, false)
       case Detecting(n) => !run.spec.suspend && n < 4
       case Comparing(got) => !run.spec.suspend && run.spec.mode == SNAPSHOT_BASED && |got| < |run.SnapshotEntries()|
       case Checking(got) => !run.spec.suspend && run.spec.mode != SNAPSHOT_BASED
         && |got| < |Entries(run.spec.baseline)|
       case Writing => !run.spec.suspend && run.spec.mode != SNAPSHOT_BASED
         && ReadyIs(run.status, true) && run.status.observedGeneration == run.generation
       case Finished(_, _) => true
  }

  lemma CheckedIsOk(run: Run, got: seq<ReadResult>)
    requires !run.spec.suspend && run.spec.mode != SNAPSHOT_BASED && Coherent(run.status)
    requires |got| <= |Entries(run.spec.baseline)|
    ensures RunOk(Checked(run, got))
  {
    if |got| == |Entries(run.spec.baseline)| {
      RulesCheckKeepsCoherent(run.status, Entries(run.spec.baseline), got, run.generation, run.now);
      RulesCheckedMeans(run.status, CheckDrift(Entries(run.spec.baseline), got, run.now), run.generation, run.now);
    }
  }

  lemma DetectIsOk(run: Run)
    requires !run.spec.suspend && Coherent(run.status)
    ensures RunOk(Detect(run)) && RunOk(Check(run))
  {
    if run.spec.mode != SNAPSHOT_BASED { CheckedIsOk(run, []); }
  }

  lemma StartIsOk(generation: int, spec: Spec, status: Status, now: int)
    requires Coherent(status)
    ensures RunOk(Start(generation, spec, status, now))
  {
    SuspendKeepsCoherent(status, generation, now);
    SuspendedMeans(status, generation, now);
    if !spec.suspend { DetectIsOk(Run(generation, spec, status, now, Capturing([]), [])); }
  }

  lemma FailureIsOk(run: Run)
    requires !run.spec.suspend && run.spec.mode == SNAPSHOT_BASED && Coherent(run.status)
    ensures RunOk(FailSnapshot(run))
  {
    SuspendKeepsCoherent(run.status, run.generation, run.now);
    SnapshotFailedMeans(run.status, run.generation, run.now);
  }

  lemma FeedIsOk(run: Run, r: Response)
    requires RunOk(run)
    ensures RunOk(Feed(run, r))
  {
    match (run.phase, r)
    case (Capturing(lists), Listed(None)) => FailureIsOk(run);
    case (Storing, Updated(ok)) =>
      FailureIsOk(run);
      DetectIsOk(run);
    case (Detecting(n), Listed(items)) => DetectIsOk(Noted(run, items));
    case (Checking(got), Got(result)) => CheckedIsOk(run, got + [result]);
    case _ =>
  }
}
