/** What it means that a check, finished or under way, shows the cluster as it is. */
module Freshness {
  import opened Rbac
  import opened Drift
  import opened Unexpected
  import opened DriftTheorems
  import opened MonitorStatus
  import opened Api
  import opened Worker
  import opened RunInvariant

  /** Every read gave what the cluster holds; where misreads are possible, some may
      have failed instead. */
  ghost predicate ReadsCurrent(es: seq<Entry>, got: seq<ReadResult>, c: Cluster, misread: bool) {
    |got| <= |es|
    && forall i :: 0 <= i < |got| ==> got[i] == Lookup(c, es[i].key) || (misread && got[i].Failed?)
  }

  /** The items of the status are those of such reads. */
  ghost predicate Explains(es: seq<Entry>, got: seq<ReadResult>, c: Cluster, misread: bool, st: Status) {
    |got| == |es| && ReadsCurrent(es, got, c, misread)
    && st.lastCheckTime.Some? && st.driftItems == CheckDrift(es, got, st.lastCheckTime.value)
  }

  ghost predicate UpToDate(es: seq<Entry>, c: Cluster, misread: bool, st: Status) {
    exists got :: Explains(es, got, c, misread, st)
  }

  /** What the run has read so far shows the cluster as it is now. */
  ghost predicate RunCurrent(run: Run, c: Cluster, misread: bool) {
    var es := Entries(run.spec.baseline);
    match run.phase
    case Detecting(_) => true
    case Checking(got) => ReadsCurrent(es, got, c, misread)
    case Writing => UpToDate(es, c, misread, run.status)
    case _ => false
  }

  // ---- what an up-to-date status says -------------------------------------

  /** Without misreads its items are the drift. */
  lemma UpToDateIsDrift(es: seq<Entry>, c: Cluster, st: Status)
    requires UpToDate(es, c, false, st)
    ensures st.lastCheckTime.Some? && st.driftItems == PureDrift(es, c, st.lastCheckTime.value)
  {
    var got :| Explains(es, got, c, false, st);
    assert got == Lookups(es, c);
  }

  /** With misreads they are a subsequence of the drift, and all of it exactly when
      every failed read was of a match. */
  lemma UpToDateHides(es: seq<Entry>, c: Cluster, st: Status) returns (got: seq<ReadResult>)
    requires UpToDate(es, c, true, st)
    ensures st.lastCheckTime.Some? && ReadsOf(es, got, c)
    ensures var drift := PureDrift(es, c, st.lastCheckTime.value);
      st.driftItems == CheckDrift(es, got, st.lastCheckTime.value) && Subsequence(st.driftItems, drift)
      && (st.driftItems == drift <==> FailuresMatch(es, got, c))
  {
    got :| Explains(es, got, c, true, st);
    FailedReadsOnlyHide(es, got, c, st.lastCheckTime.value);
  }

  // ---- runs ---------------------------------------------------------------

  lemma CheckedIsCurrent(run: Run, got: seq<ReadResult>, c: Cluster, misread: bool)
    requires ReadsCurrent(Entries(run.spec.baseline), got, c, misread)
    ensures RunCurrent(Checked(run, got), c, misread)
  {
    var es, next := Entries(run.spec.baseline), Checked(run, got);
    if |got| == |es| { assert Explains(es, got, c, misread, next.status); }
  }

  lemma DetectIsCurrent(run: Run, c: Cluster, misread: bool)
    requires run.spec.mode != SNAPSHOT_BASED
    ensures RunCurrent(Detect(run), c, misread) && RunCurrent(Check(run), c, misread)
  {
    CheckedIsCurrent(run, [], c, misread);
  }

  lemma ReadIsCurrent(run: Run, r: ReadResult, c: Cluster, misread: bool)
    requires run.phase.Checking? && |run.phase.got| < |Entries(run.spec.baseline)| && RunCurrent(run, c, misread)
    requires r == Lookup(c, Entries(run.spec.baseline)[|run.phase.got|].key) || (misread && r.Failed?)
    ensures RunCurrent(Feed(run, Got(r)), c, misread)
  {
    CheckedIsCurrent(run, run.phase.got + [r], c, misread);
  }

  lemma FeedIsCurrent(run: Run, r: Response, c: Cluster, misread: bool)
    requires RunOk(run) && RunCurrent(run, c, misread) && !run.phase.Writing? && run.spec.mode != SNAPSHOT_BASED
    requires run.phase.Checking? ==>
      r == Got(Lookup(c, Entries(run.spec.baseline)[|run.phase.got|].key)) || (misread && r == Got(Failed))
    ensures RunCurrent(Feed(run, r), c, misread)
  {
    if run.phase.Checking? {
      ReadIsCurrent(run, r.result, c, misread);
    } else if r.Listed? {
      DetectIsCurrent(Noted(run, r.items), c, misread);
    }
  }

  /** A misread makes it easier to be current. */
  lemma MisreadsAllowMore(run: Run, c: Cluster)
    requires RunCurrent(run, c, false)
    ensures RunCurrent(run, c, true)
  {
    if run.phase.Writing? { UpToDateAllowsMore(Entries(run.spec.baseline), c, run.status); }
  }

  lemma UpToDateAllowsMore(es: seq<Entry>, c: Cluster, st: Status)
    requires UpToDate(es, c, false, st)
    ensures UpToDate(es, c, true, st)
  {
    var got :| Explains(es, got, c, false, st);
    assert Explains(es, got, c, true, st);
  }

  // ---- frames -------------------------------------------------------------

  lemma ReadsFrame(es: seq<Entry>, got: seq<ReadResult>, c: Cluster, c': Cluster, misread: bool)
    requires forall k :: k in KeysOf(es) ==> Lookup(c, k) == Lookup(c', k)
    requires ReadsCurrent(es, got, c, misread)
    ensures ReadsCurrent(es, got, c', misread)
  {
    assert forall i :: 0 <= i < |es| ==> es[i].key in KeysOf(es);
  }

  lemma UpToDateFrame(es: seq<Entry>, c: Cluster, c': Cluster, misread: bool, st: Status)
    requires forall k :: k in KeysOf(es) ==> Lookup(c, k) == Lookup(c', k)
    requires UpToDate(es, c, misread, st)
    ensures UpToDate(es, c', misread, st)
  {
    var got :| Explains(es, got, c, misread, st);
    ReadsFrame(es, got, c, c', misread);
    assert Explains(es, got, c', misread, st);
  }

  lemma CurrentFrame(run: Run, c: Cluster, c': Cluster, misread: bool)
    requires forall k :: k in KeysOf(Entries(run.spec.baseline)) ==> Lookup(c, k) == Lookup(c', k)
    requires RunCurrent(run, c, misread)
    ensures RunCurrent(run, c', misread)
  {
    var es := Entries(run.spec.baseline);
    if run.phase.Checking? { ReadsFrame(es, run.phase.got, c, c', misread); }
    if run.phase.Writing? { UpToDateFrame(es, c, c', misread, run.status); }
  }
}
