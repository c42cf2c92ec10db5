/** Every reconcile ends: a measure that each API response lowers. */
module RunLength {
  import opened Prelude
  import opened Rbac
  import opened Drift
  import opened Api
  import opened Worker
  import opened RunInvariant

  function Rank(p: Phase): nat {
    match p
    case Capturing(_) => 5
    case Storing => 4
    case Detecting(_) => 3
    case Comparing(_) => 2
    case Checking(_) => 2
    case Writing => 1
    case Suspending => 1
    case Failing => 1
    case Finished(_, _) => 0
  }

  /** The calls that the run still makes in its phase. */
  function CallsInPhase(run: Run): int {
    match run.phase
    case Capturing(lists) => 4 - |lists|
    case Detecting(n) => 4 - n
    case Comparing(got) => |run.SnapshotEntries()| - |got|
    case Checking(got) => |Entries(run.spec.baseline)| - |got|
    case _ => 1
  }

  /** The response is one to the call that the run makes. */
  predicate Fits(run: Run, r: Response) {
    match NextCall(run)
    case None => false
    case Some(Get(_)) => r.Got?
    case Some(List(_)) => r.Listed?
    case Some(Update(_)) => r.Updated?
  }

  /** b is nearer to the end of the reconcile than a. */
  predicate Nearer(b: Run, a: Run) {
    Rank(b.phase) < Rank(a.phase) || (Rank(b.phase) == Rank(a.phase) && CallsInPhase(b) < CallsInPhase(a))
  }

  lemma CheckedCalls(run: Run, got: seq<ReadResult>)
    ensures var next := Checked(run, got);
      Rank(next.phase) <= 1 || (Rank(next.phase) == 2 && CallsInPhase(next) == |Entries(run.spec.baseline)| - |got|)
  {
  }

  lemma ComparedCalls(run: Run, got: seq<ReadResult>)
    ensures var next := Compared(run, got);
      Rank(next.phase) <= 1 || (Rank(next.phase) == 2 && CallsInPhase(next) == |run.SnapshotEntries()| - |got|)
  {
  }

  lemma ReadShrinks(run: Run, r: ReadResult)
    requires RunOk(run) && (run.phase.Checking? || run.phase.Comparing?)
    ensures Nearer(Feed(run, Got(r)), run)
  {
    if run.phase.Checking? {
      var got := run.phase.got;
      assert Feed(run, Got(r)) == Checked(run, got + [r]);
      CheckedCalls(run, got + [r]);
    } else {
      var got := run.phase.got;
      assert Feed(run, Got(r)) == Compared(run, got + [r]);
      ComparedCalls(run, got + [r]);
    }
  }

  lemma ListShrinks(run: Run, items: Option<seq<Item>>)
    requires RunOk(run) && (run.phase.Capturing? || run.phase.Detecting?)
    ensures Nearer(Feed(run, Listed(items)), run)
  {
  }

  lemma WriteShrinks(run: Run, ok: bool)
    requires run.phase.Suspending? || run.phase.Storing? || run.phase.Failing? || run.phase.Writing?
    ensures Nearer(Feed(run, Updated(ok)), run)
  {
  }

  /** Whatever the responses are, each brings the run nearer to its end. */
  lemma RunShrinks(run: Run, r: Response)
    requires RunOk(run) && Fits(run, r)
    ensures CallsInPhase(run) > 0 && Nearer(Feed(run, r), run)
  {
    match r
    case Got(result) => ReadShrinks(run, result);
    case Listed(items) => ListShrinks(run, items);
    case Updated(ok) => WriteShrinks(run, ok);
  }
}
