/** Consistency is not vacuous: from every state of every behavior the controller can
    settle, without any change to the cluster or to the monitor's spec. */
module Recovery {
  import opened Prelude
  import opened Rbac
  import opened Drift
  import opened MonitorStatus
  import opened Api
  import opened Worker
  import opened RunInvariant
  import opened RunLength
  import opened Controller
  import opened ControllerInvariant
  import opened Consistency
  import opened Timers

  ghost function Last(b: seq<State>): State
    requires b != []
  {
    b[|b| - 1]
  }

  lemma Extend(b: seq<State>, step: Step) returns (b': seq<State>)
    requires Behavior(b) && Enabled(Last(b), step)
    ensures Behavior(b') && b < b' && Last(b') == AfterStep(Last(b), step)
  {
    b' := b + [AfterStep(Last(b), step)];
    forall i | 0 <= i < |b'| - 1 ensures Continues(b', i) {
      if i < |b| - 1 {
        assert Continues(b, i);
      } else {
        assert Enabled(b'[i], step);
      }
    }
  }

  lemma RunOfBehavior(b: seq<State>, n: string)
    requires Behavior(b) && n in Last(b).active
    ensures RunOk(Last(b).active[n].run) && !Last(b).active[n].run.phase.Finished?
  {
    InvariantHolds(b, |b| - 1);
    assert ActiveOk(Last(b), n);
  }

  // ---- the responses ------------------------------------------------------

  /** The API can always answer without an error a run that works on the stored version. */
  lemma GoodResponse(s: State, n: string) returns (r: Response)
    requires n in s.active && NextCall(s.active[n].run).Some? && Current(s, n)
    ensures Possible(s, n, r) && Fits(s.active[n].run, r)
    ensures r != Got(Failed) && r != Updated(false) && r != Listed(None)
  {
    match NextCall(s.active[n].run).value
    case Get(key) => r := Got(Lookup(s.cluster, key));
    case List(kind) =>
      var items := ListingExists(s.cluster, kind);
      r := Listed(Some(items));
    case Update(_) => r := Updated(true);
  }

  /** It can also refuse what the run writes. */
  lemma BadResponse(s: State, n: string) returns (r: Response)
    requires n in s.active && NextCall(s.active[n].run).Some?
    ensures Possible(s, n, r) && Fits(s.active[n].run, r)
    ensures r != Got(Failed) && r != Updated(true)
  {
    match NextCall(s.active[n].run).value
    case Get(key) => r := Got(Lookup(s.cluster, key));
    case List(kind) => r := Listed(None);
    case Update(_) => r := Updated(false);
  }

  // ---- the steps to a settled state ---------------------------------------

  /** The cluster and the monitors are what they were. */
  ghost predicate Untouched(s: State, s': State) {
    s'.cluster == s.cluster && s'.monitors == s.monitors
  }

  /** A run in progress comes to its end even if nothing it writes is accepted. */
  lemma {:induction false} RunGivesUp(b: seq<State>, n: string) returns (b': seq<State>)
    requires Behavior(b) && n in Last(b).active
    ensures Behavior(b') && b < b' && n !in Last(b').active && Untouched(Last(b), Last(b'))
    decreases Rank(Last(b).active[n].run.phase), CallsInPhase(Last(b).active[n].run)
  {
    var s := Last(b);
    RunOfBehavior(b, n);
    var r := BadResponse(s, n);
    RunShrinks(s.active[n].run, r);
    var b1 := Extend(b, Respond(n, r));
    if n in Last(b1).active {
      b' := RunGivesUp(b1, n);
    } else {
      b' := b1;
    }
  }

  lemma DeliverShrinks(s: State, e: Event)
    requires e in s.events
    ensures var s' := Delivered(s, e);
      |s'.events| < |s.events| && Untouched(s, s') && s'.active == s.active
  {
  }

  /** The handlers of all events can run. */
  lemma {:induction false} AllDelivered(b: seq<State>) returns (b': seq<State>)
    requires Behavior(b)
    ensures Behavior(b') && b <= b' && Last(b').events == multiset{} && Untouched(Last(b), Last(b'))
    ensures Last(b').active == Last(b).active
    decreases |Last(b).events|
  {
    var s := Last(b);
    if s.events == multiset{} {
      b' := b;
    } else {
      var e :| e in s.events;
      DeliverShrinks(s, e);
      var b1 := Extend(b, Deliver(e));
      b' := AllDelivered(b1);
    }
  }

  /** n is being processed, nothing about it is under way, and no read has failed. */
  ghost predicate Working(s: State, n: string) {
    Watching(s, n) && !Disturbed(s, n) && n !in s.misread && n in s.active
  }

  lemma BegunWorks(s: State, n: string, now: int)
    requires Watching(s, n) && n !in s.active && s.events == multiset{}
    ensures Working(Begun(s, n, now), n) && Untouched(s, Begun(s, n, now))
  {
    CheckRanksAtLeast(Run(s.monitors[n].generation, s.monitors[n].spec, s.monitors[n].status, now, Capturing([]), []));
  }

  lemma CheckRanksAtLeast(run: Run)
    requires run.spec.mode != SNAPSHOT_BASED
    ensures !Detect(run).phase.Finished?
  {
  }

  /** The cluster and the monitor's spec are what they were. */
  ghost predicate SpecKept(s: State, s': State, n: string) {
    s'.cluster == s.cluster && n in s.monitors && n in s'.monitors && s'.monitors[n].spec == s.monitors[n].spec
  }

  lemma GoodFeed(run: Run, r: Response)
    requires r != Updated(false) && !run.phase.Finished?
    ensures Feed(run, r).phase != Finished(true, None)
  {
  }

  lemma GoodStep(s: State, n: string, r: Response)
    requires n in s.active && n in s.monitors && !s.active[n].run.phase.Finished?
    requires r != Got(Failed) && r != Updated(false)
    ensures var s' := Responded(s, n, r);
      s'.dirty == s.dirty && s'.lost == s.lost && s'.misread == s.misread
  {
    GoodFeed(s.active[n].run, r);
  }

  lemma StepKeepsSpec(s: State, n: string, r: Response)
    requires n in s.active && n in s.monitors
    ensures SpecKept(s, Responded(s, n, r), n)
  {
  }

  lemma StepAddsEcho(s: State, n: string, r: Response)
    requires n in s.active
    ensures forall e :: e in Responded(s, n, r).events ==> e in s.events || e.StatusEvent?
  {
  }

  lemma WorksOn(s: State, n: string, r: Response)
    requires Books(s) && Working(s, n) && Possible(s, n, r)
    requires r != Got(Failed) && r != Updated(false)
    ensures var s' := Responded(s, n, r);
      Watching(s', n) && !Disturbed(s', n) && n !in s'.misread && SpecKept(s, s', n)
  {
    assert ActiveOk(s, n);
    GoodStep(s, n, r);
    StepKeepsSpec(s, n, r);
    StepAddsEcho(s, n, r);
    var s' := Responded(s, n, r);
    assert !Pending(s', Entries(s'.monitors[n].spec.baseline)) by {
      assert !Pending(s, Entries(s.monitors[n].spec.baseline));
    }
  }

  /** An undisturbed run that meets no error settles its monitor. */
  lemma {:induction false} RunSucceeds(b: seq<State>, n: string) returns (b': seq<State>)
    requires Behavior(b) && Working(Last(b), n)
    ensures Behavior(b') && b < b' && SpecKept(Last(b), Last(b'), n)
    ensures Watching(Last(b'), n) && !Disturbed(Last(b'), n) && n !in Last(b').misread && n !in Last(b').active
    decreases Rank(Last(b).active[n].run.phase), CallsInPhase(Last(b).active[n].run)
  {
    var s := Last(b);
    RunOfBehavior(b, n);
    InvariantHolds(b, |b| - 1);
    UndisturbedIsCurrent(s, n);
    var r := GoodResponse(s, n);
    RunShrinks(s.active[n].run, r);
    WorksOn(s, n, r);
    var b1 := Extend(b, Respond(n, r));
    if n in Last(b1).active {
      b' := RunSucceeds(b1, n);
    } else {
      b' := b1;
    }
  }

  /** With all events handled, an idle watched monitor is queued or its timer can fire. */
  lemma CanBeWoken(b: seq<State>, n: string) returns (b': seq<State>)
    requires Behavior(b) && Watching(Last(b), n) && Last(b).monitors[n].spec.checkIntervalMinutes > 0
    requires n !in Last(b).active && Last(b).events == multiset{}
    ensures Behavior(b') && b <= b' && Untouched(Last(b), Last(b')) && Last(b').events == multiset{}
    ensures n !in Last(b').active && n in Last(b').dirty
  {
    if n in Last(b).dirty {
      b' := b;
    } else {
      TimersHold(b, |b| - 1, n);
      b' := Extend(b, Tick(n));
    }
  }

  /** From any state of any behavior, whatever runs, events and errors are pending, the
      controller alone can bring a watched monitor's persisted items to the drift of its
      baseline against the cluster.  What wakes it, if no event does, is the timer that
      its last check armed. */
  lemma ControllerCanSettle(b: seq<State>, n: string, now: int) returns (b': seq<State>)
    requires Behavior(b) && Watching(Last(b), n) && Last(b).monitors[n].spec.checkIntervalMinutes > 0
    ensures Behavior(b') && b <= b' && SpecKept(Last(b), Last(b'), n) && n !in Last(b').active
    ensures var m, c := Last(b').monitors[n], Last(b').cluster;
      m.status.lastCheckTime.Some?
      && m.status.driftItems == PureDrift(Entries(m.spec.baseline), c, m.status.lastCheckTime.value)
  {
    var b1 := b;
    if n in Last(b).active { b1 := RunGivesUp(b, n); }
    var b2 := AllDelivered(b1);
    var b3 := CanBeWoken(b2, n);
    var b4 := Extend(b3, Begin(n, now));
    BegunWorks(Last(b3), n, now);
    b' := RunSucceeds(b4, n);
    QuiescentConsistency(b', |b'| - 1, n);
  }
}
