/** The invariant of the controller: bookkeeping first, then consistency. */
module ControllerInvariant {
  import opened Prelude
  import opened Rbac
  import opened Drift
  import opened MonitorStatus
  import opened Api
  import opened Worker
  import opened RunInvariant
  import opened Controller

  // ---- bookkeeping --------------------------------------------------------

  ghost predicate MonitorOk(s: State, n: string)
    requires n in s.monitors
  {
    s.monitors[n].resourceVersion < s.clock && Coherent(s.monitors[n].status)
  }

  /** Something tells the controller that n's monitor has changed. */
  ghost predicate Notified(s: State, n: string) {
    n in s.dirty || MonitorEvent(n) in s.events
  }

  /** A run whose version is current works on the stored spec, cannot replace a stored
      snapshot, and has no report of its own before its last write.  A run whose
      version is not current will be repeated. */
  ghost predicate ActiveOk(s: State, n: string)
    requires n in s.active
  {
    var a := s.active[n];
    a.resourceVersion < s.clock && RunOk(a.run) && !a.run.phase.Finished?
    && (n in s.monitors ==>
          var m := s.monitors[n];
          if a.resourceVersion == m.resourceVersion then
            a.run.generation == m.generation && a.run.spec == m.spec
            && (m.status.snapshot.Some? ==> a.run.status.snapshot == m.status.snapshot)
            && (a.run.phase.Writing? || SameReport(a.run.status, m.status))
          else Notified(s, n))
  }

  ghost predicate Books(s: State) {
    (forall n :: n in s.monitors ==> MonitorOk(s, n)) && (forall n :: n in s.active ==> ActiveOk(s, n))
  }

  lemma FeedKeepsSpec(run: Run, r: Response)
    ensures Feed(run, r).spec == run.spec && Feed(run, r).generation == run.generation
    ensures run.status.snapshot.Some? && RunOk(run) ==> Feed(run, r).status.snapshot == run.status.snapshot
  {
  }

  /** The run has no report of its own yet, or it is at its last write or over. */
  ghost predicate Carries(run: Run, st: Status) {
    run.phase.Writing? || run.phase.Finished? || SameReport(run.status, st)
  }

  lemma CheckedCarries(run: Run, got: seq<ReadResult>)
    ensures Carries(Checked(run, got), run.status)
  {
  }

  lemma ComparedCarries(run: Run, got: seq<ReadResult>)
    ensures Carries(Compared(run, got), run.status)
  {
  }

  lemma DetectCarries(run: Run)
    ensures Carries(Detect(run), run.status) && Carries(Check(run), run.status)
  {
    CheckedCarries(run, []);
    ComparedCarries(run, []);
  }

  lemma ReadCarries(run: Run, result: ReadResult)
    requires !run.phase.Writing?
    ensures Carries(Feed(run, Got(result)), run.status)
  {
    if run.phase.Comparing? {
      assert Feed(run, Got(result)) == Compared(run, run.phase.got + [result]);
      ComparedCarries(run, run.phase.got + [result]);
    } else if run.phase.Checking? {
      assert Feed(run, Got(result)) == Checked(run, run.phase.got + [result]);
      CheckedCarries(run, run.phase.got + [result]);
    } else {
      assert Feed(run, Got(result)) == run;
    }
  }

  lemma ListCarries(run: Run, items: Option<seq<Item>>)
    ensures Carries(Feed(run, Listed(items)), run.status)
  {
    SuspendKeepsReport(run.status, run.generation, run.now);
    if run.phase.Detecting? {
      DetectCarries(Noted(run, items));
    }
  }

  lemma UpdateCarries(run: Run, ok: bool)
    ensures Carries(Feed(run, Updated(ok)), run.status)
  {
    SuspendKeepsReport(run.status, run.generation, run.now);
    DetectCarries(run);
  }

  /** Only a check changes the report, and only a rules check goes on to write it. */
  lemma FeedKeepsReport(run: Run, r: Response)
    requires !run.phase.Writing?
    ensures Carries(Feed(run, r), run.status)
  {
    match r
    case Got(result) => ReadCarries(run, result);
    case Listed(items) => ListCarries(run, items);
    case Updated(ok) => UpdateCarries(run, ok);
  }

  lemma StartKeepsSpec(generation: int, spec: Spec, status: Status, now: int)
    ensures Start(generation, spec, status, now).spec == spec
    ensures Start(generation, spec, status, now).generation == generation
    ensures var run := Start(generation, spec, status, now);
      run.status.snapshot == status.snapshot
      && Carries(run, status)
  {
    SuspendKeepsReport(status, generation, now);
  }

  lemma BooksEdited(s: State, name: string, spec: Option<Spec>)
    requires Books(s)
    ensures Books(Edited(s, name, spec))
  {
    var s' := Edited(s, name, spec);
    NewStatusIsCoherent();
    forall n | n in s'.monitors ensures MonitorOk(s', n) {
      assert n in s.monitors ==> MonitorOk(s, n);
    }
    forall n | n in s'.active ensures ActiveOk(s', n) {
      assert ActiveOk(s, n);
      assert n != name && n in s'.monitors ==> s'.monitors[n] == s.monitors[n];
    }
  }

  /** Steps that leave the monitors and the runs alone and forget no notification. */
  lemma BooksSame(s: State, s': State)
    requires Books(s) && s'.monitors == s.monitors && s'.active == s.active && s'.clock == s.clock
    requires forall n :: Notified(s, n) ==> Notified(s', n)
    ensures Books(s')
  {
  }

  /** What a step on `name` leaves as it was for another name. */
  ghost predicate SameFor(s: State, s': State, n: string) {
    (n in s.monitors <==> n in s'.monitors) && (n in s.monitors ==> s'.monitors[n] == s.monitors[n])
    && (n in s.active <==> n in s'.active) && (n in s.active ==> s'.active[n] == s.active[n])
    && (n in s.dirty <==> n in s'.dirty) && (n in s.timers <==> n in s'.timers)
    && (n in s.lost <==> n in s'.lost) && (n in s.misread <==> n in s'.misread)
    && s'.cluster == s.cluster && s'.events >= s.events && s'.clock >= s.clock
  }

  lemma BooksForSame(s: State, s': State, n: string)
    requires Books(s) && SameFor(s, s', n)
    ensures n in s'.monitors ==> MonitorOk(s', n)
    ensures n in s'.active ==> ActiveOk(s', n)
  {
  }

  lemma PlacedOthers(s: State, name: string, a: Active, n: string)
    requires n != name
    ensures SameFor(s, Placed(s, name, a), n)
  {
  }

  lemma WrittenOthers(s: State, name: string, status: Status, n: string)
    requires name in s.monitors && n != name
    ensures SameFor(s, Written(s, name, status), n)
  {
  }

  lemma BegunOthers(s: State, name: string, now: int, n: string)
    requires n != name
    ensures SameFor(s, Begun(s, name, now), n)
  {
    if name in s.monitors {
      var m := s.monitors[name];
      var s1 := s.(dirty := s.dirty - {name}, echoes := s.echoes - {name}, lost := s.lost - {name},
                    misread := s.misread - {name});
      PlacedOthers(s1, name, Active(m.resourceVersion, Start(m.generation, m.spec, m.status, now)), n);
    }
  }

  lemma RespondedOthers(s: State, name: string, r: Response, n: string)
    requires name in s.active && n != name
    ensures SameFor(s, Responded(s, name, r), n)
  {
    var a := s.active[name];
    var run' := Feed(a.run, r);
    if r == Updated(true) && name in s.monitors {
      WrittenOthers(s, name, a.run.status, n);
      var s1 := Written(s, name, a.run.status);
      PlacedOthers(s1, name, Active(s1.monitors[name].resourceVersion, run'), n);
    } else {
      PlacedOthers(s.(misread := if r == Got(Failed) then s.misread + {name} else s.misread), name, a.(run := run'), n);
    }
  }

  lemma BooksBegun(s: State, name: string, now: int)
    requires Books(s) && name !in s.active
    ensures Books(Begun(s, name, now))
  {
    var s' := Begun(s, name, now);
    forall n | n != name ensures (n in s'.monitors ==> MonitorOk(s', n)) && (n in s'.active ==> ActiveOk(s', n)) {
      BegunOthers(s, name, now, n);
      BooksForSame(s, s', n);
    }
    if name in s.monitors {
      var m := s.monitors[name];
      assert MonitorOk(s, name);
      StartIsOk(m.generation, m.spec, m.status, now);
      StartKeepsSpec(m.generation, m.spec, m.status, now);
    }
  }

  /** A write that succeeds goes on with the version and the status that it stored. */
  lemma BooksWritten(s: State, name: string)
    requires Books(s) && name in s.active && Current(s, name)
    ensures var s' := Responded(s, name, Updated(true));
      (name in s'.monitors ==> MonitorOk(s', name)) && (name in s'.active ==> ActiveOk(s', name))
  {
    assert ActiveOk(s, name) && MonitorOk(s, name);
    var run := s.active[name].run;
    FeedIsOk(run, Updated(true));
    FeedKeepsSpec(run, Updated(true));
    UpdateCarries(run, true);
  }

  lemma BooksRead(s: State, name: string, r: Response)
    requires Books(s) && name in s.active && r != Updated(true)
    ensures var s' := Responded(s, name, r);
      (name in s'.monitors ==> MonitorOk(s', name)) && (name in s'.active ==> ActiveOk(s', name))
  {
    assert ActiveOk(s, name) && (name in s.monitors ==> MonitorOk(s, name));
    var run := s.active[name].run;
    FeedIsOk(run, r);
    FeedKeepsSpec(run, r);
    if !run.phase.Writing? { FeedKeepsReport(run, r); }
  }

  lemma BooksResponded(s: State, name: string, r: Response)
    requires Books(s) && name in s.active && Possible(s, name, r)
    ensures Books(Responded(s, name, r))
  {
    var s' := Responded(s, name, r);
    forall n | n != name ensures (n in s'.monitors ==> MonitorOk(s', n)) && (n in s'.active ==> ActiveOk(s', n)) {
      RespondedOthers(s, name, r, n);
      BooksForSame(s, s', n);
    }
    if r == Updated(true) { BooksWritten(s, name); } else { BooksRead(s, name, r); }
  }

  lemma BooksDelivered(s: State, e: Event)
    requires Books(s) && e in s.events
    ensures Books(Delivered(s, e))
  {
  }

  lemma BooksStep(s: State, step: Step)
    requires Books(s) && Enabled(s, step)
    ensures Books(AfterStep(s, step))
  {
    match step
    case EditMonitor(name, spec) => BooksEdited(s, name, spec);
    case Deliver(e) => BooksDelivered(s, e);
    case Begin(name, now) => BooksBegun(s, name, now);
    case Respond(name, r) => BooksResponded(s, name, r);
    case Restart =>
      forall n | n in s.monitors ensures MonitorOk(Restarted(s), n) { assert MonitorOk(s, n); }
    case _ => BooksSame(s, AfterStep(s, step));
  }
}
