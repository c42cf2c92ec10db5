/** Suspended monitors: not read for, and not ready. */
module Suspension {
  import opened Prelude
  import opened MonitorStatus
  import opened Api
  import opened Worker
  import opened RunInvariant
  import opened Controller
  import opened ControllerInvariant
  import opened Consistency

  /** A suspended monitor that is idle and of whose last edit a run knows is not ready. */
  ghost predicate Rests(s: State, n: string) {
    n in s.monitors && s.monitors[n].spec.suspend && n !in s.active && !Notified(s, n)
    ==> ReadyIs(s.monitors[n].status, false)
  }

  lemma RestsForSame(s: State, s': State, n: string)
    requires Rests(s, n) && SameFor(s, s', n)
    ensures Rests(s', n)
  {
    assert MonitorEvent(n) in s.events ==> MonitorEvent(n) in s'.events;
  }

  /** Steps that leave monitors and runs alone and forget no notification. */
  lemma RestsSame(s: State, s': State, n: string)
    requires Rests(s, n) && s'.monitors == s.monitors && s'.active == s.active
    requires Notified(s, n) ==> Notified(s', n)
    ensures Rests(s', n)
  {
  }

  lemma StartOfSuspended(generation: int, spec: Spec, status: Status, now: int)
    requires spec.suspend
    ensures Start(generation, spec, status, now).phase == Suspending
  {
  }

  lemma RestsBegun(s: State, name: string, now: int, n: string)
    requires Rests(s, n) && name !in s.active
    ensures Rests(Begun(s, name, now), n)
  {
    if n != name {
      BegunOthers(s, name, now, n);
      RestsForSame(s, Begun(s, name, now), n);
    } else if n in s.monitors && s.monitors[n].spec.suspend {
      var m := s.monitors[n];
      StartOfSuspended(m.generation, m.spec, m.status, now);
    }
  }

  /** A suspended run makes one call: it writes the status that it started with. */
  lemma SuspendedRunWrites(run: Run)
    requires RunOk(run) && run.spec.suspend && !run.phase.Finished?
    ensures run.phase == Suspending && ReadyIs(run.status, false) && NextCall(run) == Some(Update(run.status))
    ensures forall ok :: Feed(run, Updated(ok)) == run.(phase := Finished(!ok, None))
  {
  }

  lemma RestsWritten(s: State, n: string)
    requires Books(s) && n in s.active && Current(s, n) && s.monitors[n].spec.suspend
    ensures var s' := Responded(s, n, Updated(true));
      n in s'.monitors && s'.monitors[n].status == s.active[n].run.status && ReadyIs(s'.monitors[n].status, false)
  {
    assert ActiveOk(s, n);
    SuspendedRunWrites(s.active[n].run);
  }

  /** A refused write leaves the monitor queued; a run on another version is notified. */
  lemma RestsRefused(s: State, n: string, r: Response)
    requires Books(s) && n in s.active && Possible(s, n, r) && r != Updated(true)
    requires n in s.monitors && s.monitors[n].spec.suspend
    ensures var s' := Responded(s, n, r);
      n in s'.active || Notified(s', n)
  {
    assert ActiveOk(s, n);
    if s.active[n].resourceVersion == s.monitors[n].resourceVersion {
      SuspendedRunWrites(s.active[n].run);
    }
  }

  lemma RestsResponded(s: State, name: string, r: Response, n: string)
    requires Books(s) && Rests(s, n) && name in s.active && Possible(s, name, r)
    ensures Rests(Responded(s, name, r), n)
  {
    if n != name {
      RespondedOthers(s, name, r, n);
      RestsForSame(s, Responded(s, name, r), n);
    } else if n in s.monitors && s.monitors[n].spec.suspend {
      if r == Updated(true) { RestsWritten(s, n); } else { RestsRefused(s, n, r); }
    } else {
      RespondedSpec(s, n, r);
    }
  }

  lemma RespondedSpec(s: State, n: string, r: Response)
    requires n in s.active
    ensures var s' := Responded(s, n, r);
      (n in s'.monitors <==> n in s.monitors) && (n in s.monitors ==> s'.monitors[n].spec == s.monitors[n].spec)
  {
  }

  lemma RestsEdited(s: State, name: string, spec: Option<Spec>, n: string)
    requires Rests(s, n)
    ensures Rests(Edited(s, name, spec), n)
  {
    var s' := Edited(s, name, spec);
    assert MonitorEvent(name) in s'.events;
    assert MonitorEvent(n) in s.events ==> MonitorEvent(n) in s'.events;
  }

  lemma RestsDelivered(s: State, e: Event, n: string)
    requires Rests(s, n) && e in s.events
    ensures Rests(Delivered(s, e), n)
  {
    var s' := Delivered(s, e);
    assert MonitorEvent(n) in s.events ==> e == MonitorEvent(n) || MonitorEvent(n) in s'.events;
    RestsSame(s, s', n);
  }

  lemma RestsRestarted(s: State, n: string)
    ensures Rests(Restarted(s), n)
  {
    assert n in s.monitors ==> MonitorEvent(n) in Restarted(s).events;
  }

  lemma RestsStep(s: State, step: Step, n: string)
    requires Books(s) && Rests(s, n) && Enabled(s, step)
    ensures Rests(AfterStep(s, step), n)
  {
    match step
    case ChangeCluster(ch) => RestsSame(s, Changed(s, ch), n);
    case EditMonitor(name, spec) => RestsEdited(s, name, spec, n);
    case Deliver(e) => RestsDelivered(s, e, n);
    case Lose(key) => RestsSame(s, Lost(s, key), n);
    case Tick(name) => RestsSame(s, AfterStep(s, step), n);
    case Begin(name, now) => RestsBegun(s, name, now, n);
    case BeginFails(name) => RestsSame(s, AfterStep(s, step), n);
    case Respond(name, r) => RestsResponded(s, name, r, n);
    case Restart => RestsRestarted(s, n);
  }

  lemma {:induction false} RestHolds(b: seq<State>, i: nat, n: string)
    requires Behavior(b) && i < |b|
    ensures Rests(b[i], n)
  {
    if i > 0 {
      RestHolds(b, i - 1, n);
      InvariantHolds(b, i - 1);
      assert Continues(b, i - 1);
      var step :| Enabled(b[i - 1], step) && b[i] == AfterStep(b[i - 1], step);
      RestsStep(b[i - 1], step, n);
    }
  }

  /** In every state of every behavior, a suspended monitor that is neither queued nor
      being processed, with no event about it under way, has a False Ready condition. */
  lemma SuspendedIsNotReady(b: seq<State>, i: nat, n: string)
    requires Behavior(b) && i < |b| && n in b[i].monitors && b[i].monitors[n].spec.suspend
    requires n !in b[i].active && !Notified(b[i], n)
    ensures StatusOf(b[i].monitors[n].status.conditions, "Ready") == Some(false)
  {
    RestHolds(b, i, n);
  }
}
