/** The RequeueAfter timers: an idle monitor that nothing has woken will be woken. */
module Timers {
  import opened Prelude
  import opened MonitorStatus
  import opened Api
  import opened Worker
  import opened RunInvariant
  import opened Controller
  import opened ControllerInvariant
  import opened Consistency

  /** A watched monitor that is idle and of whose last edit a run knows has its timer
      running.  controller-runtime starts a timer for positive durations only. */
  ghost predicate Timed(s: State, n: string) {
    Watching(s, n) && s.monitors[n].spec.checkIntervalMinutes > 0 && n !in s.active && !Notified(s, n)
    ==> n in s.timers
  }

  lemma TimedForSame(s: State, s': State, n: string)
    requires Timed(s, n) && SameFor(s, s', n)
    ensures Timed(s', n)
  {
    assert MonitorEvent(n) in s.events ==> MonitorEvent(n) in s'.events;
  }

  /** Steps that leave monitors, runs and timers alone and forget no notification. */
  lemma TimedSame(s: State, s': State, n: string)
    requires Timed(s, n) && s'.monitors == s.monitors && s'.active == s.active && s.timers <= s'.timers
    requires Notified(s, n) ==> Notified(s', n)
    ensures Timed(s', n)
  {
  }

  lemma TimedBegun(s: State, name: string, now: int, n: string)
    requires Timed(s, n) && name !in s.active
    ensures Timed(Begun(s, name, now), n)
  {
    if n != name { BegunOthers(s, name, now, n); TimedForSame(s, Begun(s, name, now), n); }
  }

  /** An unsuspended rules-mode run ends well only after its write, and asks to be repeated. */
  lemma EndsWithTimer(run: Run, r: Response)
    requires RunOk(run) && !run.phase.Finished? && !run.spec.suspend && run.spec.mode != SNAPSHOT_BASED
    requires Feed(run, r).phase.Finished? && !Feed(run, r).phase.failed
    ensures run.phase.Writing? && Feed(run, r).phase.requeueAfter == Some(run.spec.checkIntervalMinutes)
  {
  }

  lemma RequeueMeans(run: Run, r: Response)
    requires !run.phase.Finished? && Feed(run, r).phase.Finished? && Feed(run, r).phase.requeueAfter.Some?
    ensures run.phase.Writing? && r == Updated(true)
    ensures Feed(run, r).phase.requeueAfter.value == run.spec.checkIntervalMinutes
  {
  }

  lemma BeginArmsNothing(s: State, name: string, now: int)
    ensures Begun(s, name, now).timers == s.timers
  {
  }

  lemma ResponseArms(s: State, name: string, r: Response, n: string)
    requires name in s.active && ActiveOk(s, name) && n in Responded(s, name, r).timers && n !in s.timers
    ensures n == name && r == Updated(true) && s.active[n].run.phase.Writing?
    ensures s.active[n].run.spec.checkIntervalMinutes > 0
  {
    RequeueMeans(s.active[name].run, r);
  }

  /** Only the successful last write of a check against the rules arms a timer, and only
      with a positive interval: no suspended monitor and none in snapshot mode has one armed. */
  lemma OnlyRulesChecksArm(s: State, step: Step, n: string)
    requires Books(s) && Enabled(s, step) && n in AfterStep(s, step).timers && n !in s.timers
    ensures step == Respond(n, Updated(true)) && n in s.active && s.active[n].run.phase.Writing?
    ensures var spec := s.active[n].run.spec;
      spec.checkIntervalMinutes > 0 && !spec.suspend && spec.mode != "snapshot"
  {
    match step
    case Begin(name, now) => BeginArmsNothing(s, name, now);
    case Respond(name, r) =>
      assert ActiveOk(s, name);
      ResponseArms(s, name, r, n);
    case _ =>
  }

  lemma TimedResponded(s: State, name: string, r: Response, n: string)
    requires Books(s) && Timed(s, n) && name in s.active && Possible(s, name, r)
    ensures Timed(Responded(s, name, r), n)
  {
    var s' := Responded(s, name, r);
    if n != name {
      RespondedOthers(s, name, r, n);
      TimedForSame(s, s', n);
    } else if Watching(s', n) && n !in s'.active && !Notified(s', n) {
      assert ActiveOk(s, n);
      RespondedKeepsSpec(s, n, r);
      if Notified(s, n) { RespondedKeepsNotice(s, n, r); }
      EndsWithTimer(s.active[n].run, r);
    }
  }

  lemma RespondedKeepsSpec(s: State, n: string, r: Response)
    requires n in s.active
    ensures var s' := Responded(s, n, r);
      (n in s'.monitors <==> n in s.monitors) && (n in s.monitors ==> s'.monitors[n].spec == s.monitors[n].spec)
  {
  }

  lemma RespondedKeepsNotice(s: State, n: string, r: Response)
    requires n in s.active && Notified(s, n)
    ensures Notified(Responded(s, n, r), n)
  {
  }

  lemma TimedEdited(s: State, name: string, spec: Option<Spec>, n: string)
    requires Timed(s, n)
    ensures Timed(Edited(s, name, spec), n)
  {
    var s' := Edited(s, name, spec);
    assert MonitorEvent(name) in s'.events;
    assert MonitorEvent(n) in s.events ==> MonitorEvent(n) in s'.events;
  }

  lemma TimedDelivered(s: State, e: Event, n: string)
    requires Timed(s, n) && e in s.events
    ensures Timed(Delivered(s, e), n)
  {
    var s' := Delivered(s, e);
    assert MonitorEvent(n) in s.events ==> e == MonitorEvent(n) || MonitorEvent(n) in s'.events;
    TimedSame(s, s', n);
  }

  lemma TimedTicked(s: State, name: string, n: string)
    requires Timed(s, n)
    ensures Timed(s.(dirty := s.dirty + {name}, timers := s.timers - {name}), n)
  {
  }

  lemma TimedRestarted(s: State, n: string)
    ensures Timed(Restarted(s), n)
  {
    assert n in s.monitors ==> MonitorEvent(n) in Restarted(s).events;
  }

  lemma TimedStep(s: State, step: Step, n: string)
    requires Books(s) && Timed(s, n) && Enabled(s, step)
    ensures Timed(AfterStep(s, step), n)
  {
    match step
    case ChangeCluster(ch) => TimedSame(s, Changed(s, ch), n);
    case EditMonitor(name, spec) => TimedEdited(s, name, spec, n);
    case Deliver(e) => TimedDelivered(s, e, n);
    case Lose(key) => TimedSame(s, Lost(s, key), n);
    case Tick(name) => TimedTicked(s, name, n);
    case Begin(name, now) => TimedBegun(s, name, now, n);
    case BeginFails(name) => TimedSame(s, AfterStep(s, step), n);
    case Respond(name, r) => TimedResponded(s, name, r, n);
    case Restart => TimedRestarted(s, n);
  }

  /** In every state of every behavior. */
  lemma {:induction false} TimersHold(b: seq<State>, i: nat, n: string)
    requires Behavior(b) && i < |b|
    ensures Timed(b[i], n)
  {
    if i > 0 {
      TimersHold(b, i - 1, n);
      InvariantHolds(b, i - 1);
      assert Continues(b, i - 1);
      var step :| Enabled(b[i - 1], step) && b[i] == AfterStep(b[i - 1], step);
      TimedStep(b[i - 1], step, n);
    }
  }
}
