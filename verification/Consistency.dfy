/** Quiescent consistency: the persisted drift list is a cache of the pure drift. */
module Consistency {
  import opened Prelude
  import opened Rbac
  import opened Drift
  import opened Unexpected
  import opened DriftTheorems
  import opened WatchFilter
  import opened MonitorStatus
  import opened Api
  import opened Worker
  import opened RunInvariant
  import opened Controller
  import opened ControllerInvariant
  import opened Freshness

  /** An unsuspended monitor in rules mode. */
  ghost predicate Watching(s: State, n: string) {
    n in s.monitors && !s.monitors[n].spec.suspend && s.monitors[n].spec.mode != SNAPSHOT_BASED
  }

  ghost predicate Pending(s: State, es: seq<Entry>) {
    exists k :: RbacEvent(k) in s.events && k in KeysOf(es)
  }

  /** The monitor is queued, or an event is under way that will queue it, or one that
      would have queued it has been lost since its last run began.  An event of an own
      status write does not count, nor does being queued for one. */
  ghost predicate Disturbed(s: State, n: string) {
    Notified(s, n) || n in s.lost || (n in s.monitors && Pending(s, Entries(s.monitors[n].spec.baseline)))
  }

  /** The status is Ready and was computed for the monitor's generation. */
  ghost predicate Reconciled(m: Stored) {
    ReadyIs(m.status, true) && m.status.observedGeneration == m.generation
  }

  ghost predicate Consistent(s: State, n: string) {
    Watching(s, n) && !Disturbed(s, n) ==>
      if n in s.active then RunCurrent(s.active[n].run, s.cluster, n in s.misread)
      else
        UpToDate(Entries(s.monitors[n].spec.baseline), s.cluster, n in s.misread, s.monitors[n].status)
        && Reconciled(s.monitors[n])
  }

  // ---- steps --------------------------------------------------------------

  /** A step that disturbs no one less and leaves n's part alone keeps n consistent. */
  lemma ConsistentSame(s: State, s': State, n: string)
    requires Consistent(s, n) && s'.cluster == s.cluster
    requires n in s'.monitors ==> n in s.monitors && s'.monitors[n] == s.monitors[n]
    requires (n in s'.active <==> n in s.active) && (n in s'.misread <==> n in s.misread)
    requires n in s.active ==> s'.active[n] == s.active[n]
    requires n in s'.monitors && Disturbed(s, n) ==> Disturbed(s', n) || !Watching(s', n)
    ensures Consistent(s', n)
  {
  }

  lemma ConsistentChanged(s: State, ch: Change, n: string)
    requires Books(s) && Consistent(s, n) && ch.Valid()
    ensures Consistent(Changed(s, ch), n)
  {
    var s' := Changed(s, ch);
    if Watching(s', n) && !Disturbed(s', n) {
      var es := Entries(s.monitors[n].spec.baseline);
      assert RbacEvent(ch.key) in s'.events;
      assert ch.key !in KeysOf(es);
      assert !Pending(s, es);
      if n in s.active {
        assert ActiveOk(s, n);
        CurrentFrame(s.active[n].run, s.cluster, s'.cluster, n in s.misread);
      } else {
        UpToDateFrame(es, s.cluster, s'.cluster, n in s.misread, s.monitors[n].status);
      }
    }
  }

  lemma ConsistentEdited(s: State, name: string, spec: Option<Spec>, n: string)
    requires Consistent(s, n)
    ensures Consistent(Edited(s, name, spec), n)
  {
  }

  lemma EventsGrow(s: State, s': State, es: seq<Entry>)
    requires s.events <= s'.events
    ensures Pending(s, es) ==> Pending(s', es)
  {
  }

  /** The handler of an event wakes the monitors that the event disturbed. */
  lemma ConsistentHandled(s: State, s': State, e: Event, n: string)
    requires Consistent(s, n) && e in s.events
    requires s'.events == s.events - multiset{e} && s'.cluster == s.cluster && s'.monitors == s.monitors
      && s'.active == s.active
    requires s.dirty <= s'.dirty && s.lost <= s'.lost && s.misread == s'.misread
    requires e == MonitorEvent(n) ==> n in s'.dirty
    requires e.RbacEvent? && n in Woken(s.monitors, e.key) ==> n in s'.dirty + s'.lost
    ensures Consistent(s', n)
  {
  }

  lemma ConsistentBegun(s: State, name: string, now: int, n: string)
    requires Books(s) && Consistent(s, n) && name !in s.active
    ensures Consistent(Begun(s, name, now), n)
  {
    var s' := Begun(s, name, now);
    if n == name {
      if Watching(s, n) {
        var m := s.monitors[n];
        DetectIsCurrent(Run(m.generation, m.spec, m.status, now, Capturing([]), []), s.cluster, false);
      }
    } else {
      BegunOthers(s, name, now, n);
      if n in s.monitors { EventsGrow(s, s', Entries(s.monitors[n].spec.baseline)); }
      ConsistentSame(s, s', n);
    }
  }

  /** The run of an undisturbed monitor works on the stored spec. */
  lemma UndisturbedIsCurrent(s: State, n: string)
    requires Books(s) && n in s.active && n in s.monitors && !Disturbed(s, n)
    ensures s.active[n].resourceVersion == s.monitors[n].resourceVersion
    ensures s.active[n].run.spec == s.monitors[n].spec && s.active[n].run.generation == s.monitors[n].generation
    ensures RunOk(s.active[n].run)
  {
  }

  /** A successful last write stores what the run computed and ends the run. */
  lemma WritingStores(s: State, n: string)
    requires n in s.active && s.active[n].run.phase.Writing? && Current(s, n)
    ensures var s' := Responded(s, n, Updated(true));
      n !in s'.active && n in s'.monitors && s'.monitors[n].status == s.active[n].run.status
      && s'.monitors[n].spec == s.monitors[n].spec && s'.monitors[n].generation == s.monitors[n].generation
      && s'.cluster == s.cluster
  {
  }

  /** A write that fails leaves the monitor queued. */
  lemma RefusedWriteQueues(s: State, n: string)
    requires n in s.active && s.active[n].run.phase.Writing?
    ensures n in Responded(s, n, Updated(false)).dirty
  {
  }

  lemma ConsistentWritten(s: State, n: string, ok: bool)
    requires Books(s) && Consistent(s, n) && n in s.active && Possible(s, n, Updated(ok))
    requires s.active[n].run.phase.Writing?
    ensures Consistent(Responded(s, n, Updated(ok)), n)
  {
    var s' := Responded(s, n, Updated(ok));
    if !ok {
      RefusedWriteQueues(s, n);
    } else {
      WritingStores(s, n);
      if Watching(s', n) && !Disturbed(s', n) {
        EventsGrow(s, s', Entries(s.monitors[n].spec.baseline));
        UndisturbedIsCurrent(s, n);
      }
    }
  }

  /** A read gives what the cluster holds or counts as a misread. */
  lemma AnswerIsCurrent(s: State, n: string, r: Response)
    requires n in s.active && Possible(s, n, r) && RunOk(s.active[n].run) && s.active[n].run.phase.Checking?
    ensures var run := s.active[n].run;
      r == Got(Lookup(s.cluster, Entries(run.spec.baseline)[|run.phase.got|].key))
      || (n in Responded(s, n, r).misread && r == Got(Failed))
  {
  }

  lemma ConsistentRead(s: State, n: string, r: Response)
    requires Books(s) && Consistent(s, n) && n in s.active && Possible(s, n, r)
    requires !s.active[n].run.phase.Writing? && !r.Updated?
    ensures Consistent(Responded(s, n, r), n)
  {
    var s' := Responded(s, n, r);
    if Watching(s', n) && !Disturbed(s', n) {
      EventsGrow(s, s', Entries(s.monitors[n].spec.baseline));
      UndisturbedIsCurrent(s, n);
      var run := s.active[n].run;
      if n !in s.misread && n in s'.misread { MisreadsAllowMore(run, s.cluster); }
      if run.phase.Checking? { AnswerIsCurrent(s, n, r); }
      FeedIsCurrent(run, r, s.cluster, n in s'.misread);
    }
  }

  lemma ConsistentResponded(s: State, name: string, r: Response, n: string)
    requires Books(s) && Consistent(s, n) && name in s.active && Possible(s, name, r)
    ensures Consistent(Responded(s, name, r), n)
  {
    var s' := Responded(s, name, r);
    if n != name {
      RespondedOthers(s, name, r, n);
      if n in s.monitors { EventsGrow(s, s', Entries(s.monitors[n].spec.baseline)); }
      ConsistentSame(s, s', n);
    } else if s.active[n].run.phase.Writing? {
      ConsistentWritten(s, n, r.ok);
    } else if r.Updated? {
      ConsistentOther(s, n, r.ok);
    } else {
      ConsistentRead(s, n, r);
    }
  }

  /** Suspended and capturing runs do not work for a watching, undisturbed monitor. */
  lemma ConsistentOther(s: State, n: string, ok: bool)
    requires Books(s) && Consistent(s, n) && n in s.active && Possible(s, n, Updated(ok))
    requires !s.active[n].run.phase.Writing?
    ensures Consistent(Responded(s, n, Updated(ok)), n)
  {
    var s' := Responded(s, n, Updated(ok));
    if Watching(s', n) && !Disturbed(s', n) {
      EventsGrow(s, s', Entries(s.monitors[n].spec.baseline));
      UndisturbedIsCurrent(s, n);
    }
  }

  lemma ConsistentQueued(s: State, s': State, n: string)
    requires Consistent(s, n)
    requires s'.events == s.events && s'.cluster == s.cluster && s'.monitors == s.monitors && s'.active == s.active
    requires s.dirty <= s'.dirty && s.lost == s'.lost && s.misread == s'.misread
    ensures Consistent(s', n)
  {
  }

  lemma ConsistentDelivered(s: State, e: Event, n: string)
    requires Consistent(s, n) && e in s.events
    ensures Consistent(Delivered(s, e), n)
  {
    ConsistentHandled(s, Delivered(s, e), e, n);
  }

  lemma ConsistentLost(s: State, key: Key, n: string)
    requires Consistent(s, n) && RbacEvent(key) in s.events
    ensures Consistent(Lost(s, key), n)
  {
    ConsistentHandled(s, Lost(s, key), RbacEvent(key), n);
  }

  lemma ConsistentRestarted(s: State, n: string)
    ensures Consistent(Restarted(s), n)
  {
  }

  lemma ConsistentStep(s: State, step: Step, n: string)
    requires Books(s) && Consistent(s, n) && Enabled(s, step)
    ensures Consistent(AfterStep(s, step), n)
  {
    var s' := AfterStep(s, step);
    match step
    case ChangeCluster(ch) => ConsistentChanged(s, ch, n);
    case EditMonitor(name, spec) => ConsistentEdited(s, name, spec, n);
    case Deliver(e) => ConsistentDelivered(s, e, n);
    case Lose(key) => ConsistentLost(s, key, n);
    case Tick(_) => ConsistentQueued(s, s', n);
    case Begin(name, now) => ConsistentBegun(s, name, now, n);
    case BeginFails(_) => ConsistentQueued(s, s', n);
    case Respond(name, r) => ConsistentResponded(s, name, r, n);
    case Restart => ConsistentRestarted(s, n);
  }

  // ---- behaviors ----------------------------------------------------------

  lemma {:induction false} InvariantHolds(b: seq<State>, i: nat)
    requires Behavior(b) && i < |b|
    ensures Books(b[i]) && forall n :: Consistent(b[i], n)
  {
    if i > 0 {
      InvariantHolds(b, i - 1);
      assert Continues(b, i - 1);
      var step :| Enabled(b[i - 1], step) && b[i] == AfterStep(b[i - 1], step);
      BooksStep(b[i - 1], step);
      forall n ensures Consistent(b[i], n) { ConsistentStep(b[i - 1], step, n); }
    }
  }

  /** In every state of every behavior, an unsuspended rules-mode monitor that is
      neither disturbed nor being processed, and whose last run had no failed read,
      holds exactly the drift of its baseline against the cluster as it is, stamped
      with its last check time. */
  lemma QuiescentConsistency(b: seq<State>, i: nat, n: string)
    requires Behavior(b) && i < |b| && Watching(b[i], n) && !Disturbed(b[i], n) && n !in b[i].active
    requires n !in b[i].misread
    ensures b[i].monitors[n].status.lastCheckTime.Some?
    ensures b[i].monitors[n].status.driftItems
      == PureDrift(Entries(b[i].monitors[n].spec.baseline), b[i].cluster, b[i].monitors[n].status.lastCheckTime.value)
  {
    InvariantHolds(b, i);
    assert Consistent(b[i], n);
    UpToDateIsDrift(Entries(b[i].monitors[n].spec.baseline), b[i].cluster, b[i].monitors[n].status);
  }

  /** Its Ready condition is True, and its status was computed for its generation. */
  lemma QuiescentIsReady(b: seq<State>, i: nat, n: string)
    requires Behavior(b) && i < |b| && Watching(b[i], n) && !Disturbed(b[i], n) && n !in b[i].active
    ensures StatusOf(b[i].monitors[n].status.conditions, "Ready") == Some(true)
    ensures b[i].monitors[n].status.observedGeneration == b[i].monitors[n].generation
  {
    InvariantHolds(b, i);
    assert Consistent(b[i], n);
  }

  /** If some of its reads failed, it holds a subsequence of the drift: the items of
      those reads against the cluster as it is, and all items exactly when every read
      that failed was of a match. */
  lemma MisreadsOnlyHide(b: seq<State>, i: nat, n: string) returns (got: seq<ReadResult>)
    requires Behavior(b) && i < |b| && Watching(b[i], n) && !Disturbed(b[i], n) && n !in b[i].active
    ensures var st, es, c := b[i].monitors[n].status, Entries(b[i].monitors[n].spec.baseline), b[i].cluster;
      st.lastCheckTime.Some? && ReadsOf(es, got, c)
      && st.driftItems == CheckDrift(es, got, st.lastCheckTime.value)
      && Subsequence(st.driftItems, PureDrift(es, c, st.lastCheckTime.value))
      && (st.driftItems == PureDrift(es, c, st.lastCheckTime.value) <==> FailuresMatch(es, got, c))
  {
    InvariantHolds(b, i);
    assert Consistent(b[i], n);
    var es, st := Entries(b[i].monitors[n].spec.baseline), b[i].monitors[n].status;
    if n !in b[i].misread { UpToDateAllowsMore(es, b[i].cluster, st); }
    got := UpToDateHides(es, b[i].cluster, st);
  }

  /** Every persisted status of every behavior is coherent, in any mode: below 2^31
      items the count is their number and DriftDetected, if present, tells whether it
      is positive. */
  lemma PersistedStatusIsCoherent(b: seq<State>, i: nat, n: string)
    requires Behavior(b) && i < |b| && n in b[i].monitors
    ensures var st := b[i].monitors[n].status;
      Coherent(st) && (|st.driftItems| < 0x8000_0000 ==>
        st.driftCount == |st.driftItems|
        && (var drift := StatusOf(st.conditions, DRIFT_DETECTED); drift.Some? ==> drift.value == (st.driftCount > 0)))
  {
    InvariantHolds(b, i);
    assert MonitorOk(b[i], n);
    var st := b[i].monitors[n].status;
    if st.lastCheckTime.Some? { CountIsExact(st); }
  }
}
