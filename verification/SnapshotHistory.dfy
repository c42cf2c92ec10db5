/** The stored snapshot over whole behaviors: written once, and never partial. */
module SnapshotHistory {
  import opened Rbac
  import opened DriftTheorems
  import opened Snapshots
  import opened MonitorStatus
  import opened Api
  import opened Worker
  import opened RunInvariant
  import opened Controller
  import opened ControllerInvariant
  import opened Consistency

  // ---- write once ---------------------------------------------------------

  lemma SnapshotRespondStable(s: State, name: string, r: Response, n: string)
    requires Books(s) && name in s.active && Possible(s, name, r) && n in s.monitors
    requires s.monitors[n].status.snapshot.Some?
    ensures n in Responded(s, name, r).monitors
    ensures Responded(s, name, r).monitors[n].status.snapshot == s.monitors[n].status.snapshot
  {
    assert ActiveOk(s, name);
    if name != n { RespondedOthers(s, name, r, n); }
  }

  lemma SnapshotBeginStable(s: State, name: string, now: int, n: string)
    ensures Begun(s, name, now).monitors == s.monitors
  {
  }

  /** Only a response changes a stored status. */
  lemma StatusStepStable(s: State, step: Step, n: string)
    requires Enabled(s, step) && !step.Respond? && n in s.monitors && n in AfterStep(s, step).monitors
    ensures AfterStep(s, step).monitors[n].status == s.monitors[n].status
  {
    if step.Begin? { SnapshotBeginStable(s, step.name, step.now, n); }
  }

  /** No step changes a snapshot that is there. */
  lemma SnapshotStepStable(s: State, step: Step, n: string)
    requires Books(s) && Enabled(s, step) && n in s.monitors && n in AfterStep(s, step).monitors
    requires s.monitors[n].status.snapshot.Some?
    ensures AfterStep(s, step).monitors[n].status.snapshot == s.monitors[n].status.snapshot
  {
    if step.Respond? {
      SnapshotRespondStable(s, step.name, step.response, n);
    } else {
      StatusStepStable(s, step, n);
    }
  }

  lemma SnapshotNextStable(s: State, s': State, n: string)
    requires Books(s) && Next(s, s') && n in s.monitors && n in s'.monitors
    requires s.monitors[n].status.snapshot.Some?
    ensures s'.monitors[n].status.snapshot == s.monitors[n].status.snapshot
  {
    var step :| Enabled(s, step) && s' == AfterStep(s, step);
    SnapshotStepStable(s, step, n);
  }

  lemma BooksHold(b: seq<State>, i: nat)
    requires Behavior(b) && i < |b|
    ensures Books(b[i])
  {
    InvariantHolds(b, i);
  }

  /** As long as the monitor is not deleted, its snapshot never changes, whatever
      modes, suspensions, failures, restarts and cluster changes come. */
  lemma {:induction false} SnapshotIsWrittenOnce(b: seq<State>, i: nat, j: nat, n: string)
    requires Behavior(b) && i <= j < |b| && forall k :: i <= k <= j ==> n in b[k].monitors
    requires b[i].monitors[n].status.snapshot.Some?
    ensures b[j].monitors[n].status.snapshot == b[i].monitors[n].status.snapshot
  {
    if i < j {
      SnapshotIsWrittenOnce(b, i, j - 1, n);
      BooksHold(b, j - 1);
      assert Continues(b, j - 1);
      SnapshotNextStable(b[j - 1], b[j], n);
    }
  }

  // ---- never reported ------------------------------------------------------

  lemma ReportRespondStable(s: State, name: string, r: Response, n: string)
    requires Books(s) && name in s.active && Possible(s, name, r)
    requires n in s.monitors && s.monitors[n].spec.mode == SNAPSHOT_BASED
    ensures n in Responded(s, name, r).monitors
    ensures SameReport(Responded(s, name, r).monitors[n].status, s.monitors[n].status)
  {
    assert ActiveOk(s, name);
    if name != n { RespondedOthers(s, name, r, n); }
  }

  lemma ReportNextStable(s: State, s': State, n: string)
    requires Books(s) && Next(s, s') && n in s.monitors && n in s'.monitors
    requires s.monitors[n].spec.mode == SNAPSHOT_BASED
    ensures SameReport(s'.monitors[n].status, s.monitors[n].status)
  {
    var step :| Enabled(s, step) && s' == AfterStep(s, step);
    if step.Respond? {
      ReportRespondStable(s, step.name, step.response, n);
    } else {
      StatusStepStable(s, step, n);
    }
  }

  /** While a monitor stays in snapshot mode, its stored items, count and check time and
      its DriftDetected condition never change: what the snapshot checks find is lost. */
  lemma {:induction false} SnapshotModeReportsNothing(b: seq<State>, i: nat, j: nat, n: string)
    requires Behavior(b) && i <= j < |b| && forall k :: i <= k <= j ==> n in b[k].monitors
    requires forall k :: i <= k < j ==> b[k].monitors[n].spec.mode == SNAPSHOT_BASED
    ensures SameReport(b[j].monitors[n].status, b[i].monitors[n].status)
  {
    if i < j {
      SnapshotModeReportsNothing(b, i, j - 1, n);
      BooksHold(b, j - 1);
      assert Continues(b, j - 1);
      ReportNextStable(b[j - 1], b[j], n);
    }
  }

  // ---- never partial ------------------------------------------------------

  /** Up to moment i, the lists were taken one after the other, each complete when
      it was taken. */
  ghost predicate Captured(b: seq<State>, i: nat, lists: seq<seq<Item>>, at: seq<nat>)
    requires i < |b|
  {
    |at| == |lists| && (forall k :: 0 <= k < |at| ==> at[k] <= i)
    && (forall k, l :: 0 <= k < l < |at| ==> at[k] <= at[l])
    && forall k :: 0 <= k < |lists| ==> IsListing(b[at[k]].cluster, CaptureOrder(k), lists[k])
  }

  ghost predicate Listed(b: seq<State>, i: nat, lists: seq<seq<Item>>)
    requires i < |b|
  {
    exists at: seq<nat> :: Captured(b, i, lists, at)
  }

  /** The baseline was made from four complete lists. */
  ghost predicate Complete(b: seq<State>, i: nat, v: Baseline)
    requires i < |b|
  {
    exists l0, l1, l2, l3 :: Listed(b, i, [l0, l1, l2, l3]) && v == SnapshotOf(Listings(l0, l1, l2, l3))
  }

  /** What a run has listed so far, or put into its status, was taken completely. */
  ghost predicate Sourced(b: seq<State>, i: nat, run: Run)
    requires i < |b|
  {
    (run.phase.Capturing? ==> Listed(b, i, run.phase.lists))
    && (run.status.snapshot.Some? ==> Complete(b, i, run.status.snapshot.value))
  }

  ghost predicate AllSourced(b: seq<State>, i: nat)
    requires i < |b|
  {
    (forall n :: n in b[i].monitors && b[i].monitors[n].status.snapshot.Some? ==>
       Complete(b, i, b[i].monitors[n].status.snapshot.value))
    && forall n :: n in b[i].active ==> Sourced(b, i, b[i].active[n].run)
  }

  lemma ListedLater(b: seq<State>, i: nat, lists: seq<seq<Item>>)
    requires i + 1 < |b| && Listed(b, i, lists)
    ensures Listed(b, i + 1, lists)
  {
    var at: seq<nat> :| Captured(b, i, lists, at);
    assert Captured(b, i + 1, lists, at);
  }

  lemma CompleteLater(b: seq<State>, i: nat, v: Baseline)
    requires i + 1 < |b| && Complete(b, i, v)
    ensures Complete(b, i + 1, v)
  {
    var l0, l1, l2, l3 :| Listed(b, i, [l0, l1, l2, l3]) && v == SnapshotOf(Listings(l0, l1, l2, l3));
    ListedLater(b, i, [l0, l1, l2, l3]);
  }

  lemma SourcedLater(b: seq<State>, i: nat, run: Run)
    requires i + 1 < |b| && Sourced(b, i, run)
    ensures Sourced(b, i + 1, run)
  {
    if run.phase.Capturing? { ListedLater(b, i, run.phase.lists); }
    if run.status.snapshot.Some? { CompleteLater(b, i, run.status.snapshot.value); }
  }

  lemma ListedMore(b: seq<State>, i: nat, lists: seq<seq<Item>>, items: seq<Item>)
    requires i < |b| && Listed(b, i, lists) && IsListing(b[i].cluster, CaptureOrder(|lists|), items)
    ensures Listed(b, i, lists + [items])
  {
    var at: seq<nat> :| Captured(b, i, lists, at);
    assert Captured(b, i, lists + [items], at + [i]);
  }

  lemma FourListsComplete(b: seq<State>, i: nat, lists: seq<seq<Item>>, items: seq<Item>)
    requires i < |b| && |lists| == 3 && Listed(b, i, lists + [items])
    ensures Complete(b, i, SnapshotOf(Listings(lists[0], lists[1], lists[2], items)))
  {
    assert lists + [items] == [lists[0], lists[1], lists[2], items];
  }

  lemma FeedIsSourced(b: seq<State>, i: nat, run: Run, r: Response)
    requires i < |b| && RunOk(run) && Sourced(b, i, run)
    requires run.phase.Capturing? && r.Listed? && r.items.Some? ==>
      IsListing(b[i].cluster, CaptureOrder(|run.phase.lists|), r.items.value)
    ensures Sourced(b, i, Feed(run, r))
  {
    if run.phase.Capturing? && r.Listed? && r.items.Some? {
      var lists, items := run.phase.lists, r.items.value;
      ListedMore(b, i, lists, items);
      if |lists| == 3 { FourListsComplete(b, i, lists, items); }
    } else {
      FeedKeepsSnapshot(run, r);
    }
  }

  lemma FeedKeepsSnapshot(run: Run, r: Response)
    requires !(run.phase.Capturing? && r.Listed? && r.items.Some?)
    ensures Feed(run, r).status.snapshot == run.status.snapshot
    ensures Feed(run, r).phase.Capturing? ==> Feed(run, r) == run
  {
  }

  lemma StartIsSourced(b: seq<State>, i: nat, m: Stored, now: int)
    requires i < |b| && (m.status.snapshot.Some? ==> Complete(b, i, m.status.snapshot.value))
    ensures Sourced(b, i, Start(m.generation, m.spec, m.status, now))
  {
    StartKeepsSpec(m.generation, m.spec, m.status, now);
    assert Captured(b, i, [], []);
  }

  /** What a step puts into the store and the runs, judged at the moment before it. */
  ghost predicate StepSourced(b: seq<State>, i: nat, s': State, n: string)
    requires i < |b|
  {
    (n in s'.monitors && s'.monitors[n].status.snapshot.Some? ==> Complete(b, i, s'.monitors[n].status.snapshot.value))
    && (n in s'.active ==> Sourced(b, i, s'.active[n].run))
  }

  lemma RespondIsSourced(b: seq<State>, i: nat, name: string, r: Response, n: string)
    requires i < |b| && Books(b[i]) && AllSourced(b, i) && name in b[i].active && Possible(b[i], name, r)
    ensures StepSourced(b, i, Responded(b[i], name, r), n)
  {
    if n == name {
      assert ActiveOk(b[i], n);
      FeedIsSourced(b, i, b[i].active[n].run, r);
    } else {
      RespondedOthers(b[i], name, r, n);
    }
  }

  lemma BeginIsSourced(b: seq<State>, i: nat, name: string, now: int, n: string)
    requires i < |b| && AllSourced(b, i) && name !in b[i].active
    ensures StepSourced(b, i, Begun(b[i], name, now), n)
  {
    if n == name {
      if n in b[i].monitors { StartIsSourced(b, i, b[i].monitors[n], now); }
    } else {
      BegunOthers(b[i], name, now, n);
    }
  }

  lemma StepIsSourced(b: seq<State>, i: nat, step: Step, n: string)
    requires i < |b| && Books(b[i]) && AllSourced(b, i) && Enabled(b[i], step)
    ensures StepSourced(b, i, AfterStep(b[i], step), n)
  {
    match step
    case Respond(name, r) => RespondIsSourced(b, i, name, r, n);
    case Begin(name, now) => BeginIsSourced(b, i, name, now, n);
    case _ =>
  }

  lemma {:induction false} EverythingIsSourced(b: seq<State>, i: nat)
    requires Behavior(b) && i < |b|
    ensures AllSourced(b, i)
  {
    if i > 0 {
      var p := i - 1;
      EverythingIsSourced(b, p);
      InvariantHolds(b, p);
      assert Continues(b, p);
      var step :| Enabled(b[p], step) && b[p + 1] == AfterStep(b[p], step);
      forall n | n in b[i].monitors && b[i].monitors[n].status.snapshot.Some?
        ensures Complete(b, i, b[i].monitors[n].status.snapshot.value)
      {
        StepIsSourced(b, p, step, n);
        CompleteLater(b, p, b[i].monitors[n].status.snapshot.value);
      }
      forall n | n in b[i].active ensures Sourced(b, i, b[i].active[n].run) {
        StepIsSourced(b, p, step, n);
        SourcedLater(b, p, b[i].active[n].run);
      }
    }
  }

  /** Each list was complete at its own moment, and the moments are in order. */
  ghost predicate TakenAt(b: seq<State>, i: nat, ls: Listings, j0: nat, j1: nat, j2: nat, j3: nat)
    requires i < |b|
  {
    j0 <= j1 <= j2 <= j3 <= i
    && IsListing(b[j0].cluster, ClusterRole, ls.clusterRoles)
    && IsListing(b[j1].cluster, ClusterRoleBinding, ls.clusterRoleBindings)
    && IsListing(b[j2].cluster, Role, ls.roles)
    && IsListing(b[j3].cluster, RoleBinding, ls.roleBindings)
  }

  lemma ListsWereTaken(b: seq<State>, i: nat, ls: Listings) returns (j0: nat, j1: nat, j2: nat, j3: nat)
    requires i < |b| && Listed(b, i, [ls.clusterRoles, ls.clusterRoleBindings, ls.roles, ls.roleBindings])
    ensures TakenAt(b, i, ls, j0, j1, j2, j3)
  {
    var lists := [ls.clusterRoles, ls.clusterRoleBindings, ls.roles, ls.roleBindings];
    var at: seq<nat> :| Captured(b, i, lists, at);
    j0, j1, j2, j3 := at[0], at[1], at[2], at[3];
    assert IsListing(b[at[0]].cluster, CaptureOrder(0), lists[0])
      && IsListing(b[at[1]].cluster, CaptureOrder(1), lists[1]);
    assert IsListing(b[at[2]].cluster, CaptureOrder(2), lists[2])
      && IsListing(b[at[3]].cluster, CaptureOrder(3), lists[3]);
  }

  /** A stored snapshot is made of one complete listing of each of the four kinds,
      taken in order at earlier moments: a failed list never leaves a partial one. */
  lemma SnapshotIsComplete(b: seq<State>, i: nat, n: string)
    requires Behavior(b) && i < |b| && n in b[i].monitors && b[i].monitors[n].status.snapshot.Some?
    ensures exists ls, j0: nat, j1: nat, j2: nat, j3: nat ::
      TakenAt(b, i, ls, j0, j1, j2, j3) && b[i].monitors[n].status.snapshot.value == SnapshotOf(ls)
  {
    EverythingIsSourced(b, i);
    var v := b[i].monitors[n].status.snapshot.value;
    assert Complete(b, i, v);
    var l0, l1, l2, l3 :| Listed(b, i, [l0, l1, l2, l3]) && v == SnapshotOf(Listings(l0, l1, l2, l3));
    var ls := Listings(l0, l1, l2, l3);
    var j0, j1, j2, j3 := ListsWereTaken(b, i, ls);
  }
}
