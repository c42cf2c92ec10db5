/** The event-driven controller as a step machine: an API store, undelivered watch
    events, a work queue, and one worker run per monitor being processed.  Every API
    call of a run is one step, so cluster changes, edits and other runs interleave. */
module Controller {
  import opened Prelude
  import opened Rbac
  import opened Drift
  import opened WatchFilter
  import opened MonitorStatus
  import opened Api
  import opened Worker

  /** A persisted monitor. */
  datatype Stored = Stored(resourceVersion: nat, generation: int, spec: Spec, status: Status)

  /** A watch event that no handler has seen yet. */
  datatype Event =
    | RbacEvent(key: Key)
    | MonitorEvent(name: string)            // the monitor was created, edited or deleted
    | StatusEvent(name: string)             // the controller wrote the monitor's status

  /** A run in progress, with the resource version of the monitor it fetched or wrote. */
  datatype Active = Active(resourceVersion: nat, run: Run)

  datatype State = State(
    cluster: Cluster,
    monitors: map<string, Stored>,
    clock: nat,                             // the next resource version
    events: multiset<Event>,
    dirty: set<string>,                     // queued for any reason but the next
    echoes: set<string>,                    // queued because of an own status write
    active: map<string, Active>,
    timers: set<string>,                    // those whose RequeueAfter timer is running
    lost: set<string>,                      // history: monitors for which an event was lost
    misread: set<string>)                   // ... or a read failed since their last run began

  datatype Step =
    | ChangeCluster(change: Change)
    | EditMonitor(name: string, spec: Option<Spec>)
    | Deliver(event: Event)                 // the handler of an event runs
    | Lose(key: Key)                        // ... but cannot list the monitors
    | Tick(name: string)                    // a RequeueAfter timer fires
    | Begin(name: string, now: int)         // a worker takes a monitor from the queue
    | BeginFails(name: string)              // ... but cannot fetch it
    | Respond(name: string, response: Response)   // a run makes its next API call
    | Restart                               // the process restarts: only the store survives

  /** The monitors that `mapRBACToMonitor` wakes for a resource. */
  function Woken(monitors: map<string, Stored>, key: Key): set<string> {
    set n | n in monitors && !monitors[n].spec.suspend && key in KeysOf(Entries(monitors[n].spec.baseline))
  }

  /** `items` lists every stored monitor once, in some order. */
  ghost predicate ListsMonitors(monitors: map<string, Stored>, items: seq<(string, Spec)>) {
    (forall i, j :: 0 <= i < j < |items| ==> items[i].0 != items[j].0)
    && (forall i :: 0 <= i < |items| ==> items[i].0 in monitors && items[i].1 == monitors[items[i].0].spec)
    && (forall n :: n in monitors ==> exists i :: 0 <= i < |items| && items[i].0 == n)
  }

  /** `mapRBACToMonitor`: one request per monitor that the resource wakes, in listing
      order; none at all if the monitors cannot be listed. */
  method MapRBACToMonitor(listed: Option<seq<(string, Spec)>>, ghost monitors: map<string, Stored>, key: Key)
    returns (requests: seq<string>)
    requires key.kind.Namespaced() || key.namespace == ""
    requires listed.Some? ==> ListsMonitors(monitors, listed.value)
    ensures listed.None? ==> requests == []
    ensures listed.Some? ==> forall n :: n in requests <==> n in Woken(monitors, key)
    ensures listed.Some? ==> forall n :: n in requests <==>
      n in monitors && !monitors[n].spec.suspend && Names(monitors[n].spec.baseline, key)
    ensures forall i, j :: 0 <= i < j < |requests| ==> requests[i] != requests[j]
  {
    WokenExactly(monitors, key);
    requests := [];
    if listed.None? { return; }
    var items := listed.value;
    ghost var seen: set<string> := {};
    for k := 0 to |items|
      invariant seen == set i | 0 <= i < k :: items[i].0
      invariant forall n :: n in requests <==> n in seen && n in Woken(monitors, key)
      invariant forall i, j :: 0 <= i < j < |requests| ==> requests[i] != requests[j]
    {
      var (name, spec) := items[k];
      assert name !in seen;
      seen := seen + {name};
      if spec.suspend { continue; }
      var found := BaselineReferencesResource(spec.baseline, key);
      ReferencesIsMembership(Entries(spec.baseline), key);
      if found { requests := requests + [name]; }
    }
  }

  /** A resource wakes the monitors that are not suspended and whose baseline names it. */
  lemma WokenExactly(monitors: map<string, Stored>, key: Key)
    ensures forall n :: n in Woken(monitors, key) <==>
      n in monitors && !monitors[n].spec.suspend && Names(monitors[n].spec.baseline, key)
  {
    forall n | n in monitors
      ensures Names(monitors[n].spec.baseline, key) <==> key in KeysOf(Entries(monitors[n].spec.baseline))
    {
      NamesAreKeys(monitors[n].spec.baseline, key);
    }
  }

  /** Its event queues those monitors and no other; an event that is lost queues none. */
  lemma EventWakesExactly(s: State, key: Key, n: string)
    ensures n in Delivered(s, RbacEvent(key)).dirty <==>
      n in s.dirty || (n in s.monitors && !s.monitors[n].spec.suspend && Names(s.monitors[n].spec.baseline, key))
    ensures Lost(s, key).dirty == s.dirty && Lost(s, key).echoes == s.echoes
  {
    WokenExactly(s.monitors, key);
  }

  lemma ReferencesIsMembership(es: seq<Entry>, key: Key)
    ensures References(es, key) <==> key in KeysOf(es)
  {
  }

  /** The responses that the API server can give. */
  ghost predicate Possible(s: State, name: string, r: Response)
    requires name in s.active
  {
    match NextCall(s.active[name].run)
    case None => false
    case Some(Get(key)) => r == Got(Lookup(s.cluster, key)) || r == Got(Failed)
    case Some(List(kind)) =>
      r == Listed(None) || (r.Listed? && r.items.Some? && IsListing(s.cluster, kind, r.items.value))
    // An update of anything but the version that was fetched is a conflict.
    case Some(Update(_)) => r == Updated(false) || (r == Updated(true) && Current(s, name))
  }

  ghost predicate Current(s: State, name: string)
    requires name in s.active
  {
    name in s.monitors && s.monitors[name].resourceVersion == s.active[name].resourceVersion
  }

  ghost predicate Enabled(s: State, step: Step) {
    match step
    case ChangeCluster(ch) => ch.Valid()
    case EditMonitor(name, spec) => spec.Some? || name in s.monitors
    case Deliver(e) => e in s.events
    case Lose(key) => RbacEvent(key) in s.events
    case Tick(name) => name in s.timers
    case Begin(name, _) => name in s.dirty + s.echoes && name !in s.active
    case BeginFails(name) => name in s.dirty + s.echoes && name !in s.active
    case Respond(name, r) => name in s.active && Possible(s, name, r)
    case Restart => true
  }

  // ---- the steps ----------------------------------------------------------

  ghost function Changed(s: State, ch: Change): State
    requires ch.Valid()
  {
    s.(cluster := Apply(s.cluster, ch), events := s.events + multiset{RbacEvent(ch.key)})
  }

  function Edited(s: State, name: string, spec: Option<Spec>): State {
    var monitors :=
      if spec.None? then s.monitors - {name}
      else if name in s.monitors then
        s.monitors[name := Stored(s.clock, s.monitors[name].generation + 1, spec.value, s.monitors[name].status)]
      else s.monitors[name := Stored(s.clock, 1, spec.value, NEW_STATUS)];
    s.(monitors := monitors, clock := s.clock + 1, events := s.events + multiset{MonitorEvent(name)})
  }

  function Delivered(s: State, e: Event): State {
    var s' := s.(events := s.events - multiset{e});
    match e
    case RbacEvent(key) => s'.(dirty := s.dirty + Woken(s.monitors, key))
    case MonitorEvent(name) => s'.(dirty := s.dirty + {name})
    case StatusEvent(name) => s'.(echoes := s.echoes + {name})
  }

  function Lost(s: State, key: Key): State {
    s.(events := s.events - multiset{RbacEvent(key)}, lost := s.lost + Woken(s.monitors, key))
  }

  /** The timer of a run that asked to be repeated after some time. */
  function Rearmed(timers: set<string>, name: string, requeueAfter: Option<int>): set<string> {
    if requeueAfter.Some? && requeueAfter.value > 0 then timers + {name} else timers
  }

  /** A run goes on; or it ends, and is queued again if it failed. */
  function Placed(s: State, name: string, a: Active): State {
    if a.run.phase.Finished? then
      s.(active := s.active - {name},
         dirty := if a.run.phase.failed then s.dirty + {name} else s.dirty,
         timers := Rearmed(s.timers, name, a.run.phase.requeueAfter))
    else s.(active := s.active[name := a])
  }

  function Begun(s: State, name: string, now: int): State {
    var s' := s.(dirty := s.dirty - {name}, echoes := s.echoes - {name});
    if name !in s.monitors then s'
    else
      var m := s.monitors[name];
      Placed(s'.(lost := s.lost - {name}, misread := s.misread - {name}), name,
             Active(m.resourceVersion, Start(m.generation, m.spec, m.status, now)))
  }

  /** A status write; one that changes nothing makes no new version and no event. */
  function Written(s: State, name: string, status: Status): State
    requires name in s.monitors
  {
    var m := s.monitors[name];
    if m.status == status then s
    else s.(monitors := s.monitors[name := m.(resourceVersion := s.clock, status := status)],
            clock := s.clock + 1, events := s.events + multiset{StatusEvent(name)})
  }

  function Responded(s: State, name: string, r: Response): State
    requires name in s.active
  {
    var a := s.active[name];
    var run' := Feed(a.run, r);
    if r == Updated(true) && name in s.monitors then
      var s' := Written(s, name, a.run.status);
      Placed(s', name, Active(s'.monitors[name].resourceVersion, run'))
    else
      Placed(s.(misread := if r == Got(Failed) then s.misread + {name} else s.misread), name, a.(run := run'))
  }

  function Restarted(s: State): State {
    s.(dirty := {}, echoes := {}, active := map[], timers := {},
       events := multiset(set n | n in s.monitors :: MonitorEvent(n))
         + multiset(set k | k in s.cluster :: RbacEvent(k)))
  }

  ghost function AfterStep(s: State, step: Step): State
    requires Enabled(s, step)
  {
    match step
    case ChangeCluster(ch) => Changed(s, ch)
    case EditMonitor(name, spec) => Edited(s, name, spec)
    case Deliver(e) => Delivered(s, e)
    case Lose(key) => Lost(s, key)
    case Tick(name) => s.(dirty := s.dirty + {name}, timers := s.timers - {name})
    case Begin(name, now) => Begun(s, name, now)
    case BeginFails(name) => s.(dirty := s.dirty + {name}, echoes := s.echoes - {name})
    case Respond(name, r) => Responded(s, name, r)
    case Restart => Restarted(s)
  }

  ghost predicate Init(s: State) {
    s.monitors == map[] && s.events == multiset{} && s.dirty == {} && s.echoes == {}
    && s.active == map[] && s.timers == {} && s.lost == {} && s.misread == {}
  }

  ghost predicate Next(s: State, s': State) {
    exists step :: Enabled(s, step) && s' == AfterStep(s, step)
  }

  /** The i-th state is followed by one that a step leads to. */
  ghost predicate Continues(b: seq<State>, i: int)
    requires 0 <= i < |b| - 1
  {
    Next(b[i], b[i + 1])
  }

  /** A run of the controller from its start. */
  ghost predicate Behavior(b: seq<State>) {
    |b| > 0 && Init(b[0]) && forall i :: 0 <= i < |b| - 1 ==> Continues(b, i)
  }
}
