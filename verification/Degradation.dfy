/** The ClusterDegradationMonitor: filter, health entries, counts and overall health. */
module Degradation {
  import opened Prelude
  import opened Counting
  import opened Conditions

  datatype OperandVersion = OperandVersion(name: string, version: string)

  datatype ClusterOperator = ClusterOperator(
    name: string, conditions: seq<OperatorCondition>, versions: seq<OperandVersion>)

  /** The version of the operand "operator", the first one if there are several. */
  function OperatorVersion(vs: seq<OperandVersion>): string {
    if vs == [] then "" else if vs[0].name == "operator" then vs[0].version else OperatorVersion(vs[1..])
  }

  function HealthOf(op: ClusterOperator): Health {
    Fold(op.name, op.conditions).(version := OperatorVersion(op.versions))
  }

  /** An empty filter accepts every operator. */
  predicate Accepted(filter: seq<string>, name: string) {
    filter == [] || name in filter
  }

  function Monitored(ops: seq<ClusterOperator>, filter: seq<string>): seq<ClusterOperator> {
    if ops == [] then []
    else
      var last := ops[|ops| - 1];
      Monitored(ops[..|ops| - 1], filter) + if Accepted(filter, last.name) then [last] else []
  }

  predicate IsDegraded(op: ClusterOperator) {
    HealthOf(op).degraded
  }

  predicate IsUnavailable(op: ClusterOperator) {
    !HealthOf(op).available
  }

  predicate IsProgressing(op: ClusterOperator) {
    HealthOf(op).progressing
  }

  datatype Overall = Healthy | Warning | Critical {
    function Rank(): nat {
      match this
      case Healthy => 0
      case Warning => 1
      case Critical => 2
    }
  }

  /** A threshold of 0 stands for the default of 3. */
  function Threshold(t: int): int {
    if t == 0 then 3 else t
  }

  function Decide(degraded: int, unavailable: int, threshold: int): Overall {
    if unavailable > 0 || degraded >= Threshold(threshold) then Critical
    else if degraded > 0 then Warning
    else Healthy
  }

  /** What a reconcile reports; the counters are int32. */
  datatype Report = Report(healths: seq<Health>, degraded: int, unavailable: int, progressing: int, overall: Overall)

  function Healths(ops: seq<ClusterOperator>): seq<Health> {
    seq(|ops|, i requires 0 <= i < |ops| => HealthOf(ops[i]))
  }

  function ReportOf(ops: seq<ClusterOperator>, filter: seq<string>, threshold: int): Report {
    var kept := Monitored(ops, filter);
    var degraded, unavailable := Int32(Count(kept, IsDegraded)), Int32(Count(kept, IsUnavailable));
    Report(Healths(kept), degraded, unavailable, Int32(Count(kept, IsProgressing)),
           Decide(degraded, unavailable, threshold))
  }

  // ---- the reconcile ------------------------------------------------------

  /** The version of the first operand named "operator", or empty if there is none. */
  ghost predicate IsOperatorVersion(vs: seq<OperandVersion>, version: string) {
    (exists i :: 0 <= i < |vs| && vs[i].name == "operator" && vs[i].version == version
       && forall j :: 0 <= j < i ==> vs[j].name != "operator")
    || (version == "" && forall i :: 0 <= i < |vs| ==> vs[i].name != "operator")
  }

  lemma {:induction false} VersionMeans(vs: seq<OperandVersion>)
    ensures IsOperatorVersion(vs, OperatorVersion(vs))
  {
    if vs != [] && vs[0].name != "operator" {
      var rest := vs[1..];
      VersionMeans(rest);
      if i :| 0 <= i < |rest| && rest[i].name == "operator" && rest[i].version == OperatorVersion(rest)
              && forall j :: 0 <= j < i ==> rest[j].name != "operator"
      {
        assert vs[i + 1] == rest[i];
        assert forall j :: 1 <= j < i + 1 ==> vs[j] == rest[j - 1];
      } else {
        assert forall j :: 1 <= j < |vs| ==> vs[j] == rest[j - 1];
      }
    }
  }

  method FindVersion(vs: seq<OperandVersion>) returns (version: string)
    ensures version == OperatorVersion(vs)
    ensures IsOperatorVersion(vs, version)
  {
    version := "";
    for i := 0 to |vs|
      invariant OperatorVersion(vs) == OperatorVersion(vs[i..])
      invariant version == "" && forall j :: 0 <= j < i ==> vs[j].name != "operator"
    {
      if vs[i].name == "operator" { return vs[i].version; }
      assert vs[i..][1..] == vs[i + 1..];
    }
  }

  method FilterSet(filter: seq<string>) returns (names: set<string>)
    ensures forall name :: name in names <==> name in filter
    ensures |names| > 0 <==> filter != []
  {
    names := {};
    for i := 0 to |filter|
      invariant names == set k | 0 <= k < i :: filter[k]
    {
      names := names + {filter[i]};
    }
    if filter != [] { assert filter[0] in names; }
  }

  /** The entries and counters for the operators kept so far. */
  ghost predicate Tallied(kept: seq<ClusterOperator>, healths: seq<Health>, degraded: int, unavailable: int,
        progressing: int) {
    healths == Healths(kept) && degraded == Int32(Count(kept, IsDegraded))
    && unavailable == Int32(Count(kept, IsUnavailable)) && progressing == Int32(Count(kept, IsProgressing))
  }

  function Increment(counter: int, test: bool): int {
    if test then Int32(counter + 1) else counter
  }

  lemma CounterStep(kept: seq<ClusterOperator>, op: ClusterOperator, p: ClusterOperator -> bool)
    ensures Int32(Count(kept + [op], p)) == Increment(Int32(Count(kept, p)), p(op))
  {
    FilterLast(kept, op, p);
    Int32Increment(Count(kept, p));
  }

  lemma TalliedStep(kept: seq<ClusterOperator>, op: ClusterOperator, healths: seq<Health>, degraded: int,
                    unavailable: int, progressing: int)
    requires Tallied(kept, healths, degraded, unavailable, progressing)
    ensures Tallied(kept + [op], healths + [HealthOf(op)], Increment(degraded, IsDegraded(op)),
                    Increment(unavailable, IsUnavailable(op)), Increment(progressing, IsProgressing(op)))
  {
    CounterStep(kept, op, IsDegraded);
    CounterStep(kept, op, IsUnavailable);
    CounterStep(kept, op, IsProgressing);
  }

  /** The entry of one operator. */
  method Observe(op: ClusterOperator) returns (health: Health)
    ensures health == HealthOf(op)
  {
    health := FoldConditions(op.name, op.conditions);
    var version := FindVersion(op.versions);
    health := health.(version := version);
  }

  /** The loop over the listed operators, and the decision. */
  method Correlate(ops: seq<ClusterOperator>, filter: seq<string>, threshold: int) returns (report: Report)
    ensures report == ReportOf(ops, filter, threshold)
  {
    var filterSet := FilterSet(filter);
    var healths: seq<Health> := [];
    var degraded, unavailable, progressing := 0, 0, 0;
    for i := 0 to |ops|
      invariant Tallied(Monitored(ops[..i], filter), healths, degraded, unavailable, progressing)
    {
      var op := ops[i];
      assert ops[..i + 1][..i] == ops[..i];
      if |filterSet| > 0 && op.name !in filterSet {
        assert Monitored(ops[..i + 1], filter) == Monitored(ops[..i], filter);
        continue;
      }
      var health := Observe(op);
      assert Monitored(ops[..i + 1], filter) == Monitored(ops[..i], filter) + [op];
      TalliedStep(Monitored(ops[..i], filter), op, healths, degraded, unavailable, progressing);
      if health.degraded { degraded := Int32(degraded + 1); }
      if !health.available { unavailable := Int32(unavailable + 1); }
      if health.progressing { progressing := Int32(progressing + 1); }
      healths := healths + [health];
    }
    assert ops[..|ops|] == ops;
    var degradedThreshold := threshold;
    if degradedThreshold == 0 { degradedThreshold := 3; }
    var overall;
    if unavailable > 0 || degraded >= degradedThreshold {
      overall := Critical;
    } else if degraded > 0 {
      overall := Warning;
    } else {
      overall := Healthy;
    }
    report := Report(healths, degraded, unavailable, progressing, overall);
  }

  // ---- counts and overall health ------------------------------------------

  lemma {:induction false} MonitoredIsFilter(ops: seq<ClusterOperator>, filter: seq<string>, p: ClusterOperator -> bool)
    requires forall op :: p(op) == Accepted(filter, op.name)
    ensures Monitored(ops, filter) == Filter(ops, p) && |Monitored(ops, filter)| <= |ops|
  {
    if ops != [] { MonitoredIsFilter(ops[..|ops| - 1], filter, p); }
  }

  /** Below 2^31 operators the three counts are the numbers of monitored operators
      that are degraded, unavailable and progressing. */
  lemma CountsAreCardinalities(ops: seq<ClusterOperator>, filter: seq<string>, threshold: int)
    requires |ops| < 0x8000_0000
    ensures var r, kept := ReportOf(ops, filter, threshold), Monitored(ops, filter);
      r.degraded == |Positions(kept, IsDegraded)| && r.unavailable == |Positions(kept, IsUnavailable)|
      && r.progressing == |Positions(kept, IsProgressing)|
  {
    var kept := Monitored(ops, filter);
    MonitoredIsFilter(ops, filter, (op: ClusterOperator) => Accepted(filter, op.name));
    CountIsCardinality(kept, IsDegraded);
    CountIsCardinality(kept, IsUnavailable);
    CountIsCardinality(kept, IsProgressing);
  }

  lemma {:induction false} CountMonitored(ops: seq<ClusterOperator>, filter: seq<string>, p: ClusterOperator -> bool,
                                          q: ClusterOperator -> bool)
    requires forall op :: q(op) == (Accepted(filter, op.name) && p(op))
    ensures Count(Monitored(ops, filter), p) == Count(ops, q)
  {
    if ops != [] {
      var init, last := ops[..|ops| - 1], ops[|ops| - 1];
      CountMonitored(init, filter, p, q);
      FilterLast(Monitored(init, filter), last, p);
      assert Monitored(init, filter) + [] == Monitored(init, filter);
    }
  }

  /** Where the filtered operators stand that say that they are degraded, ... */
  ghost function DegradedAt(ops: seq<ClusterOperator>, filter: seq<string>): set<int> {
    set i | 0 <= i < |ops| && (filter == [] || ops[i].name in filter) && Says(ops[i].conditions, "Degraded")
  }

  /** ... that do not say that they are available, ... */
  ghost function UnavailableAt(ops: seq<ClusterOperator>, filter: seq<string>): set<int> {
    set i | 0 <= i < |ops| && (filter == [] || ops[i].name in filter) && !Says(ops[i].conditions, "Available")
  }

  /** ... and that say that they are progressing. */
  ghost function ProgressingAt(ops: seq<ClusterOperator>, filter: seq<string>): set<int> {
    set i | 0 <= i < |ops| && (filter == [] || ops[i].name in filter) && Says(ops[i].conditions, "Progressing")
  }

  lemma CountDegraded(ops: seq<ClusterOperator>, filter: seq<string>)
    ensures Count(Monitored(ops, filter), IsDegraded) == |DegradedAt(ops, filter)|
  {
    var q := (op: ClusterOperator) => Accepted(filter, op.name) && IsDegraded(op);
    CountMonitored(ops, filter, IsDegraded, q);
    CountIsCardinality(ops, q);
    forall i | 0 <= i < |ops|
      ensures q(ops[i]) == (Accepted(filter, ops[i].name) && Says(ops[i].conditions, "Degraded"))
    {
      FlagsSay(ops[i].name, ops[i].conditions);
    }
    assert Positions(ops, q) == DegradedAt(ops, filter);
  }

  lemma CountUnavailable(ops: seq<ClusterOperator>, filter: seq<string>)
    ensures Count(Monitored(ops, filter), IsUnavailable) == |UnavailableAt(ops, filter)|
  {
    var q := (op: ClusterOperator) => Accepted(filter, op.name) && IsUnavailable(op);
    CountMonitored(ops, filter, IsUnavailable, q);
    CountIsCardinality(ops, q);
    forall i | 0 <= i < |ops|
      ensures q(ops[i]) == (Accepted(filter, ops[i].name) && !Says(ops[i].conditions, "Available"))
    {
      FlagsSay(ops[i].name, ops[i].conditions);
    }
    assert Positions(ops, q) == UnavailableAt(ops, filter);
  }

  lemma CountProgressing(ops: seq<ClusterOperator>, filter: seq<string>)
    ensures Count(Monitored(ops, filter), IsProgressing) == |ProgressingAt(ops, filter)|
  {
    var q := (op: ClusterOperator) => Accepted(filter, op.name) && IsProgressing(op);
    CountMonitored(ops, filter, IsProgressing, q);
    CountIsCardinality(ops, q);
    forall i | 0 <= i < |ops|
      ensures q(ops[i]) == (Accepted(filter, ops[i].name) && Says(ops[i].conditions, "Progressing"))
    {
      FlagsSay(ops[i].name, ops[i].conditions);
    }
    assert Positions(ops, q) == ProgressingAt(ops, filter);
  }

  /** Below 2^31 operators, without the entries: the counters are the numbers of these
      operators; the overall health is Critical if one is unavailable or as many as the
      threshold are degraded, and otherwise Warning if one is degraded. */
  lemma ReportExactly(ops: seq<ClusterOperator>, filter: seq<string>, threshold: int)
    requires |ops| < 0x8000_0000
    ensures var r, limit := ReportOf(ops, filter, threshold), if threshold == 0 then 3 else threshold;
      var degraded, unavailable := |DegradedAt(ops, filter)|, |UnavailableAt(ops, filter)|;
      r.degraded == degraded && r.unavailable == unavailable && r.progressing == |ProgressingAt(ops, filter)|
      && (r.overall == Critical <==> unavailable > 0 || degraded >= limit)
      && (r.overall == Warning <==> unavailable == 0 && 0 < degraded < limit)
      && (r.overall == Healthy <==> unavailable == 0 && degraded == 0 < limit)
  {
    CountDegraded(ops, filter);
    CountUnavailable(ops, filter);
    CountProgressing(ops, filter);
    CountsFit(ops, filter);
  }

  lemma CountsFit(ops: seq<ClusterOperator>, filter: seq<string>)
    ensures |DegradedAt(ops, filter)| <= |ops| && |UnavailableAt(ops, filter)| <= |ops|
    ensures |ProgressingAt(ops, filter)| <= |ops|
  {
    var all := (op: ClusterOperator) => Accepted(filter, op.name);
    CountDegraded(ops, filter);
    CountUnavailable(ops, filter);
    CountProgressing(ops, filter);
    MonitoredIsFilter(ops, filter, all);
    CountIsCardinality(Monitored(ops, filter), IsDegraded);
    CountIsCardinality(Monitored(ops, filter), IsUnavailable);
    CountIsCardinality(Monitored(ops, filter), IsProgressing);
  }

  // ---- the entries ----------------------------------------------------------

  /** The entries for a list of operators are those for its parts, in order ... */
  lemma EntriesConcat(a: seq<ClusterOperator>, b: seq<ClusterOperator>, filter: seq<string>, threshold: int)
    ensures ReportOf(a + b, filter, threshold).healths
      == ReportOf(a, filter, threshold).healths + ReportOf(b, filter, threshold).healths
  {
    MonitoredConcat(a, b, filter);
  }

  /** The entry of an operator: its name, what the last conditions of the three types say,
      the message, the time of the latest transition, and the version of its first operand
      named "operator". */
  ghost predicate IsEntryOf(h: Health, op: ClusterOperator) {
    h.operatorName == op.name && h.available == Says(op.conditions, "Available")
    && h.degraded == Says(op.conditions, "Degraded") && h.progressing == Says(op.conditions, "Progressing")
    && IsMessage(op.conditions, h.message) && IsLatest(op.conditions, h.lastTransitionTime)
    && IsOperatorVersion(op.versions, h.version)
  }

  /** ... and one operator gives its entry if it passes the filter, and otherwise none. */
  lemma EntryOfOne(op: ClusterOperator, filter: seq<string>, threshold: int)
    ensures var healths := ReportOf([op], filter, threshold).healths;
      if filter != [] && op.name !in filter then healths == []
      else |healths| == 1 && IsEntryOf(healths[0], op)
  {
    MonitoredOne(op, filter);
    HealthIsEntry(op);
  }

  lemma MonitoredOne(op: ClusterOperator, filter: seq<string>)
    ensures Monitored([op], filter) == if filter == [] || op.name in filter then [op] else []
  {
    assert [op][..0] == [];
  }

  lemma HealthIsEntry(op: ClusterOperator)
    ensures IsEntryOf(HealthOf(op), op)
  {
    FlagsSay(op.name, op.conditions);
    MessageExactly(op.name, op.conditions);
    FoldTakesMaximum(op.name, op.conditions);
    VersionMeans(op.versions);
  }

  lemma MonitoredPermutes(ops: seq<ClusterOperator>, ops': seq<ClusterOperator>, filter: seq<string>)
    requires multiset(ops) == multiset(ops')
    ensures multiset(Monitored(ops, filter)) == multiset(Monitored(ops', filter))
  {
    var p := (op: ClusterOperator) => Accepted(filter, op.name);
    MonitoredIsFilter(ops, filter, p);
    MonitoredIsFilter(ops', filter, p);
    FilterPermutes(ops, ops', p);
  }

  lemma HealthsPermute(kept: seq<ClusterOperator>, kept': seq<ClusterOperator>)
    requires multiset(kept) == multiset(kept')
    ensures multiset(Healths(kept)) == multiset(Healths(kept'))
  {
    MapPermutes(kept, kept', HealthOf);
    assert Healths(kept) == Map(kept, HealthOf) && Healths(kept') == Map(kept', HealthOf);
  }

  lemma CountsPermute(kept: seq<ClusterOperator>, kept': seq<ClusterOperator>)
    requires multiset(kept) == multiset(kept')
    ensures Count(kept, IsDegraded) == Count(kept', IsDegraded)
    ensures Count(kept, IsUnavailable) == Count(kept', IsUnavailable)
    ensures Count(kept, IsProgressing) == Count(kept', IsProgressing)
  {
    FilterPermutes(kept, kept', IsDegraded);
    FilterPermutes(kept, kept', IsUnavailable);
    FilterPermutes(kept, kept', IsProgressing);
  }

  /** Permuting the operators permutes the entries and changes no count and no decision. */
  lemma ReportIgnoresOrder(ops: seq<ClusterOperator>, ops': seq<ClusterOperator>, filter: seq<string>, threshold: int)
    requires multiset(ops) == multiset(ops')
    ensures var r, r' := ReportOf(ops, filter, threshold), ReportOf(ops', filter, threshold);
      r == r'.(healths := r.healths) && multiset(r.healths) == multiset(r'.healths)
  {
    MonitoredPermutes(ops, ops', filter);
    HealthsPermute(Monitored(ops, filter), Monitored(ops', filter));
    CountsPermute(Monitored(ops, filter), Monitored(ops', filter));
  }

  /** The same operators, some of them less available or more degraded. */
  ghost predicate NoBetter(ops: seq<ClusterOperator>, ops': seq<ClusterOperator>) {
    |ops| == |ops'| && forall i :: 0 <= i < |ops| ==>
      ops'[i].name == ops[i].name
      && (IsUnavailable(ops[i]) ==> IsUnavailable(ops'[i])) && (IsDegraded(ops[i]) ==> IsDegraded(ops'[i]))
  }

  lemma {:induction false} NoBetterKept(ops: seq<ClusterOperator>, ops': seq<ClusterOperator>, filter: seq<string>)
    requires NoBetter(ops, ops')
    ensures NoBetter(Monitored(ops, filter), Monitored(ops', filter))
  {
    if ops != [] { NoBetterKept(ops[..|ops| - 1], ops'[..|ops| - 1], filter); }
  }

  /** Worse operators or a lower threshold never improve the overall health. */
  lemma OverallHealthIsMonotone(ops: seq<ClusterOperator>, ops': seq<ClusterOperator>, filter: seq<string>, t: int,
        t': int)
    requires NoBetter(ops, ops') && |ops| < 0x8000_0000 && Threshold(t') <= Threshold(t)
    ensures ReportOf(ops, filter, t).overall.Rank() <= ReportOf(ops', filter, t').overall.Rank()
  {
    var kept, kept' := Monitored(ops, filter), Monitored(ops', filter);
    NoBetterKept(ops, ops', filter);
    MonitoredIsFilter(ops, filter, (op: ClusterOperator) => Accepted(filter, op.name));
    MonitoredIsFilter(ops', filter, (op: ClusterOperator) => Accepted(filter, op.name));
    CountMonotone(kept, IsDegraded, kept', IsDegraded);
    CountMonotone(kept, IsUnavailable, kept', IsUnavailable);
    CountIsCardinality(kept', IsDegraded);
    CountIsCardinality(kept', IsUnavailable);
  }

  // ---- the watch filter ---------------------------------------------------

  datatype OperatorMonitor = OperatorMonitor(name: string, suspend: bool, filter: seq<string>)

  /** `mapClusterOperatorToMonitor`: the monitors to wake for an operator. */
  method MapClusterOperatorToMonitor(monitors: seq<OperatorMonitor>, operator: string) returns (requests: seq<string>)
    ensures requests == Woken(monitors, operator)
    ensures forall name :: name in requests <==>
      exists m :: m in monitors && m.name == name && !m.suspend && (m.filter == [] || operator in m.filter)
  {
    WokenExactly(monitors, operator);
    requests := [];
    for m := 0 to |monitors|
      invariant requests == Woken(monitors[..m], operator)
    {
      var monitor := monitors[m];
      assert monitors[..m + 1][..m] == monitors[..m];
      if monitor.suspend { continue; }
      if |monitor.filter| > 0 {
        var found := false;
        for i := 0 to |monitor.filter|
          invariant found == (operator in monitor.filter[..i])
        {
          if monitor.filter[i] == operator {
            found := true;
            assert monitor.filter[i] in monitor.filter;
            break;
          }
        }
        if !found { continue; }
      }
      requests := requests + [monitor.name];
    }
    assert monitors[..|monitors|] == monitors;
  }

  function Woken(monitors: seq<OperatorMonitor>, operator: string): seq<string> {
    if monitors == [] then []
    else
      var last := monitors[|monitors| - 1];
      Woken(monitors[..|monitors| - 1], operator)
      + if !last.suspend && Accepted(last.filter, operator) then [last.name] else []
  }

  /** Woken are the monitors that are not suspended and whose filter is empty or names the
      operator. */
  lemma {:induction false} WokenExactly(monitors: seq<OperatorMonitor>, operator: string)
    ensures forall name :: name in Woken(monitors, operator) <==>
      exists m :: m in monitors && m.name == name && !m.suspend && (m.filter == [] || operator in m.filter)
  {
    if monitors != [] {
      var init, last := monitors[..|monitors| - 1], monitors[|monitors| - 1];
      WokenExactly(init, operator);
      assert forall m :: m in monitors <==> m in init || m == last;
    }
  }

  /** A change of the operator list at one position. */
  datatype Edit = Insert(at: nat, op: ClusterOperator) | Remove(at: nat) | Replace(at: nat, op: ClusterOperator)

  predicate Fits(ops: seq<ClusterOperator>, e: Edit) {
    if e.Insert? then e.at <= |ops| else e.at < |ops|
  }

  function Edited(ops: seq<ClusterOperator>, e: Edit): seq<ClusterOperator>
    requires Fits(ops, e)
  {
    match e
    case Insert(at, op) => ops[..at] + [op] + ops[at..]
    case Remove(at) => ops[..at] + ops[at + 1..]
    case Replace(at, op) => ops[..at] + [op] + ops[at + 1..]
  }

  /** The watch of a monitor with this filter reacts to the edit: to an operator that
      appears, disappears or changes. */
  predicate Noticed(ops: seq<ClusterOperator>, e: Edit, filter: seq<string>)
    requires Fits(ops, e)
  {
    (!e.Remove? && Accepted(filter, e.op.name)) || (!e.Insert? && Accepted(filter, ops[e.at].name))
  }

  lemma MonitoredConcat(a: seq<ClusterOperator>, b: seq<ClusterOperator>, filter: seq<string>)
    ensures Monitored(a + b, filter) == Monitored(a, filter) + Monitored(b, filter)
  {
    var p := (op: ClusterOperator) => Accepted(filter, op.name);
    MonitoredIsFilter(a + b, filter, p);
    MonitoredIsFilter(a, filter, p);
    MonitoredIsFilter(b, filter, p);
    FilterConcat(a, b, p);
  }

  lemma MonitoredAround(a: seq<ClusterOperator>, op: ClusterOperator, b: seq<ClusterOperator>, filter: seq<string>)
    ensures Monitored(a + [op] + b, filter)
      == Monitored(a, filter) + (if Accepted(filter, op.name) then [op] else []) + Monitored(b, filter)
  {
    MonitoredConcat(a + [op], b, filter);
    assert (a + [op])[..|a|] == a;
  }

  lemma SplitAt(ops: seq<ClusterOperator>, at: nat)
    requires at <= |ops|
    ensures ops == ops[..at] + ops[at..] && (at < |ops| ==> ops == ops[..at] + [ops[at]] + ops[at + 1..])
  {
  }

  lemma UnnoticedKeepsMonitored(ops: seq<ClusterOperator>, e: Edit, filter: seq<string>)
    requires Fits(ops, e) && !Noticed(ops, e, filter)
    ensures Monitored(Edited(ops, e), filter) == Monitored(ops, filter)
  {
    SplitAt(ops, e.at);
    match e
    case Insert(at, op) =>
      MonitoredAround(ops[..at], op, ops[at..], filter);
      MonitoredConcat(ops[..at], ops[at..], filter);
    case Remove(at) =>
      MonitoredAround(ops[..at], ops[at], ops[at + 1..], filter);
      MonitoredConcat(ops[..at], ops[at + 1..], filter);
    case Replace(at, op) =>
      MonitoredAround(ops[..at], ops[at], ops[at + 1..], filter);
      MonitoredAround(ops[..at], op, ops[at + 1..], filter);
  }

  ghost predicate AllUnnoticed(ops: seq<ClusterOperator>, es: seq<Edit>, filter: seq<string>)
    decreases |es|
  {
    es == [] || (Fits(ops, es[0]) && !Noticed(ops, es[0], filter) && AllUnnoticed(Edited(ops, es[0]), es[1..], filter))
  }

  ghost function AllEdited(ops: seq<ClusterOperator>, es: seq<Edit>, filter: seq<string>): seq<ClusterOperator>
    requires AllUnnoticed(ops, es, filter)
    decreases |es|
  {
    if es == [] then ops else AllEdited(Edited(ops, es[0]), es[1..], filter)
  }

  /** The linear search of the watch and the set of the reconcile agree, so no series
      of edits that wakes nobody changes an entry, a count or the overall health. */
  lemma {:induction false} UnnoticedEditsAreInvisible(ops: seq<ClusterOperator>, es: seq<Edit>, filter: seq<string>,
        threshold: int)
    requires AllUnnoticed(ops, es, filter)
    ensures ReportOf(AllEdited(ops, es, filter), filter, threshold) == ReportOf(ops, filter, threshold)
    decreases |es|
  {
    if es != [] {
      UnnoticedKeepsMonitored(ops, es[0], filter);
      UnnoticedEditsAreInvisible(Edited(ops, es[0]), es[1..], filter, threshold);
    }
  }

  /** And the watch wakes a monitor for an operator exactly when the presence of that
      operator in the list makes a difference to the report. */
  lemma WatchIsExact(a: seq<ClusterOperator>, op: ClusterOperator, b: seq<ClusterOperator>, filter: seq<string>,
                     threshold: int)
    ensures filter == [] || op.name in filter <==>
      ReportOf(a + [op] + b, filter, threshold) != ReportOf(a + b, filter, threshold)
  {
    MonitoredAround(a, op, b, filter);
    MonitoredConcat(a, b, filter);
    var r, r' := ReportOf(a + [op] + b, filter, threshold), ReportOf(a + b, filter, threshold);
    assert Monitored(a, filter) + [] + Monitored(b, filter) == Monitored(a, filter) + Monitored(b, filter);
    assert Accepted(filter, op.name) ==> |r.healths| == |r'.healths| + 1;
  }
}
