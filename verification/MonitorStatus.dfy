/** The status of an RBACDriftMonitor and the ways in which a reconcile changes it. */
module MonitorStatus {
  import opened Prelude
  import opened PolicyRules
  import opened Rbac
  import opened Drift
  import opened Unexpected

  const READY := "Ready"
  const DRIFT_DETECTED := "DriftDetected"
  const SNAPSHOT_BASED := "snapshot"

  datatype Condition = Condition(
    conditionType: string, status: bool, reason: string, observedGeneration: int, lastTransitionTime: int)

  /** `meta.SetStatusCondition`: update the condition of that type, or append it.  The
      transition time moves only when the status changes. */
  function SetCondition(cs: seq<Condition>, c: Condition): seq<Condition> {
    if cs == [] then [c]
    else if cs[0].conditionType == c.conditionType then
      [if cs[0].status == c.status then c.(lastTransitionTime := cs[0].lastTransitionTime) else c] + cs[1..]
    else [cs[0]] + SetCondition(cs[1..], c)
  }

  /** The status of a condition, if there is one of that type. */
  function StatusOf(cs: seq<Condition>, t: string): Option<bool> {
    if cs == [] then None
    else if cs[0].conditionType == t then Some(cs[0].status)
    else StatusOf(cs[1..], t)
  }

  /** The condition of a type, if there is one. */
  ghost function ConditionOf(cs: seq<Condition>, t: string): Option<Condition> {
    if cs == [] then None
    else if cs[0].conditionType == t then Some(cs[0])
    else ConditionOf(cs[1..], t)
  }

  lemma {:induction false} StatusOfCondition(cs: seq<Condition>, t: string)
    ensures StatusOf(cs, t) == if ConditionOf(cs, t).Some? then Some(ConditionOf(cs, t).value.status) else None
  {
    if cs != [] { StatusOfCondition(cs[1..], t); }
  }

  /** It is the first one of that type. */
  lemma {:induction false} ConditionOfMeans(cs: seq<Condition>, t: string)
    ensures ConditionOf(cs, t) == None ==> forall i :: 0 <= i < |cs| ==> cs[i].conditionType != t
    ensures ConditionOf(cs, t).Some? ==>
      exists i :: 0 <= i < |cs| && cs[i] == ConditionOf(cs, t).value && cs[i].conditionType == t
        && forall j :: 0 <= j < i ==> cs[j].conditionType != t
  {
    if cs != [] && cs[0].conditionType != t {
      var rest := cs[1..];
      ConditionOfMeans(rest, t);
      assert forall j :: 1 <= j < |cs| ==> cs[j] == rest[j - 1];
      if ConditionOf(cs, t).Some? {
        var i :| 0 <= i < |rest| && rest[i] == ConditionOf(cs, t).value
          && forall j :: 0 <= j < i ==> rest[j].conditionType != t;
        assert cs[i + 1] == rest[i];
      }
    } else if cs != [] {
      assert cs[0] == ConditionOf(cs, t).value;
    }
  }

  /** Afterwards the condition of c's type is c, except that it keeps its transition time
      if its status has not changed; the conditions of other types are what they were. */
  lemma {:induction false} SetConditionMeans(cs: seq<Condition>, c: Condition, t: string)
    ensures var before, after := ConditionOf(cs, t), ConditionOf(SetCondition(cs, c), t);
      if t != c.conditionType then after == before
      else if before.Some? && before.value.status == c.status then
        after == Some(c.(lastTransitionTime := before.value.lastTransitionTime))
      else after == Some(c)
  {
    if cs != [] { SetConditionMeans(cs[1..], c, t); }
  }

  ghost predicate UniqueTypes(cs: seq<Condition>) {
    forall i, j :: 0 <= i < j < |cs| ==> cs[i].conditionType != cs[j].conditionType
  }

  lemma {:induction false} SetConditionSets(cs: seq<Condition>, c: Condition, t: string)
    ensures StatusOf(SetCondition(cs, c), t) == if t == c.conditionType then Some(c.status) else StatusOf(cs, t)
  {
    if cs != [] { SetConditionSets(cs[1..], c, t); }
  }

  lemma {:induction false} SetConditionTypes(cs: seq<Condition>, c: Condition, x: Condition)
    requires x in SetCondition(cs, c)
    ensures x.conditionType == c.conditionType || exists y :: y in cs && y.conditionType == x.conditionType
  {
    if cs != [] && cs[0].conditionType != c.conditionType && x in SetCondition(cs[1..], c) {
      SetConditionTypes(cs[1..], c, x);
    }
  }

  lemma {:induction false} SetConditionKeepsUnique(cs: seq<Condition>, c: Condition)
    requires UniqueTypes(cs)
    ensures UniqueTypes(SetCondition(cs, c))
  {
    if cs != [] && cs[0].conditionType != c.conditionType {
      var rest := SetCondition(cs[1..], c);
      SetConditionKeepsUnique(cs[1..], c);
      forall j | 0 <= j < |rest| ensures rest[j].conditionType != cs[0].conditionType {
        SetConditionTypes(cs[1..], c, rest[j]);
        if y :| y in cs[1..] && y.conditionType == rest[j].conditionType {
          var k :| 0 <= k < |cs[1..]| && cs[1..][k] == y;
          assert cs[k + 1] == y;
        }
      }
    }
  }

  // ---- the status ---------------------------------------------------------

  datatype Status = Status(
    conditions: seq<Condition>, driftItems: seq<RBACDrift>, driftCount: int,
    lastCheckTime: Option<int>, observedGeneration: int, snapshot: Option<Baseline>)

  const NEW_STATUS := Status([], [], 0, None, 0, None)

  datatype SpecOf<R> = Spec(
    baseline: BaselineOf<R>, suspend: bool, mode: string, detectUnexpected: bool, exclusions: Exclusions,
    checkIntervalMinutes: int)

  type Spec = SpecOf<Rule>

  function Suspended(st: Status, generation: int, now: int): Status {
    st.(conditions := SetCondition(st.conditions, Condition(READY, false, "Suspended", generation, now)))
  }

  function SnapshotFailed(st: Status, generation: int, now: int): Status {
    st.(conditions := SetCondition(st.conditions, Condition(READY, false, "BaselineSnapshotFailed", generation, now)))
  }

  /** The fields that both checks write. */
  function Reported(st: Status, items: seq<RBACDrift>, generation: int, now: int): Status {
    st.(driftItems := items, driftCount := Int32(|items|), lastCheckTime := Some(now), observedGeneration := generation)
  }

  /** The two statuses report the same drift. */
  ghost predicate SameReport(a: Status, b: Status) {
    a.driftItems == b.driftItems && a.driftCount == b.driftCount && a.lastCheckTime == b.lastCheckTime
    && StatusOf(a.conditions, DRIFT_DETECTED) == StatusOf(b.conditions, DRIFT_DETECTED)
  }

  /** The end of a rules-based check. */
  function RulesChecked(st: Status, items: seq<RBACDrift>, generation: int, now: int): Status {
    var drift :=
      if |items| > 0 then Condition(DRIFT_DETECTED, true, "DriftFound", generation, now)
      else Condition(DRIFT_DETECTED, false, "NoDrift", generation, now);
    var ready := Condition(READY, true, "ReconcileComplete", generation, now);
    Reported(st, items, generation, now).(conditions := SetCondition(SetCondition(st.conditions, drift), ready))
  }

  /** The end of a snapshot-based check: it never clears DriftDetected. */
  function SnapshotChecked(st: Status, items: seq<RBACDrift>, generation: int, now: int): Status {
    Reported(st, items, generation, now).(conditions :=
      if |items| > 0 then SetCondition(st.conditions, Condition(DRIFT_DETECTED, true, "DriftFound", generation, now))
      else st.conditions)
  }

  // ---- what these functions write -----------------------------------------

  /** The status has a Ready condition with this value. */
  ghost predicate ReadyIs(st: Status, ready: bool) {
    StatusOf(st.conditions, READY) == Some(ready)
  }

  /** The condition of type t has this status, reason and generation. */
  ghost predicate Has(cs: seq<Condition>, t: string, status: bool, reason: string, generation: int) {
    var c := ConditionOf(cs, t);
    c.Some? && c.value.status == status && c.value.reason == reason && c.value.observedGeneration == generation
  }

  /** A suspended reconcile sets Ready to False and changes nothing else. */
  lemma SuspendedMeans(st: Status, generation: int, now: int)
    ensures var st' := Suspended(st, generation, now);
      Has(st'.conditions, "Ready", false, "Suspended", generation) && ReadyIs(st', false)
      && (forall t :: t != "Ready" ==> ConditionOf(st'.conditions, t) == ConditionOf(st.conditions, t))
      && st' == st.(conditions := st'.conditions)
  {
    OneConditionSet(st.conditions, Condition(READY, false, "Suspended", generation, now));
  }

  lemma SnapshotFailedMeans(st: Status, generation: int, now: int)
    ensures var st' := SnapshotFailed(st, generation, now);
      Has(st'.conditions, "Ready", false, "BaselineSnapshotFailed", generation) && ReadyIs(st', false)
      && (forall t :: t != "Ready" ==> ConditionOf(st'.conditions, t) == ConditionOf(st.conditions, t))
      && st' == st.(conditions := st'.conditions)
  {
    OneConditionSet(st.conditions, Condition(READY, false, "BaselineSnapshotFailed", generation, now));
  }

  lemma OneConditionSet(cs: seq<Condition>, c: Condition)
    ensures Has(SetCondition(cs, c), c.conditionType, c.status, c.reason, c.observedGeneration)
    ensures StatusOf(SetCondition(cs, c), c.conditionType) == Some(c.status)
    ensures forall t :: t != c.conditionType ==> ConditionOf(SetCondition(cs, c), t) == ConditionOf(cs, t)
  {
    forall t ensures t != c.conditionType ==> ConditionOf(SetCondition(cs, c), t) == ConditionOf(cs, t) {
      SetConditionMeans(cs, c, t);
    }
    SetConditionMeans(cs, c, c.conditionType);
    SetConditionSets(cs, c, c.conditionType);
  }

  /** A rules check writes its items, their number, the time and the generation; it sets
      Ready to True and DriftDetected to whether there are items, and nothing else. */
  lemma RulesCheckedMeans(st: Status, items: seq<RBACDrift>, generation: int, now: int)
    ensures var st' := RulesChecked(st, items, generation, now);
      Has(st'.conditions, "Ready", true, "ReconcileComplete", generation) && ReadyIs(st', true)
      && Has(st'.conditions, "DriftDetected", items != [], if items != [] then "DriftFound" else "NoDrift", generation)
      && (forall t :: t != "Ready" && t != "DriftDetected" ==>
            ConditionOf(st'.conditions, t) == ConditionOf(st.conditions, t))
      && st'.driftItems == items && st'.driftCount == Int32(|items|) && st'.lastCheckTime == Some(now)
      && st'.observedGeneration == generation && st'.snapshot == st.snapshot
  {
    var drift :=
      if |items| > 0 then Condition(DRIFT_DETECTED, true, "DriftFound", generation, now)
      else Condition(DRIFT_DETECTED, false, "NoDrift", generation, now);
    OneConditionSet(st.conditions, drift);
    OneConditionSet(SetCondition(st.conditions, drift), Condition(READY, true, "ReconcileComplete", generation, now));
  }

  /** A snapshot check sets DriftDetected to True if it finds drift, and otherwise leaves
      all conditions as they are. */
  lemma SnapshotCheckedMeans(st: Status, items: seq<RBACDrift>, generation: int, now: int)
    ensures var st' := SnapshotChecked(st, items, generation, now);
      (items != [] ==> Has(st'.conditions, "DriftDetected", true, "DriftFound", generation))
      && (forall t :: t != "DriftDetected" || items == [] ==>
            ConditionOf(st'.conditions, t) == ConditionOf(st.conditions, t))
      && st'.driftItems == items && st'.driftCount == Int32(|items|) && st'.lastCheckTime == Some(now)
      && st'.observedGeneration == generation && st'.snapshot == st.snapshot
  {
    OneConditionSet(st.conditions, Condition(DRIFT_DETECTED, true, "DriftFound", generation, now));
  }

  // ---- what a persisted status satisfies ----------------------------------

  /** Items are Modified or Deleted and stamped with the check time, the count is
      their number, types are unique, and DriftDetected, which appears with the
      first check, tells whether there are items. */
  ghost predicate Coherent(st: Status) {
    UniqueTypes(st.conditions)
    && st.driftCount == Int32(|st.driftItems|)
    && (forall d :: d in st.driftItems ==> d.driftType in {Modified, Deleted} && st.lastCheckTime == Some(d.detectedAt))
    && StatusOf(st.conditions, DRIFT_DETECTED)
         == if st.lastCheckTime.Some? then Some(|st.driftItems| > 0) else None
  }

  lemma NewStatusIsCoherent()
    ensures Coherent(NEW_STATUS)
  {
  }

  lemma SuspendKeepsCoherent(st: Status, generation: int, now: int)
    requires Coherent(st)
    ensures Coherent(Suspended(st, generation, now)) && Coherent(SnapshotFailed(st, generation, now))
  {
    SetConditionKeepsUnique(st.conditions, Condition(READY, false, "Suspended", generation, now));
    SetConditionKeepsUnique(st.conditions, Condition(READY, false, "BaselineSnapshotFailed", generation, now));
    SetConditionSets(st.conditions, Condition(READY, false, "Suspended", generation, now), DRIFT_DETECTED);
    SetConditionSets(st.conditions, Condition(READY, false, "BaselineSnapshotFailed", generation, now), DRIFT_DETECTED);
  }

  lemma SuspendKeepsReport(st: Status, generation: int, now: int)
    ensures SameReport(Suspended(st, generation, now), st) && SameReport(SnapshotFailed(st, generation, now), st)
  {
    SetConditionSets(st.conditions, Condition(READY, false, "Suspended", generation, now), DRIFT_DETECTED);
    SetConditionSets(st.conditions, Condition(READY, false, "BaselineSnapshotFailed", generation, now), DRIFT_DETECTED);
  }

  lemma {:induction false} ItemsAreStamped(es: seq<Entry>, got: seq<ReadResult>, now: int, d: RBACDrift)
    requires |es| == |got| && d in CheckDrift(es, got, now)
    ensures d.driftType in {Modified, Deleted} && d.detectedAt == now
  {
    var n := |es| - 1;
    if d !in Classify(es[n], got[n], now) {
      ItemsAreStamped(es[..n], got[..n], now, d);
    }
  }

  lemma RulesCheckKeepsCoherent(st: Status, es: seq<Entry>, got: seq<ReadResult>, generation: int, now: int)
    requires Coherent(st) && |es| == |got|
    ensures Coherent(RulesChecked(st, CheckDrift(es, got, now), generation, now))
  {
    var items := CheckDrift(es, got, now);
    var st' := RulesChecked(st, items, generation, now);
    var drift :=
      if |items| > 0 then Condition(DRIFT_DETECTED, true, "DriftFound", generation, now)
      else Condition(DRIFT_DETECTED, false, "NoDrift", generation, now);
    var cs := SetCondition(st.conditions, drift);
    SetConditionKeepsUnique(st.conditions, drift);
    SetConditionKeepsUnique(cs, Condition(READY, true, "ReconcileComplete", generation, now));
    SetConditionSets(st.conditions, drift, DRIFT_DETECTED);
    SetConditionSets(cs, Condition(READY, true, "ReconcileComplete", generation, now), DRIFT_DETECTED);
    forall d | d in items ensures d.driftType in {Modified, Deleted} && st'.lastCheckTime == Some(d.detectedAt) {
      ItemsAreStamped(es, got, now, d);
    }
  }

  /** A snapshot check keeps its in-memory status coherent exactly when it finds drift or
      the check before it, which must exist, found none: without drift it leaves the
      DriftDetected condition as it was. */
  lemma SnapshotCheckIsCoherentWhen(st: Status, es: seq<Entry>, got: seq<ReadResult>, generation: int, now: int)
    requires Coherent(st) && |es| == |got|
    ensures var items := CheckDrift(es, got, now);
      Coherent(SnapshotChecked(st, items, generation, now)) <==>
        items != [] || (st.lastCheckTime.Some? && st.driftItems == [])
  {
    var items := CheckDrift(es, got, now);
    var st' := SnapshotChecked(st, items, generation, now);
    var drift := Condition(DRIFT_DETECTED, true, "DriftFound", generation, now);
    SetConditionKeepsUnique(st.conditions, drift);
    SetConditionSets(st.conditions, drift, DRIFT_DETECTED);
    forall d | d in items ensures d.driftType in {Modified, Deleted} && st'.lastCheckTime == Some(d.detectedAt) {
      ItemsAreStamped(es, got, now, d);
    }
  }

  /** Below 2^31 items the count is exact, and then DriftDetected says whether it is positive. */
  lemma CountIsExact(st: Status)
    requires Coherent(st) && st.lastCheckTime.Some?
    ensures st.driftCount == |st.driftItems| <==> |st.driftItems| < 0x8000_0000
    ensures |st.driftItems| < 0x8000_0000 ==> StatusOf(st.conditions, DRIFT_DETECTED) == Some(st.driftCount > 0)
  {
  }
}
