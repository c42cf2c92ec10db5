/** The in-memory monitor of one reconcile, and its value. */
module Monitors {
  import opened Prelude
  import opened PolicyRules
  import opened Rbac
  import opened Drift
  import opened RulesCheck
  import opened MonitorStatus

  // ---- the value of a baseline --------------------------------------------

  ghost function ClusterRoleLists(s: seq<ClusterRoleBaseline<PolicyRule>>): set<array?<string>> {
    set e, l | e in s && l in ListsOf(e.rules.Elems()) :: l
  }

  ghost function RoleLists(s: seq<RoleBaseline<PolicyRule>>): set<array?<string>> {
    set e, l | e in s && l in ListsOf(e.rules.Elems()) :: l
  }

  ghost function BaselineLists(b: RBACBaseline): set<array?<string>> {
    ClusterRoleLists(b.clusterRoles.Elems()) + RoleLists(b.roles.Elems())
  }

  function ClusterRolesValue(s: seq<ClusterRoleBaseline<PolicyRule>>): seq<ClusterRoleBaseline<Rule>>
    reads ClusterRoleLists(s)
  {
    seq(|s|, i requires 0 <= i < |s| reads ClusterRoleLists(s) =>
      ClusterRoleBaseline(s[i].name, RulesValue(s[i].rules)))
  }

  function RolesValue(s: seq<RoleBaseline<PolicyRule>>): seq<RoleBaseline<Rule>>
    reads RoleLists(s)
  {
    seq(|s|, i requires 0 <= i < |s| reads RoleLists(s) =>
      RoleBaseline(s[i].name, s[i].namespace, RulesValue(s[i].rules)))
  }

  /** What one more role adds. */
  lemma ClusterRolesValueAppend(s: seq<ClusterRoleBaseline<PolicyRule>>, e: ClusterRoleBaseline<PolicyRule>)
    ensures ClusterRolesValue(s + [e]) == ClusterRolesValue(s) + [ClusterRoleBaseline(e.name, RulesValue(e.rules))]
    ensures ClusterRoleLists(s + [e]) == ClusterRoleLists(s) + ListsOf(e.rules.Elems())
  {
  }

  lemma RolesValueAppend(s: seq<RoleBaseline<PolicyRule>>, e: RoleBaseline<PolicyRule>)
    ensures RolesValue(s + [e]) == RolesValue(s) + [RoleBaseline(e.name, e.namespace, RulesValue(e.rules))]
    ensures RoleLists(s + [e]) == RoleLists(s) + ListsOf(e.rules.Elems())
  {
  }

  function ClusterRoleSliceValue(s: Slice<ClusterRoleBaseline<PolicyRule>>): Slice<ClusterRoleBaseline<Rule>>
    reads ClusterRoleLists(s.Elems())
  {
    if s.Nil? then Nil else Of(ClusterRolesValue(s.items))
  }

  function RoleSliceValue(s: Slice<RoleBaseline<PolicyRule>>): Slice<RoleBaseline<Rule>>
    reads RoleLists(s.Elems())
  {
    if s.Nil? then Nil else Of(RolesValue(s.items))
  }

  function BaselineValue(b: RBACBaseline): Baseline
    reads BaselineLists(b)
  {
    BaselineOf.RBACBaseline(
      ClusterRoleSliceValue(b.clusterRoles),
      b.clusterRoleBindings,
      RoleSliceValue(b.roles),
      b.roleBindings)
  }

  lemma ListsOfBaseline(b: RBACBaseline)
    ensures ListsInside(Entries(b)) == BaselineLists(b)
    ensures ListsInside(ClusterRoleEntries(b)) == ClusterRoleLists(b.clusterRoles.Elems())
  {
    var cs, rs := b.clusterRoles.Elems(), b.roles.Elems();
    var w, x, y, z := ClusterRoleEntries(b), ClusterRoleBindingEntries(b), RoleEntries(b), RoleBindingEntries(b);
    forall l | l in ClusterRoleLists(cs) ensures l in ListsInside(w) {
      var i :| 0 <= i < |cs| && l in ListsOf(cs[i].rules.Elems());
      assert w[i] in w && l in SlotLists(w[i]);
    }
    forall l | l in RoleLists(rs) ensures l in ListsInside(y) {
      var i :| 0 <= i < |rs| && l in ListsOf(rs[i].rules.Elems());
      assert y[i] in y && l in SlotLists(y[i]);
    }
    assert forall s :: s in Entries(b) <==> s in w || s in x || s in y || s in z;
    assert ListsInside(w) == ClusterRoleLists(cs);
    assert ListsInside(y) == RoleLists(rs);
    assert ListsInside(x) == {} && ListsInside(z) == {};
  }

  lemma EntriesOfValue(b: RBACBaseline)
    ensures Entries(BaselineValue(b)) == SlotValues(Entries(b))
    ensures ClusterRoleEntries(BaselineValue(b)) == SlotValues(ClusterRoleEntries(b))
  {
    var v := BaselineValue(b);
    assert ClusterRoleEntries(v) == SlotValues(ClusterRoleEntries(b));
    assert ClusterRoleBindingEntries(v) == SlotValues(ClusterRoleBindingEntries(b));
    assert RoleEntries(v) == SlotValues(RoleEntries(b));
    assert RoleBindingEntries(v) == SlotValues(RoleBindingEntries(b));
    SlotValuesConcat(ClusterRoleEntries(b) + ClusterRoleBindingEntries(b) + RoleEntries(b), RoleBindingEntries(b));
    SlotValuesConcat(ClusterRoleEntries(b) + ClusterRoleBindingEntries(b), RoleEntries(b));
    SlotValuesConcat(ClusterRoleEntries(b), ClusterRoleBindingEntries(b));
  }

  /** The value of a baseline has its keys. */
  lemma KeysOfValue(b: RBACBaseline)
    ensures KeysOf(Entries(BaselineValue(b))) == KeysOf(Entries(b))
  {
    EntriesOfValue(b);
    var s, v := Entries(b), SlotValues(Entries(b));
    forall i | 0 <= i < |s| ensures s[i].key in KeysOf(v) { assert v[i].key == s[i].key; }
  }

  lemma SlotValuesConcat(a: seq<Slot>, b: seq<Slot>)
    ensures SlotValues(a + b) == SlotValues(a) + SlotValues(b)
  {
  }

  ghost function ClusterRolesAt(was: Recording, s: seq<ClusterRoleBaseline<PolicyRule>>): seq<ClusterRoleBaseline<Rule>>
    requires Recorded(was, ClusterRoleLists(s))
  {
    seq(|s|, i requires 0 <= i < |s| =>
      (assert ListsOf(s[i].rules.Elems()) <= ClusterRoleLists(s);
       ClusterRoleBaseline(s[i].name, if s[i].rules.Nil? then Nil else Of(RulesAt(was, s[i].rules.items)))))
  }

  lemma ClusterRolesUnchanged(was: Recording, s: seq<ClusterRoleBaseline<PolicyRule>>)
    requires Stage(was, {}, ClusterRoleLists(s))
    ensures ClusterRolesValue(s) == ClusterRolesAt(was, s)
  {
    forall i | 0 <= i < |s| ensures ClusterRolesValue(s)[i] == ClusterRolesAt(was, s)[i] {
      assert ListsOf(s[i].rules.Elems()) <= ClusterRoleLists(s);
      RulesUnchanged(was, s[i].rules.Elems(), ClusterRoleLists(s));
    }
  }

  ghost function RolesAt(was: Recording, s: seq<RoleBaseline<PolicyRule>>): seq<RoleBaseline<Rule>>
    requires Recorded(was, RoleLists(s))
  {
    seq(|s|, i requires 0 <= i < |s| =>
      (assert ListsOf(s[i].rules.Elems()) <= RoleLists(s);
       RoleBaseline(s[i].name, s[i].namespace, if s[i].rules.Nil? then Nil else Of(RulesAt(was, s[i].rules.items)))))
  }

  lemma RolesUnchanged(was: Recording, s: seq<RoleBaseline<PolicyRule>>)
    requires Stage(was, {}, RoleLists(s))
    ensures RolesValue(s) == RolesAt(was, s)
  {
    forall i | 0 <= i < |s| ensures RolesValue(s)[i] == RolesAt(was, s)[i] {
      assert ListsOf(s[i].rules.Elems()) <= RoleLists(s);
      RulesUnchanged(was, s[i].rules.Elems(), RoleLists(s));
    }
  }

  /** The value that a baseline had when `was` was recorded. */
  ghost function BaselineAt(was: Recording, b: RBACBaseline): Baseline
    requires Recorded(was, BaselineLists(b))
  {
    BaselineOf.RBACBaseline(
      if b.clusterRoles.Nil? then Nil else Of(ClusterRolesAt(was, b.clusterRoles.items)),
      b.clusterRoleBindings,
      if b.roles.Nil? then Nil else Of(RolesAt(was, b.roles.items)),
      b.roleBindings)
  }

  lemma BaselineUnchanged(was: Recording, b: RBACBaseline)
    requires Stage(was, {}, BaselineLists(b))
    ensures BaselineValue(b) == BaselineAt(was, b)
  {
    ClusterRolesUnchanged(was, b.clusterRoles.Elems());
    RolesUnchanged(was, b.roles.Elems());
  }

  // ---- the monitor --------------------------------------------------------

  function SpecValue(spec: SpecOf<PolicyRule>): Spec
    reads BaselineLists(spec.baseline)
  {
    Spec(BaselineValue(spec.baseline), spec.suspend, spec.mode, spec.detectUnexpected, spec.exclusions,
      spec.checkIntervalMinutes)
  }

  class Monitor {
    const generation: int
    const spec: SpecOf<PolicyRule>
    var conditions: seq<Condition>
    var driftItems: seq<RBACDrift>
    var driftCount: int
    var lastCheckTime: Option<int>
    var observedGeneration: int
    var snapshot: Option<RBACBaseline>

    constructor (generation: int, spec: SpecOf<PolicyRule>)
      ensures this.generation == generation && this.spec == spec && snapshot == None && StatusValue() == NEW_STATUS
    {
      this.generation, this.spec := generation, spec;
      conditions, driftItems, driftCount, lastCheckTime, observedGeneration, snapshot := [], [], 0, None, 0, None;
    }

    ghost function SnapshotLists(): set<array?<string>>
      reads this
    {
      if snapshot.Some? then BaselineLists(snapshot.value) else {}
    }

    ghost function SpecLists(): set<array?<string>> {
      BaselineLists(spec.baseline)
    }

    /** The status fields with a snapshot beside them. */
    function Report(snap: Option<Baseline>): Status
      reads this
    {
      Status(conditions, driftItems, driftCount, lastCheckTime, observedGeneration, snap)
    }

    /** The status as `Status().Update` sends it. */
    function StatusValue(): Status
      reads this, SnapshotLists()
    {
      Report(if snapshot.Some? then Some(BaselineValue(snapshot.value)) else None)
    }

    /** As long as no list of the snapshot has changed, neither has its value. */
    lemma StatusUnchanged(was: Recording)
      requires Stage(was, {}, SnapshotLists())
      ensures StatusValue() == Report(if snapshot.Some? then Some(BaselineAt(was, snapshot.value)) else None)
    {
      if snapshot.Some? { BaselineUnchanged(was, snapshot.value); }
    }

    /** A decoded monitor shares no list between its spec and its status. */
    ghost predicate Valid()
      reads this
    {
      Apart(SnapshotLists(), SpecLists())
    }

    method SetStatusCondition(c: Condition)
      modifies this`conditions
      ensures conditions == SetCondition(old(conditions), c)
    {
      conditions := SetCondition(conditions, c);
    }
  }
}
