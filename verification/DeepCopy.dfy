/** The generated deep copies, which write through an out pointer, allocate arrays and
    fill them in index loops. */
module DeepCopy {
  import opened PolicyRules
  import opened Rbac
  import opened Drift
  import opened MonitorStatus
  import opened BaselineHeap

  // ---- rules --------------------------------------------------------------

  /** `make` and `copy`; nil stays nil. */
  method CopyArray<T>(a: array?<T>, ghost was: Contents<T>, ghost mine: Contents<T>)
    returns (out: array?<T>, ghost mine': Contents<T>)
    requires Held(was) && (a != null ==> a in was) && Held(mine)
    ensures Held(mine') && Within(mine, mine') && fresh(mine'.Keys - mine.Keys)
    ensures (out != null ==> out in mine') && SliceIn(mine', out) == SliceIn(was, a)
  {
    out, mine' := a, mine;
    if a != null {
      out := new T[a.Length](i requires 0 <= i < a.Length reads a => a[i]);
      assert out[..] == a[..];
      mine' := mine[out := out[..]];
    }
  }

  method CopyPair(a: array?<string>, b: array?<string>, ghost was: Recording, ghost mine: Recording)
    returns (a': array?<string>, b': array?<string>, ghost mine': Recording)
    requires Held(was) && Recorded(was, {a, b}) && Held(mine)
    ensures Held(mine') && Within(mine, mine') && fresh(mine'.Keys - mine.Keys) && Recorded(mine', {a', b'})
    ensures ListAt(mine', a') == ListAt(was, a) && ListAt(mine', b') == ListAt(was, b)
  {
    a', mine' := CopyArray(a, was, mine);
    b', mine' := CopyArray(b, was, mine');
  }

  /** `PolicyRule.DeepCopyInto`. */
  method CopyRule(r: PolicyRule, ghost was: Recording, ghost mine: Recording)
    returns (out: PolicyRule, ghost mine': Recording)
    requires Held(was) && Recorded(was, Lists(r)) && Held(mine)
    ensures Held(mine') && Within(mine, mine') && fresh(mine'.Keys - mine.Keys)
    ensures Recorded(mine', Lists(out)) && RuleAt(mine', out) == RuleAt(was, r)
  {
    var verbs, apiGroups, resources, resourceNames, nonResourceURLs;
    verbs, apiGroups, mine' := CopyPair(r.verbs, r.apiGroups, was, mine);
    resources, resourceNames, mine' := CopyPair(r.resources, r.resourceNames, was, mine');
    nonResourceURLs, mine' := CopyArray(r.nonResourceURLs, was, mine');
    out := RuleOf.Rule(verbs, apiGroups, resources, resourceNames, nonResourceURLs);
  }

  /** `(*in)[i].DeepCopyInto(&(*out)[i])` for a rule. */
  method CopyRuleInto(r: PolicyRule, out: array<PolicyRule>, i: nat, ghost was: Recording, ghost mine: Recording)
    returns (ghost mine': Recording)
    requires i < out.Length && Held(was) && Recorded(was, Lists(r)) && Held(mine) && Recorded(mine, ListsOf(out[..i]))
    modifies out
    ensures Held(mine') && Within(mine, mine') && fresh(mine'.Keys - mine.Keys)
    ensures Recorded(mine', ListsOf(out[..i + 1]))
    ensures RulesAt(mine', out[..i + 1]) == old(RulesAt(mine, out[..i])) + [RuleAt(was, r)]
  {
    ghost var done := out[..i];
    var copy;
    copy, mine' := CopyRule(r, was, mine);
    RulesGrow(mine, mine', done);
    RulesAppend(mine', done, copy);
    out[i] := copy;
    assert out[..i + 1] == done + [copy];
  }

  /** The loop over the rules of a role. */
  method FillRules(a: array<PolicyRule>, out: array<PolicyRule>, ghost was: Recording, ghost mine: Recording)
    returns (ghost mine': Recording)
    requires a != out && a.Length == out.Length
    requires Held(was) && Recorded(was, ListsOf(a[..])) && Held(mine)
    modifies out
    ensures Held(mine') && Within(mine, mine') && fresh(mine'.Keys - mine.Keys)
    ensures Recorded(mine', ListsOf(out[..])) && RulesAt(mine', out[..]) == RulesAt(was, a[..])
  {
    ghost var rules, want := a[..], RulesAt(was, a[..]);
    mine' := mine;
    for i := 0 to a.Length
      invariant Held(mine') && Within(mine, mine') && fresh(mine'.Keys - mine.Keys)
      invariant Recorded(mine', ListsOf(out[..i])) && RulesAt(mine', out[..i]) == want[..i]
    {
      assert a[i] == rules[i] && Lists(rules[i]) <= ListsOf(rules);
      mine' := CopyRuleInto(a[i], out, i, was, mine');
      TakeOneMore(want, i);
    }
    assert out[..] == out[..a.Length] && want == want[..a.Length];
  }

  method CopyRules(a: array?<PolicyRule>, ghost was: RuleStore, ghost mine: RuleStore)
    returns (out: array?<PolicyRule>, ghost mine': RuleStore)
    requires was.Holds() && was.Knows(a) && mine.Holds()
    ensures mine'.Holds() && mine.Inside(mine')
    ensures fresh(mine'.lists.Keys - mine.lists.Keys) && fresh(mine'.rules.Keys - mine.rules.Keys)
    ensures mine'.Knows(out) && mine'.Value(out) == was.Value(a)
  {
    out, mine' := a, mine;
    if a != null {
      var copies := new PolicyRule[a.Length];
      ghost var lists := FillRules(a, copies, was.lists, mine.lists);
      out, mine' := copies, RuleStore(lists, mine.rules[copies := copies[..]]);
    }
  }

  // ---- roles --------------------------------------------------------------

  /** `ClusterRoleBaseline.DeepCopyInto`, through a pointer to an element of an array. */
  method CopyClusterRoleInto(e: ClusterRoleStruct, out: array<ClusterRoleStruct>, i: nat, ghost was: RuleStore,
        ghost mine: RuleStore)
    returns (ghost mine': RuleStore)
    requires i < out.Length && was.Holds() && was.Knows(e.rules) && mine.Holds() && KnowsClusterRoles(mine, out[..i])
    modifies out
    ensures out[i] == e.(rules := out[i].rules) && (out[i].rules == null <==> e.rules == null)
    ensures forall k :: 0 <= k < out.Length && k != i ==> out[k] == old(out[k])
    ensures mine'.Holds() && mine.Inside(mine')
    ensures fresh(mine'.lists.Keys - mine.lists.Keys) && fresh(mine'.rules.Keys - mine.rules.Keys)
    ensures KnowsClusterRoles(mine', out[..i + 1])
    ensures ClusterRolesOf(mine', out[..i + 1])
      == old(ClusterRolesOf(mine, out[..i])) + [ClusterRoleBaseline(e.name, was.Value(e.rules))]
  {
    ghost var done := out[..i];
    var rules;
    rules, mine' := CopyRules(e.rules, was, mine);
    ClusterRolesGrow(mine, mine', done);
    ClusterRolesAppend(mine', done, e.(rules := rules));
    out[i] := e;
    if e.rules != null { out[i] := out[i].(rules := rules); }
    assert out[..i + 1] == done + [e.(rules := rules)];
  }

  method CopyClusterRoles(a: array<ClusterRoleStruct>, ghost was: RuleStore, ghost mine: RuleStore)
    returns (out: array<ClusterRoleStruct>, ghost mine': RuleStore)
    requires was.Holds() && KnowsClusterRoles(was, a[..]) && mine.Holds()
    ensures mine'.Holds() && mine.Inside(mine') && fresh(out)
    ensures fresh(mine'.lists.Keys - mine.lists.Keys) && fresh(mine'.rules.Keys - mine.rules.Keys)
    ensures KnowsClusterRoles(mine', out[..]) && ClusterRolesOf(mine', out[..]) == ClusterRolesOf(was, a[..])
  {
    ghost var s, want := a[..], ClusterRolesOf(was, a[..]);
    mine' := mine;
    out := new ClusterRoleStruct[a.Length];
    for i := 0 to a.Length
      modifies out
      invariant mine'.Holds() && mine.Inside(mine')
      invariant fresh(mine'.lists.Keys - mine.lists.Keys) && fresh(mine'.rules.Keys - mine.rules.Keys)
      invariant KnowsClusterRoles(mine', out[..i]) && ClusterRolesOf(mine', out[..i]) == want[..i]
    {
      assert a[i] == s[i] && s[i] in s;
      mine' := CopyClusterRoleInto(a[i], out, i, was, mine');
      TakeOneMore(want, i);
    }
    assert out[..] == out[..a.Length] && want == want[..a.Length];
  }

  /** `RoleBaseline.DeepCopyInto`, through a pointer to an element of an array. */
  method CopyRoleInto(e: RoleStruct, out: array<RoleStruct>, i: nat, ghost was: RuleStore, ghost mine: RuleStore)
    returns (ghost mine': RuleStore)
    requires i < out.Length && was.Holds() && was.Knows(e.rules) && mine.Holds() && KnowsRoles(mine, out[..i])
    modifies out
    ensures out[i] == e.(rules := out[i].rules) && (out[i].rules == null <==> e.rules == null)
    ensures forall k :: 0 <= k < out.Length && k != i ==> out[k] == old(out[k])
    ensures mine'.Holds() && mine.Inside(mine')
    ensures fresh(mine'.lists.Keys - mine.lists.Keys) && fresh(mine'.rules.Keys - mine.rules.Keys)
    ensures KnowsRoles(mine', out[..i + 1])
    ensures RolesOf(mine', out[..i + 1])
      == old(RolesOf(mine, out[..i])) + [RoleBaseline(e.name, e.namespace, was.Value(e.rules))]
  {
    ghost var done := out[..i];
    var rules;
    rules, mine' := CopyRules(e.rules, was, mine);
    RolesGrow(mine, mine', done);
    RolesAppend(mine', done, e.(rules := rules));
    out[i] := e;
    if e.rules != null { out[i] := out[i].(rules := rules); }
    assert out[..i + 1] == done + [e.(rules := rules)];
  }

  method CopyRoles(a: array<RoleStruct>, ghost was: RuleStore, ghost mine: RuleStore)
    returns (out: array<RoleStruct>, ghost mine': RuleStore)
    requires was.Holds() && KnowsRoles(was, a[..]) && mine.Holds()
    ensures mine'.Holds() && mine.Inside(mine') && fresh(out)
    ensures fresh(mine'.lists.Keys - mine.lists.Keys) && fresh(mine'.rules.Keys - mine.rules.Keys)
    ensures KnowsRoles(mine', out[..]) && RolesOf(mine', out[..]) == RolesOf(was, a[..])
  {
    ghost var s, want := a[..], RolesOf(was, a[..]);
    mine' := mine;
    out := new RoleStruct[a.Length];
    for i := 0 to a.Length
      modifies out
      invariant mine'.Holds() && mine.Inside(mine')
      invariant fresh(mine'.lists.Keys - mine.lists.Keys) && fresh(mine'.rules.Keys - mine.rules.Keys)
      invariant KnowsRoles(mine', out[..i]) && RolesOf(mine', out[..i]) == want[..i]
    {
      assert a[i] == s[i] && s[i] in s;
      mine' := CopyRoleInto(a[i], out, i, was, mine');
      TakeOneMore(want, i);
    }
    assert out[..] == out[..a.Length] && want == want[..a.Length];
  }

  // ---- bindings -----------------------------------------------------------

  /** `ClusterRoleBindingBaseline.DeepCopyInto`. */
  method CopyClusterRoleBindingInto(e: ClusterRoleBindingStruct, out: array<ClusterRoleBindingStruct>, i: nat,
                     ghost was: Contents<Subject>, ghost mine: Contents<Subject>)
    returns (ghost mine': Contents<Subject>)
    requires i < out.Length && Held(was) && KnowsSubjects(was, e.subjects) && Held(mine)
    requires KnowsClusterRoleBindings(mine, out[..i])
    modifies out
    ensures out[i] == e.(subjects := out[i].subjects) && (out[i].subjects == null <==> e.subjects == null)
    ensures forall k :: 0 <= k < out.Length && k != i ==> out[k] == old(out[k])
    ensures Held(mine') && Within(mine, mine') && fresh(mine'.Keys - mine.Keys)
    ensures KnowsClusterRoleBindings(mine', out[..i + 1])
    ensures ClusterRoleBindingsOf(mine', out[..i + 1])
      == old(ClusterRoleBindingsOf(mine, out[..i]))
         + [ClusterRoleBindingBaseline(e.name, e.roleRef, SliceIn(was, e.subjects))]
  {
    ghost var done := out[..i];
    var subjects;
    subjects, mine' := CopyArray(e.subjects, was, mine);
    ClusterRoleBindingsGrow(mine, mine', done);
    ClusterRoleBindingsAppend(mine', done, e.(subjects := subjects));
    out[i] := e;
    if e.subjects != null { out[i] := out[i].(subjects := subjects); }
    assert out[..i + 1] == done + [e.(subjects := subjects)];
  }

  method CopyClusterRoleBindings(a: array<ClusterRoleBindingStruct>, ghost was: Contents<Subject>,
        ghost mine: Contents<Subject>)
    returns (out: array<ClusterRoleBindingStruct>, ghost mine': Contents<Subject>)
    requires Held(was) && KnowsClusterRoleBindings(was, a[..]) && Held(mine)
    ensures Held(mine') && Within(mine, mine') && fresh(mine'.Keys - mine.Keys) && fresh(out)
    ensures KnowsClusterRoleBindings(mine', out[..])
      && ClusterRoleBindingsOf(mine', out[..]) == ClusterRoleBindingsOf(was, a[..])
  {
    ghost var s, want := a[..], ClusterRoleBindingsOf(was, a[..]);
    mine' := mine;
    out := new ClusterRoleBindingStruct[a.Length];
    for i := 0 to a.Length
      modifies out
      invariant Held(mine') && Within(mine, mine') && fresh(mine'.Keys - mine.Keys)
      invariant KnowsClusterRoleBindings(mine', out[..i]) && ClusterRoleBindingsOf(mine', out[..i]) == want[..i]
    {
      assert a[i] == s[i] && s[i] in s;
      mine' := CopyClusterRoleBindingInto(a[i], out, i, was, mine');
      TakeOneMore(want, i);
    }
    assert out[..] == out[..a.Length] && want == want[..a.Length];
  }

  /** `RoleBindingBaseline.DeepCopyInto`. */
  method CopyRoleBindingInto(e: RoleBindingStruct, out: array<RoleBindingStruct>, i: nat,
                     ghost was: Contents<Subject>, ghost mine: Contents<Subject>)
    returns (ghost mine': Contents<Subject>)
    requires i < out.Length && Held(was) && KnowsSubjects(was, e.subjects) && Held(mine)
    requires KnowsRoleBindings(mine, out[..i])
    modifies out
    ensures out[i] == e.(subjects := out[i].subjects) && (out[i].subjects == null <==> e.subjects == null)
    ensures forall k :: 0 <= k < out.Length && k != i ==> out[k] == old(out[k])
    ensures Held(mine') && Within(mine, mine') && fresh(mine'.Keys - mine.Keys)
    ensures KnowsRoleBindings(mine', out[..i + 1])
    ensures RoleBindingsOf(mine', out[..i + 1])
      == old(RoleBindingsOf(mine, out[..i]))
         + [RoleBindingBaseline(e.name, e.namespace, e.roleRef, SliceIn(was, e.subjects))]
  {
    ghost var done := out[..i];
    var subjects;
    subjects, mine' := CopyArray(e.subjects, was, mine);
    RoleBindingsGrow(mine, mine', done);
    RoleBindingsAppend(mine', done, e.(subjects := subjects));
    out[i] := e;
    if e.subjects != null { out[i] := out[i].(subjects := subjects); }
    assert out[..i + 1] == done + [e.(subjects := subjects)];
  }

  method CopyRoleBindings(a: array<RoleBindingStruct>, ghost was: Contents<Subject>, ghost mine: Contents<Subject>)
    returns (out: array<RoleBindingStruct>, ghost mine': Contents<Subject>)
    requires Held(was) && KnowsRoleBindings(was, a[..]) && Held(mine)
    ensures Held(mine') && Within(mine, mine') && fresh(mine'.Keys - mine.Keys) && fresh(out)
    ensures KnowsRoleBindings(mine', out[..]) && RoleBindingsOf(mine', out[..]) == RoleBindingsOf(was, a[..])
  {
    ghost var s, want := a[..], RoleBindingsOf(was, a[..]);
    mine' := mine;
    out := new RoleBindingStruct[a.Length];
    for i := 0 to a.Length
      modifies out
      invariant Held(mine') && Within(mine, mine') && fresh(mine'.Keys - mine.Keys)
      invariant KnowsRoleBindings(mine', out[..i]) && RoleBindingsOf(mine', out[..i]) == want[..i]
    {
      assert a[i] == s[i] && s[i] in s;
      mine' := CopyRoleBindingInto(a[i], out, i, was, mine');
      TakeOneMore(want, i);
    }
    assert out[..] == out[..a.Length] && want == want[..a.Length];
  }

  // ---- baselines ----------------------------------------------------------

  const NO_BASELINE := BaselineStruct(null, null, null, null)
  const NO_RULES := RuleStore(map[], map[])

  /** The ClusterRoles and Roles of `RBACBaseline.DeepCopyInto`. */
  method CopyRoleSlices(b: BaselineStruct, ghost was: Image)
    returns (clusterRoles: array?<ClusterRoleStruct>, roles: array?<RoleStruct>, ghost made: RuleStore)
    requires Pictures(was, b)
    ensures Pictures(was, b) && made.Holds() && fresh(made.lists.Keys) && fresh(made.rules.Keys)
    ensures clusterRoles == null <==> b.clusterRoles == null
    ensures clusterRoles != null ==> fresh(clusterRoles) && KnowsClusterRoles(made, clusterRoles[..])
    ensures clusterRoles != null ==>
      ClusterRolesOf(made, clusterRoles[..]) == ClusterRolesOf(was.store, was.clusterRoles.items)
    ensures roles == null <==> b.roles == null
    ensures roles != null ==> fresh(roles) && KnowsRoles(made, roles[..])
    ensures roles != null ==> RolesOf(made, roles[..]) == RolesOf(was.store, was.roles.items)
  {
    clusterRoles, roles, made := null, null, NO_RULES;
    if b.clusterRoles != null {
      clusterRoles, made := CopyClusterRoles(b.clusterRoles, was.store, made);
    }
    if b.roles != null {
      ghost var first := made;
      roles, made := CopyRoles(b.roles, was.store, made);
      if clusterRoles != null { ClusterRolesGrow(first, made, clusterRoles[..]); }
    }
  }

  /** Its ClusterRoleBindings and RoleBindings. */
  method CopyBindingSlices(b: BaselineStruct, ghost was: Image)
    returns (clusterRoleBindings: array?<ClusterRoleBindingStruct>, roleBindings: array?<RoleBindingStruct>,
             ghost made: Contents<Subject>)
    requires Pictures(was, b)
    ensures Pictures(was, b) && Held(made) && fresh(made.Keys)
    ensures clusterRoleBindings == null <==> b.clusterRoleBindings == null
    ensures clusterRoleBindings != null ==>
      fresh(clusterRoleBindings) && KnowsClusterRoleBindings(made, clusterRoleBindings[..])
    ensures clusterRoleBindings != null ==>
      ClusterRoleBindingsOf(made, clusterRoleBindings[..])
        == ClusterRoleBindingsOf(was.subjects, was.clusterRoleBindings.items)
    ensures roleBindings == null <==> b.roleBindings == null
    ensures roleBindings != null ==> fresh(roleBindings) && KnowsRoleBindings(made, roleBindings[..])
    ensures roleBindings != null ==>
      RoleBindingsOf(made, roleBindings[..]) == RoleBindingsOf(was.subjects, was.roleBindings.items)
  {
    clusterRoleBindings, roleBindings, made := null, null, map[];
    if b.clusterRoleBindings != null {
      clusterRoleBindings, made := CopyClusterRoleBindings(b.clusterRoleBindings, was.subjects, made);
    }
    if b.roleBindings != null {
      ghost var first := made;
      roleBindings, made := CopyRoleBindings(b.roleBindings, was.subjects, made);
      if clusterRoleBindings != null { ClusterRoleBindingsGrow(first, made, clusterRoleBindings[..]); }
    }
  }

  /** Every array of the copy, at any depth, is new. */
  twostate predicate Isolated(new b: BaselineStruct, new made: Image) {
    fresh(made.store.lists.Keys) && fresh(made.store.rules.Keys) && fresh(made.subjects.Keys)
    && (b.clusterRoles != null ==> fresh(b.clusterRoles))
    && (b.clusterRoleBindings != null ==> fresh(b.clusterRoleBindings))
    && (b.roles != null ==> fresh(b.roles)) && (b.roleBindings != null ==> fresh(b.roleBindings))
  }

  /** The struct that `RBACBaseline.DeepCopyInto` leaves in its out pointer. */
  method CopyBaseline(b: BaselineStruct, ghost was: Image) returns (out: BaselineStruct, ghost made: Image)
    requires Pictures(was, b)
    ensures Pictures(was, b) && Pictures(made, out) && made.Value() == was.Value()
    ensures fresh(made.store.lists.Keys) && fresh(made.store.rules.Keys) && fresh(made.subjects.Keys)
    ensures Isolated(out, made) && Disjoint(was, b, made, out)
  {
    out := b;
    var clusterRoles, roles; ghost var store;
    clusterRoles, roles, store := CopyRoleSlices(b, was);
    if b.clusterRoles != null { out := out.(clusterRoles := clusterRoles); }
    if b.roles != null { out := out.(roles := roles); }
    var clusterRoleBindings, roleBindings; ghost var subjects;
    clusterRoleBindings, roleBindings, subjects := CopyBindingSlices(b, was);
    if b.clusterRoleBindings != null { out := out.(clusterRoleBindings := clusterRoleBindings); }
    if b.roleBindings != null { out := out.(roleBindings := roleBindings); }
    assert out == BaselineStruct(clusterRoles, clusterRoleBindings, roles, roleBindings);
    made := Image(store, subjects, SliceNow(clusterRoles), SliceNow(clusterRoleBindings),
                  SliceNow(roles), SliceNow(roleBindings));
  }

  /** `RBACBaseline.DeepCopyInto`: an equal value, nil for nil, on arrays of its own. */
  method DeepCopyBaseline(source: Pointer<BaselineStruct>, target: Pointer<BaselineStruct>, ghost was: Image)
    returns (ghost made: Image)
    requires source != target && Pictures(was, source.target)
    modifies target
    ensures Pictures(was, source.target)
    ensures Pictures(made, target.target) && made.Value() == was.Value()
    ensures Isolated(target.target, made) && Disjoint(was, source.target, made, target.target)
  {
    var copy;
    copy, made := CopyBaseline(source.target, was);
    target.target := copy;
  }

  // ---- statuses -----------------------------------------------------------

  /** `make` and an index loop over structs that hold no arrays; nil stays nil. */
  method CopyStructs<T(0)>(a: array?<T>) returns (out: array?<T>)
    ensures SliceNow(out) == SliceNow(a) && (out != null ==> fresh(out))
  {
    out := a;
    if a != null {
      var copies := new T[a.Length];
      for i := 0 to a.Length
        modifies copies
        invariant copies[..i] == a[..i]
      {
        copies[i] := a[i];
      }
      assert copies[..] == copies[..a.Length] && a[..] == a[..a.Length];
      out := copies;
    }
  }

  /** Everything that the status refers to is new. */
  twostate predicate StatusIsolated(new st: StatusStruct, new made: Image)
    reads st.snapshot
  {
    (st.conditions != null ==> fresh(st.conditions)) && (st.driftItems != null ==> fresh(st.driftItems))
    && (st.lastCheckTime != null ==> fresh(st.lastCheckTime))
    && (st.snapshot != null ==> fresh(st.snapshot) && Isolated(st.snapshot.target, made))
  }

  /** `new(RBACBaseline)` and a deep copy into it; nil stays nil. */
  method CopySnapshot(p: Pointer?<BaselineStruct>, ghost was: Image)
    returns (out: Pointer?<BaselineStruct>, ghost made: Image)
    requires p != null ==> Pictures(was, p.target)
    ensures out == null <==> p == null
    ensures out != null ==> fresh(out) && Pictures(made, out.target) && Isolated(out.target, made)
    ensures out != null ==> made.Value() == was.Value()
  {
    out, made := p, was;
    if p != null {
      var copy := new Pointer(NO_BASELINE);
      made := DeepCopyBaseline(p, copy, was);
      out := copy;
    }
  }

  method CopyTime(p: Pointer?<int>) returns (out: Pointer?<int>)
    ensures out == null <==> p == null
    ensures out != null ==> fresh(out) && out.target == p.target
  {
    out := p;
    if p != null { out := new Pointer(p.target); }
  }

  /** The conditions, the items and the check time of a status. */
  method CopyReport(st: StatusStruct)
    returns (conditions: array?<Condition>, driftItems: array?<RBACDrift>, lastCheckTime: Pointer?<int>)
    ensures SliceNow(conditions) == SliceNow(st.conditions) && (conditions != null ==> fresh(conditions))
    ensures SliceNow(driftItems) == SliceNow(st.driftItems) && (driftItems != null ==> fresh(driftItems))
    ensures lastCheckTime == null <==> st.lastCheckTime == null
    ensures lastCheckTime != null ==> fresh(lastCheckTime) && lastCheckTime.target == st.lastCheckTime.target
  {
    conditions := CopyStructs(st.conditions);
    driftItems := CopyStructs(st.driftItems);
    lastCheckTime := CopyTime(st.lastCheckTime);
  }

  /** The struct that `RBACDriftMonitorStatus.DeepCopyInto` leaves in its out pointer. */
  method CopyStatus(st: StatusStruct, ghost was: Image) returns (out: StatusStruct, ghost made: Image)
    requires st.snapshot != null ==> Pictures(was, st.snapshot.target)
    ensures out.snapshot == null <==> st.snapshot == null
    ensures out.snapshot != null ==> Pictures(made, out.snapshot.target)
    ensures out.snapshot != null ==> fresh(out.snapshot)
    ensures StatusNow(out, made) == StatusNow(st, was) && StatusIsolated(out, made)
  {
    out := st;
    var conditions, driftItems, lastCheckTime := CopyReport(st);
    out := out.(conditions := conditions, driftItems := driftItems, lastCheckTime := lastCheckTime);
    var snapshot;
    snapshot, made := CopySnapshot(st.snapshot, was);
    out := out.(snapshot := snapshot);
  }

  /** `RBACDriftMonitorStatus.DeepCopyInto`: the same status on arrays and pointers of
      its own, and the source as it was. */
  method DeepCopyStatus(source: Pointer<StatusStruct>, target: Pointer<StatusStruct>, ghost was: Image)
    returns (ghost made: Image)
    requires source != target
    requires source.target.snapshot != null ==> Pictures(was, source.target.snapshot.target)
    modifies target
    ensures target.target.snapshot != null ==> Pictures(made, target.target.snapshot.target)
    ensures StatusNow(target.target, made) == StatusNow(source.target, was) == old(StatusNow(source.target, was))
    ensures StatusIsolated(target.target, made)
  {
    var copy;
    copy, made := CopyStatus(source.target, was);
    target.target := copy;
  }
}
