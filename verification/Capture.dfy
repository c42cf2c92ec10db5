/** `MakeBaselineSnapshot`. */
module Capture {
  import opened Prelude
  import opened PolicyRules
  import opened Rbac
  import opened DriftTheorems
  import opened Snapshots
  import opened RulesCheck
  import opened MonitorStatus
  import opened Monitors
  import opened Api
  import opened Worker

  /** One round of the loop over a list of ClusterRoles. */
  method CaptureClusterRole(s: seq<ClusterRoleBaseline<PolicyRule>>, item: Item)
    returns (more: seq<ClusterRoleBaseline<PolicyRule>>)
    ensures ClusterRolesValue(more) == old(ClusterRolesValue(s)) + [CapturedClusterRole(item)]
    ensures forall l: array<string> | l in ClusterRoleLists(more) :: l in ClusterRoleLists(s) || fresh(l)
  {
    ghost var made := Record(ClusterRoleLists(s));
    ClusterRolesUnchanged(made, s);
    var rules := DecodeRules(RulesIn(item.obj.content));
    ClusterRolesUnchanged(made, s);
    ClusterRolesValueAppend(s, ClusterRoleBaseline(item.key.name, rules));
    more := s + [ClusterRoleBaseline(item.key.name, rules)];
  }

  method CaptureClusterRoles(items: seq<Item>) returns (s: Slice<ClusterRoleBaseline<PolicyRule>>)
    ensures ClusterRoleSliceValue(s) == CapturedClusterRoles(items)
    ensures forall l: array<string> | l in ClusterRoleLists(s.Elems()) :: fresh(l)
  {
    ghost var want := seq(|items|, i requires 0 <= i < |items| => CapturedClusterRole(items[i]));
    var out: seq<ClusterRoleBaseline<PolicyRule>> := [];
    for i := 0 to |items|
      invariant ClusterRolesValue(out) == want[..i]
      invariant forall l: array<string> | l in ClusterRoleLists(out) :: fresh(l)
    {
      out := CaptureClusterRole(out, items[i]);
      assert want[..i + 1] == want[..i] + [want[i]];
    }
    s := Appended(out);
    assert ClusterRoleSliceValue(s) == Appended(want);
  }

  /** One round of the loop over a list of Roles. */
  method CaptureRole(s: seq<RoleBaseline<PolicyRule>>, item: Item) returns (more: seq<RoleBaseline<PolicyRule>>)
    ensures RolesValue(more) == old(RolesValue(s)) + [CapturedRole(item)]
    ensures forall l: array<string> | l in RoleLists(more) :: l in RoleLists(s) || fresh(l)
  {
    ghost var made := Record(RoleLists(s));
    RolesUnchanged(made, s);
    var rules := DecodeRules(RulesIn(item.obj.content));
    RolesUnchanged(made, s);
    RolesValueAppend(s, RoleBaseline(item.key.name, item.key.namespace, rules));
    more := s + [RoleBaseline(item.key.name, item.key.namespace, rules)];
  }

  method CaptureRoles(items: seq<Item>) returns (s: Slice<RoleBaseline<PolicyRule>>)
    ensures RoleSliceValue(s) == CapturedRoles(items)
    ensures forall l: array<string> | l in RoleLists(s.Elems()) :: fresh(l)
  {
    ghost var want := seq(|items|, i requires 0 <= i < |items| => CapturedRole(items[i]));
    var out: seq<RoleBaseline<PolicyRule>> := [];
    for i := 0 to |items|
      invariant RolesValue(out) == want[..i]
      invariant forall l: array<string> | l in RoleLists(out) :: fresh(l)
    {
      out := CaptureRole(out, items[i]);
      assert want[..i + 1] == want[..i] + [want[i]];
    }
    s := Appended(out);
    assert RoleSliceValue(s) == Appended(want);
  }

  method CaptureClusterRoleBindings(items: seq<Item>) returns (s: Slice<ClusterRoleBindingBaseline>)
    ensures s == CapturedClusterRoleBindings(items)
  {
    var out: seq<ClusterRoleBindingBaseline> := [];
    for i := 0 to |items|
      invariant |out| == i && forall k :: 0 <= k < i ==>
        out[k] == ClusterRoleBindingBaseline(items[k].key.name, RoleRefIn(items[k].obj.content),
          SubjectsIn(items[k].obj.content))
    {
      var content := items[i].obj.content;
      out := out + [ClusterRoleBindingBaseline(items[i].key.name, RoleRefIn(content), SubjectsIn(content))];
    }
    s := Appended(out);
  }

  method CaptureRoleBindings(items: seq<Item>) returns (s: Slice<RoleBindingBaseline>)
    ensures s == CapturedRoleBindings(items)
  {
    var out: seq<RoleBindingBaseline> := [];
    for i := 0 to |items|
      invariant |out| == i && forall k :: 0 <= k < i ==>
        out[k] == RoleBindingBaseline(items[k].key.name, items[k].key.namespace, RoleRefIn(items[k].obj.content),
          SubjectsIn(items[k].obj.content))
    {
      var content := items[i].obj.content;
      out := out + [RoleBindingBaseline(items[i].key.name, items[i].key.namespace, RoleRefIn(content),
        SubjectsIn(content))];
    }
    s := Appended(out);
  }

  /** Extend a trace by the last entry of the log. */
  lemma Extend(run: Run, trace: seq<Access>, before: seq<Access>, log: seq<Access>, call: Call, response: Response)
    returns (trace': seq<Access>)
    requires Follows(run, trace) && NextCall(After(run, trace)) == Some(call)
    requires log == before + trace + [Access(call, response)]
    ensures trace' == trace + [Access(call, response)] && log == before + trace' && Follows(run, trace')
    ensures After(run, trace') == Feed(After(run, trace), response)
  {
    trace' := trace + [Access(call, response)];
    FollowsStep(run, trace, Access(call, response));
  }

  lemma CaptureStep(run: Run, lists: seq<seq<Item>>, items: seq<Item>)
    requires run.phase == Capturing(lists) && |lists| < 3
    ensures NextCall(run) == Some(List(CaptureOrder(|lists|)))
    ensures Feed(run, Listed(Some(items))) == run.(phase := Capturing(lists + [items]))
    ensures Feed(run, Listed(None)) == FailSnapshot(run)
  {
  }

  lemma CaptureLast(run: Run, lists: seq<seq<Item>>, items: seq<Item>)
    requires run.phase == Capturing(lists) && |lists| == 3
    ensures NextCall(run) == Some(List(RoleBinding))
    ensures Feed(run, Listed(Some(items)))
      == run.(status := run.status.(snapshot := Some(SnapshotOf(Listings(lists[0], lists[1], lists[2], items)))),
        phase := Storing)
    ensures Feed(run, Listed(None)) == FailSnapshot(run)
  {
  }

  /** One of the four lists. */
  method ListNext(client: Client, kind: Kind, ghost run: Run, ghost lists: seq<seq<Item>>, ghost trace: seq<Access>,
                  ghost before: seq<Access>)
    returns (items: Option<seq<Item>>, ghost trace': seq<Access>)
    requires |lists| < 4 && kind == CaptureOrder(|lists|) && Follows(run, trace) && client.log == before + trace
    requires After(run, trace) == run.(phase := Capturing(lists))
    modifies client
    ensures Follows(run, trace') && client.log == before + trace'
    ensures items.None? ==> After(run, trace') == FailSnapshot(run)
    ensures items.Some? && |lists| < 3 ==> After(run, trace') == run.(phase := Capturing(lists + [items.value]))
    ensures items.Some? && |lists| == 3 ==> After(run, trace') == run.(
        status := run.status.(snapshot := Some(SnapshotOf(Listings(lists[0], lists[1], lists[2], items.value)))),
          phase := Storing)
  {
    ghost var cur := run.(phase := Capturing(lists));
    items := client.List(kind);
    ghost var got := if items.Some? then items.value else [];
    if |lists| < 3 { CaptureStep(cur, lists, got); } else { CaptureLast(cur, lists, got); }
    trace' := Extend(run, trace, before, client.log, List(kind), Listed(items));
  }

  method ListKinds(client: Client, ghost run: Run) returns (ls: Option<Listings>, ghost trace: seq<Access>)
    requires run.phase == Capturing([])
    modifies client
    ensures Follows(run, trace) && client.log == old(client.log) + trace
    ensures ls.None? ==> After(run, trace) == FailSnapshot(run)
    ensures ls.Some? ==> After(run, trace) == run.(
        status := run.status.(snapshot := Some(SnapshotOf(ls.value))), phase := Storing)
  {
    ghost var before := client.log;
    trace := [];
    var clusterRoles, clusterRoleBindings, roles, roleBindings;
    clusterRoles, trace := ListNext(client, ClusterRole, run, [], trace, before);
    if clusterRoles.None? { return None, trace; }
    ghost var lists := [] + [clusterRoles.value];
    clusterRoleBindings, trace := ListNext(client, ClusterRoleBinding, run, lists, trace, before);
    if clusterRoleBindings.None? { return None, trace; }
    lists := lists + [clusterRoleBindings.value];
    roles, trace := ListNext(client, Role, run, lists, trace, before);
    if roles.None? { return None, trace; }
    lists := lists + [roles.value];
    roleBindings, trace := ListNext(client, RoleBinding, run, lists, trace, before);
    if roleBindings.None? { return None, trace; }
    ls := Some(Listings(clusterRoles.value, clusterRoleBindings.value, roles.value, roleBindings.value));
  }

  lemma StoringStep(run: Run, st: Status, ok: bool)
    ensures NextCall(run.(status := st, phase := Storing)) == Some(Update(st))
    ensures Feed(run.(status := st, phase := Storing), Updated(ok))
      == if ok then Detect(run.(status := st)) else FailSnapshot(run.(status := st))
  {
  }

  /** The write of the snapshot. */
  method StoreSnapshot(client: Client, m: Monitor, ghost run: Run, ghost st: Status, ghost trace: seq<Access>,
                       ghost before: seq<Access>)
    returns (ok: bool, ghost trace': seq<Access>)
    requires Follows(run, trace) && client.log == before + trace && st == m.StatusValue()
    requires After(run, trace) == run.(status := st, phase := Storing)
    modifies client
    ensures Follows(run, trace') && client.log == before + trace' && st == m.StatusValue()
    ensures After(run, trace') == if ok then Detect(run.(status := st)) else FailSnapshot(run.(status := st))
  {
    ghost var was := Record(m.SnapshotLists());
    m.StatusUnchanged(was);
    var status := m.StatusValue();
    ok := client.Update(status);
    m.StatusUnchanged(was);
    StoringStep(run, st, ok);
    trace' := Extend(run, trace, before, client.log, Update(status), Updated(ok));
  }

  /** The first failing list ends the capture without a snapshot.  A failing update
      leaves the snapshot in the in-memory monitor. */
  method MakeBaselineSnapshot(client: Client, m: Monitor, ghost run: Run) returns (ok: bool, ghost trace: seq<Access>)
    requires m.Valid() && m.snapshot == None && run.phase == Capturing([]) && run.status == m.StatusValue()
    modifies client, m`snapshot
    ensures m.Valid() && (ok ==> m.snapshot.Some?) && client.log == old(client.log) + trace && Follows(run, trace)
    ensures forall l: array<string> | l in m.SnapshotLists() :: fresh(l)
    ensures After(run, trace)
      == if ok then Detect(run.(status := m.StatusValue())) else FailSnapshot(run.(status := m.StatusValue()))
  {
    ghost var before := client.log;
    var ls;
    ls, trace := ListKinds(client, run);
    ok := false;
    if ls.Some? {
      var snapshot := CaptureAll(ls.value.clusterRoles, ls.value.clusterRoleBindings, ls.value.roles,
        ls.value.roleBindings, m.SpecLists());
      m.snapshot := Some(snapshot);
      ok, trace := StoreSnapshot(client, m, run, run.status.(snapshot := Some(SnapshotOf(ls.value))), trace, before);
    }
  }

  /** The in-memory baseline built from the four lists. */
  method CaptureAll(clusterRoles: seq<Item>, clusterRoleBindings: seq<Item>, roles: seq<Item>, roleBindings: seq<Item>,
                    ghost others: set<array?<string>>)
    returns (b: RBACBaseline)
    ensures BaselineValue(b) == SnapshotOf(Listings(clusterRoles, clusterRoleBindings, roles, roleBindings))
    ensures forall l: array<string> | l in BaselineLists(b) :: fresh(l)
    ensures Apart(BaselineLists(b), others)
  {
    var crbs := CaptureClusterRoleBindings(clusterRoleBindings);
    var rbs := CaptureRoleBindings(roleBindings);
    var crs := CaptureClusterRoles(clusterRoles);
    ghost var was := Record(ClusterRoleLists(crs.Elems()));
    ClusterRolesUnchanged(was, crs.Elems());
    var rs := CaptureRoles(roles);
    ClusterRolesUnchanged(was, crs.Elems());
    b := BaselineOf.RBACBaseline(crs, crbs, rs, rbs);
    ValueFromParts(b, Listings(clusterRoles, clusterRoleBindings, roles, roleBindings));
  }

  lemma ValueFromParts(b: RBACBaseline, ls: Listings)
    requires ClusterRoleSliceValue(b.clusterRoles) == CapturedClusterRoles(ls.clusterRoles)
    requires b.clusterRoleBindings == CapturedClusterRoleBindings(ls.clusterRoleBindings)
    requires RoleSliceValue(b.roles) == CapturedRoles(ls.roles)
    requires b.roleBindings == CapturedRoleBindings(ls.roleBindings)
    ensures BaselineValue(b) == SnapshotOf(ls)
  {
  }
}
