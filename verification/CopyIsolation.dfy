/** Why a deep copy is worth having: nothing that is done to it reaches its source. */
module CopyIsolation {
  import opened Prelude
  import opened InsertionSort
  import opened PolicyRules
  import opened Rbac
  import opened Drift
  import opened Api
  import opened RulesCheck
  import opened Monitors
  import opened BaselineHeap
  import opened DeepCopy

  // ---- writing to a copy --------------------------------------------------

  /** Arbitrary writes to some arrays. */
  method Overwrite<T>(arrays: set<array<T>>)
    modifies arrays
  {
    var rest := arrays;
    while rest != {}
    {
      var a :| a in rest;
      for i := 0 to a.Length {
        a[i] := *;
      }
      rest := rest - {a};
    }
  }

  method OverwriteSlice<T>(a: array?<T>)
    modifies a
  {
    if a != null { Overwrite({a}); }
  }

  method WriteInside(source: BaselineStruct, lists: set<array<string>>, rules: set<array<PolicyRule>>,
                     subjects: set<array<Subject>>, ghost was: Image)
    requires Pictures(was, source)
    requires was.store.lists.Keys !! lists && was.store.rules.Keys !! rules && was.subjects.Keys !! subjects
    modifies lists, rules, subjects
    ensures Pictures(was, source)
  {
    Overwrite(lists);
    Overwrite(rules);
    Overwrite(subjects);
  }

  method WriteRoles(source: BaselineStruct, copy: BaselineStruct, ghost was: Image, ghost made: Image)
    requires Pictures(was, source) && Disjoint(was, source, made, copy)
    modifies copy.clusterRoles, copy.roles
    ensures Pictures(was, source)
  {
    OverwriteSlice(copy.clusterRoles);
    OverwriteSlice(copy.roles);
  }

  method WriteBindings(source: BaselineStruct, copy: BaselineStruct, ghost was: Image, ghost made: Image)
    requires Pictures(was, source) && Disjoint(was, source, made, copy)
    modifies copy.clusterRoleBindings, copy.roleBindings
    ensures Pictures(was, source)
  {
    OverwriteSlice(copy.clusterRoleBindings);
    OverwriteSlice(copy.roleBindings);
  }

  /** Whatever is written to whichever arrays of a copy, its source has the value it had. */
  method WriteToCopy(source: BaselineStruct, copy: BaselineStruct, lists: set<array<string>>,
                     rules: set<array<PolicyRule>>, subjects: set<array<Subject>>, ghost was: Image, ghost made: Image)
    requires Pictures(was, source) && Disjoint(was, source, made, copy)
    requires lists <= made.store.lists.Keys && rules <= made.store.rules.Keys && subjects <= made.subjects.Keys
    modifies lists, rules, subjects, copy.clusterRoles, copy.clusterRoleBindings, copy.roles, copy.roleBindings
    ensures Pictures(was, source)
  {
    WriteInside(source, lists, rules, subjects, was);
    WriteRoles(source, copy, was, made);
    WriteBindings(source, copy, was, made);
  }

  // ---- reading a baseline -------------------------------------------------

  /** `for _, baseline := range`: the structs of a slice and the rules that they refer to. */
  method LoadClusterRoles(a: array<ClusterRoleStruct>, ghost store: RuleStore)
    returns (s: seq<ClusterRoleBaseline<PolicyRule>>)
    requires store.Holds() && KnowsClusterRoles(store, a[..])
    ensures Recorded(store.lists, ClusterRoleLists(s)) && ClusterRolesAt(store.lists, s) == ClusterRolesOf(store, a[..])
  {
    s := [];
    for i := 0 to a.Length
      invariant |s| == i && forall k :: 0 <= k < i ==>
        s[k].name == a[k].name && s[k].rules == SliceIn(store.rules, a[k].rules)
    {
      assert a[i] in a[..];
      var rules := if a[i].rules == null then Nil else Of(a[i].rules[..]);
      s := s + [ClusterRoleBaseline(a[i].name, rules)];
    }
    LoadedClusterRoles(store, a[..], s);
  }

  lemma LoadedClusterRoles(store: RuleStore, a: seq<ClusterRoleStruct>, s: seq<ClusterRoleBaseline<PolicyRule>>)
    requires KnowsClusterRoles(store, a) && |s| == |a|
    requires forall k :: 0 <= k < |s| ==> s[k].name == a[k].name && s[k].rules == SliceIn(store.rules, a[k].rules)
    ensures Recorded(store.lists, ClusterRoleLists(s)) && ClusterRolesAt(store.lists, s) == ClusterRolesOf(store, a)
  {
    forall l: array<string> | l in ClusterRoleLists(s) ensures l in store.lists {
      var k :| 0 <= k < |s| && l in ListsOf(s[k].rules.Elems());
      assert store.Knows(a[k].rules);
    }
  }

  method LoadRoles(a: array<RoleStruct>, ghost store: RuleStore) returns (s: seq<RoleBaseline<PolicyRule>>)
    requires store.Holds() && KnowsRoles(store, a[..])
    ensures Recorded(store.lists, RoleLists(s)) && RolesAt(store.lists, s) == RolesOf(store, a[..])
  {
    s := [];
    for i := 0 to a.Length
      invariant |s| == i && forall k :: 0 <= k < i ==>
        s[k].name == a[k].name && s[k].namespace == a[k].namespace && s[k].rules == SliceIn(store.rules, a[k].rules)
    {
      assert a[i] in a[..];
      var rules := if a[i].rules == null then Nil else Of(a[i].rules[..]);
      s := s + [RoleBaseline(a[i].name, a[i].namespace, rules)];
    }
    LoadedRoles(store, a[..], s);
  }

  lemma LoadedRoles(store: RuleStore, a: seq<RoleStruct>, s: seq<RoleBaseline<PolicyRule>>)
    requires KnowsRoles(store, a) && |s| == |a|
    requires forall k :: 0 <= k < |s| ==>
      s[k].name == a[k].name && s[k].namespace == a[k].namespace && s[k].rules == SliceIn(store.rules, a[k].rules)
    ensures Recorded(store.lists, RoleLists(s)) && RolesAt(store.lists, s) == RolesOf(store, a)
  {
    forall l: array<string> | l in RoleLists(s) ensures l in store.lists {
      var k :| 0 <= k < |s| && l in ListsOf(s[k].rules.Elems());
      assert store.Knows(a[k].rules);
    }
  }

  method LoadClusterRoleBindings(a: array<ClusterRoleBindingStruct>, ghost m: Contents<Subject>)
    returns (s: seq<ClusterRoleBindingBaseline>)
    requires Held(m) && KnowsClusterRoleBindings(m, a[..])
    ensures s == ClusterRoleBindingsOf(m, a[..])
  {
    s := [];
    for i := 0 to a.Length
      invariant |s| == i && forall k :: 0 <= k < i ==> s[k] == ClusterRoleBindingsOf(m, a[..])[k]
    {
      assert a[i] in a[..];
      var subjects := if a[i].subjects == null then Nil else Of(a[i].subjects[..]);
      s := s + [ClusterRoleBindingBaseline(a[i].name, a[i].roleRef, subjects)];
    }
  }

  method LoadRoleBindings(a: array<RoleBindingStruct>, ghost m: Contents<Subject>)
    returns (s: seq<RoleBindingBaseline>)
    requires Held(m) && KnowsRoleBindings(m, a[..])
    ensures s == RoleBindingsOf(m, a[..])
  {
    s := [];
    for i := 0 to a.Length
      invariant |s| == i && forall k :: 0 <= k < i ==> s[k] == RoleBindingsOf(m, a[..])[k]
    {
      assert a[i] in a[..];
      var subjects := if a[i].subjects == null then Nil else Of(a[i].subjects[..]);
      s := s + [RoleBindingBaseline(a[i].name, a[i].namespace, a[i].roleRef, subjects)];
    }
  }

  /** The baseline as the loops of a check see it. */
  method Load(b: BaselineStruct, ghost img: Image) returns (r: RBACBaseline)
    requires Pictures(img, b)
    ensures Recorded(img.store.lists, BaselineLists(r)) && BaselineAt(img.store.lists, r) == img.Value()
  {
    var crs, crbs, rs, rbs := Nil, Nil, Nil, Nil;
    if b.clusterRoles != null {
      var s := LoadClusterRoles(b.clusterRoles, img.store);
      crs := Of(s);
    }
    if b.clusterRoleBindings != null {
      var s := LoadClusterRoleBindings(b.clusterRoleBindings, img.subjects);
      crbs := Of(s);
    }
    if b.roles != null {
      var s := LoadRoles(b.roles, img.store);
      rs := Of(s);
    }
    if b.roleBindings != null {
      var s := LoadRoleBindings(b.roleBindings, img.subjects);
      rbs := Of(s);
    }
    r := BaselineOf.RBACBaseline(crs, crbs, rs, rbs);
  }

  // ---- sorting a copy -----------------------------------------------------

  /** `sortPolicyRules` on every cluster role and then on every role of a baseline. */
  method SortEveryRole(b: RBACBaseline, ghost was: Recording)
    requires Stage(was, {}, BaselineLists(b))
    modifies BaselineLists(b)
    ensures Stage(was, BaselineLists(b), BaselineLists(b))
  {
    ghost var all := BaselineLists(b);
    ghost var done: set<array?<string>> := {};
    var crs := b.clusterRoles.Elems();
    for i := 0 to |crs|
      invariant done == ClusterRoleLists(crs[..i]) && Stage(was, done, all)
    {
      assert crs[..i + 1] == crs[..i] + [crs[i]];
      assert ListsOf(crs[i].rules.Elems()) <= all;
      var sorted := SortPolicyRules(crs[i].rules, was, done, all);
      done := done + ListsOf(crs[i].rules.Elems());
    }
    assert crs[..|crs|] == crs;
    SortEveryNamespacedRole(b.roles.Elems(), was, done, all);
  }

  method SortEveryNamespacedRole(rs: seq<RoleBaseline<PolicyRule>>, ghost was: Recording,
        ghost first: set<array?<string>>, ghost all: set<array?<string>>)
    requires RoleLists(rs) <= all && Stage(was, first, all)
    modifies RoleLists(rs)
    ensures Stage(was, first + RoleLists(rs), all)
  {
    ghost var done := first;
    for i := 0 to |rs|
      invariant done == first + RoleLists(rs[..i]) && Stage(was, done, all)
    {
      assert rs[..i + 1] == rs[..i] + [rs[i]];
      assert ListsOf(rs[i].rules.Elems()) <= RoleLists(rs);
      var sorted := SortPolicyRules(rs[i].rules, was, done, all);
      done := done + ListsOf(rs[i].rules.Elems());
    }
    assert rs[..|rs|] == rs;
  }

  /** A copy and the baseline that its loops see. */
  method Fetch(source: BaselineStruct, ghost was: Image) returns (copy: RBACBaseline, ghost lists: Recording)
    requires Pictures(was, source)
    ensures Pictures(was, source) && BaselineValue(copy) == was.Value()
    ensures Stage(lists, {}, BaselineLists(copy)) && forall l: array<string> | l in BaselineLists(copy) :: fresh(l)
  {
    var b; ghost var made;
    b, made := CopyBaseline(source, was);
    copy := Load(b, made);
    lists := made.store.lists;
    BaselineUnchanged(lists, copy);
  }

  /** Sorting every role of a copy leaves the source as it was. */
  method SortACopy(source: BaselineStruct, ghost was: Image) returns (copy: RBACBaseline)
    requires Pictures(was, source)
    ensures Pictures(was, source)
    ensures forall l: array<string> | l in BaselineLists(copy) :: fresh(l) && Sorted(l[..])
  {
    ghost var lists;
    copy, lists := Fetch(source, was);
    SortEveryRole(copy, lists);
    forall l: array<string> | l in BaselineLists(copy) ensures Sorted(l[..]) {
      CanonicalIsSorted(lists[l]);
    }
  }

  /** A check of a monitor fetched from the client's cache, which hands out copies:
      the items are those of the cached baseline, and the cache does not change. */
  method CheckFetched(client: Client, cached: BaselineStruct, now: int, ghost was: Image)
    returns (items: seq<RBACDrift>, ghost got: seq<ReadResult>)
    requires Pictures(was, cached)
    modifies client
    ensures Pictures(was, cached)
    ensures |got| == |Entries(was.Value())| && items == CheckDrift(Entries(was.Value()), got, now)
  {
    var fetched; ghost var lists;
    fetched, lists := Fetch(cached, was);
    EntriesOfValue(fetched);
    ListsOfBaseline(fetched);
    items, got := CheckRules(client, fetched, now);
  }
}
