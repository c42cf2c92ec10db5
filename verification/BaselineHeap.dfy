/** Baselines as the program holds them: every slice is an array of structs, which hold
    arrays in turn.  An image records what those arrays hold. */
module BaselineHeap {
  import opened Prelude
  import opened PolicyRules
  import opened Rbac
  import opened Drift
  import opened MonitorStatus

  datatype ClusterRoleStruct = ClusterRoleStruct(name: string, rules: array?<PolicyRule>)
  datatype ClusterRoleBindingStruct =
    ClusterRoleBindingStruct(name: string, roleRef: RoleRef, subjects: array?<Subject>)
  datatype RoleStruct = RoleStruct(name: string, namespace: string, rules: array?<PolicyRule>)
  datatype RoleBindingStruct =
    RoleBindingStruct(name: string, namespace: string, roleRef: RoleRef, subjects: array?<Subject>)

  datatype BaselineStruct = BaselineStruct(
    clusterRoles: array?<ClusterRoleStruct>, clusterRoleBindings: array?<ClusterRoleBindingStruct>,
    roles: array?<RoleStruct>, roleBindings: array?<RoleBindingStruct>)

  /** What a Go pointer points to. */
  class Pointer<T> {
    var target: T

    constructor (target: T)
      ensures this.target == target
    {
      this.target := target;
    }
  }

  // ---- recorded arrays ----------------------------------------------------

  type Contents<T> = map<array<T>, seq<T>>

  ghost predicate Held<T>(m: Contents<T>)
    reads m.Keys
  {
    forall a | a in m :: a[..] == m[a]
  }

  /** m' records what m does, and perhaps more. */
  ghost predicate Within<T>(m: Contents<T>, m': Contents<T>) {
    forall a | a in m :: a in m' && m'[a] == m[a]
  }

  /** The slice that an array stands for: nil for null. */
  ghost function SliceIn<T>(m: Contents<T>, a: array?<T>): Slice<T>
    requires a != null ==> a in m
  {
    if a == null then Nil else Of(m[a])
  }

  /** What a slice holds now. */
  ghost predicate Shows<T>(a: array?<T>, s: Slice<T>)
    reads a
  {
    if a == null then s.Nil? else s == Of(a[..])
  }

  lemma TakeOneMore<T>(s: seq<T>, i: nat)
    requires i < |s|
    ensures s[..i + 1] == s[..i] + [s[i]]
  {
  }

  ghost function SliceNow<T>(a: array?<T>): (s: Slice<T>)
    reads a
    ensures Shows(a, s)
  {
    if a == null then Nil else Of(a[..])
  }

  // ---- rules --------------------------------------------------------------

  /** The arrays of rules and the string lists inside those rules. */
  datatype RuleStore = RuleStore(lists: Recording, rules: Contents<PolicyRule>) {
    ghost predicate Holds()
      reads lists.Keys, rules.Keys
    {
      Held(lists) && Held(rules)
    }

    ghost predicate Inside(more: RuleStore) {
      Within(lists, more.lists) && Within(rules, more.rules)
    }

    ghost predicate Knows(a: array?<PolicyRule>) {
      a != null ==> a in rules && Recorded(lists, ListsOf(rules[a]))
    }

    ghost function Value(a: array?<PolicyRule>): Slice<Rule>
      requires Knows(a)
    {
      if a == null then Nil else Of(RulesAt(lists, rules[a]))
    }
  }

  lemma RuleGrows(lists: Recording, more: Recording, r: PolicyRule)
    requires Recorded(lists, Lists(r)) && Within(lists, more)
    ensures Recorded(more, Lists(r)) && RuleAt(more, r) == RuleAt(lists, r)
  {
  }

  lemma RulesGrow(lists: Recording, more: Recording, rs: seq<PolicyRule>)
    requires Recorded(lists, ListsOf(rs)) && Within(lists, more)
    ensures Recorded(more, ListsOf(rs)) && RulesAt(more, rs) == RulesAt(lists, rs)
  {
    forall i | 0 <= i < |rs| ensures RuleAt(more, rs[i]) == RuleAt(lists, rs[i]) {
      assert Lists(rs[i]) <= ListsOf(rs);
      RuleGrows(lists, more, rs[i]);
    }
  }

  lemma RulesAppend(lists: Recording, rs: seq<PolicyRule>, r: PolicyRule)
    requires Recorded(lists, ListsOf(rs)) && Recorded(lists, Lists(r))
    ensures Recorded(lists, ListsOf(rs + [r])) && RulesAt(lists, rs + [r]) == RulesAt(lists, rs) + [RuleAt(lists, r)]
  {
  }

  lemma StoreGrows(store: RuleStore, more: RuleStore, a: array?<PolicyRule>)
    requires store.Knows(a) && store.Inside(more)
    ensures more.Knows(a) && more.Value(a) == store.Value(a)
  {
    if a != null { RulesGrow(store.lists, more.lists, store.rules[a]); }
  }

  // ---- roles and bindings -------------------------------------------------

  ghost predicate KnowsClusterRoles(store: RuleStore, s: seq<ClusterRoleStruct>) {
    forall e | e in s :: store.Knows(e.rules)
  }

  ghost function ClusterRolesOf(store: RuleStore, s: seq<ClusterRoleStruct>): seq<ClusterRoleBaseline<Rule>>
    requires KnowsClusterRoles(store, s)
  {
    seq(|s|, i requires 0 <= i < |s| => ClusterRoleBaseline(s[i].name, store.Value(s[i].rules)))
  }

  lemma ClusterRolesGrow(store: RuleStore, more: RuleStore, s: seq<ClusterRoleStruct>)
    requires KnowsClusterRoles(store, s) && store.Inside(more)
    ensures KnowsClusterRoles(more, s) && ClusterRolesOf(more, s) == ClusterRolesOf(store, s)
  {
    forall e | e in s ensures more.Knows(e.rules) && more.Value(e.rules) == store.Value(e.rules) {
      StoreGrows(store, more, e.rules);
    }
  }

  lemma ClusterRolesAppend(store: RuleStore, s: seq<ClusterRoleStruct>, e: ClusterRoleStruct)
    requires KnowsClusterRoles(store, s) && store.Knows(e.rules)
    ensures KnowsClusterRoles(store, s + [e])
    ensures ClusterRolesOf(store, s + [e])
      == ClusterRolesOf(store, s) + [ClusterRoleBaseline(e.name, store.Value(e.rules))]
  {
  }

  ghost predicate KnowsRoles(store: RuleStore, s: seq<RoleStruct>) {
    forall e | e in s :: store.Knows(e.rules)
  }

  ghost function RolesOf(store: RuleStore, s: seq<RoleStruct>): seq<RoleBaseline<Rule>>
    requires KnowsRoles(store, s)
  {
    seq(|s|, i requires 0 <= i < |s| => RoleBaseline(s[i].name, s[i].namespace, store.Value(s[i].rules)))
  }

  lemma RolesGrow(store: RuleStore, more: RuleStore, s: seq<RoleStruct>)
    requires KnowsRoles(store, s) && store.Inside(more)
    ensures KnowsRoles(more, s) && RolesOf(more, s) == RolesOf(store, s)
  {
    forall e | e in s ensures more.Knows(e.rules) && more.Value(e.rules) == store.Value(e.rules) {
      StoreGrows(store, more, e.rules);
    }
  }

  lemma RolesAppend(store: RuleStore, s: seq<RoleStruct>, e: RoleStruct)
    requires KnowsRoles(store, s) && store.Knows(e.rules)
    ensures KnowsRoles(store, s + [e])
    ensures RolesOf(store, s + [e]) == RolesOf(store, s) + [RoleBaseline(e.name, e.namespace, store.Value(e.rules))]
  {
  }

  ghost predicate KnowsSubjects(m: Contents<Subject>, a: array?<Subject>) {
    a != null ==> a in m
  }

  ghost predicate KnowsClusterRoleBindings(m: Contents<Subject>, s: seq<ClusterRoleBindingStruct>) {
    forall e | e in s :: KnowsSubjects(m, e.subjects)
  }

  ghost function ClusterRoleBindingsOf(m: Contents<Subject>, s: seq<ClusterRoleBindingStruct>)
    : seq<ClusterRoleBindingBaseline>
    requires KnowsClusterRoleBindings(m, s)
  {
    seq(|s|, i requires 0 <= i < |s| => ClusterRoleBindingBaseline(s[i].name, s[i].roleRef, SliceIn(m, s[i].subjects)))
  }

  lemma ClusterRoleBindingsGrow(m: Contents<Subject>, more: Contents<Subject>, s: seq<ClusterRoleBindingStruct>)
    requires KnowsClusterRoleBindings(m, s) && Within(m, more)
    ensures KnowsClusterRoleBindings(more, s) && ClusterRoleBindingsOf(more, s) == ClusterRoleBindingsOf(m, s)
  {
  }

  lemma ClusterRoleBindingsAppend(m: Contents<Subject>, s: seq<ClusterRoleBindingStruct>, e: ClusterRoleBindingStruct)
    requires KnowsClusterRoleBindings(m, s) && KnowsSubjects(m, e.subjects)
    ensures KnowsClusterRoleBindings(m, s + [e])
    ensures ClusterRoleBindingsOf(m, s + [e])
      == ClusterRoleBindingsOf(m, s) + [ClusterRoleBindingBaseline(e.name, e.roleRef, SliceIn(m, e.subjects))]
  {
  }

  ghost predicate KnowsRoleBindings(m: Contents<Subject>, s: seq<RoleBindingStruct>) {
    forall e | e in s :: KnowsSubjects(m, e.subjects)
  }

  ghost function RoleBindingsOf(m: Contents<Subject>, s: seq<RoleBindingStruct>): seq<RoleBindingBaseline>
    requires KnowsRoleBindings(m, s)
  {
    seq(|s|, i requires 0 <= i < |s| =>
      RoleBindingBaseline(s[i].name, s[i].namespace, s[i].roleRef, SliceIn(m, s[i].subjects)))
  }

  lemma RoleBindingsGrow(m: Contents<Subject>, more: Contents<Subject>, s: seq<RoleBindingStruct>)
    requires KnowsRoleBindings(m, s) && Within(m, more)
    ensures KnowsRoleBindings(more, s) && RoleBindingsOf(more, s) == RoleBindingsOf(m, s)
  {
  }

  lemma RoleBindingsAppend(m: Contents<Subject>, s: seq<RoleBindingStruct>, e: RoleBindingStruct)
    requires KnowsRoleBindings(m, s) && KnowsSubjects(m, e.subjects)
    ensures KnowsRoleBindings(m, s + [e])
    ensures RoleBindingsOf(m, s + [e])
      == RoleBindingsOf(m, s) + [RoleBindingBaseline(e.name, e.namespace, e.roleRef, SliceIn(m, e.subjects))]
  {
  }

  // ---- baselines ----------------------------------------------------------

  /** What a baseline holds: the structs of its four slices and all that they refer to. */
  datatype Image = Image(
    store: RuleStore, subjects: Contents<Subject>,
    clusterRoles: Slice<ClusterRoleStruct>, clusterRoleBindings: Slice<ClusterRoleBindingStruct>,
    roles: Slice<RoleStruct>, roleBindings: Slice<RoleBindingStruct>)
  {
    /** Everything inside the four slices is recorded. */
    ghost predicate Closed() {
      KnowsClusterRoles(store, clusterRoles.Elems()) && KnowsRoles(store, roles.Elems())
      && KnowsClusterRoleBindings(subjects, clusterRoleBindings.Elems())
      && KnowsRoleBindings(subjects, roleBindings.Elems())
    }

    ghost function Value(): Baseline
      requires Closed()
    {
      RBACBaseline(
        if clusterRoles.Nil? then Nil else Of(ClusterRolesOf(store, clusterRoles.items)),
        if clusterRoleBindings.Nil? then Nil else Of(ClusterRoleBindingsOf(subjects, clusterRoleBindings.items)),
        if roles.Nil? then Nil else Of(RolesOf(store, roles.items)),
        if roleBindings.Nil? then Nil else Of(RoleBindingsOf(subjects, roleBindings.items)))
    }
  }

  /** The image is that of the baseline as it is now. */
  ghost predicate Pictures(img: Image, b: BaselineStruct)
    reads img.store.lists.Keys, img.store.rules.Keys, img.subjects.Keys,
          b.clusterRoles, b.clusterRoleBindings, b.roles, b.roleBindings
  {
    img.Closed() && img.store.Holds() && Held(img.subjects)
    && Shows(b.clusterRoles, img.clusterRoles) && Shows(b.clusterRoleBindings, img.clusterRoleBindings)
    && Shows(b.roles, img.roles) && Shows(b.roleBindings, img.roleBindings)
  }

  /** No array of the one baseline, at any depth, is one of the other. */
  ghost predicate Disjoint(was: Image, source: BaselineStruct, made: Image, copy: BaselineStruct) {
    was.store.lists.Keys !! made.store.lists.Keys && was.store.rules.Keys !! made.store.rules.Keys
    && was.subjects.Keys !! made.subjects.Keys
    && (copy.clusterRoles != null ==> copy.clusterRoles != source.clusterRoles)
    && (copy.clusterRoleBindings != null ==> copy.clusterRoleBindings != source.clusterRoleBindings)
    && (copy.roles != null ==> copy.roles != source.roles)
    && (copy.roleBindings != null ==> copy.roleBindings != source.roleBindings)
  }

  ghost method TakeStore(rules: set<array<PolicyRule>>) returns (store: RuleStore)
    ensures store.Holds() && store.rules.Keys == rules
    ensures forall a | a in rules :: store.Knows(a)
  {
    var lists := set a, r, l: array<string> | a in rules && r in a[..] && l in Lists(r) :: l;
    store := RuleStore(map l | l in lists :: l[..], map a | a in rules :: a[..]);
  }

  ghost method TakeSubjects(crbs: seq<ClusterRoleBindingStruct>, rbs: seq<RoleBindingStruct>)
    returns (m: Contents<Subject>)
    ensures Held(m) && KnowsClusterRoleBindings(m, crbs) && KnowsRoleBindings(m, rbs)
  {
    var arrays: set<array<Subject>> :=
      (set e | e in crbs && e.subjects != null :: e.subjects) + (set e | e in rbs && e.subjects != null :: e.subjects);
    m := map a | a in arrays :: a[..];
  }

  ghost function RuleArrays(crs: seq<ClusterRoleStruct>, rs: seq<RoleStruct>): set<array<PolicyRule>> {
    (set e | e in crs && e.rules != null :: e.rules) + (set e | e in rs && e.rules != null :: e.rules)
  }

  /** Every baseline has an image. */
  ghost method TakePicture(b: BaselineStruct) returns (img: Image)
    ensures Pictures(img, b)
  {
    var crs, rs := SliceNow(b.clusterRoles), SliceNow(b.roles);
    var crbs, rbs := SliceNow(b.clusterRoleBindings), SliceNow(b.roleBindings);
    var store := TakeStore(RuleArrays(crs.Elems(), rs.Elems()));
    var subjects := TakeSubjects(crbs.Elems(), rbs.Elems());
    assert KnowsClusterRoles(store, crs.Elems()) && KnowsRoles(store, rs.Elems());
    img := Image(store, subjects, crs, crbs, rs, rbs);
  }

  // ---- statuses -----------------------------------------------------------

  datatype StatusStruct = StatusStruct(
    conditions: array?<Condition>, driftItems: array?<RBACDrift>, lastCheckTime: Pointer?<int>,
    driftCount: int, observedGeneration: int, snapshot: Pointer?<BaselineStruct>)

  /** What a status holds, with nil told from empty. */
  datatype StatusValue = StatusValue(
    conditions: Slice<Condition>, driftItems: Slice<RBACDrift>, lastCheckTime: Option<int>,
    driftCount: int, observedGeneration: int, snapshot: Option<Baseline>)

  ghost function StatusNow(st: StatusStruct, img: Image): StatusValue
    requires st.snapshot != null ==> img.Closed()
    reads st.conditions, st.driftItems, st.lastCheckTime
  {
    StatusValue(
      SliceNow(st.conditions), SliceNow(st.driftItems),
      if st.lastCheckTime == null then None else Some(st.lastCheckTime.target),
      st.driftCount, st.observedGeneration, if st.snapshot == null then None else Some(img.Value()))
  }
}
