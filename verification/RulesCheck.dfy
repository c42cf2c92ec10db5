/** `checkDriftRulesBased` up to its item list, over a baseline whose lists it sorts
    in place while it compares. */
module RulesCheck {
  import opened Prelude
  import opened InsertionSort
  import opened PolicyRules
  import opened Rbac
  import opened Drift
  import opened Api
  import opened Worker

  // ---- baselines on the heap ----------------------------------------------

  /** A baseline as the program holds it. */
  type RBACBaseline = BaselineOf<PolicyRule>

  /** A baseline entry as the loop sees it. */
  type Slot = EntryOf<PolicyRule>

  ghost function SlotLists(s: Slot): set<array?<string>> {
    if s.want.Rules? then ListsOf(s.want.rules.Elems()) else {}
  }

  /** The string lists inside some entries: all that sorting can change. */
  ghost function ListsInside(slots: seq<Slot>): set<array?<string>> {
    set s, l | s in slots && l in SlotLists(s) :: l
  }

  function RulesValue(rs: Slice<PolicyRule>): Slice<Rule>
    reads ListsOf(rs.Elems())
  {
    if rs.Nil? then Nil else Of(ViewRules(rs.items))
  }

  function SlotValue(s: Slot): Entry
    reads SlotLists(s)
  {
    match s.want
    case Rules(rs) => Entry(s.key, Rules(RulesValue(rs)))
    case Binding(ref, subjects) => Entry(s.key, Binding(ref, subjects))
  }

  /** The entries as values. */
  function SlotValues(slots: seq<Slot>): seq<Entry>
    reads ListsInside(slots)
  {
    seq(|slots|, i requires 0 <= i < |slots| reads ListsInside(slots) => SlotValue(slots[i]))
  }

  /** The value that an entry had when `was` was recorded. */
  ghost function SlotAt(was: Recording, s: Slot): Entry
    requires Recorded(was, SlotLists(s))
  {
    match s.want
    case Rules(rs) => Entry(s.key, Rules(if rs.Nil? then Nil else Of(RulesAt(was, rs.items))))
    case Binding(ref, subjects) => Entry(s.key, Binding(ref, subjects))
  }

  ghost function SlotsAt(was: Recording, slots: seq<Slot>): seq<Entry>
    requires Recorded(was, ListsInside(slots))
  {
    seq(|slots|, i requires 0 <= i < |slots| =>
      (assert SlotLists(slots[i]) <= ListsInside(slots); SlotAt(was, slots[i])))
  }

  lemma SlotsAtRecord(slots: seq<Slot>)
    ensures SlotsAt(Record(ListsInside(slots)), slots) == SlotValues(slots)
  {
    var all := ListsInside(slots);
    forall i | 0 <= i < |slots| ensures SlotAt(Record(all), slots[i]) == SlotValue(slots[i]) {
      assert SlotLists(slots[i]) <= all;
      if slots[i].want.Rules? { RulesUnchanged(Record(all), slots[i].want.rules.Elems(), all); }
    }
  }

  // ---- decoding a fetched object -----------------------------------------

  method DecodeList(l: StringList) returns (a: array?<string>)
    ensures ViewList(a) == l && (a != null ==> fresh(a))
  {
    a := null;
    if l.Of? {
      a := new string[|l.items|](i requires 0 <= i < |l.items| => l.items[i]);
    }
  }

  method DecodeRule(r: Rule) returns (p: PolicyRule)
    ensures ViewRule(p) == r && forall a: array<string> | a in Lists(p) :: fresh(a)
  {
    var verbs := DecodeList(r.verbs);
    var apiGroups := DecodeList(r.apiGroups);
    var resources := DecodeList(r.resources);
    var resourceNames := DecodeList(r.resourceNames);
    var nonResourceURLs := DecodeList(r.nonResourceURLs);
    p := RuleOf.Rule(verbs, apiGroups, resources, resourceNames, nonResourceURLs);
  }

  /** A fetched object shares no list with anything that existed before. */
  method DecodeRules(rs: Slice<Rule>) returns (ps: Slice<PolicyRule>)
    ensures RulesValue(ps) == rs
    ensures forall l: array<string> | l in ListsOf(ps.Elems()) :: fresh(l)
  {
    if rs.Nil? { return Nil; }
    var s: seq<PolicyRule> := [];
    for i := 0 to |rs.items|
      invariant |s| == i && forall k :: 0 <= k < i ==> ViewRule(s[k]) == rs.items[k]
      invariant forall k, l: array<string> :: 0 <= k < i && l in Lists(s[k]) ==> fresh(l)
    {
      var p := DecodeRule(rs.items[i]);
      s := s + [p];
    }
    ps := Of(s);
  }

  // ---- one entry ----------------------------------------------------------

  ghost predicate Apart(mine: set<array?<string>>, all: set<array?<string>>) {
    forall a: array<string> | a in mine :: a !in all
  }

  /** Newly allocated lists join a recorded state as they are. */
  lemma Enlarge(was: Recording, done: set<array?<string>>, all: set<array?<string>>, mine: set<array?<string>>)
    requires Stage(was, done, all) && done <= all && Apart(mine, all)
    ensures Stage(was + Record(mine), done, all + mine)
  {
  }

  lemma Forget(was: Recording, more: Recording, done: set<array?<string>>, all: set<array?<string>>,
               mine: set<array?<string>>)
    requires Stage(was + more, done + mine, all + mine) && Apart(mine, all)
    requires forall a: array<string> | a in all :: a in was && a !in more
    ensures Stage(was, done, all)
  {
  }

  lemma RulesAtFrame(was: Recording, more: Recording, rs: seq<PolicyRule>)
    requires Recorded(was, ListsOf(rs)) && forall a: array<string> | a in ListsOf(rs) :: a !in more
    ensures RulesAt(was + more, rs) == RulesAt(was, rs)
  {
    forall i | 0 <= i < |rs| ensures RuleAt(was + more, rs[i]) == RuleAt(was, rs[i]) {
      assert Lists(rs[i]) <= ListsOf(rs);
    }
  }

  lemma RulesAtOwn(was: Recording, rs: seq<PolicyRule>)
    ensures RulesAt(was + Record(ListsOf(rs)), rs) == ViewRules(rs)
  {
    forall i | 0 <= i < |rs| ensures RuleAt(was + Record(ListsOf(rs)), rs[i]) == ViewRule(rs[i]) {
      assert Lists(rs[i]) <= ListsOf(rs);
    }
  }

  /** The comparison with a fetched role, which sorts the baseline's lists. */
  method CompareFetched(rules: Slice<PolicyRule>, actual: Slice<Rule>,
        ghost was: Recording, ghost done: set<array?<string>>, ghost all: set<array?<string>>)
    returns (equal: bool)
    requires ListsOf(rules.Elems()) <= all && done <= all && Stage(was, done, all)
    modifies ListsOf(rules.Elems())
    ensures equal == RulesMatch(RulesAt(was, rules.Elems()), actual.Elems())
    ensures Stage(was, done + ListsOf(rules.Elems()), all)
  {
    var fetched := DecodeRules(actual);
    ghost var mine := ListsOf(fetched.Elems());
    ghost var more := Record(mine);
    assert Apart(mine, all);
    Enlarge(was, done, all, mine);
    RulesAtFrame(was, more, rules.Elems());
    RulesAtOwn(was, fetched.Elems());
    equal := CompareRules(rules, fetched, was + more, done, all + mine);
    Forget(was, more, done + ListsOf(rules.Elems()), all, mine);
  }

  /** The loop body for a role: `Get`, then nothing, a Deleted or a Modified item.  A role
      that is found is Modified unless it has the rules that the baseline had, index by
      index, up to the order inside their five lists. */
  method CheckRole(client: Client, key: Key, rules: Slice<PolicyRule>, now: int,
                   ghost was: Recording, ghost done: set<array?<string>>, ghost all: set<array?<string>>)
    returns (items: seq<RBACDrift>, ghost r: ReadResult)
    requires key.kind.HoldsRules() && ListsOf(rules.Elems()) <= all && done <= all && Stage(was, done, all)
    modifies client, ListsOf(rules.Elems())
    ensures client.log == old(client.log) + [Access(Get(key), Got(r))]
    ensures items == Classify(SlotAt(was, Entry(key, Rules(rules))), r, now)
    ensures r.NotFound? ==> items == [RBACDrift(key, Deleted, now)]
    ensures r.Failed? ==> items == []
    ensures r.Found? ==> r.obj.content.Rules? && items in {[], [RBACDrift(key, Modified, now)]}
    ensures r.Found? ==>
      var w, a := RulesAt(was, rules.Elems()), r.obj.content.rules.Elems();
      items == [] <==> |w| == |a| && forall i :: 0 <= i < |w| ==>
        w[i].verbs.Nil? == a[i].verbs.Nil? && multiset(w[i].verbs.Elems()) == multiset(a[i].verbs.Elems())
        && w[i].apiGroups.Nil? == a[i].apiGroups.Nil?
        && multiset(w[i].apiGroups.Elems()) == multiset(a[i].apiGroups.Elems())
        && w[i].resources.Nil? == a[i].resources.Nil?
        && multiset(w[i].resources.Elems()) == multiset(a[i].resources.Elems())
        && w[i].resourceNames.Nil? == a[i].resourceNames.Nil?
        && multiset(w[i].resourceNames.Elems()) == multiset(a[i].resourceNames.Elems())
        && w[i].nonResourceURLs.Nil? == a[i].nonResourceURLs.Nil?
        && multiset(w[i].nonResourceURLs.Elems()) == multiset(a[i].nonResourceURLs.Elems())
    ensures Stage(was, if r.Found? then done + ListsOf(rules.Elems()) else done, all)
  {
    items := [];
    var got := client.Get(key);
    r := got;
    if got.NotFound? {
      items := [RBACDrift(key, Deleted, now)];
    } else if got.Found? {
      var equal := CompareFetched(rules, got.obj.content.rules, was, done, all);
      if !equal {
        items := [RBACDrift(key, Modified, now)];
      }
    }
  }

  /** The loop body for a binding, which compares without sorting: a binding that is
      found is Modified unless it has the same RoleRef and the same Subjects, in order. */
  method CheckBinding(client: Client, key: Key, roleRef: RoleRef, subjects: Slice<Subject>, now: int)
    returns (items: seq<RBACDrift>, ghost r: ReadResult)
    requires !key.kind.HoldsRules()
    modifies client
    ensures client.log == old(client.log) + [Access(Get(key), Got(r))]
    ensures items == Classify(Entry(key, Binding(roleRef, subjects)), r, now)
    ensures r.NotFound? ==> items == [RBACDrift(key, Deleted, now)]
    ensures r.Failed? ==> items == []
    ensures r.Found? ==> r.obj.content.Binding? && items in {[], [RBACDrift(key, Modified, now)]}
    ensures r.Found? ==>
      (items == [] <==> roleRef == r.obj.content.roleRef && subjects == r.obj.content.subjects)
  {
    items := [];
    var got := client.Get(key);
    r := got;
    if got.NotFound? {
      items := [RBACDrift(key, Deleted, now)];
    } else if got.Found? {
      if roleRef != got.obj.content.roleRef || subjects != got.obj.content.subjects {
        items := [RBACDrift(key, Modified, now)];
      }
    }
  }

  // ---- one round ----------------------------------------------------------

  /** The lists that have been sorted: those of the roles that could be fetched. */
  ghost function SortedLists(slots: seq<Slot>, got: seq<ReadResult>): set<array?<string>> {
    set i, l | 0 <= i < |slots| && i < |got| && got[i].Found? && l in SlotLists(slots[i]) :: l
  }

  /** A check that has visited as many entries as `got` has results. */
  ghost predicate Progress(es: seq<Entry>, got: seq<ReadResult>, items: seq<RBACDrift>,
                           before: seq<Access>, log: seq<Access>, now: int)
  {
    |got| <= |es| && log == before + Accesses(es[..|got|], got) && items == CheckDrift(es[..|got|], got, now)
  }

  lemma ProgressStep(es: seq<Entry>, got: seq<ReadResult>, r: ReadResult, items: seq<RBACDrift>,
                     before: seq<Access>, log: seq<Access>, now: int)
    requires |got| < |es| && Progress(es, got, items, before, log, now)
    ensures Progress(es, got + [r], items + Classify(es[|got|], r, now), before,
                     log + [Access(Get(es[|got|].key), Got(r))], now)
  {
    var n := |got|;
    assert es[..n + 1] == es[..n] + [es[n]];
    CheckDriftStep(es[..n], got, es[n], r, now);
    AccessesNext(es[..n], got, es[n], r);
  }

  lemma AccessesNext(es: seq<Entry>, got: seq<ReadResult>, e: Entry, r: ReadResult)
    requires |es| == |got|
    ensures Accesses(es + [e], got + [r]) == Accesses(es, got) + [Access(Get(e.key), Got(r))]
  {
  }

  lemma SortedStep(slots: seq<Slot>, got: seq<ReadResult>, r: ReadResult)
    requires |got| < |slots|
    ensures SortedLists(slots, got + [r])
      == SortedLists(slots, got) + if r.Found? then SlotLists(slots[|got|]) else {}
  {
  }

  /** The state of the check: `Progress` on the values recorded at its start, while
      exactly the lists of the roles fetched so far have been sorted. */
  ghost predicate Checking(slots: seq<Slot>, was: Recording, got: seq<ReadResult>, items: seq<RBACDrift>,
                           before: seq<Access>, log: seq<Access>, now: int)
    reads ListsInside(slots)
  {
    Recorded(was, ListsInside(slots)) && Progress(SlotsAt(was, slots), got, items, before, log, now)
    && Stage(was, SortedLists(slots, got), ListsInside(slots))
  }

  method VisitRole(client: Client, key: Key, rules: Slice<PolicyRule>, now: int, items: seq<RBACDrift>,
                   ghost slots: seq<Slot>, ghost was: Recording, ghost got: seq<ReadResult>, ghost before: seq<Access>)
    returns (items': seq<RBACDrift>, ghost got': seq<ReadResult>)
    requires |got| < |slots| && slots[|got|] == Entry(key, Rules(rules)) && key.kind.HoldsRules()
    requires Checking(slots, was, got, items, before, client.log, now)
    modifies client, ListsInside(slots)
    ensures |got'| == |got| + 1 && Checking(slots, was, got', items', before, client.log, now)
  {
    ghost var all, es, log := ListsInside(slots), SlotsAt(was, slots), client.log;
    assert SlotLists(slots[|got|]) <= all && es[|got|] == SlotAt(was, slots[|got|]);
    var found; ghost var r;
    found, r := CheckRole(client, key, rules, now, was, SortedLists(slots, got), all);
    ProgressStep(es, got, r, items, before, log, now);
    SortedStep(slots, got, r);
    items', got' := items + found, got + [r];
  }

  method VisitBinding(client: Client, key: Key, roleRef: RoleRef, subjects: Slice<Subject>, now: int,
                      items: seq<RBACDrift>,
                      ghost slots: seq<Slot>, ghost was: Recording, ghost got: seq<ReadResult>,
                      ghost before: seq<Access>)
    returns (items': seq<RBACDrift>, ghost got': seq<ReadResult>)
    requires |got| < |slots| && slots[|got|] == Entry(key, Binding(roleRef, subjects)) && !key.kind.HoldsRules()
    requires Checking(slots, was, got, items, before, client.log, now)
    modifies client
    ensures |got'| == |got| + 1 && Checking(slots, was, got', items', before, client.log, now)
  {
    ghost var es, log := SlotsAt(was, slots), client.log;
    assert es[|got|] == SlotAt(was, slots[|got|]);
    var found; ghost var r;
    found, r := CheckBinding(client, key, roleRef, subjects, now);
    ProgressStep(es, got, r, items, before, log, now);
    SortedStep(slots, got, r);
    items', got' := items + found, got + [r];
  }

  // ---- the loops ----------------------------------------------------------

  /** The entries of one kind are the slots from position n on. */
  ghost predicate Segment(slots: seq<Slot>, n: nat, part: seq<Slot>) {
    n + |part| <= |slots| && forall i :: 0 <= i < |part| ==> slots[n + i] == part[i]
  }

  lemma Segments(b: RBACBaseline)
    ensures var w, x, y := |ClusterRoleEntries(b)|, |ClusterRoleBindingEntries(b)|, |RoleEntries(b)|;
      Segment(Entries(b), 0, ClusterRoleEntries(b)) && Segment(Entries(b), w, ClusterRoleBindingEntries(b))
      && Segment(Entries(b), w + x, RoleEntries(b)) && Segment(Entries(b), w + x + y, RoleBindingEntries(b))
  {
  }

  method VisitClusterRoles(client: Client, b: RBACBaseline, now: int, items: seq<RBACDrift>,
                     ghost slots: seq<Slot>, ghost was: Recording, ghost got: seq<ReadResult>,
                     ghost before: seq<Access>)
    returns (items': seq<RBACDrift>, ghost got': seq<ReadResult>)
    requires Segment(slots, |got|, ClusterRoleEntries(b)) && Checking(slots, was, got, items, before, client.log, now)
    modifies client, ListsInside(slots)
    ensures |got'| == |got| + |ClusterRoleEntries(b)| && Checking(slots, was, got', items', before, client.log, now)
  {
    items', got' := items, got;
    var s := b.clusterRoles.Elems();
    for i := 0 to |s|
      invariant |got'| == |got| + i && Checking(slots, was, got', items', before, client.log, now)
    {
      assert slots[|got'|] == ClusterRoleEntries(b)[i];
      items', got' := VisitRole(client, Key(ClusterRole, "", s[i].name), s[i].rules, now, items', slots, was, got',
        before);
    }
  }

  method VisitClusterRoleBindings(client: Client, b: RBACBaseline, now: int, items: seq<RBACDrift>,
                     ghost slots: seq<Slot>, ghost was: Recording, ghost got: seq<ReadResult>,
                     ghost before: seq<Access>)
    returns (items': seq<RBACDrift>, ghost got': seq<ReadResult>)
    requires Segment(slots, |got|, ClusterRoleBindingEntries(b))
      && Checking(slots, was, got, items, before, client.log, now)
    modifies client
    ensures |got'| == |got| + |ClusterRoleBindingEntries(b)|
      && Checking(slots, was, got', items', before, client.log, now)
  {
    items', got' := items, got;
    var s := b.clusterRoleBindings.Elems();
    for i := 0 to |s|
      invariant |got'| == |got| + i && Checking(slots, was, got', items', before, client.log, now)
    {
      assert slots[|got'|] == ClusterRoleBindingEntries(b)[i];
      items', got' := VisitBinding(client, Key(ClusterRoleBinding, "", s[i].name), s[i].roleRef, s[i].subjects, now,
        items', slots, was, got', before);
    }
  }

  method VisitRoles(client: Client, b: RBACBaseline, now: int, items: seq<RBACDrift>,
                     ghost slots: seq<Slot>, ghost was: Recording, ghost got: seq<ReadResult>,
                     ghost before: seq<Access>)
    returns (items': seq<RBACDrift>, ghost got': seq<ReadResult>)
    requires Segment(slots, |got|, RoleEntries(b)) && Checking(slots, was, got, items, before, client.log, now)
    modifies client, ListsInside(slots)
    ensures |got'| == |got| + |RoleEntries(b)| && Checking(slots, was, got', items', before, client.log, now)
  {
    items', got' := items, got;
    var s := b.roles.Elems();
    for i := 0 to |s|
      invariant |got'| == |got| + i && Checking(slots, was, got', items', before, client.log, now)
    {
      assert slots[|got'|] == RoleEntries(b)[i];
      items', got' := VisitRole(client, Key(Role, s[i].namespace, s[i].name), s[i].rules, now, items', slots, was,
        got', before);
    }
  }

  method VisitRoleBindings(client: Client, b: RBACBaseline, now: int, items: seq<RBACDrift>,
                     ghost slots: seq<Slot>, ghost was: Recording, ghost got: seq<ReadResult>,
                     ghost before: seq<Access>)
    returns (items': seq<RBACDrift>, ghost got': seq<ReadResult>)
    requires Segment(slots, |got|, RoleBindingEntries(b)) && Checking(slots, was, got, items, before, client.log, now)
    modifies client
    ensures |got'| == |got| + |RoleBindingEntries(b)| && Checking(slots, was, got', items', before, client.log, now)
  {
    items', got' := items, got;
    var s := b.roleBindings.Elems();
    for i := 0 to |s|
      invariant |got'| == |got| + i && Checking(slots, was, got', items', before, client.log, now)
    {
      assert slots[|got'|] == RoleBindingEntries(b)[i];
      items', got' := VisitBinding(client, Key(RoleBinding, s[i].namespace, s[i].name), s[i].roleRef, s[i].subjects,
        now, items', slots, was, got', before);
    }
  }

  /** The four loops, one after the other. */
  method VisitAll(client: Client, b: RBACBaseline, now: int, ghost was: Recording, ghost before: seq<Access>)
    returns (items: seq<RBACDrift>, ghost got: seq<ReadResult>)
    requires Checking(Entries(b), was, [], [], before, client.log, now)
    modifies client, ListsInside(Entries(b))
    ensures |got| == |Entries(b)| && Checking(Entries(b), was, got, items, before, client.log, now)
  {
    ghost var slots := Entries(b);
    Segments(b);
    items, got := VisitClusterRoles(client, b, now, [], slots, was, [], before);
    items, got := VisitClusterRoleBindings(client, b, now, items, slots, was, got, before);
    items, got := VisitRoles(client, b, now, items, slots, was, got, before);
    items, got := VisitRoleBindings(client, b, now, items, slots, was, got, before);
  }

  /** `checkDriftRulesBased` up to its item list.  `got` is what the `Get`s returned,
      one per entry and in baseline order. */
  method CheckRules(client: Client, b: RBACBaseline, now: int)
    returns (items: seq<RBACDrift>, ghost got: seq<ReadResult>)
    modifies client, ListsInside(Entries(b))
    ensures |got| == |Entries(b)|
    ensures client.log == old(client.log) + Accesses(old(SlotValues(Entries(b))), got)
    ensures items == CheckDrift(old(SlotValues(Entries(b))), got, now)
    ensures forall a: array<string> | a in ListsInside(Entries(b)) ::
      a[..] == if a in SortedLists(Entries(b), got) then Canonical(old(a[..])) else old(a[..])
  {
    ghost var slots, log := Entries(b), client.log;
    ghost var was := Record(ListsInside(slots));
    SlotsAtRecord(slots);
    items, got := VisitAll(client, b, now, was, log);
    assert SlotsAt(was, slots)[..|got|] == SlotsAt(was, slots);
  }

  /** `checkDriftSnapshotBased` up to its item list: the ClusterRoles and nothing else. */
  method CheckSnapshot(client: Client, b: RBACBaseline, now: int)
    returns (items: seq<RBACDrift>, ghost got: seq<ReadResult>)
    modifies client, ListsInside(ClusterRoleEntries(b))
    ensures |got| == |ClusterRoleEntries(b)|
    ensures client.log == old(client.log) + Accesses(old(SlotValues(ClusterRoleEntries(b))), got)
    ensures items == CheckDrift(old(SlotValues(ClusterRoleEntries(b))), got, now)
    ensures forall a: array<string> | a in ListsInside(ClusterRoleEntries(b)) ::
      a[..] == if a in SortedLists(ClusterRoleEntries(b), got) then Canonical(old(a[..])) else old(a[..])
  {
    ghost var slots, log := ClusterRoleEntries(b), client.log;
    ghost var was := Record(ListsInside(slots));
    SlotsAtRecord(slots);
    items, got := VisitClusterRoles(client, b, now, [], slots, was, [], log);
    assert SlotsAt(was, slots)[..|got|] == SlotsAt(was, slots);
  }
}
