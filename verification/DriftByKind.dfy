/** Zero drift and the drift items written out kind by kind, without the comparison. */
module DriftByKind {
  import opened Prelude
  import opened PolicyRules
  import opened Rbac
  import opened Drift
  import opened DriftTheorems

  // ---- what it means to have what the baseline wants ------------------------

  /** Nil with nil only, and every string as often in the one as in the other. */
  ghost predicate SameStrings(w: StringList, a: StringList) {
    (w.Nil? <==> a.Nil?) && forall s :: multiset(w.Elems())[s] == multiset(a.Elems())[s]
  }

  /** Equally many rules, with the same strings in each of their five lists. */
  ghost predicate SameRules(w: seq<Rule>, a: seq<Rule>) {
    |w| == |a| && forall i :: 0 <= i < |w| ==>
      SameStrings(w[i].verbs, a[i].verbs) && SameStrings(w[i].apiGroups, a[i].apiGroups)
      && SameStrings(w[i].resources, a[i].resources) && SameStrings(w[i].resourceNames, a[i].resourceNames)
      && SameStrings(w[i].nonResourceURLs, a[i].nonResourceURLs)
  }

  lemma SameStringsMatch(w: StringList, a: StringList)
    ensures SameStrings(w, a) <==> ListsMatch(w, a)
  {
  }

  lemma SameRulesMatch(w: seq<Rule>, a: seq<Rule>)
    ensures SameRules(w, a) <==> RulesMatch(w, a)
  {
    forall i | 0 <= i < |w| && i < |a| ensures RuleMatches(w[i], a[i]) <==>
      SameStrings(w[i].verbs, a[i].verbs) && SameStrings(w[i].apiGroups, a[i].apiGroups)
      && SameStrings(w[i].resources, a[i].resources) && SameStrings(w[i].resourceNames, a[i].resourceNames)
      && SameStrings(w[i].nonResourceURLs, a[i].nonResourceURLs)
    {
      SameStringsMatch(w[i].verbs, a[i].verbs);
      SameStringsMatch(w[i].apiGroups, a[i].apiGroups);
      SameStringsMatch(w[i].resources, a[i].resources);
      SameStringsMatch(w[i].resourceNames, a[i].resourceNames);
      SameStringsMatch(w[i].nonResourceURLs, a[i].nonResourceURLs);
    }
  }

  /** The cluster has a role with this key and these rules. */
  ghost predicate HasRole(c: Cluster, k: Key, rules: Slice<Rule>) {
    k in c && c[k].content.Rules? && SameRules(rules.Elems(), c[k].content.rules.Elems())
  }

  ghost predicate HasBinding(c: Cluster, k: Key, roleRef: RoleRef, subjects: Slice<Subject>) {
    k in c && c[k].content.Binding? && c[k].content.roleRef == roleRef && c[k].content.subjects == subjects
  }

  /** The cluster has what the baseline wants, kind by kind. */
  ghost predicate HasAll(c: Cluster, b: Baseline) {
    var crs, crbs := b.clusterRoles.Elems(), b.clusterRoleBindings.Elems();
    var rs, rbs := b.roles.Elems(), b.roleBindings.Elems();
    (forall e :: e in crs ==> HasRole(c, Key(ClusterRole, "", e.name), e.rules))
    && (forall e :: e in crbs ==> HasBinding(c, Key(ClusterRoleBinding, "", e.name), e.roleRef, e.subjects))
    && (forall e :: e in rs ==> HasRole(c, Key(Role, e.namespace, e.name), e.rules))
    && (forall e :: e in rbs ==> HasBinding(c, Key(RoleBinding, e.namespace, e.name), e.roleRef, e.subjects))
  }

  lemma AllMatchConcat(a: seq<Entry>, b: seq<Entry>, c: Cluster)
    ensures AllMatch(a + b, c) <==> AllMatch(a, c) && AllMatch(b, c)
  {
    if AllMatch(a + b, c) {
      assert forall i :: 0 <= i < |a| ==> (a + b)[i] == a[i];
      assert forall i :: 0 <= i < |b| ==> (a + b)[|a| + i] == b[i];
    }
  }

  lemma HasRoleMeans(c: Cluster, k: Key, rules: Slice<Rule>)
    ensures HasRole(c, k, rules) <==> k in c && Matches(Rules(rules), c[k].content)
  {
    if k in c && c[k].content.Rules? { SameRulesMatch(rules.Elems(), c[k].content.rules.Elems()); }
  }

  lemma HasClusterRoles(b: Baseline, c: Cluster)
    ensures AllMatch(ClusterRoleEntries(b), c) <==>
      forall e :: e in b.clusterRoles.Elems() ==> HasRole(c, Key(ClusterRole, "", e.name), e.rules)
  {
    var s, es := b.clusterRoles.Elems(), ClusterRoleEntries(b);
    forall i | 0 <= i < |s| ensures HasRole(c, Key(ClusterRole, "", s[i].name), s[i].rules) <==>
      es[i].key in c && Matches(es[i].want, c[es[i].key].content)
    {
      HasRoleMeans(c, Key(ClusterRole, "", s[i].name), s[i].rules);
    }
    assert |es| == |s|;
  }

  lemma HasRoles(b: Baseline, c: Cluster)
    ensures AllMatch(RoleEntries(b), c) <==>
      forall e :: e in b.roles.Elems() ==> HasRole(c, Key(Role, e.namespace, e.name), e.rules)
  {
    var s, es := b.roles.Elems(), RoleEntries(b);
    forall i | 0 <= i < |s| ensures HasRole(c, Key(Role, s[i].namespace, s[i].name), s[i].rules) <==>
      es[i].key in c && Matches(es[i].want, c[es[i].key].content)
    {
      HasRoleMeans(c, Key(Role, s[i].namespace, s[i].name), s[i].rules);
    }
    assert |es| == |s|;
  }

  lemma HasClusterRoleBindings(b: Baseline, c: Cluster)
    ensures AllMatch(ClusterRoleBindingEntries(b), c) <==>
      forall e :: e in b.clusterRoleBindings.Elems() ==>
        HasBinding(c, Key(ClusterRoleBinding, "", e.name), e.roleRef, e.subjects)
  {
    var s, es := b.clusterRoleBindings.Elems(), ClusterRoleBindingEntries(b);
    assert |es| == |s|;
    assert forall i :: 0 <= i < |s| ==>
      es[i] == Entry(Key(ClusterRoleBinding, "", s[i].name), Binding(s[i].roleRef, s[i].subjects));
  }

  lemma HasRoleBindings(b: Baseline, c: Cluster)
    ensures AllMatch(RoleBindingEntries(b), c) <==>
      forall e :: e in b.roleBindings.Elems() ==>
        HasBinding(c, Key(RoleBinding, e.namespace, e.name), e.roleRef, e.subjects)
  {
    var s, es := b.roleBindings.Elems(), RoleBindingEntries(b);
    assert |es| == |s|;
    assert forall i :: 0 <= i < |s| ==>
      es[i] == Entry(Key(RoleBinding, s[i].namespace, s[i].name), Binding(s[i].roleRef, s[i].subjects));
  }

  lemma HasAllMatches(b: Baseline, c: Cluster)
    ensures AllMatch(Entries(b), c) <==> HasAll(c, b)
  {
    var w, x, y, z := ClusterRoleEntries(b), ClusterRoleBindingEntries(b), RoleEntries(b), RoleBindingEntries(b);
    AllMatchConcat(w + x + y, z, c);
    AllMatchConcat(w + x, y, c);
    AllMatchConcat(w, x, c);
    HasClusterRoles(b, c);
    HasClusterRoleBindings(b, c);
    HasRoles(b, c);
    HasRoleBindings(b, c);
  }

  // ---- the theorems -------------------------------------------------------

  /** Written out: without exclusions nothing is reported exactly when the cluster has
      every role with the same strings in the five lists of each rule, every binding
      with the same RoleRef and Subjects, and nothing that the baseline does not name. */
  lemma ZeroDriftPerKind(b: Baseline, c: Cluster, ls: Listings, now: int)
    requires AreListings(c, ls)
    ensures AllDrift(Entries(b), c, ls, NOTHING_EXCLUDED, now) == [] <==>
      HasAll(c, b) && forall k :: k in c ==> Names(b, k)
  {
    ZeroDrift(Entries(b), c, ls, now);
    HasAllMatches(b, c);
    NothingElse(b, c);
  }

  lemma NothingElse(b: Baseline, c: Cluster)
    ensures Agrees(Entries(b), c) <==> AllMatch(Entries(b), c) && forall k :: k in c ==> Names(b, k)
  {
    var es := Entries(b);
    forall k ensures Names(b, k) <==> k in KeysOf(es) { NamesAreKeys(b, k); }
    if AllMatch(es, c) && forall k :: k in c ==> Names(b, k) {
      assert KeysOf(es) == c.Keys;
    }
  }

  /** An entry of the baseline with this key is not what the cluster has. */
  ghost predicate Differs(b: Baseline, c: Cluster, k: Key) {
    match k.kind
    case ClusterRole => k.namespace == ""
      && exists e :: e in b.clusterRoles.Elems() && e.name == k.name && !HasRole(c, k, e.rules)
    case ClusterRoleBinding => k.namespace == ""
      && exists e :: e in b.clusterRoleBindings.Elems() && e.name == k.name && !HasBinding(c, k, e.roleRef, e.subjects)
    case Role =>
      exists e :: e in b.roles.Elems() && e.namespace == k.namespace && e.name == k.name && !HasRole(c, k, e.rules)
    case RoleBinding =>
      exists e :: e in b.roleBindings.Elems() && e.namespace == k.namespace && e.name == k.name
        && !HasBinding(c, k, e.roleRef, e.subjects)
  }

  ghost predicate Mismatched(es: seq<Entry>, c: Cluster, k: Key) {
    exists i :: 0 <= i < |es| && es[i].key == k && !(k in c && Matches(es[i].want, c[k].content))
  }

  lemma MismatchedConcat(a: seq<Entry>, b: seq<Entry>, c: Cluster, k: Key)
    ensures Mismatched(a + b, c, k) <==> Mismatched(a, c, k) || Mismatched(b, c, k)
  {
    if i :| 0 <= i < |a| && a[i].key == k && !(k in c && Matches(a[i].want, c[k].content)) {
      assert (a + b)[i] == a[i];
    }
    if i :| 0 <= i < |b| && b[i].key == k && !(k in c && Matches(b[i].want, c[k].content)) {
      assert (a + b)[|a| + i] == b[i];
    }
  }

  lemma MismatchedClusterRoles(b: Baseline, c: Cluster, k: Key)
    ensures Mismatched(ClusterRoleEntries(b), c, k) <==> k.kind == ClusterRole && Differs(b, c, k)
  {
    var s, es := b.clusterRoles.Elems(), ClusterRoleEntries(b);
    forall i | 0 <= i < |s| ensures es[i].key == k ==>
      (HasRole(c, k, s[i].rules) <==> k in c && Matches(es[i].want, c[k].content))
    {
      HasRoleMeans(c, k, s[i].rules);
    }
    if e :| e in s && k == Key(ClusterRole, "", e.name) && !HasRole(c, k, e.rules) {
      var i :| 0 <= i < |s| && s[i] == e;
      assert es[i].key == k;
    }
  }

  lemma MismatchedRoles(b: Baseline, c: Cluster, k: Key)
    ensures Mismatched(RoleEntries(b), c, k) <==> k.kind == Role && Differs(b, c, k)
  {
    var s, es := b.roles.Elems(), RoleEntries(b);
    forall i | 0 <= i < |s| ensures es[i].key == k ==>
      (HasRole(c, k, s[i].rules) <==> k in c && Matches(es[i].want, c[k].content))
    {
      HasRoleMeans(c, k, s[i].rules);
    }
    if e :| e in s && k == Key(Role, e.namespace, e.name) && !HasRole(c, k, e.rules) {
      var i :| 0 <= i < |s| && s[i] == e;
      assert es[i].key == k;
    }
  }

  lemma MismatchedClusterRoleBindings(b: Baseline, c: Cluster, k: Key)
    ensures Mismatched(ClusterRoleBindingEntries(b), c, k) <==> k.kind == ClusterRoleBinding && Differs(b, c, k)
  {
    var s, es := b.clusterRoleBindings.Elems(), ClusterRoleBindingEntries(b);
    if e :| e in s && k == Key(ClusterRoleBinding, "", e.name) && !HasBinding(c, k, e.roleRef, e.subjects) {
      var i :| 0 <= i < |s| && s[i] == e;
      assert es[i].key == k && es[i].want == Binding(e.roleRef, e.subjects);
    }
  }

  lemma MismatchedRoleBindings(b: Baseline, c: Cluster, k: Key)
    ensures Mismatched(RoleBindingEntries(b), c, k) <==> k.kind == RoleBinding && Differs(b, c, k)
  {
    var s, es := b.roleBindings.Elems(), RoleBindingEntries(b);
    if e :| e in s && k == Key(RoleBinding, e.namespace, e.name) && !HasBinding(c, k, e.roleRef, e.subjects) {
      var i :| 0 <= i < |s| && s[i] == e;
      assert es[i].key == k && es[i].want == Binding(e.roleRef, e.subjects);
    }
  }

  lemma MismatchedIsDiffering(b: Baseline, c: Cluster, k: Key)
    ensures Mismatched(Entries(b), c, k) <==> Differs(b, c, k)
  {
    var w, x, y, z := ClusterRoleEntries(b), ClusterRoleBindingEntries(b), RoleEntries(b), RoleBindingEntries(b);
    MismatchedConcat(w + x + y, z, c, k);
    MismatchedConcat(w + x, y, c, k);
    MismatchedConcat(w, x, c, k);
    MismatchedClusterRoles(b, c, k);
    MismatchedClusterRoleBindings(b, c, k);
    MismatchedRoles(b, c, k);
    MismatchedRoleBindings(b, c, k);
  }

  /** The check's items, written out: a named resource that is not there is Deleted, one
      that differs from an entry with its key is Modified, and there are no others. */
  lemma DriftExactly(b: Baseline, c: Cluster, now: int, d: RBACDrift)
    ensures d in PureDrift(Entries(b), c, now) <==>
      d.detectedAt == now && Differs(b, c, d.key) && d.driftType == if d.key in c then Modified else Deleted
  {
    DriftMembers(Entries(b), c, now, d);
    MismatchedIsDiffering(b, c, d.key);
    if i :| 0 <= i < |Entries(b)| && Entries(b)[i].key == d.key && Drifted(Entries(b)[i], c, d.driftType) {
      assert Mismatched(Entries(b), c, d.key);
    }
  }

  /** In order: the items of the entries are those of their parts one after the other
      (`CheckDriftConcat`), and one entry gives one item at most. */
  lemma DriftOfOne(e: Entry, r: ReadResult, now: int)
    ensures var items := CheckDrift([e], [r], now);
      if r == NotFound then items == [RBACDrift(e.key, Deleted, now)]
      else if r == Failed || SameContent(e.want, r.obj.content) then items == []
      else items == [RBACDrift(e.key, Modified, now)]
  {
    assert [e][..0] == [] && [r][..0] == [];
    if r.Found? && e.want.Rules? && r.obj.content.Rules? {
      SameRulesMatch(e.want.rules.Elems(), r.obj.content.rules.Elems());
    }
  }

  /** The same strings in every rule, or the same RoleRef and Subjects. */
  ghost predicate SameContent(want: Content, actual: Content) {
    if want.Rules? then actual.Rules? && SameRules(want.rules.Elems(), actual.rules.Elems())
    else actual.Binding? && actual.roleRef == want.roleRef && actual.subjects == want.subjects
  }
}
