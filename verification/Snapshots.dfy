/** The baseline that a snapshot stores, and the check against it. */
module Snapshots {
  import opened Prelude
  import opened PolicyRules
  import opened Rbac
  import opened Drift
  import opened Unexpected
  import opened DriftTheorems

  /** Appending to a nil slice leaves it nil when there is nothing to append. */
  function Appended<T>(items: seq<T>): Slice<T> {
    if items == [] then Nil else Of(items)
  }

  function RulesIn(content: Content): Slice<Rule> {
    if content.Rules? then content.rules else Nil
  }

  function RoleRefIn(content: Content): RoleRef {
    if content.Binding? then content.roleRef else RoleRef("", "", "")
  }

  function SubjectsIn(content: Content): Slice<Subject> {
    if content.Binding? then content.subjects else Nil
  }

  function CapturedClusterRole(item: Item): ClusterRoleBaseline<Rule> {
    ClusterRoleBaseline(item.key.name, RulesIn(item.obj.content))
  }

  function CapturedRole(item: Item): RoleBaseline<Rule> {
    RoleBaseline(item.key.name, item.key.namespace, RulesIn(item.obj.content))
  }

  function CapturedClusterRoles(items: seq<Item>): Slice<ClusterRoleBaseline<Rule>> {
    Appended(seq(|items|, i requires 0 <= i < |items| => CapturedClusterRole(items[i])))
  }

  function CapturedClusterRoleBindings(items: seq<Item>): Slice<ClusterRoleBindingBaseline> {
    Appended(seq(|items|, i requires 0 <= i < |items| =>
      ClusterRoleBindingBaseline(items[i].key.name, RoleRefIn(items[i].obj.content), SubjectsIn(items[i].obj.content))))
  }

  function CapturedRoles(items: seq<Item>): Slice<RoleBaseline<Rule>> {
    Appended(seq(|items|, i requires 0 <= i < |items| => CapturedRole(items[i])))
  }

  function CapturedRoleBindings(items: seq<Item>): Slice<RoleBindingBaseline> {
    Appended(seq(|items|, i requires 0 <= i < |items| =>
      RoleBindingBaseline(items[i].key.name, items[i].key.namespace,
                          RoleRefIn(items[i].obj.content), SubjectsIn(items[i].obj.content))))
  }

  /** The baseline that a snapshot stores. */
  function SnapshotOf(ls: Listings): Baseline {
    RBACBaseline(CapturedClusterRoles(ls.clusterRoles), CapturedClusterRoleBindings(ls.clusterRoleBindings),
                 CapturedRoles(ls.roles), CapturedRoleBindings(ls.roleBindings))
  }

  /** The entries that a listing turns into. */
  function ItemEntries(items: seq<Item>): seq<Entry> {
    seq(|items|, i requires 0 <= i < |items| => Entry(items[i].key, items[i].obj.content))
  }

  lemma SnapshotEntries(c: Cluster, ls: Listings)
    requires AreListings(c, ls)
    ensures ClusterRoleEntries(SnapshotOf(ls)) == ItemEntries(ls.clusterRoles)
    ensures ClusterRoleBindingEntries(SnapshotOf(ls)) == ItemEntries(ls.clusterRoleBindings)
    ensures RoleEntries(SnapshotOf(ls)) == ItemEntries(ls.roles)
    ensures RoleBindingEntries(SnapshotOf(ls)) == ItemEntries(ls.roleBindings)
  {
  }

  /** The snapshot field by field: one entry for each listed object in listing order, with
      its name, its namespace and its rules, or its RoleRef and its Subjects; and nil for
      a kind of which there is no object. */
  lemma SnapshotFields(c: Cluster, ls: Listings)
    requires AreListings(c, ls)
    ensures var b, w, x, y, z := SnapshotOf(ls), ls.clusterRoles, ls.clusterRoleBindings, ls.roles, ls.roleBindings;
      (b.clusterRoles.Nil? <==> w == []) && (b.clusterRoleBindings.Nil? <==> x == [])
      && (b.roles.Nil? <==> y == []) && (b.roleBindings.Nil? <==> z == [])
      && |b.clusterRoles.Elems()| == |w| && |b.clusterRoleBindings.Elems()| == |x|
      && |b.roles.Elems()| == |y| && |b.roleBindings.Elems()| == |z|
      && (forall i :: 0 <= i < |w| ==>
            var key, content := w[i].key, w[i].obj.content;
            content.Rules? && b.clusterRoles.Elems()[i] == ClusterRoleBaseline(key.name, content.rules))
      && (forall i :: 0 <= i < |x| ==>
            var key, content := x[i].key, x[i].obj.content;
            content.Binding? && b.clusterRoleBindings.Elems()[i]
              == ClusterRoleBindingBaseline(key.name, content.roleRef, content.subjects))
      && (forall i :: 0 <= i < |y| ==>
            var key, content := y[i].key, y[i].obj.content;
            content.Rules? && b.roles.Elems()[i] == RoleBaseline(key.name, key.namespace, content.rules))
      && (forall i :: 0 <= i < |z| ==>
            var key, content := z[i].key, z[i].obj.content;
            content.Binding? && b.roleBindings.Elems()[i]
              == RoleBindingBaseline(key.name, key.namespace, content.roleRef, content.subjects))
  {
  }

  lemma SnapshotHasEveryKey(c: Cluster, ls: Listings)
    requires AreListings(c, ls)
    ensures KeysOf(Entries(SnapshotOf(ls))) == c.Keys
  {
    var a, b, d, e := ItemEntries(ls.clusterRoles), ItemEntries(ls.clusterRoleBindings), ItemEntries(ls.roles),
      ItemEntries(ls.roleBindings);
    assert Entries(SnapshotOf(ls)) == a + b + d + e by { SnapshotEntries(c, ls); }
    KeysOfFour(a, b, d, e);
    KeysOfListing(c, ClusterRole, ls.clusterRoles);
    KeysOfListing(c, ClusterRoleBinding, ls.clusterRoleBindings);
    KeysOfListing(c, Role, ls.roles);
    KeysOfListing(c, RoleBinding, ls.roleBindings);
  }

  lemma KeysOfListing(c: Cluster, kind: Kind, items: seq<Item>)
    requires IsListing(c, kind, items)
    ensures KeysOf(ItemEntries(items)) == set k | k in c && k.kind == kind
  {
    forall k | k in c && k.kind == kind ensures k in KeysOf(ItemEntries(items)) {
      var i :| 0 <= i < |items| && items[i].key == k;
      assert ItemEntries(items)[i].key == k;
    }
  }

  /** The entries hold what the cluster held. */
  ghost predicate Copies(es: seq<Entry>, c: Cluster) {
    forall i :: 0 <= i < |es| ==> es[i].key in c && es[i].want == c[es[i].key].content
  }

  lemma SnapshotCopies(c: Cluster, ls: Listings)
    requires AreListings(c, ls)
    ensures Copies(Entries(SnapshotOf(ls)), c)
  {
    SnapshotEntries(c, ls);
    var a, b, d, e := ItemEntries(ls.clusterRoles), ItemEntries(ls.clusterRoleBindings), ItemEntries(ls.roles),
      ItemEntries(ls.roleBindings);
    assert Copies(a, c) && Copies(b, c) && Copies(d, c) && Copies(e, c);
  }

  lemma ContentMatchesItself(x: Content)
    ensures Matches(x, x)
  {
  }

  /** On an unchanged cluster a snapshot shows no drift: not as the spec's baseline,
      whatever is excluded and however the cluster is listed later, and not in the
      snapshot check. */
  lemma SnapshotRoundTrip(c: Cluster, ls: Listings, later: Listings, ex: Exclusions, now: int)
    requires AreListings(c, ls) && AreListings(c, later)
    ensures AllDrift(Entries(SnapshotOf(ls)), c, later, ex, now) == []
    ensures PureDrift(ClusterRoleEntries(SnapshotOf(ls)), c, now) == []
  {
    SnapshotHasEveryKey(c, ls);
    SnapshotCopies(c, ls);
    var es := Entries(SnapshotOf(ls));
    forall i | 0 <= i < |es| ensures Matches(es[i].want, c[es[i].key].content) {
      ContentMatchesItself(es[i].want);
    }
    AgreementMeansNoDrift(es, c, later, ex, now);
    SnapshotCheckIsExact(c, ls, c, now);
    forall k | k in c && k.kind.ClusterRole? ensures Matches(c[k].content, c[k].content) {
      ContentMatchesItself(c[k].content);
    }
  }

  /** The snapshot check is silent exactly when every captured ClusterRole is still
      there with matching rules: new ClusterRoles and the other kinds are not seen. */
  lemma SnapshotCheckIsExact(c: Cluster, ls: Listings, c': Cluster, now: int)
    requires AreListings(c, ls)
    ensures PureDrift(ClusterRoleEntries(SnapshotOf(ls)), c', now) == [] <==>
      forall k :: k in c && k.kind.ClusterRole? ==> k in c' && Matches(c[k].content, c'[k].content)
  {
    SnapshotEntries(c, ls);
    var items := ls.clusterRoles;
    var es := ItemEntries(items);
    NoDriftMeansMatching(es, c', now);
    forall k | k in c && k.kind.ClusterRole?
      ensures exists i :: 0 <= i < |es| && es[i].key == k && es[i].want == c[k].content
    {
      var i :| 0 <= i < |items| && items[i].key == k;
      assert es[i].key == k;
    }
  }

  lemma PureDriftConcat(es: seq<Entry>, es': seq<Entry>, c: Cluster, now: int)
    ensures PureDrift(es + es', c, now) == PureDrift(es, c, now) + PureDrift(es', c, now)
  {
    assert Lookups(es + es', c) == Lookups(es, c) + Lookups(es', c);
    CheckDriftConcat(es, Lookups(es, c), es', Lookups(es', c), now);
  }

  /** What a snapshot check finds is what a rules check against the same baseline would
      find first, and all that it would find about ClusterRoles. */
  lemma SnapshotCheckIsAPrefix(b: Baseline, c: Cluster, now: int)
    ensures var part, all := PureDrift(ClusterRoleEntries(b), c, now), PureDrift(Entries(b), c, now);
      part <= all && (forall d :: d in part ==> d.key.kind == ClusterRole)
      && forall d :: d in all[|part|..] ==> d.key.kind != ClusterRole
  {
    var roles, others := ClusterRoleEntries(b), ClusterRoleBindingEntries(b) + RoleEntries(b) + RoleBindingEntries(b);
    assert Entries(b) == roles + others;
    PureDriftConcat(roles, others, c, now);
    forall d | d in PureDrift(roles, c, now) ensures d.key.kind == ClusterRole {
      DriftMembers(roles, c, now, d);
    }
    forall d | d in PureDrift(others, c, now) ensures d.key.kind != ClusterRole {
      DriftMembers(others, c, now, d);
    }
  }
}
