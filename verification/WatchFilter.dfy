/** The watch filter `baselineReferencesResource` against what the check reads. */
module WatchFilter {
  import opened Prelude
  import opened Rbac
  import opened Drift

  /** A create, update or delete of one resource. */
  datatype Change = Change(key: Key, obj: Option<Object>) {
    ghost predicate Valid() {
      obj.Some? ==> WellTyped(key, obj.value.content)
    }
  }

  ghost function Apply(c: Cluster, ch: Change): Cluster
    requires ch.Valid()
  {
    if ch.obj.Some? then c[ch.key := ch.obj.value] else c - {ch.key}
  }

  ghost function ApplyAll(c: Cluster, chs: seq<Change>): Cluster
    requires forall i :: 0 <= i < |chs| ==> chs[i].Valid()
  {
    if chs == [] then c else Apply(ApplyAll(c, chs[..|chs| - 1]), chs[|chs| - 1])
  }

  /** The drift list depends only on the keys that the baseline names. */
  lemma DriftFrame(es: seq<Entry>, c: Cluster, c': Cluster, now: int)
    requires forall i :: 0 <= i < |es| ==> Lookup(c, es[i].key) == Lookup(c', es[i].key)
    ensures PureDrift(es, c, now) == PureDrift(es, c', now)
  {
    assert Lookups(es, c) == Lookups(es, c');
  }

  /** No sequence of changes that the filter drops can change the drift list. */
  lemma {:induction false} DroppedChangesAreInvisible(es: seq<Entry>, c: Cluster, chs: seq<Change>, now: int)
    requires forall i :: 0 <= i < |chs| ==> chs[i].Valid() && !References(es, chs[i].key)
    ensures PureDrift(es, ApplyAll(c, chs), now) == PureDrift(es, c, now)
  {
    if chs != [] {
      var init, last := chs[..|chs| - 1], chs[|chs| - 1];
      DroppedChangesAreInvisible(es, c, init, now);
      DriftFrame(es, ApplyAll(c, init), Apply(ApplyAll(c, init), last), now);
    }
  }

  /** Whatever the cluster holds, some change of a named resource changes the drift list. */
  lemma NamedChangesAreVisible(es: seq<Entry>, c: Cluster, k: Key, now: int) returns (ch: Change)
    requires WellTypedEntries(es) && References(es, k)
    ensures ch.key == k && ch.Valid()
    ensures PureDrift(es, Apply(c, ch), now) != PureDrift(es, c, now)
  {
    var i :| 0 <= i < |es| && es[i].key == k;
    ch := Change(k, if k in c then None else Some(Object(es[i].want, {})));
    var gone := RBACDrift(k, Deleted, now);
    DriftMembers(es, c, now, gone);
    DriftMembers(es, Apply(c, ch), now, gone);
    assert Drifted(es[i], c, Deleted) || Drifted(es[i], Apply(c, ch), Deleted);
  }

  /** So the filter is exact: it accepts a resource if and only if changing that
      resource alone can change the drift list. */
  lemma FilterIsExact(b: Baseline, c: Cluster, k: Key, now: int)
    ensures var es := Entries(b);
      References(es, k) <==>
        exists ch: Change :: ch.key == k && ch.Valid() && PureDrift(es, Apply(c, ch), now) != PureDrift(es, c, now)
  {
    var es := Entries(b);
    EntriesAreWellTyped(b);
    if References(es, k) {
      var ch := NamedChangesAreVisible(es, c, k, now);
    } else {
      forall ch: Change | ch.key == k && ch.Valid()
        ensures PureDrift(es, Apply(c, ch), now) == PureDrift(es, c, now)
      {
        DriftFrame(es, c, Apply(c, ch), now);
      }
    }
  }

  // ---- the filter itself --------------------------------------------------

  /** `baselineReferencesResource`: the kind selects one of four linear searches.  A
      cluster-scoped resource has no namespace to compare. */
  method BaselineReferencesResource<R>(b: BaselineOf<R>, key: Key) returns (found: bool)
    requires key.kind.Namespaced() || key.namespace == ""
    ensures found == References(Entries(b), key)
    ensures key.kind == ClusterRole ==> (found <==> exists e :: e in b.clusterRoles.Elems() && e.name == key.name)
    ensures key.kind == ClusterRoleBinding ==>
      (found <==> exists e :: e in b.clusterRoleBindings.Elems() && e.name == key.name)
    ensures key.kind == Role ==>
      (found <==> exists e :: e in b.roles.Elems() && e.namespace == key.namespace && e.name == key.name)
    ensures key.kind == RoleBinding ==>
      (found <==> exists e :: e in b.roleBindings.Elems() && e.namespace == key.namespace && e.name == key.name)
  {
    NamesAreKeys(b, key);
    KeysByKind(b, key);
    assert References(Entries(b), key) <==> key in KeysOf(Entries(b));
    match key.kind {
      case ClusterRole =>
        var s := b.clusterRoles.Elems();
        for i := 0 to |s|
          invariant forall k :: 0 <= k < i ==> s[k].name != key.name
        {
          if s[i].name == key.name { return true; }
        }
      case ClusterRoleBinding =>
        var s := b.clusterRoleBindings.Elems();
        for i := 0 to |s|
          invariant forall k :: 0 <= k < i ==> s[k].name != key.name
        {
          if s[i].name == key.name { return true; }
        }
      case Role =>
        var s := b.roles.Elems();
        for i := 0 to |s|
          invariant forall k :: 0 <= k < i ==> !(s[k].name == key.name && s[k].namespace == key.namespace)
        {
          if s[i].name == key.name && s[i].namespace == key.namespace { return true; }
        }
      case RoleBinding =>
        var s := b.roleBindings.Elems();
        for i := 0 to |s|
          invariant forall k :: 0 <= k < i ==> !(s[k].name == key.name && s[k].namespace == key.namespace)
        {
          if s[i].name == key.name && s[i].namespace == key.namespace { return true; }
        }
    }
    return false;
  }
}
