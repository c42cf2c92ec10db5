/** `shouldExclude` and the four `detectUnexpected...` functions. */
module Detect {
  import opened Prelude
  import opened Rbac
  import opened Drift
  import opened Unexpected
  import opened DriftTheorems
  import opened Api

  method ShouldExclude(name: string, annotations: set<string>, ex: Exclusions) returns (b: bool)
    ensures b == Excluded(name, annotations, ex)
    ensures b <==> (exists p :: p in ex.patterns && p <= name) || (exists a :: a in ex.annotations && a in annotations)
  {
    ExcludedMeans(name, annotations, ex);
    for i := 0 to |ex.patterns|
      invariant forall k :: 0 <= k < i ==> !(ex.patterns[k] <= name)
    {
      if ex.patterns[i] <= name { return true; }
    }
    for i := 0 to |ex.annotations|
      invariant forall k :: 0 <= k < i ==> ex.annotations[k] !in annotations
    {
      if ex.annotations[i] in annotations { return true; }
    }
    return false;
  }

  /** The second loop of a detector whose set holds names, for cluster-scoped kinds. */
  method OutsideNames(items: seq<Item>, names: set<string>, ex: Exclusions, now: int, ghost kind: Kind,
                      ghost known: set<Key>)
    returns (drifts: seq<RBACDrift>)
    requires !kind.Namespaced() && WellTypedItems(kind, items)
    requires forall name :: name in names <==> Key(kind, "", name) in known
    ensures drifts == UnexpectedOf(items, known, ex, now)
  {
    drifts := [];
    for i := 0 to |items|
      invariant drifts == UnexpectedOf(items[..i], known, ex, now)
    {
      var item := items[i];
      assert item.key == Key(kind, "", item.key.name);
      assert items[..i + 1][..i] == items[..i];
      if item.key.name in names { continue; }
      var excluded := ShouldExclude(item.key.name, item.obj.annotations, ex);
      if excluded { continue; }
      drifts := drifts + [RBACDrift(item.key, DriftType.Unexpected, now)];
    }
    assert items[..|items|] == items;
  }

  /** The second loop of a detector whose set holds pairs of namespace and name. */
  method OutsidePairs(items: seq<Item>, pairs: set<(string, string)>, ex: Exclusions, now: int, ghost kind: Kind,
                      ghost known: set<Key>)
    returns (drifts: seq<RBACDrift>)
    requires WellTypedItems(kind, items)
    requires forall ns, name :: (ns, name) in pairs <==> Key(kind, ns, name) in known
    ensures drifts == UnexpectedOf(items, known, ex, now)
  {
    drifts := [];
    for i := 0 to |items|
      invariant drifts == UnexpectedOf(items[..i], known, ex, now)
    {
      var item := items[i];
      assert item.key == Key(kind, item.key.namespace, item.key.name);
      assert items[..i + 1][..i] == items[..i];
      if (item.key.namespace, item.key.name) in pairs { continue; }
      var excluded := ShouldExclude(item.key.name, item.obj.annotations, ex);
      if excluded { continue; }
      drifts := drifts + [RBACDrift(item.key, DriftType.Unexpected, now)];
    }
    assert items[..|items|] == items;
  }

  /** What a detector returns for the response of its `List`: None is an error. */
  function Detected(r: Option<seq<Item>>, known: set<Key>, ex: Exclusions, now: int): Option<seq<RBACDrift>> {
    if r.None? then None else Some(UnexpectedOf(r.value, known, ex, now))
  }

  method DetectUnexpectedCRBs<R>(client: Client, b: BaselineOf<R>, ex: Exclusions, now: int)
    returns (drifts: Option<seq<RBACDrift>>, ghost r: Option<seq<Item>>)
    modifies client
    ensures client.log == old(client.log) + [Access(List(ClusterRoleBinding), Listed(r))]
    ensures drifts == Detected(r, KeysOf(Entries(b)), ex, now)
  {
    var items := client.List(ClusterRoleBinding);
    r := items;
    if items.None? { return None, r; }
    var names: set<string> := {};
    var s := b.clusterRoleBindings.Elems();
    for i := 0 to |s|
      invariant names == set k | 0 <= k < i :: s[k].name
    {
      names := names + {s[i].name};
    }
    forall name ensures name in names <==> Key(ClusterRoleBinding, "", name) in KeysOf(Entries(b)) {
      KeysByKind(b, Key(ClusterRoleBinding, "", name));
    }
    var found := OutsideNames(items.value, names, ex, now, ClusterRoleBinding, KeysOf(Entries(b)));
    drifts := Some(found);
  }

  method DetectUnexpectedClusterRoles<R>(client: Client, b: BaselineOf<R>, ex: Exclusions, now: int)
    returns (drifts: Option<seq<RBACDrift>>, ghost r: Option<seq<Item>>)
    modifies client
    ensures client.log == old(client.log) + [Access(List(ClusterRole), Listed(r))]
    ensures drifts == Detected(r, KeysOf(Entries(b)), ex, now)
  {
    var items := client.List(ClusterRole);
    r := items;
    if items.None? { return None, r; }
    var names: set<string> := {};
    var s := b.clusterRoles.Elems();
    for i := 0 to |s|
      invariant names == set k | 0 <= k < i :: s[k].name
    {
      names := names + {s[i].name};
    }
    forall name ensures name in names <==> Key(ClusterRole, "", name) in KeysOf(Entries(b)) {
      KeysByKind(b, Key(ClusterRole, "", name));
    }
    var found := OutsideNames(items.value, names, ex, now, ClusterRole, KeysOf(Entries(b)));
    drifts := Some(found);
  }

  method DetectUnexpectedRBs<R>(client: Client, b: BaselineOf<R>, ex: Exclusions, now: int)
    returns (drifts: Option<seq<RBACDrift>>, ghost r: Option<seq<Item>>)
    modifies client
    ensures client.log == old(client.log) + [Access(List(RoleBinding), Listed(r))]
    ensures drifts == Detected(r, KeysOf(Entries(b)), ex, now)
  {
    var items := client.List(RoleBinding);
    r := items;
    if items.None? { return None, r; }
    var pairs: set<(string, string)> := {};
    var s := b.roleBindings.Elems();
    for i := 0 to |s|
      invariant pairs == set k | 0 <= k < i :: (s[k].namespace, s[k].name)
    {
      pairs := pairs + {(s[i].namespace, s[i].name)};
    }
    forall ns, name ensures (ns, name) in pairs <==> Key(RoleBinding, ns, name) in KeysOf(Entries(b)) {
      KeysByKind(b, Key(RoleBinding, ns, name));
    }
    var found := OutsidePairs(items.value, pairs, ex, now, RoleBinding, KeysOf(Entries(b)));
    drifts := Some(found);
  }

  method DetectUnexpectedRoles<R>(client: Client, b: BaselineOf<R>, ex: Exclusions, now: int)
    returns (drifts: Option<seq<RBACDrift>>, ghost r: Option<seq<Item>>)
    modifies client
    ensures client.log == old(client.log) + [Access(List(Role), Listed(r))]
    ensures drifts == Detected(r, KeysOf(Entries(b)), ex, now)
  {
    var items := client.List(Role);
    r := items;
    if items.None? { return None, r; }
    var pairs: set<(string, string)> := {};
    var s := b.roles.Elems();
    for i := 0 to |s|
      invariant pairs == set k | 0 <= k < i :: (s[k].namespace, s[k].name)
    {
      pairs := pairs + {(s[i].namespace, s[i].name)};
    }
    forall ns, name ensures (ns, name) in pairs <==> Key(Role, ns, name) in KeysOf(Entries(b)) {
      KeysByKind(b, Key(Role, ns, name));
    }
    var found := OutsidePairs(items.value, pairs, ex, now, Role, KeysOf(Entries(b)));
    drifts := Some(found);
  }

  /** What the four detectors report, in the order in which they run. */
  function DetectionOf(rs: seq<Option<seq<Item>>>, known: set<Key>, ex: Exclusions, now: int): seq<RBACDrift>
    requires |rs| == 4
  {
    UnexpectedIn(rs[0], known, ex, now) + UnexpectedIn(rs[1], known, ex, now)
    + UnexpectedIn(rs[2], known, ex, now) + UnexpectedIn(rs[3], known, ex, now)
  }

  /** The accesses of a detection. */
  function DetectionAccesses(rs: seq<Option<seq<Item>>>): seq<Access>
    requires |rs| == 4
  {
    [Access(List(ClusterRoleBinding), Listed(rs[0])), Access(List(ClusterRole), Listed(rs[1])),
     Access(List(RoleBinding), Listed(rs[2])), Access(List(Role), Listed(rs[3]))]
  }

  /** `DetectUnexpectedDrifts` up to the events: a detector that fails is skipped. */
  method DetectUnexpectedDrifts<R>(client: Client, b: BaselineOf<R>, ex: Exclusions, now: int)
    returns (items: seq<RBACDrift>, ghost rs: seq<Option<seq<Item>>>)
    modifies client
    ensures |rs| == 4 && client.log == old(client.log) + DetectionAccesses(rs)
    ensures items == DetectionOf(rs, KeysOf(Entries(b)), ex, now)
  {
    var crbs, crs, rbs, roles;
    ghost var r0, r1, r2, r3;
    items := [];
    crbs, r0 := DetectUnexpectedCRBs(client, b, ex, now);
    if crbs.Some? { items := items + crbs.value; }
    crs, r1 := DetectUnexpectedClusterRoles(client, b, ex, now);
    ghost var known := KeysOf(Entries(b));
    assert items == UnexpectedIn(r0, known, ex, now);
    if crs.Some? { items := items + crs.value; }
    assert items == UnexpectedIn(r0, known, ex, now) + UnexpectedIn(r1, known, ex, now);
    rbs, r2 := DetectUnexpectedRBs(client, b, ex, now);
    if rbs.Some? { items := items + rbs.value; }
    assert items
      == UnexpectedIn(r0, known, ex, now) + UnexpectedIn(r1, known, ex, now) + UnexpectedIn(r2, known, ex, now);
    roles, r3 := DetectUnexpectedRoles(client, b, ex, now);
    if roles.Some? { items := items + roles.value; }
    rs := [r0, r1, r2, r3];
  }

  /** The response lists an object with this key that is neither known nor excluded. */
  ghost predicate ListsUnexpected(r: Option<seq<Item>>, known: set<Key>, ex: Exclusions, k: Key) {
    r.Some? && k !in known
    && exists item :: item in r.value && item.key == k
         && (forall p :: p in ex.patterns ==> !(|p| <= |k.name| && k.name[..|p|] == p))
         && (forall a :: a in ex.annotations ==> a !in item.obj.annotations)
  }

  lemma ResponseMembers(r: Option<seq<Item>>, known: set<Key>, ex: Exclusions, now: int, d: RBACDrift)
    ensures d in UnexpectedIn(r, known, ex, now) <==>
      d.detectedAt == now && d.driftType == DriftType.Unexpected && ListsUnexpected(r, known, ex, d.key)
  {
    if r.Some? {
      UnexpectedMembers(r.value, known, ex, now, d);
      forall item | item in r.value { ExcludedMeans(item.key.name, item.obj.annotations, ex); }
    }
  }

  /** The detection reports what some list that did not fail lists, and nothing else:
      a failed list hides its own kind and no other. */
  lemma DetectionMembers(rs: seq<Option<seq<Item>>>, known: set<Key>, ex: Exclusions, now: int, d: RBACDrift)
    requires |rs| == 4
    ensures d in DetectionOf(rs, known, ex, now) <==>
      d.detectedAt == now && d.driftType == DriftType.Unexpected
      && exists i :: 0 <= i < 4 && ListsUnexpected(rs[i], known, ex, d.key)
  {
    ResponseMembers(rs[0], known, ex, now, d);
    ResponseMembers(rs[1], known, ex, now, d);
    ResponseMembers(rs[2], known, ex, now, d);
    ResponseMembers(rs[3], known, ex, now, d);
  }

  /** With all four lists successful, the detectors together report `AllUnexpected`. */
  lemma DetectionIsComplete(ls: Listings, known: set<Key>, ex: Exclusions, now: int)
    ensures DetectionOf([Some(ls.clusterRoleBindings), Some(ls.clusterRoles), Some(ls.roleBindings), Some(ls.roles)],
      known, ex, now)
      == AllUnexpected(ls, known, ex, now)
  {
  }
}
