/** The RBAC resources of a cluster and the baselines they are compared with. */
module Rbac {
  import opened Prelude
  import opened PolicyRules

  datatype Kind = ClusterRole | ClusterRoleBinding | Role | RoleBinding {
    predicate Namespaced() {
      Role? || RoleBinding?
    }

    predicate HoldsRules() {
      ClusterRole? || Role?
    }
  }

  /** What a `Get` asks for.  Cluster-scoped resources have the empty namespace. */
  datatype Key = Key(kind: Kind, namespace: string, name: string)

  datatype RoleRef = RoleRef(apiGroup: string, kind: string, name: string)

  datatype Subject = Subject(kind: string, apiGroup: string, name: string, namespace: string)

  /** The part of a resource that a baseline fixes, its rules being R's. */
  datatype ContentOf<R> =
    | Rules(rules: Slice<R>)
    | Binding(roleRef: RoleRef, subjects: Slice<Subject>)

  type Content = ContentOf<Rule>

  datatype Object = Object(content: Content, annotations: set<string>)

  predicate WellTyped(key: Key, content: Content) {
    content.Rules? == key.kind.HoldsRules() && (key.kind.Namespaced() || key.namespace == "")
  }

  ghost predicate IsCluster(c: map<Key, Object>) {
    forall k :: k in c ==> WellTyped(k, c[k].content)
  }

  /** The RBAC resources stored in the API server. */
  type Cluster = c: map<Key, Object> | IsCluster(c) witness map[]

  /** A resource as a `List` returns it. */
  datatype Item = Item(key: Key, obj: Object)

  /** `items` lists every resource of the kind exactly once, in some order. */
  ghost predicate IsListing(c: Cluster, kind: Kind, items: seq<Item>) {
    (forall i, j :: 0 <= i < j < |items| ==> items[i].key != items[j].key)
    && (forall i :: 0 <= i < |items| ==>
          items[i].key.kind == kind && items[i].key in c && items[i].obj == c[items[i].key])
    && (forall k :: k in c && k.kind == kind ==> exists i :: 0 <= i < |items| && items[i].key == k)
  }

  /** The API server can always list. */
  lemma {:induction false} SomeListing(c: Cluster, kind: Kind, ks: set<Key>) returns (items: seq<Item>)
    requires ks <= c.Keys && forall k :: k in ks ==> k.kind == kind
    ensures forall i, j :: 0 <= i < j < |items| ==> items[i].key != items[j].key
    ensures forall i :: 0 <= i < |items| ==> items[i].key in ks && items[i].obj == c[items[i].key]
    ensures forall k :: k in ks ==> exists i :: 0 <= i < |items| && items[i].key == k
  {
    if ks == {} {
      items := [];
    } else {
      var x :| x in ks;
      var rest := SomeListing(c, kind, ks - {x});
      items := rest + [Item(x, c[x])];
      forall k | k in ks ensures exists i :: 0 <= i < |items| && items[i].key == k {
        if k == x {
          assert items[|rest|].key == k;
        } else {
          assert k in ks - {x};
          var i :| 0 <= i < |rest| && rest[i].key == k;
          assert items[i].key == k;
        }
      }
    }
  }

  lemma ListingExists(c: Cluster, kind: Kind) returns (items: seq<Item>)
    ensures IsListing(c, kind, items)
  {
    var ks := set k | k in c && k.kind == kind;
    items := SomeListing(c, kind, ks);
    assert forall k :: k in c && k.kind == kind ==> k in ks;
  }

  // ---- baselines ----------------------------------------------------------

  /* The four baseline structs.  R is the type of a rule: `PolicyRule` as the program
     holds it, with lists on the heap, or `Rule` as a value. */
  datatype ClusterRoleBaseline<R> = ClusterRoleBaseline(name: string, rules: Slice<R>)
  datatype ClusterRoleBindingBaseline =
    ClusterRoleBindingBaseline(name: string, roleRef: RoleRef, subjects: Slice<Subject>)
  datatype RoleBaseline<R> = RoleBaseline(name: string, namespace: string, rules: Slice<R>)
  datatype RoleBindingBaseline =
    RoleBindingBaseline(name: string, namespace: string, roleRef: RoleRef, subjects: Slice<Subject>)

  datatype BaselineOf<R> = RBACBaseline(
    clusterRoles: Slice<ClusterRoleBaseline<R>>,
    clusterRoleBindings: Slice<ClusterRoleBindingBaseline>,
    roles: Slice<RoleBaseline<R>>,
    roleBindings: Slice<RoleBindingBaseline>)

  /** A baseline as a value. */
  type Baseline = BaselineOf<Rule>

  /** One expected resource. */
  datatype EntryOf<R> = Entry(key: Key, want: ContentOf<R>)

  type Entry = EntryOf<Rule>

  function ClusterRoleEntries<R>(b: BaselineOf<R>): seq<EntryOf<R>> {
    var s := b.clusterRoles.Elems();
    seq(|s|, i requires 0 <= i < |s| => Entry(Key(ClusterRole, "", s[i].name), Rules(s[i].rules)))
  }

  function ClusterRoleBindingEntries<R>(b: BaselineOf<R>): seq<EntryOf<R>> {
    var s := b.clusterRoleBindings.Elems();
    seq(|s|, i requires 0 <= i < |s| =>
      Entry(Key(ClusterRoleBinding, "", s[i].name), Binding(s[i].roleRef, s[i].subjects)))
  }

  function RoleEntries<R>(b: BaselineOf<R>): seq<EntryOf<R>> {
    var s := b.roles.Elems();
    seq(|s|, i requires 0 <= i < |s| => Entry(Key(Role, s[i].namespace, s[i].name), Rules(s[i].rules)))
  }

  function RoleBindingEntries<R>(b: BaselineOf<R>): seq<EntryOf<R>> {
    var s := b.roleBindings.Elems();
    seq(|s|, i requires 0 <= i < |s| =>
      Entry(Key(RoleBinding, s[i].namespace, s[i].name), Binding(s[i].roleRef, s[i].subjects)))
  }

  /** The expected resources, in the order in which the check visits them. */
  function Entries<R>(b: BaselineOf<R>): seq<EntryOf<R>> {
    ClusterRoleEntries(b) + ClusterRoleBindingEntries(b) + RoleEntries(b) + RoleBindingEntries(b)
  }

  ghost predicate References<R>(es: seq<EntryOf<R>>, key: Key) {
    exists i :: 0 <= i < |es| && es[i].key == key
  }

  ghost predicate UniqueKeys<R>(es: seq<EntryOf<R>>) {
    forall i, j :: 0 <= i < j < |es| ==> es[i].key != es[j].key
  }

  ghost predicate WellTypedEntries(es: seq<Entry>) {
    forall i :: 0 <= i < |es| ==> WellTyped(es[i].key, es[i].want)
  }

  lemma EntriesAreWellTyped(b: Baseline)
    ensures WellTypedEntries(Entries(b))
  {
  }

  // ---- keys ---------------------------------------------------------------

  function KeysOf<R>(es: seq<EntryOf<R>>): set<Key> {
    set i | 0 <= i < |es| :: es[i].key
  }

  lemma KeysOfConcat<R>(a: seq<EntryOf<R>>, b: seq<EntryOf<R>>)
    ensures KeysOf(a + b) == KeysOf(a) + KeysOf(b)
  {
    var s := a + b;
    forall i | 0 <= i < |a| ensures a[i].key in KeysOf(s) { assert s[i] == a[i]; }
    forall i | 0 <= i < |b| ensures b[i].key in KeysOf(s) { assert s[|a| + i] == b[i]; }
  }

  lemma KeysOfFour<R>(a: seq<EntryOf<R>>, b: seq<EntryOf<R>>, d: seq<EntryOf<R>>, e: seq<EntryOf<R>>)
    ensures KeysOf(a + b + d + e) == KeysOf(a) + KeysOf(b) + KeysOf(d) + KeysOf(e)
  {
    KeysOfConcat(a + b + d, e);
    KeysOfConcat(a + b, d);
    KeysOfConcat(a, b);
  }

  ghost predicate NamesClusterRole<R>(b: BaselineOf<R>, name: string) {
    exists i :: 0 <= i < |b.clusterRoles.Elems()| && b.clusterRoles.Elems()[i].name == name
  }

  ghost predicate NamesClusterRoleBinding<R>(b: BaselineOf<R>, name: string) {
    exists i :: 0 <= i < |b.clusterRoleBindings.Elems()| && b.clusterRoleBindings.Elems()[i].name == name
  }

  ghost predicate NamesRole<R>(b: BaselineOf<R>, ns: string, name: string) {
    exists i :: 0 <= i < |b.roles.Elems()| && b.roles.Elems()[i].namespace == ns && b.roles.Elems()[i].name == name
  }

  ghost predicate NamesRoleBinding<R>(b: BaselineOf<R>, ns: string, name: string) {
    exists i :: 0 <= i < |b.roleBindings.Elems()|
      && b.roleBindings.Elems()[i].namespace == ns && b.roleBindings.Elems()[i].name == name
  }

  /** The key set of a baseline is made of the names in its four lists. */
  lemma KeysByKind<R>(b: BaselineOf<R>, key: Key)
    ensures key in KeysOf(Entries(b)) <==>
      match key.kind
      case ClusterRole => key.namespace == "" && NamesClusterRole(b, key.name)
      case ClusterRoleBinding => key.namespace == "" && NamesClusterRoleBinding(b, key.name)
      case Role => NamesRole(b, key.namespace, key.name)
      case RoleBinding => NamesRoleBinding(b, key.namespace, key.name)
  {
    var w, x, y, z := ClusterRoleEntries(b), ClusterRoleBindingEntries(b), RoleEntries(b), RoleBindingEntries(b);
    KeysOfFour(w, x, y, z);
    match key.kind
    case ClusterRole =>
      assert key in KeysOf(w) <==> key.namespace == "" && NamesClusterRole(b, key.name) by {
        if i :| 0 <= i < |b.clusterRoles.Elems()| && b.clusterRoles.Elems()[i].name == key.name {
          assert w[i].key == Key(ClusterRole, "", key.name);
        }
      }
    case ClusterRoleBinding =>
      assert key in KeysOf(x) <==> key.namespace == "" && NamesClusterRoleBinding(b, key.name) by {
        if i :| 0 <= i < |b.clusterRoleBindings.Elems()| && b.clusterRoleBindings.Elems()[i].name == key.name {
          assert x[i].key == Key(ClusterRoleBinding, "", key.name);
        }
      }
    case Role =>
      assert key in KeysOf(y) <==> NamesRole(b, key.namespace, key.name) by {
        var s := b.roles.Elems();
        if i :| 0 <= i < |s| && s[i].namespace == key.namespace && s[i].name == key.name {
          assert y[i].key == key;
        }
      }
    case RoleBinding =>
      assert key in KeysOf(z) <==> NamesRoleBinding(b, key.namespace, key.name) by {
        var s := b.roleBindings.Elems();
        if i :| 0 <= i < |s| && s[i].namespace == key.namespace && s[i].name == key.name {
          assert z[i].key == key;
        }
      }
  }

  /** The baseline names the key. */
  ghost predicate Names<R>(b: BaselineOf<R>, k: Key) {
    match k.kind
    case ClusterRole => k.namespace == "" && exists e :: e in b.clusterRoles.Elems() && e.name == k.name
    case ClusterRoleBinding => k.namespace == "" && exists e :: e in b.clusterRoleBindings.Elems() && e.name == k.name
    case Role => exists e :: e in b.roles.Elems() && e.namespace == k.namespace && e.name == k.name
    case RoleBinding => exists e :: e in b.roleBindings.Elems() && e.namespace == k.namespace && e.name == k.name
  }

  lemma NamesAreKeys<R>(b: BaselineOf<R>, k: Key)
    ensures Names(b, k) <==> k in KeysOf(Entries(b))
  {
    KeysByKind(b, k);
  }
}
