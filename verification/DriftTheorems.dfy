/** What the rules check and the four detectors say together. */
module DriftTheorems {
  import opened Rbac
  import opened Drift
  import opened Unexpected

  /** The four listings, one per kind. */
  datatype Listings = Listings(
    clusterRoles: seq<Item>, clusterRoleBindings: seq<Item>, roles: seq<Item>, roleBindings: seq<Item>)

  ghost predicate AreListings(c: Cluster, ls: Listings) {
    IsListing(c, ClusterRole, ls.clusterRoles) && IsListing(c, ClusterRoleBinding, ls.clusterRoleBindings)
    && IsListing(c, Role, ls.roles) && IsListing(c, RoleBinding, ls.roleBindings)
  }

  /** The four detectors, in the order in which the program runs them. */
  function AllUnexpected(ls: Listings, known: set<Key>, ex: Exclusions, now: int): seq<RBACDrift> {
    UnexpectedOf(ls.clusterRoleBindings, known, ex, now) + UnexpectedOf(ls.clusterRoles, known, ex, now)
    + UnexpectedOf(ls.roleBindings, known, ex, now) + UnexpectedOf(ls.roles, known, ex, now)
  }

  function AllDrift(es: seq<Entry>, c: Cluster, ls: Listings, ex: Exclusions, now: int): seq<RBACDrift> {
    PureDrift(es, c, now) + AllUnexpected(ls, KeysOf(es), ex, now)
  }

  // ---- zero drift ---------------------------------------------------------

  lemma ListingMembers(c: Cluster, kind: Kind, items: seq<Item>, known: set<Key>, ex: Exclusions, now: int,
                       d: RBACDrift)
    requires IsListing(c, kind, items)
    ensures d in UnexpectedOf(items, known, ex, now) <==>
      d.detectedAt == now && d.driftType == DriftType.Unexpected && d.key.kind == kind
      && d.key in c && d.key !in known && !Excluded(d.key.name, c[d.key].annotations, ex)
  {
    UnexpectedMembers(items, known, ex, now, d);
    if d.key in c && d.key.kind == kind {
      var i :| 0 <= i < |items| && items[i].key == d.key;
    }
  }

  /** Over complete listings the detectors report exactly the resources of the cluster
      that are not known, with no pattern as a prefix of their name and no excluding
      annotation. */
  lemma UnexpectedExactly(c: Cluster, ls: Listings, known: set<Key>, ex: Exclusions, now: int, d: RBACDrift)
    requires AreListings(c, ls)
    ensures d in AllUnexpected(ls, known, ex, now) <==>
      d.detectedAt == now && d.driftType == DriftType.Unexpected && d.key in c && d.key !in known
      && (forall p :: p in ex.patterns ==> !(|p| <= |d.key.name| && d.key.name[..|p|] == p))
      && (forall a :: a in ex.annotations ==> a !in c[d.key].annotations)
  {
    AllUnexpectedMembers(c, ls, known, ex, now, d);
    if d.key in c { ExcludedMeans(d.key.name, c[d.key].annotations, ex); }
  }

  lemma AllUnexpectedMembers(c: Cluster, ls: Listings, known: set<Key>, ex: Exclusions, now: int, d: RBACDrift)
    requires AreListings(c, ls)
    ensures d in AllUnexpected(ls, known, ex, now) <==>
      d.detectedAt == now && d.driftType == DriftType.Unexpected
      && d.key in c && d.key !in known && !Excluded(d.key.name, c[d.key].annotations, ex)
  {
    ListingMembers(c, ClusterRoleBinding, ls.clusterRoleBindings, known, ex, now, d);
    ListingMembers(c, ClusterRole, ls.clusterRoles, known, ex, now, d);
    ListingMembers(c, RoleBinding, ls.roleBindings, known, ex, now, d);
    ListingMembers(c, Role, ls.roles, known, ex, now, d);
  }

  /** Every entry is present and matches. */
  ghost predicate AllMatch(es: seq<Entry>, c: Cluster) {
    forall i :: 0 <= i < |es| ==> es[i].key in c && Matches(es[i].want, c[es[i].key].content)
  }

  /** The cluster holds exactly the baseline's keys, and every entry matches. */
  ghost predicate Agrees(es: seq<Entry>, c: Cluster) {
    KeysOf(es) == c.Keys && AllMatch(es, c)
  }

  lemma AgreementMeansNoDrift(es: seq<Entry>, c: Cluster, ls: Listings, ex: Exclusions, now: int)
    requires AreListings(c, ls) && Agrees(es, c)
    ensures AllDrift(es, c, ls, ex, now) == []
  {
    NoDriftMeansMatching(es, c, now);
    var items := AllUnexpected(ls, KeysOf(es), ex, now);
    if items != [] {
      assert items[0] in items;
      AllUnexpectedMembers(c, ls, KeysOf(es), ex, now, items[0]);
    }
  }

  lemma NoDriftMeansMatching(es: seq<Entry>, c: Cluster, now: int)
    ensures PureDrift(es, c, now) == [] <==>
      forall i :: 0 <= i < |es| ==> es[i].key in c && Matches(es[i].want, c[es[i].key].content)
  {
    var items := PureDrift(es, c, now);
    if items == [] {
      forall i | 0 <= i < |es| ensures es[i].key in c && Matches(es[i].want, c[es[i].key].content) {
        DriftMembers(es, c, now, RBACDrift(es[i].key, Deleted, now));
        DriftMembers(es, c, now, RBACDrift(es[i].key, Modified, now));
      }
    } else {
      assert items[0] in items;
      DriftMembers(es, c, now, items[0]);
    }
  }

  // ---- reads that fail ----------------------------------------------------

  /** Each read gave what the cluster holds, or failed. */
  ghost predicate ReadsOf(es: seq<Entry>, got: seq<ReadResult>, c: Cluster) {
    |got| == |es| && forall i :: 0 <= i < |es| ==> got[i] == Lookup(c, es[i].key) || got[i].Failed?
  }

  ghost predicate FailuresMatch(es: seq<Entry>, got: seq<ReadResult>, c: Cluster)
    requires |es| == |got|
  {
    forall i :: 0 <= i < |es| && got[i].Failed? ==> es[i].key in c && Matches(es[i].want, c[es[i].key].content)
  }

  lemma InitFailures(es: seq<Entry>, got: seq<ReadResult>, c: Cluster)
    requires |es| == |got| && es != []
    ensures var n := |es| - 1;
      FailuresMatch(es, got, c) <==>
        FailuresMatch(es[..n], got[..n], c)
        && (!got[n].Failed? || (es[n].key in c && Matches(es[n].want, c[es[n].key].content)))
  {
  }

  lemma {:induction false} SubsequenceIsShorter<T(!new)>(a: seq<T>, b: seq<T>)
    requires Subsequence(a, b)
    ensures |a| <= |b|
  {
    if a != [] {
      if Subsequence(a, b[..|b| - 1]) { SubsequenceIsShorter(a, b[..|b| - 1]); }
      else { SubsequenceIsShorter(a[..|a| - 1], b[..|b| - 1]); }
    }
  }

  lemma HiddenOrKept<T(!new)>(a: seq<T>, x: seq<T>, b: seq<T>, y: seq<T>)
    requires Subsequence(a, b) && |y| <= 1 && (x == y || x == [])
    ensures Subsequence(a + x, b + y)
  {
    if y == [] {
      assert a + x == a && b + y == b;
    } else if x == y {
      SubsequenceKeep(a, b, y[0]);
    } else {
      SubsequenceSkip(a, b, y[0]);
      assert a + x == a;
    }
  }

  lemma AppendsAgree<T(!new)>(a: seq<T>, x: seq<T>, b: seq<T>, y: seq<T>)
    requires Subsequence(a, b) && |x| <= |y|
    ensures a + x == b + y <==> a == b && x == y
  {
    SubsequenceIsShorter(a, b);
    if a + x == b + y {
      assert |a + x| == |b + y|;
      assert a == (a + x)[..|a|] && x == (a + x)[|a|..];
      assert b == (b + y)[..|b|] && y == (b + y)[|b|..];
    }
  }

  lemma FailedReadClassified(e: Entry, r: ReadResult, c: Cluster, now: int)
    requires r == Lookup(c, e.key) || r.Failed?
    ensures var all := Classify(e, Lookup(c, e.key), now);
      |Classify(e, r, now)| <= |all| <= 1
      && (Classify(e, r, now) == all <==> !r.Failed? || (e.key in c && Matches(e.want, c[e.key].content)))
      && (Classify(e, r, now) == all || Classify(e, r, now) == [])
  {
  }

  /** A failed read can only hide items, and it hides one exactly when its resource has
      drifted: a check is complete if and only if every failed read was of a match. */
  lemma {:induction false} FailedReadsOnlyHide(es: seq<Entry>, got: seq<ReadResult>, c: Cluster, now: int)
    requires ReadsOf(es, got, c)
    ensures Subsequence(CheckDrift(es, got, now), PureDrift(es, c, now))
    ensures CheckDrift(es, got, now) == PureDrift(es, c, now) <==> FailuresMatch(es, got, c)
  {
    if es != [] {
      var n := |es| - 1;
      FailedReadsOnlyHide(es[..n], got[..n], c, now);
      FailedReadClassified(es[n], got[n], c, now);
      assert Lookups(es, c)[..n] == Lookups(es[..n], c);
      CheckDriftLast(es, got, now);
      CheckDriftLast(es, Lookups(es, c), now);
      HiddenOrKept(CheckDrift(es[..n], got[..n], now), Classify(es[n], got[n], now),
                   PureDrift(es[..n], c, now), Classify(es[n], Lookup(c, es[n].key), now));
      AppendsAgree(CheckDrift(es[..n], got[..n], now), Classify(es[n], got[n], now),
                   PureDrift(es[..n], c, now), Classify(es[n], Lookup(c, es[n].key), now));
      InitFailures(es, got, c);
    }
  }

  const NOTHING_EXCLUDED := Exclusions([], [])

  lemma NothingUnexpectedMeansKnown(c: Cluster, ls: Listings, known: set<Key>, now: int)
    requires AreListings(c, ls)
    ensures AllUnexpected(ls, known, NOTHING_EXCLUDED, now) == [] <==> c.Keys <= known
  {
    var items := AllUnexpected(ls, known, NOTHING_EXCLUDED, now);
    if items == [] {
      forall k | k in c ensures k in known {
        AllUnexpectedMembers(c, ls, known, NOTHING_EXCLUDED, now, RBACDrift(k, DriftType.Unexpected, now));
      }
    } else {
      assert items[0] in items;
      AllUnexpectedMembers(c, ls, known, NOTHING_EXCLUDED, now, items[0]);
    }
  }

  lemma MatchingKeys(es: seq<Entry>, c: Cluster)
    ensures AllMatch(es, c) && c.Keys <= KeysOf(es) <==> Agrees(es, c)
  {
    if AllMatch(es, c) { assert KeysOf(es) <= c.Keys; }
  }

  /** Without exclusions, nothing is reported exactly when baseline and cluster agree. */
  lemma ZeroDrift(es: seq<Entry>, c: Cluster, ls: Listings, now: int)
    requires AreListings(c, ls)
    ensures AllDrift(es, c, ls, NOTHING_EXCLUDED, now) == [] <==> Agrees(es, c)
  {
    assert PureDrift(es, c, now) == [] <==> AllMatch(es, c) by { NoDriftMeansMatching(es, c, now); }
    NothingUnexpectedMeansKnown(c, ls, KeysOf(es), now);
    MatchingKeys(es, c);
  }

  // ---- partition ----------------------------------------------------------

  /** The items about one key, in order. */
  function About(items: seq<RBACDrift>, k: Key): seq<RBACDrift> {
    if items == [] then []
    else
      About(items[..|items| - 1], k) + if items[|items| - 1].key == k then [items[|items| - 1]] else []
  }

  lemma {:induction false} AboutConcat(a: seq<RBACDrift>, b: seq<RBACDrift>, k: Key)
    ensures About(a + b, k) == About(a, k) + About(b, k)
  {
    if b == [] {
      assert a + b == a;
    } else {
      var n := |b| - 1;
      AboutConcat(a, b[..n], k);
      assert (a + b)[..|a + b| - 1] == a + b[..n];
    }
  }

  lemma AboutOne(d: RBACDrift, k: Key)
    ensures About([d], k) == if d.key == k then [d] else []
  {
  }

  lemma AboutClassify(e: Entry, r: ReadResult, now: int, k: Key)
    ensures About(Classify(e, r, now), k) == if e.key == k then Classify(e, r, now) else []
  {
  }

  lemma AboutStep(es: seq<Entry>, c: Cluster, now: int, k: Key)
    requires es != []
    ensures var n := |es| - 1;
      About(PureDrift(es, c, now), k)
        == About(PureDrift(es[..n], c, now), k) + About(Classify(es[n], Lookup(c, es[n].key), now), k)
  {
    var n := |es| - 1;
    assert Lookups(es, c)[..n] == Lookups(es[..n], c);
    AboutConcat(PureDrift(es[..n], c, now), Classify(es[n], Lookup(c, es[n].key), now), k);
  }

  lemma {:induction false} NothingAboutOthers(es: seq<Entry>, c: Cluster, now: int, k: Key)
    requires !References(es, k)
    ensures About(PureDrift(es, c, now), k) == []
  {
    if es != [] {
      var n := |es| - 1;
      assert forall i :: 0 <= i < n ==> es[..n][i] == es[i];
      NothingAboutOthers(es[..n], c, now, k);
      AboutStep(es, c, now, k);
      AboutClassify(es[n], Lookup(c, es[n].key), now, k);
    }
  }

  lemma {:induction false} AboutCheck(es: seq<Entry>, c: Cluster, now: int, k: Key, i: nat)
    requires UniqueKeys(es) && i < |es| && es[i].key == k
    ensures About(PureDrift(es, c, now), k) == Classify(es[i], Lookup(c, k), now)
  {
    var n := |es| - 1;
    assert forall j :: 0 <= j < n ==> es[..n][j] == es[j];
    AboutStep(es, c, now, k);
    AboutClassify(es[n], Lookup(c, es[n].key), now, k);
    if i < n {
      assert es[i].key != es[n].key;
      AboutCheck(es[..n], c, now, k, i);
    } else {
      NothingAboutOthers(es[..n], c, now, k);
    }
  }

  lemma AboutItem(items: seq<Item>, known: set<Key>, ex: Exclusions, now: int, k: Key)
    requires items != []
    ensures var n := |items| - 1;
      About(UnexpectedOf(items, known, ex, now), k)
        == About(UnexpectedOf(items[..n], known, ex, now), k)
           + if IsUnexpected(items[n], known, ex) && items[n].key == k
             then [RBACDrift(k, DriftType.Unexpected, now)] else []
  {
    var n := |items| - 1;
    var d := RBACDrift(items[n].key, DriftType.Unexpected, now);
    AboutOne(d, k);
    AboutConcat(UnexpectedOf(items[..n], known, ex, now), if IsUnexpected(items[n], known, ex) then [d] else [], k);
  }

  lemma {:induction false} AboutListing(items: seq<Item>, known: set<Key>, ex: Exclusions, now: int, k: Key)
    requires forall i, j :: 0 <= i < j < |items| ==> items[i].key != items[j].key
    ensures (forall i :: 0 <= i < |items| ==> items[i].key != k) ==> About(UnexpectedOf(items, known, ex, now), k) == []
    ensures forall i :: 0 <= i < |items| && items[i].key == k ==>
      About(UnexpectedOf(items, known, ex, now), k)
        == if IsUnexpected(items[i], known, ex) then [RBACDrift(k, DriftType.Unexpected, now)] else []
  {
    if items != [] {
      var n := |items| - 1;
      var init := items[..n];
      AboutListing(init, known, ex, now, k);
      AboutItem(items, known, ex, now, k);
      assert forall i :: 0 <= i < n ==> init[i] == items[i];
    }
  }

  /** The unexpected item of a key, if it has one. */
  ghost function UnexpectedItem(c: Cluster, known: set<Key>, ex: Exclusions, now: int, k: Key): seq<RBACDrift> {
    if k in c && k !in known && !Excluded(k.name, c[k].annotations, ex)
    then [RBACDrift(k, DriftType.Unexpected, now)] else []
  }

  lemma AboutKind(c: Cluster, kind: Kind, items: seq<Item>, known: set<Key>, ex: Exclusions, now: int, k: Key)
    requires IsListing(c, kind, items)
    ensures About(UnexpectedOf(items, known, ex, now), k)
      == if k.kind == kind then UnexpectedItem(c, known, ex, now, k) else []
  {
    AboutListing(items, known, ex, now, k);
    if k in c && k.kind == kind {
      var i :| 0 <= i < |items| && items[i].key == k;
    }
  }

  lemma AboutFour(a: seq<RBACDrift>, b: seq<RBACDrift>, d: seq<RBACDrift>, e: seq<RBACDrift>, k: Key)
    ensures About(a + b + d + e, k) == About(a, k) + About(b, k) + About(d, k) + About(e, k)
  {
    AboutConcat(a + b + d, e, k);
    AboutConcat(a + b, d, k);
    AboutConcat(a, b, k);
  }

  lemma OneOfFour(kind: Kind, u: seq<RBACDrift>, a: seq<RBACDrift>, b: seq<RBACDrift>, d: seq<RBACDrift>,
                  e: seq<RBACDrift>)
    requires a == if kind.ClusterRoleBinding? then u else []
    requires b == if kind.ClusterRole? then u else []
    requires d == if kind.RoleBinding? then u else []
    requires e == if kind.Role? then u else []
    ensures a + b + d + e == u
  {
  }

  lemma AboutUnexpected(c: Cluster, ls: Listings, known: set<Key>, ex: Exclusions, now: int, k: Key)
    requires AreListings(c, ls)
    ensures About(AllUnexpected(ls, known, ex, now), k) == UnexpectedItem(c, known, ex, now, k)
  {
    var a, b := UnexpectedOf(ls.clusterRoleBindings, known, ex, now), UnexpectedOf(ls.clusterRoles, known, ex, now);
    var d, e := UnexpectedOf(ls.roleBindings, known, ex, now), UnexpectedOf(ls.roles, known, ex, now);
    AboutFour(a, b, d, e, k);
    AboutKind(c, ClusterRoleBinding, ls.clusterRoleBindings, known, ex, now, k);
    AboutKind(c, ClusterRole, ls.clusterRoles, known, ex, now, k);
    AboutKind(c, RoleBinding, ls.roleBindings, known, ex, now, k);
    AboutKind(c, Role, ls.roles, known, ex, now, k);
    OneOfFour(k.kind, UnexpectedItem(c, known, ex, now, k), About(a, k), About(b, k), About(d, k), About(e, k));
  }

  datatype Class = Matching | Drifting(driftType: DriftType) | Ignored | Absent

  /** The one class of a key. */
  ghost function ClassOf(es: seq<Entry>, c: Cluster, ex: Exclusions, k: Key): Class {
    if References(es, k) then
      var i :| 0 <= i < |es| && es[i].key == k;
      if k !in c then Drifting(Deleted)
      else if Matches(es[i].want, c[k].content) then Matching
      else Drifting(Modified)
    else if k !in c then Absent
    else if Excluded(k.name, c[k].annotations, ex) then Ignored
    else Drifting(DriftType.Unexpected)
  }

  /** The items of a class: one for a drift, none otherwise. */
  ghost function ItemsOf(its: Class, k: Key, now: int): seq<RBACDrift> {
    if its.Drifting? then [RBACDrift(k, its.driftType, now)] else []
  }

  lemma AbsentIsUnknown(es: seq<Entry>, c: Cluster, ex: Exclusions, k: Key)
    ensures ClassOf(es, c, ex, k) == Absent <==> !References(es, k) && k !in c
  {
  }

  /** The check's item about a key and the detectors' item about it, as its class has it. */
  lemma ClassIsAbout(es: seq<Entry>, c: Cluster, ex: Exclusions, now: int, k: Key)
    requires UniqueKeys(es)
    ensures About(PureDrift(es, c, now), k) + UnexpectedItem(c, KeysOf(es), ex, now, k)
      == ItemsOf(ClassOf(es, c, ex, k), k, now)
  {
    assert References(es, k) <==> k in KeysOf(es);
    if i :| 0 <= i < |es| && es[i].key == k {
      assert References(es, k);
      AboutCheck(es, c, now, k, i);
    } else {
      NothingAboutOthers(es, c, now, k);
    }
  }

  /** A baseline with unique keys splits baseline and cluster into matching, modified,
      deleted, unexpected and excluded keys, and each drifted key has one item. */
  lemma Partition(es: seq<Entry>, c: Cluster, ls: Listings, ex: Exclusions, now: int, k: Key)
    requires UniqueKeys(es) && AreListings(c, ls)
    ensures About(AllDrift(es, c, ls, ex, now), k)
      == ItemsOf(ClassOf(es, c, ex, k), k, now)
    ensures ClassOf(es, c, ex, k) == Absent <==> !References(es, k) && k !in c
  {
    AboutConcat(PureDrift(es, c, now), AllUnexpected(ls, KeysOf(es), ex, now), k);
    AboutUnexpected(c, ls, KeysOf(es), ex, now, k);
    ClassIsAbout(es, c, ex, now, k);
    AbsentIsUnknown(es, c, ex, k);
  }
}
