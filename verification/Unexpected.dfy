/** Detection of resources that no baseline entry names, as a function. */
module Unexpected {
  import opened Prelude
  import opened Rbac
  import opened Drift

  datatype Exclusions = Exclusions(patterns: seq<string>, annotations: seq<string>)

  /** `shouldExclude`: a name prefix or the presence of an annotation key. */
  predicate Excluded(name: string, annotations: set<string>, ex: Exclusions) {
    (exists i :: 0 <= i < |ex.patterns| && ex.patterns[i] <= name)
    || (exists i :: 0 <= i < |ex.annotations| && ex.annotations[i] in annotations)
  }

  /** A pattern is a prefix of the name, or an annotation key is present. */
  lemma ExcludedMeans(name: string, annotations: set<string>, ex: Exclusions)
    ensures Excluded(name, annotations, ex) <==>
      (exists p :: p in ex.patterns && |p| <= |name| && name[..|p|] == p)
      || (exists a :: a in ex.annotations && a in annotations)
  {
    if p :| p in ex.patterns && |p| <= |name| && name[..|p|] == p {
      var i :| 0 <= i < |ex.patterns| && ex.patterns[i] == p;
      assert ex.patterns[i] <= name;
    }
    if a :| a in ex.annotations && a in annotations {
      var i :| 0 <= i < |ex.annotations| && ex.annotations[i] == a;
    }
  }

  predicate IsUnexpected(item: Item, known: set<Key>, ex: Exclusions) {
    item.key !in known && !Excluded(item.key.name, item.obj.annotations, ex)
  }

  /** The loop over a listing. */
  function UnexpectedOf(items: seq<Item>, known: set<Key>, ex: Exclusions, now: int): seq<RBACDrift> {
    if items == [] then []
    else
      var last := items[|items| - 1];
      UnexpectedOf(items[..|items| - 1], known, ex, now)
      + if IsUnexpected(last, known, ex) then [RBACDrift(last.key, DriftType.Unexpected, now)] else []
  }

  /** What a detector adds for the response of its `List`: nothing if it failed. */
  function UnexpectedIn(r: Option<seq<Item>>, known: set<Key>, ex: Exclusions, now: int): seq<RBACDrift> {
    if r.None? then [] else UnexpectedOf(r.value, known, ex, now)
  }

  ghost predicate Lists(items: seq<Item>, key: Key, obj: Object) {
    exists i :: 0 <= i < |items| && items[i] == Item(key, obj)
  }

  lemma {:induction false} UnexpectedMembers(items: seq<Item>, known: set<Key>, ex: Exclusions, now: int, d: RBACDrift)
    ensures d in UnexpectedOf(items, known, ex, now) <==>
      d.detectedAt == now && d.driftType == DriftType.Unexpected
      && exists i :: 0 <= i < |items| && items[i].key == d.key && IsUnexpected(items[i], known, ex)
  {
    if items != [] {
      var n := |items| - 1;
      UnexpectedMembers(items[..n], known, ex, now, d);
      if i :| 0 <= i < |items| && items[i].key == d.key && IsUnexpected(items[i], known, ex) {
        if i < n { assert items[..n][i] == items[i]; }
      }
    }
  }

  /** The items of a listing are those of its parts, in order ... */
  lemma {:induction false} UnexpectedConcat(a: seq<Item>, b: seq<Item>, known: set<Key>, ex: Exclusions, now: int)
    ensures UnexpectedOf(a + b, known, ex, now) == UnexpectedOf(a, known, ex, now) + UnexpectedOf(b, known, ex, now)
  {
    if b == [] {
      assert a + b == a;
    } else {
      UnexpectedConcat(a, b[..|b| - 1], known, ex, now);
      assert (a + b)[..|a + b| - 1] == a + b[..|b| - 1];
    }
  }

  /** ... and one object gives one item unless it is known or excluded. */
  lemma UnexpectedOfOne(item: Item, known: set<Key>, ex: Exclusions, now: int)
    ensures UnexpectedOf([item], known, ex, now) ==
      if item.key in known
        || (exists p :: p in ex.patterns && |p| <= |item.key.name| && item.key.name[..|p|] == p)
        || (exists a :: a in ex.annotations && a in item.obj.annotations)
      then [] else [RBACDrift(item.key, DriftType.Unexpected, now)]
  {
    ExcludedMeans(item.key.name, item.obj.annotations, ex);
    assert [item][..0] == [];
  }

  // ---- growing the baseline or the exclusions -----------------------------

  /** a is b with some elements left out, in the same order. */
  ghost predicate Subsequence<T(!new)>(a: seq<T>, b: seq<T>) {
    a == [] || (b != [] && (
      (a[|a| - 1] == b[|b| - 1] && Subsequence(a[..|a| - 1], b[..|b| - 1]))
      || Subsequence(a, b[..|b| - 1])))
  }

  lemma SubsequenceKeep<T(!new)>(a: seq<T>, b: seq<T>, x: T)
    requires Subsequence(a, b)
    ensures Subsequence(a + [x], b + [x])
  {
  }

  lemma SubsequenceSkip<T(!new)>(a: seq<T>, b: seq<T>, x: T)
    requires Subsequence(a, b)
    ensures Subsequence(a, b + [x])
  {
  }

  /** Whatever narrows the test leaves a subsequence of the items.  */
  lemma {:induction false} NarrowerTestFindsLess(items: seq<Item>, known: set<Key>, ex: Exclusions,
                                                 known': set<Key>, ex': Exclusions, now: int)
    requires forall i :: 0 <= i < |items| && IsUnexpected(items[i], known', ex') ==> IsUnexpected(items[i], known, ex)
    ensures Subsequence(UnexpectedOf(items, known', ex', now), UnexpectedOf(items, known, ex, now))
  {
    if items != [] {
      var n := |items| - 1;
      NarrowerTestFindsLess(items[..n], known, ex, known', ex', now);
      var a, b := UnexpectedOf(items[..n], known', ex', now), UnexpectedOf(items[..n], known, ex, now);
      var d := RBACDrift(items[n].key, DriftType.Unexpected, now);
      if IsUnexpected(items[n], known', ex') {
        SubsequenceKeep(a, b, d);
      } else {
        SubsequenceSkip(a, b, d);
        assert a + [] == a && b + [] == b;
      }
    }
  }

  ghost predicate Extends(ex: Exclusions, ex': Exclusions) {
    (forall p :: p in ex.patterns ==> p in ex'.patterns)
    && (forall a :: a in ex.annotations ==> a in ex'.annotations)
  }

  /** Enlarging the baseline, the prefixes or the annotation keys only removes items. */
  lemma DetectionIsAntitone(items: seq<Item>, known: set<Key>, ex: Exclusions,
                            known': set<Key>, ex': Exclusions, now: int)
    requires known <= known' && Extends(ex, ex')
    ensures Subsequence(UnexpectedOf(items, known', ex', now), UnexpectedOf(items, known, ex, now))
  {
    forall i | 0 <= i < |items| && !IsUnexpected(items[i], known, ex)
      ensures !IsUnexpected(items[i], known', ex')
    {
      var name, notes := items[i].key.name, items[i].obj.annotations;
      if j :| 0 <= j < |ex.patterns| && ex.patterns[j] <= name {
        assert ex.patterns[j] in ex'.patterns;
      }
      if j :| 0 <= j < |ex.annotations| && ex.annotations[j] in notes {
        assert ex.annotations[j] in ex'.annotations;
      }
    }
    NarrowerTestFindsLess(items, known, ex, known', ex', now);
  }
}
