/** `sortStrings`: an adjacent-swap insertion sort of a string slice in place. */
module InsertionSort {
  import opened StringOrder

  ghost predicate Sorted(s: seq<string>) {
    forall i, j :: 0 <= i < j < |s| ==> !Less(s[j], s[i])
  }

  /** One round of the outer loop: x sinks into p from the right. */
  function Insert(p: seq<string>, x: string): seq<string> {
    if p == [] || !Less(x, p[|p| - 1]) then p + [x]
    else Insert(p[..|p| - 1], x) + [p[|p| - 1]]
  }

  /** The number of swaps that round makes. */
  function Shifts(p: seq<string>, x: string): nat {
    if p == [] || !Less(x, p[|p| - 1]) then 0 else 1 + Shifts(p[..|p| - 1], x)
  }

  /** What the sort leaves in the slice: the canonical form of the list. */
  function Canonical(s: seq<string>): seq<string> {
    if s == [] then [] else Insert(Canonical(s[..|s| - 1]), s[|s| - 1])
  }

  function Swaps(s: seq<string>): nat {
    if s == [] then 0
    else Swaps(s[..|s| - 1]) + Shifts(Canonical(s[..|s| - 1]), s[|s| - 1])
  }

  // ---- the canonical form is the sorted permutation -----------------------

  /** A string that is not below the last one may follow a sorted list. */
  lemma AppendIsSorted(p: seq<string>, x: string)
    requires Sorted(p) && (p == [] || !Less(x, p[|p| - 1]))
    ensures Sorted(p + [x])
  {
    forall i | 0 <= i < |p| ensures !Less(x, p[i]) {
      if i < |p| - 1 { AtMostTransitive(p[i], p[|p| - 1], x); }
    }
  }

  lemma {:induction false} InsertPermutes(p: seq<string>, x: string)
    ensures multiset(Insert(p, x)) == multiset(p) + multiset{x}
  {
    if p != [] && Less(x, p[|p| - 1]) {
      InsertPermutes(p[..|p| - 1], x);
      assert p == p[..|p| - 1] + [p[|p| - 1]];
    }
  }

  lemma {:induction false} InsertIsSorted(p: seq<string>, x: string)
    requires Sorted(p)
    ensures Sorted(Insert(p, x))
  {
    if p == [] || !Less(x, p[|p| - 1]) {
      AppendIsSorted(p, x);
    } else {
      var init, last := p[..|p| - 1], p[|p| - 1];
      InsertIsSorted(init, x);
      var r := Insert(init, x);
      if r != [] {
        InsertPermutes(init, x);
        assert r[|r| - 1] in multiset(r);
        if r[|r| - 1] == x { Asymmetric(x, last); }
      }
      AppendIsSorted(r, last);
    }
  }

  lemma {:induction false} CanonicalPermutes(s: seq<string>)
    ensures multiset(Canonical(s)) == multiset(s)
  {
    if s != [] {
      var init, last := s[..|s| - 1], s[|s| - 1];
      CanonicalPermutes(init);
      InsertPermutes(Canonical(init), last);
      assert s == init + [last];
    }
  }

  lemma {:induction false} CanonicalIsSorted(s: seq<string>)
    ensures Sorted(Canonical(s)) && multiset(Canonical(s)) == multiset(s)
  {
    CanonicalPermutes(s);
    if s != [] {
      CanonicalIsSorted(s[..|s| - 1]);
      InsertIsSorted(Canonical(s[..|s| - 1]), s[|s| - 1]);
    }
  }

  /** The head of a sorted list is below every element of it. */
  lemma HeadIsLeast(s: seq<string>, x: string)
    requires Sorted(s) && x in multiset(s)
    ensures |s| > 0 && !Less(x, s[0])
  {
    assert x in s;
    var i :| 0 <= i < |s| && s[i] == x;
    if i == 0 && Less(x, x) { Asymmetric(x, x); }
  }

  lemma TailCounts(s: seq<string>)
    requires s != []
    ensures multiset(s[1..]) == multiset(s) - multiset{s[0]} && s == [s[0]] + s[1..]
  {
    assert s == [s[0]] + s[1..];
  }

  /** A list has only one sorted permutation. */
  lemma {:induction false} SortedPermutationIsUnique(a: seq<string>, b: seq<string>)
    requires Sorted(a) && Sorted(b) && multiset(a) == multiset(b)
    ensures a == b
  {
    if a == [] || b == [] {
      assert |multiset(a)| == |a| && |multiset(b)| == |b|;
    } else {
      var x := a[0];
      assert x in multiset(a) && b[0] in multiset(b);
      HeadIsLeast(b, x);
      HeadIsLeast(a, b[0]);
      Trichotomy(x, b[0]);
      TailCounts(a);
      TailCounts(b);
      SortedPermutationIsUnique(a[1..], b[1..]);
    }
  }

  /** Sorting is a complete invariant of "same elements, counted". */
  lemma CanonicalDecidesPermutation(a: seq<string>, b: seq<string>)
    ensures Canonical(a) == Canonical(b) <==> multiset(a) == multiset(b)
  {
    CanonicalIsSorted(a);
    CanonicalIsSorted(b);
    if multiset(a) == multiset(b) {
      SortedPermutationIsUnique(Canonical(a), Canonical(b));
    }
  }

  lemma CanonicalIdempotent(s: seq<string>)
    ensures Canonical(Canonical(s)) == Canonical(s)
  {
    CanonicalIsSorted(s);
    CanonicalDecidesPermutation(Canonical(s), s);
  }

  // ---- the exact cost -----------------------------------------------------

  /** The inversions of a list: the pairs of positions in the wrong order. */
  ghost function Inversions(s: seq<string>): set<(int, int)> {
    set i, j | 0 <= i < j < |s| && Less(s[j], s[i]) :: (i, j)
  }

  /** The elements of p above x. */
  ghost function Above(p: seq<string>, x: string): seq<string> {
    if p == [] then []
    else Above(p[..|p| - 1], x) + if Less(x, p[|p| - 1]) then [p[|p| - 1]] else []
  }

  lemma {:induction false} AboveCounts(p: seq<string>, x: string, y: string)
    ensures multiset(Above(p, x))[y] == if Less(x, y) then multiset(p)[y] else 0
  {
    if p != [] {
      AboveCounts(p[..|p| - 1], x, y);
      assert p == p[..|p| - 1] + [p[|p| - 1]];
    }
  }

  /** How many elements lie above x does not depend on their order. */
  lemma AbovePermutes(p: seq<string>, q: seq<string>, x: string)
    requires multiset(p) == multiset(q)
    ensures |Above(p, x)| == |Above(q, x)|
  {
    forall y ensures multiset(Above(p, x))[y] == multiset(Above(q, x))[y] {
      AboveCounts(p, x, y);
      AboveCounts(q, x, y);
    }
    assert multiset(Above(p, x)) == multiset(Above(q, x));
    assert |multiset(Above(p, x))| == |multiset(Above(q, x))|;
  }

  /** In a sorted list the elements above x are a suffix, so x sinks past all of them. */
  lemma {:induction false} ShiftsCountAbove(p: seq<string>, x: string)
    requires Sorted(p)
    ensures Shifts(p, x) == |Above(p, x)|
  {
    if p != [] {
      var init, last := p[..|p| - 1], p[|p| - 1];
      ShiftsCountAbove(init, x);
      if !Less(x, last) && init != [] {
        AtMostTransitive(init[|init| - 1], last, x);
      }
    }
  }

  /** The inversions whose right end is position j. */
  ghost function Column(p: seq<string>, x: string, j: int): set<(int, int)> {
    set i | 0 <= i < |p| && Less(x, p[i]) :: (i, j)
  }

  lemma ColumnStep(init: seq<string>, last: string, x: string, j: int)
    ensures |Column(init + [last], x, j)| == |Column(init, x, j)| + if Less(x, last) then 1 else 0
  {
    var p := init + [last];
    if Less(x, last) {
      assert Column(p, x, j) == Column(init, x, j) + {(|init|, j)};
    } else {
      assert Column(p, x, j) == Column(init, x, j);
    }
  }

  lemma {:induction false} ColumnCountsAbove(p: seq<string>, x: string, j: int)
    ensures |Column(p, x, j)| == |Above(p, x)|
  {
    if p != [] {
      var init, last := p[..|p| - 1], p[|p| - 1];
      ColumnCountsAbove(init, x, j);
      assert p == init + [last];
      ColumnStep(init, last, x, j);
    }
  }

  lemma InversionsSplit(init: seq<string>, last: string)
    ensures |Inversions(init + [last])| == |Inversions(init)| + |Column(init, last, |init|)|
  {
    var s := init + [last];
    var col := Column(init, last, |init|);
    forall i, j | (i, j) in Inversions(s) ensures (i, j) in Inversions(init) + col {
      if j < |init| { assert s[i] == init[i] && s[j] == init[j]; }
    }
    forall i, j | (i, j) in Inversions(init) ensures (i, j) in Inversions(s) {
      assert s[i] == init[i] && s[j] == init[j];
    }
    assert Inversions(s) == Inversions(init) + col;
    assert Inversions(init) !! col;
  }

  /** The sort makes one swap per inversion. */
  lemma {:induction false} SwapsCountInversions(s: seq<string>)
    ensures Swaps(s) == |Inversions(s)|
  {
    if s != [] {
      var init, last := s[..|s| - 1], s[|s| - 1];
      SwapsCountInversions(init);
      CanonicalIsSorted(init);
      ShiftsCountAbove(Canonical(init), last);
      AbovePermutes(Canonical(init), init, last);
      ColumnCountsAbove(init, last, |s| - 1);
      InversionsSplit(init, last);
      assert s == init + [last];
    }
  }

  /** Hence at most n(n-1)/2 swaps, and none exactly on sorted input. */
  lemma {:induction false} SwapBounds(s: seq<string>)
    ensures 2 * Swaps(s) <= |s| * (|s| - 1)
    ensures Swaps(s) == 0 <==> Sorted(s)
  {
    SwapsAtMost(s);
    SwapsCountInversions(s);
    if Sorted(s) {
      assert Inversions(s) == {};
    } else {
      var i, j :| 0 <= i < j < |s| && Less(s[j], s[i]);
      assert (i, j) in Inversions(s);
    }
  }

  lemma CanonicalLength(s: seq<string>)
    ensures |Canonical(s)| == |s|
  {
    CanonicalIsSorted(s);
    assert |multiset(Canonical(s))| == |Canonical(s)| && |multiset(s)| == |s|;
  }

  lemma Triangle(n: int, a: int, b: int)
    requires 2 * a <= (n - 1) * (n - 1 - 1) && b <= n - 1
    ensures 2 * (a + b) <= n * (n - 1)
  {
  }

  lemma {:induction false} SwapsAtMost(s: seq<string>)
    ensures 2 * Swaps(s) <= |s| * (|s| - 1)
  {
    if s != [] {
      var n := |s|;
      SwapsAtMost(s[..n - 1]);
      CanonicalLength(s[..n - 1]);
      ShiftsAtMost(Canonical(s[..n - 1]), s[n - 1]);
      Triangle(n, Swaps(s[..n - 1]), Shifts(Canonical(s[..n - 1]), s[n - 1]));
    }
  }

  lemma {:induction false} ShiftsAtMost(p: seq<string>, x: string)
    ensures Shifts(p, x) <= |p|
  {
    if p != [] { ShiftsAtMost(p[..|p| - 1], x); }
  }

  // ---- the loop -----------------------------------------------------------

  /** x has sunk to position j of the prefix p. */
  ghost predicate Sinking(p: seq<string>, x: string, s: seq<string>, j: int, swaps: nat) {
    0 <= j <= |p| && s == p[..j] + [x] + p[j..]
    && Insert(p, x) == Insert(p[..j], x) + p[j..]
    && Shifts(p, x) == Shifts(p[..j], x) + swaps
  }

  lemma SinkingStep(p: seq<string>, x: string, j: int, swaps: nat)
    requires 0 < j <= |p| && Less(x, p[j - 1])
    requires Sinking(p, x, p[..j] + [x] + p[j..], j, swaps)
    ensures Sinking(p, x, p[..j - 1] + [x] + p[j - 1..], j - 1, swaps + 1)
  {
    assert p[..j][..j - 1] == p[..j - 1];
    assert p[j - 1..] == [p[j - 1]] + p[j..];
    assert Insert(p[..j], x) == Insert(p[..j - 1], x) + [p[j - 1]];
  }

  lemma SwapInPrefix(p: seq<string>, x: string, j: int)
    requires 0 < j <= |p|
    ensures (p[..j] + [x] + p[j..])[j := p[j - 1]][j - 1 := x] == p[..j - 1] + [x] + p[j - 1..]
  {
  }

  /** The inner loop: s[i] sinks into the prefix before it. */
  method Sink(s: array<string>, i: int) returns (ghost swaps: nat)
    requires 0 <= i < s.Length
    modifies s
    ensures s[..i + 1] == Insert(old(s[..i]), old(s[i])) && s[i + 1..] == old(s[i + 1..])
    ensures swaps == Shifts(old(s[..i]), old(s[i]))
  {
    ghost var p, x := s[..i], s[i];
    swaps := 0;
    var j := i;
    assert p[..i] == p && s[..i + 1] == p + [x];
    while j > 0 && Less(s[j], s[j - 1])
      invariant 0 <= j <= i
      invariant Sinking(p, x, s[..i + 1], j, swaps)
      invariant s[i + 1..] == old(s[i + 1..])
    {
      ghost var t := s[..i + 1];
      assert s[j] == t[j] == x && s[j - 1] == t[j - 1] == p[j - 1];
      SinkingStep(p, x, j, swaps);
      SwapInPrefix(p, x, j);
      s[j], s[j - 1] := s[j - 1], s[j];
      assert s[..i + 1] == t[j := p[j - 1]][j - 1 := x];
      swaps := swaps + 1;
      j := j - 1;
    }
    assert s[..i + 1][j] == s[j] && (j > 0 ==> s[..i + 1][j - 1] == s[j - 1]);
  }

  /** The first i elements are sorted, the rest is untouched. */
  ghost predicate Progress(was: seq<string>, s: seq<string>, i: nat, swaps: nat) {
    |s| == |was| && i <= |s| && s[..i] == Canonical(was[..i]) && s[i..] == was[i..]
    && swaps == Swaps(was[..i])
  }

  lemma ProgressStart(was: seq<string>)
    ensures |was| == 0 ==> Progress(was, was, 0, 0)
    ensures |was| > 0 ==> Progress(was, was, 1, 0)
  {
  }

  lemma ProgressStep(was: seq<string>, s: seq<string>, s': seq<string>, i: nat, swaps: nat)
    requires Progress(was, s, i, swaps) && i < |s| == |s'|
    requires s'[..i + 1] == Insert(s[..i], s[i]) && s'[i + 1..] == s[i + 1..]
    ensures Progress(was, s', i + 1, swaps + Shifts(s[..i], s[i]))
  {
    var w := was[..i + 1];
    assert w[..i] == was[..i];
    assert s[i] == s[i..][0] == was[i..][0] == w[i];
    assert s[i + 1..] == s[i..][1..] && was[i + 1..] == was[i..][1..];
  }

  /** `sortStrings`.  A nil slice has length 0.  The number of swaps is a ghost
      result: the program does not keep it. */
  method SortStrings(s: array?<string>) returns (ghost swaps: nat)
    modifies s
    ensures s == null ==> swaps == 0
    ensures s != null ==> s[..] == Canonical(old(s[..])) && swaps == |Inversions(old(s[..]))|
  {
    swaps := 0;
    if s != null {
      ghost var was := s[..];
      ProgressStart(was);
      var i := 1;
      while i < s.Length
        invariant 1 <= i && (s.Length == 0 || i <= s.Length)
        invariant Progress(was, s[..], if s.Length == 0 then 0 else i, swaps)
      {
        ghost var before, sofar := s[..], swaps;
        assert before[..i] == s[..i] && before[i + 1..] == s[i + 1..];
        ghost var n := Sink(s, i);
        swaps := swaps + n;
        assert s[..][..i + 1] == s[..i + 1] && s[..][i + 1..] == s[i + 1..];
        ProgressStep(was, before, s[..], i, sofar);
        i := i + 1;
      }
      assert was == was[..s.Length] && s[..] == s[..s.Length];
      SwapsCountInversions(was);
    }
  }
}
