/** Counting the elements of a list that satisfy a test. */
module Counting {
  function Filter<T>(s: seq<T>, p: T -> bool): seq<T> {
    if s == [] then []
    else Filter(s[..|s| - 1], p) + if p(s[|s| - 1]) then [s[|s| - 1]] else []
  }

  function Count<T>(s: seq<T>, p: T -> bool): nat {
    |Filter(s, p)|
  }

  lemma FilterLast<T>(s: seq<T>, x: T, p: T -> bool)
    ensures Filter(s + [x], p) == Filter(s, p) + if p(x) then [x] else []
  {
  }

  lemma {:induction false} FilterConcat<T>(a: seq<T>, b: seq<T>, p: T -> bool)
    ensures Filter(a + b, p) == Filter(a, p) + Filter(b, p)
  {
    if b == [] {
      assert a + b == a;
    } else {
      var init, x := b[..|b| - 1], b[|b| - 1];
      FilterConcat(a, init, p);
      FilterLast(a + init, x, p);
      FilterLast(init, x, p);
      assert b == init + [x] && a + b == a + init + [x];
    }
  }

  lemma WithoutOne<T>(init: seq<T>, x: T, l: seq<T>, r: seq<T>)
    requires multiset(init + [x]) == multiset(l + [x] + r)
    ensures multiset(init) == multiset(l + r)
  {
    assert multiset(init + [x]) - multiset{x} == multiset(init);
    assert multiset(l + [x] + r) - multiset{x} == multiset(l + r);
  }

  lemma WithOne<T>(init: seq<T>, x: seq<T>, l: seq<T>, r: seq<T>)
    requires multiset(init) == multiset(l + r)
    ensures multiset(init + x) == multiset(l + x + r) && |init + x| == |l + x + r|
  {
    assert |multiset(init)| == |init| && |multiset(l + r)| == |l + r|;
  }

  /** A filter of a permutation is a permutation of the filter. */
  lemma {:induction false} FilterPermutes<T>(s: seq<T>, t: seq<T>, p: T -> bool)
    requires multiset(s) == multiset(t)
    ensures multiset(Filter(s, p)) == multiset(Filter(t, p)) && Count(s, p) == Count(t, p)
  {
    if s == [] {
      assert |multiset(t)| == |t|;
    } else {
      var init, x := s[..|s| - 1], s[|s| - 1];
      assert s == init + [x] && x in multiset(t);
      var i :| 0 <= i < |t| && t[i] == x;
      var l, r := t[..i], t[i + 1..];
      assert t == l + [x] + r;
      WithoutOne(init, x, l, r);
      FilterPermutes(init, l + r, p);
      FilterAround(init, x, l, r, p);
    }
  }

  lemma FilterAround<T>(init: seq<T>, x: T, l: seq<T>, r: seq<T>, p: T -> bool)
    requires multiset(Filter(init, p)) == multiset(Filter(l + r, p))
    ensures multiset(Filter(init + [x], p)) == multiset(Filter(l + [x] + r, p))
    ensures Count(init + [x], p) == Count(l + [x] + r, p)
  {
    FilterLast(init, x, p);
    FilterLast(l, x, p);
    FilterConcat(l + [x], r, p);
    FilterConcat(l, r, p);
    WithOne(Filter(init, p), if p(x) then [x] else [], Filter(l, p), Filter(r, p));
  }

  ghost function Positions<T>(s: seq<T>, p: T -> bool): set<int> {
    set i | 0 <= i < |s| && p(s[i])
  }

  /** The count is the number of positions whose element passes the test. */
  lemma {:induction false} CountIsCardinality<T>(s: seq<T>, p: T -> bool)
    ensures Count(s, p) == |Positions(s, p)| && Count(s, p) <= |s|
  {
    if s == [] {
      assert Positions(s, p) == {};
    } else {
      var init := s[..|s| - 1];
      CountIsCardinality(init, p);
      assert Positions(s, p) == Positions(init, p) + if p(s[|s| - 1]) then {|s| - 1} else {};
    }
  }

  /** More passing positions mean a higher count. */
  lemma {:induction false} CountMonotone<T, U>(s: seq<T>, p: T -> bool, t: seq<U>, q: U -> bool)
    requires |s| == |t| && forall i :: 0 <= i < |s| && p(s[i]) ==> q(t[i])
    ensures Count(s, p) <= Count(t, q)
  {
    if s != [] {
      CountMonotone(s[..|s| - 1], p, t[..|t| - 1], q);
    }
  }

  function Map<T, U>(s: seq<T>, f: T -> U): seq<U> {
    seq(|s|, i requires 0 <= i < |s| => f(s[i]))
  }

  lemma MapConcat<T, U>(a: seq<T>, b: seq<T>, f: T -> U)
    ensures Map(a + b, f) == Map(a, f) + Map(b, f)
  {
  }

  /** The image of a permutation is a permutation of the image. */
  lemma {:induction false} MapPermutes<T, U>(s: seq<T>, t: seq<T>, f: T -> U)
    requires multiset(s) == multiset(t)
    ensures multiset(Map(s, f)) == multiset(Map(t, f))
  {
    if s == [] {
      assert |multiset(t)| == |t|;
    } else {
      var init, x := s[..|s| - 1], s[|s| - 1];
      assert s == init + [x] && x in multiset(t);
      var i :| 0 <= i < |t| && t[i] == x;
      var l, r := t[..i], t[i + 1..];
      assert t == l + [x] + r;
      WithoutOne(init, x, l, r);
      MapPermutes(init, l + r, f);
      MapConcat(init, [x], f);
      MapConcat(l + [x], r, f);
      MapConcat(l, [x], f);
      MapConcat(l, r, f);
      WithOne(Map(init, f), Map([x], f), Map(l, f), Map(r, f));
    }
  }
}
