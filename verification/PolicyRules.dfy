/** `sortPolicyRules` and the comparison built on it.  A policy rule is a Go struct
    whose five fields are slices, so copying the outer slice of rules still shares
    the inner ones: sorting the copy sorts the argument too. */
module PolicyRules {
  import opened Prelude
  import opened InsertionSort

  // ---- values -------------------------------------------------------------

  type StringList = Slice<string>

  /** A policy rule whose five lists are L's. */
  datatype RuleOf<L> = Rule(verbs: L, apiGroups: L, resources: L, resourceNames: L, nonResourceURLs: L)

  /** A policy rule as a value. */
  type Rule = RuleOf<StringList>

  function CanonicalList(l: StringList): StringList {
    if l.Nil? then Nil else Of(Canonical(l.items))
  }

  function CanonicalRule(r: Rule): Rule {
    Rule(CanonicalList(r.verbs), CanonicalList(r.apiGroups), CanonicalList(r.resources),
         CanonicalList(r.resourceNames), CanonicalList(r.nonResourceURLs))
  }

  function CanonicalRules(rs: seq<Rule>): seq<Rule> {
    seq(|rs|, i requires 0 <= i < |rs| => CanonicalRule(rs[i]))
  }

  /** Same elements with the same counts, and nil only with nil. */
  predicate ListsMatch(a: StringList, b: StringList) {
    a.Nil? == b.Nil? && multiset(a.Elems()) == multiset(b.Elems())
  }

  predicate RuleMatches(a: Rule, b: Rule) {
    ListsMatch(a.verbs, b.verbs) && ListsMatch(a.apiGroups, b.apiGroups)
    && ListsMatch(a.resources, b.resources) && ListsMatch(a.resourceNames, b.resourceNames)
    && ListsMatch(a.nonResourceURLs, b.nonResourceURLs)
  }

  /** The order of the rules counts; the order inside their five lists does not. */
  predicate RulesMatch(a: seq<Rule>, b: seq<Rule>) {
    |a| == |b| && forall i :: 0 <= i < |a| ==> RuleMatches(a[i], b[i])
  }

  lemma CanonicalListDecides(a: StringList, b: StringList)
    ensures CanonicalList(a) == CanonicalList(b) <==> ListsMatch(a, b)
  {
    CanonicalDecidesPermutation(a.Elems(), b.Elems());
  }

  lemma CanonicalRuleDecides(a: Rule, b: Rule)
    ensures CanonicalRule(a) == CanonicalRule(b) <==> RuleMatches(a, b)
  {
    CanonicalListDecides(a.verbs, b.verbs);
    CanonicalListDecides(a.apiGroups, b.apiGroups);
    CanonicalListDecides(a.resources, b.resources);
    CanonicalListDecides(a.resourceNames, b.resourceNames);
    CanonicalListDecides(a.nonResourceURLs, b.nonResourceURLs);
  }

  /** Canonical forms agree exactly when the rules match. */
  lemma CanonicalRulesDecide(a: seq<Rule>, b: seq<Rule>)
    ensures CanonicalRules(a) == CanonicalRules(b) <==> RulesMatch(a, b)
  {
    var ca, cb := CanonicalRules(a), CanonicalRules(b);
    forall i | 0 <= i < |a| && i < |b| ensures ca[i] == cb[i] <==> RuleMatches(a[i], b[i]) {
      CanonicalRuleDecides(a[i], b[i]);
    }
    if RulesMatch(a, b) {
      assert forall i :: 0 <= i < |ca| ==> ca[i] == cb[i];
    } else if |a| == |b| {
      var i :| 0 <= i < |a| && !RuleMatches(a[i], b[i]);
      assert ca[i] != cb[i];
    }
  }

  // ---- the heap -----------------------------------------------------------

  /** A policy rule as the program holds it: null is the nil slice.  Two fields may
      hold the same array, in one rule or in different ones. */
  type PolicyRule = RuleOf<array?<string>>

  ghost function Lists(r: PolicyRule): set<array?<string>> {
    {r.verbs, r.apiGroups, r.resources, r.resourceNames, r.nonResourceURLs}
  }

  ghost function ListsOf(rs: seq<PolicyRule>): set<array?<string>> {
    set r, a | r in rs && a in Lists(r) :: a
  }

  function ViewList(a: array?<string>): StringList
    reads a
  {
    if a == null then Nil else Of(a[..])
  }

  function ViewRule(r: PolicyRule): Rule
    reads Lists(r)
  {
    Rule(ViewList(r.verbs), ViewList(r.apiGroups), ViewList(r.resources),
         ViewList(r.resourceNames), ViewList(r.nonResourceURLs))
  }

  function ViewRules(rs: seq<PolicyRule>): seq<Rule>
    reads ListsOf(rs)
  {
    seq(|rs|, i requires 0 <= i < |rs| reads ListsOf(rs) => ViewRule(rs[i]))
  }

  // ---- recorded states ----------------------------------------------------

  /** The contents of some lists at one moment. */
  type Recording = map<array<string>, seq<string>>

  ghost function Record(all: set<array?<string>>): Recording
    reads all
  {
    map a: array<string> | a in all :: a[..]
  }

  /** Since `was` was recorded every list of `done` has been sorted, and no other
      list of `all` has changed. */
  ghost predicate Stage(was: Recording, done: set<array?<string>>, all: set<array?<string>>)
    reads all
  {
    forall a: array<string> | a in all ::
      a in was && a[..] == if a in done then Canonical(was[a]) else was[a]
  }

  ghost predicate Recorded(was: Recording, all: set<array?<string>>) {
    forall a: array<string> | a in all :: a in was
  }

  ghost function ListAt(was: Recording, a: array?<string>): StringList
    requires a != null ==> a in was
  {
    if a == null then Nil else Of(was[a])
  }

  ghost function RuleAt(was: Recording, r: PolicyRule): Rule
    requires Recorded(was, Lists(r))
  {
    Rule(ListAt(was, r.verbs), ListAt(was, r.apiGroups), ListAt(was, r.resources),
         ListAt(was, r.resourceNames), ListAt(was, r.nonResourceURLs))
  }

  /** The value that a slice of rules had when `was` was recorded. */
  ghost function RulesAt(was: Recording, rs: seq<PolicyRule>): seq<Rule>
    requires Recorded(was, ListsOf(rs))
  {
    seq(|rs|, i requires 0 <= i < |rs| => (assert Lists(rs[i]) <= ListsOf(rs); RuleAt(was, rs[i])))
  }

  lemma RulesUnchanged(was: Recording, rs: seq<PolicyRule>, all: set<array?<string>>)
    requires ListsOf(rs) <= all && Stage(was, {}, all)
    ensures ViewRules(rs) == RulesAt(was, rs)
  {
    forall i | 0 <= i < |rs| ensures RuleAt(was, rs[i]) == ViewRule(rs[i]) {
      assert Lists(rs[i]) <= ListsOf(rs);
    }
  }

  lemma SortedRulesAreCanonical(was: Recording, rs: seq<PolicyRule>, done: set<array?<string>>,
        all: set<array?<string>>)
    requires ListsOf(rs) <= done && ListsOf(rs) <= all && Stage(was, done, all)
    ensures ViewRules(rs) == CanonicalRules(RulesAt(was, rs))
  {
    forall i | 0 <= i < |rs| ensures ViewRule(rs[i]) == CanonicalRule(RuleAt(was, rs[i])) {
      assert Lists(rs[i]) <= ListsOf(rs);
    }
  }

  // ---- sortPolicyRules ----------------------------------------------------

  /** `sortStrings` on a list that may be shared with one sorted before. */
  method SortNext(a: array?<string>, ghost was: Recording, ghost done: set<array?<string>>,
                  ghost all: set<array?<string>>)
    requires a in all && Stage(was, done, all)
    modifies a
    ensures Stage(was, done + {a}, all)
  {
    if a != null { CanonicalIdempotent(was[a]); }
    ghost var swaps := SortStrings(a);
  }

  method SortPair(a: array?<string>, b: array?<string>, ghost was: Recording, ghost done: set<array?<string>>,
                  ghost all: set<array?<string>>)
    requires a in all && b in all && Stage(was, done, all)
    modifies a, b
    ensures Stage(was, done + {a, b}, all)
  {
    SortNext(a, was, done, all);
    SortNext(b, was, done + {a}, all);
    assert done + {a} + {b} == done + {a, b};
  }

  /** The five lists of one rule, some of which may be the same array. */
  method SortRule(r: PolicyRule, ghost was: Recording, ghost done: set<array?<string>>, ghost all: set<array?<string>>)
    requires Lists(r) <= all && Stage(was, done, all)
    modifies Lists(r)
    ensures Stage(was, done + Lists(r), all)
  {
    SortPair(r.verbs, r.apiGroups, was, done, all);
    ghost var done' := done + {r.verbs, r.apiGroups};
    SortPair(r.resources, r.resourceNames, was, done', all);
    done' := done' + {r.resources, r.resourceNames};
    SortNext(r.nonResourceURLs, was, done', all);
    assert done' + {r.nonResourceURLs} == done + Lists(r);
  }

  /** The result is a new outer slice, never nil, over the same lists, which are
      sorted in place. */
  method SortPolicyRules(rules: Slice<PolicyRule>, ghost was: Recording, ghost done: set<array?<string>>,
        ghost all: set<array?<string>>)
    returns (sorted: seq<PolicyRule>)
    requires ListsOf(rules.Elems()) <= all && Stage(was, done, all)
    modifies ListsOf(rules.Elems())
    ensures sorted == rules.Elems() && Stage(was, done + ListsOf(sorted), all)
  {
    sorted := rules.Elems();
    ghost var done' := done;
    for i := 0 to |sorted|
      invariant done' == done + ListsOf(sorted[..i])
      invariant Stage(was, done', all)
    {
      assert Lists(sorted[i]) <= ListsOf(sorted);
      assert sorted[..i + 1] == sorted[..i] + [sorted[i]];
      SortRule(sorted[i], was, done', all);
      done' := done' + Lists(sorted[i]);
    }
    assert sorted[..|sorted|] == sorted;
  }

  // ---- the comparison -----------------------------------------------------

  /** When `was` was recorded, both slices were nil, or neither was and they held the same
      strings, each equally often. */
  ghost predicate SameAt(was: Recording, x: array?<string>, y: array?<string>) {
    if x == null || y == null then x == y
    else x in was && y in was && multiset(was[x]) == multiset(was[y])
  }

  lemma RulesMatchAt(was: Recording, a: seq<PolicyRule>, b: seq<PolicyRule>)
    requires Recorded(was, ListsOf(a)) && Recorded(was, ListsOf(b))
    ensures RulesMatch(RulesAt(was, a), RulesAt(was, b)) <==>
      |a| == |b| && forall i :: 0 <= i < |a| ==>
        SameAt(was, a[i].verbs, b[i].verbs) && SameAt(was, a[i].apiGroups, b[i].apiGroups)
        && SameAt(was, a[i].resources, b[i].resources) && SameAt(was, a[i].resourceNames, b[i].resourceNames)
        && SameAt(was, a[i].nonResourceURLs, b[i].nonResourceURLs)
  {
    forall i | 0 <= i < |a| && i < |b| ensures RuleMatches(RulesAt(was, a)[i], RulesAt(was, b)[i]) <==>
      SameAt(was, a[i].verbs, b[i].verbs) && SameAt(was, a[i].apiGroups, b[i].apiGroups)
      && SameAt(was, a[i].resources, b[i].resources) && SameAt(was, a[i].resourceNames, b[i].resourceNames)
      && SameAt(was, a[i].nonResourceURLs, b[i].nonResourceURLs)
    {
      assert Lists(a[i]) <= ListsOf(a) && Lists(b[i]) <= ListsOf(b);
      RuleMatchesAt(was, a[i], b[i]);
    }
  }

  lemma RuleMatchesAt(was: Recording, p: PolicyRule, q: PolicyRule)
    requires Recorded(was, Lists(p)) && Recorded(was, Lists(q))
    ensures RuleMatches(RuleAt(was, p), RuleAt(was, q)) <==>
      SameAt(was, p.verbs, q.verbs) && SameAt(was, p.apiGroups, q.apiGroups)
      && SameAt(was, p.resources, q.resources) && SameAt(was, p.resourceNames, q.resourceNames)
      && SameAt(was, p.nonResourceURLs, q.nonResourceURLs)
  {
  }

  /** `reflect.DeepEqual` on two slices of rules, neither of them nil. */
  predicate DeepEqual(a: seq<PolicyRule>, b: seq<PolicyRule>)
    reads ListsOf(a), ListsOf(b)
  {
    ViewRules(a) == ViewRules(b)
  }

  /** `reflect.DeepEqual(sortPolicyRules(a), sortPolicyRules(b))`.  The lists on both
      sides, which may share arrays, end up sorted. */
  method CompareRules(a: Slice<PolicyRule>, b: Slice<PolicyRule>, ghost was: Recording,
                      ghost done: set<array?<string>>, ghost all: set<array?<string>>)
    returns (equal: bool)
    requires ListsOf(a.Elems()) <= all && ListsOf(b.Elems()) <= all && Stage(was, done, all)
    modifies ListsOf(a.Elems()), ListsOf(b.Elems())
    ensures equal == RulesMatch(RulesAt(was, a.Elems()), RulesAt(was, b.Elems()))
    ensures var p, q := a.Elems(), b.Elems();
      equal <==> |p| == |q| && forall i :: 0 <= i < |p| ==>
        SameAt(was, p[i].verbs, q[i].verbs) && SameAt(was, p[i].apiGroups, q[i].apiGroups)
        && SameAt(was, p[i].resources, q[i].resources) && SameAt(was, p[i].resourceNames, q[i].resourceNames)
        && SameAt(was, p[i].nonResourceURLs, q[i].nonResourceURLs)
    ensures Stage(was, done + ListsOf(a.Elems()) + ListsOf(b.Elems()), all)
  {
    RulesMatchAt(was, a.Elems(), b.Elems());
    var sa := SortPolicyRules(a, was, done, all);
    var sb := SortPolicyRules(b, was, done + ListsOf(sa), all);
    ghost var done' := done + ListsOf(sa) + ListsOf(sb);
    SortedRulesAreCanonical(was, sa, done', all);
    SortedRulesAreCanonical(was, sb, done', all);
    equal := DeepEqual(sa, sb);
    CanonicalRulesDecide(RulesAt(was, sa), RulesAt(was, sb));
  }
}
