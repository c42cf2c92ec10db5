/** Drift as a function of a baseline and the cluster, and what it means. */
module Drift {
  import opened Prelude
  import opened PolicyRules
  import opened Rbac

  datatype DriftType = Modified | Deleted | Unexpected

  /** A drift item.  Its message is presentation and is not modelled. */
  datatype RBACDrift = RBACDrift(key: Key, driftType: DriftType, detectedAt: int)

  /** The outcome of a `Get`: the object, a NotFound error, or any other error. */
  datatype ReadResult = Found(obj: Object) | NotFound | Failed

  function Lookup(c: Cluster, key: Key): ReadResult {
    if key in c then Found(c[key]) else NotFound
  }

  /** Roles match up to the order inside their rules' lists; bindings must be equal. */
  predicate Matches(want: Content, actual: Content) {
    match (want, actual)
    case (Rules(w), Rules(a)) => RulesMatch(w.Elems(), a.Elems())
    case (Binding(wr, ws), Binding(ar, as')) => wr == ar && ws == as'
    case _ => false
  }

  /** The items that one entry adds: none or one. */
  function Classify(e: Entry, r: ReadResult, now: int): seq<RBACDrift> {
    match r
    case NotFound => [RBACDrift(e.key, Deleted, now)]
    case Failed => []
    case Found(obj) => if Matches(e.want, obj.content) then [] else [RBACDrift(e.key, Modified, now)]
  }

  /** The loop over the baseline, given what each `Get` returned. */
  function CheckDrift(es: seq<Entry>, got: seq<ReadResult>, now: int): seq<RBACDrift>
    requires |es| == |got|
  {
    if es == [] then []
    else
      CheckDrift(es[..|es| - 1], got[..|es| - 1], now)
      + Classify(es[|es| - 1], got[|es| - 1], now)
  }

  /** What reads that meet no error return while the cluster does not change. */
  function Lookups(es: seq<Entry>, c: Cluster): seq<ReadResult> {
    seq(|es|, i requires 0 <= i < |es| => Lookup(c, es[i].key))
  }

  /** The drift of a baseline against a cluster. */
  function PureDrift(es: seq<Entry>, c: Cluster, now: int): seq<RBACDrift> {
    CheckDrift(es, Lookups(es, c), now)
  }

  // ---- one step of the loop ----------------------------------------------

  lemma CheckDriftStep(es: seq<Entry>, got: seq<ReadResult>, e: Entry, r: ReadResult, now: int)
    requires |es| == |got|
    ensures CheckDrift(es + [e], got + [r], now) == CheckDrift(es, got, now) + Classify(e, r, now)
  {
  }

  lemma CheckDriftLast(es: seq<Entry>, got: seq<ReadResult>, now: int)
    requires |es| == |got| > 0
    ensures var n := |es| - 1;
      CheckDrift(es, got, now) == CheckDrift(es[..n], got[..n], now) + Classify(es[n], got[n], now)
  {
  }

  lemma LastMovesOut<T>(a: seq<T>, b: seq<T>)
    requires b != []
    ensures a + b == (a + b[..|b| - 1]) + [b[|b| - 1]]
  {
  }

  lemma {:induction false} CheckDriftConcat(es: seq<Entry>, got: seq<ReadResult>, es': seq<Entry>,
        got': seq<ReadResult>, now: int)
    requires |es| == |got| && |es'| == |got'|
    ensures CheckDrift(es + es', got + got', now) == CheckDrift(es, got, now) + CheckDrift(es', got', now)
  {
    if es' == [] {
      assert es + es' == es && got + got' == got;
    } else {
      var n := |es'| - 1;
      CheckDriftConcat(es, got, es'[..n], got'[..n], now);
      LastMovesOut(es, es');
      LastMovesOut(got, got');
      CheckDriftStep(es + es'[..n], got + got'[..n], es'[n], got'[n], now);
      CheckDriftLast(es', got', now);
    }
  }

  lemma RuleMatchesAlike(w: Rule, w': Rule, a: Rule)
    requires RuleMatches(w, w')
    ensures RuleMatches(w, a) == RuleMatches(w', a)
  {
  }

  lemma RulesMatchAlike(w: seq<Rule>, w': seq<Rule>, a: seq<Rule>)
    requires RulesMatch(w, w')
    ensures RulesMatch(w, a) == RulesMatch(w', a)
  {
    forall i | 0 <= i < |w| && i < |a| ensures RuleMatches(w[i], a[i]) == RuleMatches(w'[i], a[i]) {
      RuleMatchesAlike(w[i], w'[i], a[i]);
    }
  }

  /** The comparison does not see the order inside the baseline's own lists. */
  lemma ClassifyPermuted(key: Key, w: Slice<Rule>, w': Slice<Rule>, r: ReadResult, now: int)
    requires RulesMatch(w.Elems(), w'.Elems())
    ensures Classify(Entry(key, Rules(w)), r, now) == Classify(Entry(key, Rules(w')), r, now)
  {
    if r.Found? && r.obj.content.Rules? {
      RulesMatchAlike(w.Elems(), w'.Elems(), r.obj.content.rules.Elems());
    }
  }

  // ---- which items there are ----------------------------------------------

  /** What it means for an entry to have drifted. */
  ghost predicate Drifted(e: Entry, c: Cluster, t: DriftType) {
    (t == Deleted && e.key !in c) || (t == Modified && e.key in c && !Matches(e.want, c[e.key].content))
  }

  lemma {:induction false} DriftMembers(es: seq<Entry>, c: Cluster, now: int, d: RBACDrift)
    ensures d in PureDrift(es, c, now) <==>
      d.detectedAt == now && exists i :: 0 <= i < |es| && es[i].key == d.key && Drifted(es[i], c, d.driftType)
  {
    if es != [] {
      var n := |es| - 1;
      DriftMembers(es[..n], c, now, d);
      assert Lookups(es, c)[..n] == Lookups(es[..n], c);
      assert PureDrift(es, c, now) == PureDrift(es[..n], c, now) + Classify(es[n], Lookup(c, es[n].key), now);
      if i :| 0 <= i < n && es[..n][i].key == d.key && Drifted(es[..n][i], c, d.driftType) {
        assert es[i].key == d.key && Drifted(es[i], c, d.driftType);
      }
      if i :| 0 <= i < |es| && es[i].key == d.key && Drifted(es[i], c, d.driftType) {
        if i < n { assert es[..n][i] == es[i]; }
      }
    }
  }
}
