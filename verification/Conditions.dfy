/** The fold of an operator's conditions into one health entry. */
module Conditions {
  import opened Prelude

  datatype OperatorCondition = OperatorCondition(
    conditionType: string, status: string, message: string, lastTransitionTime: int)

  datatype Health = Health(
    operatorName: string, available: bool, degraded: bool, progressing: bool,
    message: string, version: string, lastTransitionTime: Option<int>)

  const AVAILABLE := "Available"
  const DEGRADED := "Degraded"
  const PROGRESSING := "Progressing"
  const TRUE := "True"

  function NewHealth(name: string): Health {
    Health(name, false, false, false, "", "", None)
  }

  /** The switch over the condition type. */
  function Switch(h: Health, c: OperatorCondition): Health {
    if c.conditionType == AVAILABLE then
      var h' := h.(available := c.status == TRUE);
      if h'.available then h' else h'.(message := c.message)
    else if c.conditionType == DEGRADED then
      var h' := h.(degraded := c.status == TRUE);
      if h'.degraded && h'.message == "" then h'.(message := c.message) else h'
    else if c.conditionType == PROGRESSING then h.(progressing := c.status == TRUE)
    else h
  }

  /** One iteration of the loop. */
  function Absorb(h: Health, c: OperatorCondition): Health {
    var h' := Switch(h, c);
    if h.lastTransitionTime.None? || c.lastTransitionTime > h.lastTransitionTime.value
    then h'.(lastTransitionTime := Some(c.lastTransitionTime)) else h'
  }

  function Fold(name: string, cs: seq<OperatorCondition>): Health {
    if cs == [] then NewHealth(name) else Absorb(Fold(name, cs[..|cs| - 1]), cs[|cs| - 1])
  }

  method FoldConditions(name: string, cs: seq<OperatorCondition>) returns (health: Health)
    ensures health == Fold(name, cs)
  {
    health := NewHealth(name);
    for i := 0 to |cs|
      invariant health == Fold(name, cs[..i])
    {
      var c := cs[i];
      assert cs[..i + 1][..i] == cs[..i];
      if c.conditionType == AVAILABLE {
        health := health.(available := c.status == TRUE);
        if !health.available { health := health.(message := c.message); }
      } else if c.conditionType == DEGRADED {
        health := health.(degraded := c.status == TRUE);
        if health.degraded && health.message == "" { health := health.(message := c.message); }
      } else if c.conditionType == PROGRESSING {
        health := health.(progressing := c.status == TRUE);
      }
      if health.lastTransitionTime.None? || c.lastTransitionTime > health.lastTransitionTime.value {
        health := health.(lastTransitionTime := Some(c.lastTransitionTime));
      }
    }
    assert cs[..|cs|] == cs;
  }

  // ---- the fold without its order -----------------------------------------

  ghost predicate DistinctTypes(cs: seq<OperatorCondition>) {
    forall i, j :: 0 <= i < j < |cs| ==> cs[i].conditionType != cs[j].conditionType
  }

  /** The condition of a type. */
  ghost function Find(cs: seq<OperatorCondition>, t: string): Option<OperatorCondition> {
    if c :| c in cs && c.conditionType == t then Some(c) else None
  }

  ghost predicate IsTrue(c: Option<OperatorCondition>) {
    c.Some? && c.value.status == TRUE
  }

  ghost predicate IsLatest(cs: seq<OperatorCondition>, t: Option<int>) {
    if cs == [] then t == None
    else
      t.Some? && (exists c :: c in cs && c.lastTransitionTime == t.value)
      && forall c :: c in cs ==> c.lastTransitionTime <= t.value
  }

  /** The message when there is no ambiguity: that of a condition that is not
      available, else that of one that is degraded, else none. */
  ghost function Message(available: Option<OperatorCondition>, degraded: Option<OperatorCondition>): string {
    if available.Some? && !IsTrue(available) then available.value.message
    else if IsTrue(degraded) then degraded.value.message
    else ""
  }

  /** A false Available condition without a message and a true Degraded one with a message. */
  ghost predicate Ambiguous(cs: seq<OperatorCondition>) {
    var a, d := Find(cs, AVAILABLE), Find(cs, DEGRADED);
    a.Some? && !IsTrue(a) && a.value.message == "" && IsTrue(d) && d.value.message != ""
  }

  lemma InInit(cs: seq<OperatorCondition>, c: OperatorCondition)
    requires |cs| > 0
    ensures c in cs <==> c in cs[..|cs| - 1] || c == cs[|cs| - 1]
  {
  }

  lemma TypeIdentifies(cs: seq<OperatorCondition>, c: OperatorCondition, d: OperatorCondition)
    requires DistinctTypes(cs) && c in cs && d in cs && c.conditionType == d.conditionType
    ensures c == d
  {
  }

  lemma FindFinds(cs: seq<OperatorCondition>, c: OperatorCondition)
    requires DistinctTypes(cs) && c in cs
    ensures Find(cs, c.conditionType) == Some(c)
  {
  }

  lemma FindLast(cs: seq<OperatorCondition>, t: string)
    requires |cs| > 0 && DistinctTypes(cs)
    ensures var init, last := cs[..|cs| - 1], cs[|cs| - 1];
      DistinctTypes(init) && Find(cs, t) == (if last.conditionType == t then Some(last) else Find(init, t))
      && (last.conditionType == t ==> Find(init, t) == None)
  {
  }

  lemma {:induction false} FoldTakesMaximum(name: string, cs: seq<OperatorCondition>)
    ensures IsLatest(cs, Fold(name, cs).lastTransitionTime)
  {
    if cs != [] {
      var init, last := cs[..|cs| - 1], cs[|cs| - 1];
      FoldTakesMaximum(name, init);
      forall c ensures c in cs <==> c in init || c == last { InInit(cs, c); }
      assert last in cs;
    }
  }

  /** What the last iteration does to the flags and the message. */
  lemma LastIteration(name: string, cs: seq<OperatorCondition>)
    requires |cs| > 0
    ensures var h0, h, c := Fold(name, cs[..|cs| - 1]), Fold(name, cs), cs[|cs| - 1];
      h.operatorName == h0.operatorName && h.version == h0.version
      && h.available == (if c.conditionType == AVAILABLE then c.status == TRUE else h0.available)
      && h.degraded == (if c.conditionType == DEGRADED then c.status == TRUE else h0.degraded)
      && h.progressing == (if c.conditionType == PROGRESSING then c.status == TRUE else h0.progressing)
      && h.message ==
         (if c.conditionType == AVAILABLE && c.status != TRUE then c.message
          else if c.conditionType == DEGRADED && c.status == TRUE && h0.message == "" then c.message
          else h0.message)
  {
  }

  /** Each flag says whether the condition of its type holds. */
  lemma {:induction false} FoldReadsFlags(name: string, cs: seq<OperatorCondition>)
    requires DistinctTypes(cs)
    ensures Fold(name, cs).operatorName == name && Fold(name, cs).version == ""
    ensures Fold(name, cs).available == IsTrue(Find(cs, AVAILABLE))
    ensures Fold(name, cs).degraded == IsTrue(Find(cs, DEGRADED))
    ensures Fold(name, cs).progressing == IsTrue(Find(cs, PROGRESSING))
  {
    if cs != [] {
      FindLast(cs, AVAILABLE);
      FindLast(cs, DEGRADED);
      FindLast(cs, PROGRESSING);
      FoldReadsFlags(name, cs[..|cs| - 1]);
      LastIteration(name, cs);
    }
  }

  /** The last condition of this type, if there is one, is True. */
  ghost predicate Says(cs: seq<OperatorCondition>, t: string) {
    exists i :: 0 <= i < |cs| && cs[i].conditionType == t && cs[i].status == "True"
      && forall j :: i < j < |cs| ==> cs[j].conditionType != t
  }

  lemma SaysLast(cs: seq<OperatorCondition>, t: string)
    requires |cs| > 0
    ensures var init, last := cs[..|cs| - 1], cs[|cs| - 1];
      Says(cs, t) <==> if last.conditionType == t then last.status == "True" else Says(init, t)
  {
    var init, last := cs[..|cs| - 1], cs[|cs| - 1];
    if Says(init, t) && last.conditionType != t {
      var i :| 0 <= i < |init| && init[i].conditionType == t && init[i].status == "True"
        && forall j :: i < j < |init| ==> init[j].conditionType != t;
      assert cs[i] == init[i];
    }
  }

  /** Whatever types occur, and how often: each flag is what the last condition of its
      type says, and False if there is none. */
  lemma {:induction false} FlagsSay(name: string, cs: seq<OperatorCondition>)
    ensures var h := Fold(name, cs);
      h.operatorName == name && h.available == Says(cs, "Available")
      && h.degraded == Says(cs, "Degraded") && h.progressing == Says(cs, "Progressing")
  {
    if cs != [] {
      SaysLast(cs, "Available");
      SaysLast(cs, "Degraded");
      SaysLast(cs, "Progressing");
      FlagsSay(name, cs[..|cs| - 1]);
      LastIteration(name, cs);
    }
  }

  ghost predicate Unavailable(c: OperatorCondition) {
    c.conditionType == "Available" && c.status != "True"
  }

  ghost predicate Degrading(c: OperatorCondition) {
    c.conditionType == "Degraded" && c.status == "True"
  }

  /** m is the first message that is not empty among the Degraded conditions from i on
      that are True, or empty if there is none. */
  ghost predicate IsFirstMessage(cs: seq<OperatorCondition>, i: nat, m: string) {
    if m == "" then forall j :: i <= j < |cs| && Degrading(cs[j]) ==> cs[j].message == ""
    else exists j :: i <= j < |cs| && Degrading(cs[j]) && cs[j].message == m
           && forall k :: i <= k < j && Degrading(cs[k]) ==> cs[k].message == ""
  }

  /** The last Available condition that is not True stands just before i, if i > 0, and
      there is none if i = 0. */
  ghost predicate LastUnavailable(cs: seq<OperatorCondition>, i: nat) {
    i <= |cs| && (i > 0 ==> Unavailable(cs[i - 1])) && forall j :: i <= j < |cs| ==> !Unavailable(cs[j])
  }

  /** m is the message of that condition; if that is empty or there is none, it is the
      first of the Degraded ones after it. */
  ghost predicate IsMessage(cs: seq<OperatorCondition>, m: string) {
    exists i: nat :: LastUnavailable(cs, i)
      && if i > 0 && cs[i - 1].message != "" then m == cs[i - 1].message else IsFirstMessage(cs, i, m)
  }

  lemma {:induction false} FindLastUnavailable(cs: seq<OperatorCondition>) returns (i: nat)
    ensures LastUnavailable(cs, i)
  {
    i := |cs|;
    while i > 0 && !Unavailable(cs[i - 1])
      invariant i <= |cs| && forall j :: i <= j < |cs| ==> !Unavailable(cs[j])
    {
      i := i - 1;
    }
  }

  /** The message, for any conditions. */
  lemma MessageExactly(name: string, cs: seq<OperatorCondition>)
    ensures IsMessage(cs, Fold(name, cs).message)
  {
    var i := FindLastUnavailable(cs);
    MessageAfter(name, cs, i);
  }

  lemma FirstMessageGoesOn(cs: seq<OperatorCondition>, i: nat, m: string)
    requires i < |cs| && IsFirstMessage(cs[..|cs| - 1], i, m)
    ensures IsFirstMessage(cs, i, if m == "" && Degrading(cs[|cs| - 1]) then cs[|cs| - 1].message else m)
  {
    var init := cs[..|cs| - 1];
    assert forall k :: 0 <= k < |init| ==> init[k] == cs[k];
    if m != "" {
      var j :| i <= j < |init| && Degrading(init[j]) && init[j].message == m
        && forall k :: i <= k < j && Degrading(init[k]) ==> init[k].message == "";
      assert cs[j].message == m;
    }
  }

  lemma {:induction false} MessageAfter(name: string, cs: seq<OperatorCondition>, i: nat)
    requires LastUnavailable(cs, i)
    ensures var message := Fold(name, cs).message;
      if i > 0 && cs[i - 1].message != "" then message == cs[i - 1].message else IsFirstMessage(cs, i, message)
  {
    if |cs| > i {
      var n := |cs| - 1;
      MessageAfter(name, cs[..n], i);
      LastIteration(name, cs);
      if !(i > 0 && cs[i - 1].message != "") { FirstMessageGoesOn(cs, i, Fold(name, cs[..n]).message); }
    } else if cs != [] {
      LastIteration(name, cs);
    }
  }

  /** An unambiguous message comes from the conditions, not from their order. */
  lemma {:induction false} FoldReadsMessage(name: string, cs: seq<OperatorCondition>)
    requires DistinctTypes(cs) && !Ambiguous(cs)
    ensures Fold(name, cs).message == Message(Find(cs, AVAILABLE), Find(cs, DEGRADED))
  {
    if cs != [] {
      FindLast(cs, AVAILABLE);
      FindLast(cs, DEGRADED);
      FoldReadsMessage(name, cs[..|cs| - 1]);
      LastIteration(name, cs);
    }
  }

  // ---- permutations -------------------------------------------------------

  lemma {:induction false} Once(cs: seq<OperatorCondition>, c: OperatorCondition)
    requires DistinctTypes(cs)
    ensures multiset(cs)[c] <= 1
  {
    if cs != [] {
      var init, last := cs[..|cs| - 1], cs[|cs| - 1];
      Once(init, c);
      FindLast(cs, last.conditionType);
      assert cs == init + [last];
      if c == last && c in init { FindFinds(init, c); }
    }
  }

  lemma Twice(cs: seq<OperatorCondition>, i: int, j: int)
    requires 0 <= i < j < |cs| && cs[i] == cs[j]
    ensures multiset(cs)[cs[i]] >= 2
  {
    assert cs == cs[..i] + [cs[i]] + cs[i + 1..j] + [cs[j]] + cs[j + 1..];
  }

  lemma PermutationKeepsTypes(cs: seq<OperatorCondition>, p: seq<OperatorCondition>)
    requires DistinctTypes(cs) && multiset(p) == multiset(cs)
    ensures DistinctTypes(p)
  {
    forall i, j | 0 <= i < j < |p| ensures p[i].conditionType != p[j].conditionType {
      assert p[i] in multiset(cs) && p[j] in multiset(cs);
      if p[i].conditionType == p[j].conditionType {
        TypeIdentifies(cs, p[i], p[j]);
        Twice(p, i, j);
        Once(cs, p[i]);
      }
    }
  }

  lemma PermutationKeepsFind(cs: seq<OperatorCondition>, p: seq<OperatorCondition>, t: string)
    requires DistinctTypes(cs) && multiset(p) == multiset(cs)
    ensures Find(p, t) == Find(cs, t)
  {
    PermutationKeepsTypes(cs, p);
    forall c ensures c in p <==> c in cs { assert c in multiset(p) <==> c in multiset(cs); }
    if Find(p, t).Some? { FindFinds(cs, Find(p, t).value); }
  }

  /** Permuting the conditions changes no flag and no transition time. */
  lemma FlagsIgnoreOrder(name: string, cs: seq<OperatorCondition>, p: seq<OperatorCondition>)
    requires DistinctTypes(cs) && multiset(p) == multiset(cs)
    ensures Fold(name, p) == Fold(name, cs).(message := Fold(name, p).message)
  {
    PermutationKeepsTypes(cs, p);
    PermutationKeepsFind(cs, p, AVAILABLE);
    PermutationKeepsFind(cs, p, DEGRADED);
    PermutationKeepsFind(cs, p, PROGRESSING);
    FoldReadsFlags(name, cs);
    FoldReadsFlags(name, p);
    MaximumIgnoresOrder(name, cs, p);
  }

  lemma MaximumIgnoresOrder(name: string, cs: seq<OperatorCondition>, p: seq<OperatorCondition>)
    requires multiset(p) == multiset(cs)
    ensures Fold(name, p).lastTransitionTime == Fold(name, cs).lastTransitionTime
  {
    FoldTakesMaximum(name, cs);
    FoldTakesMaximum(name, p);
    forall c ensures c in p <==> c in cs { assert c in multiset(p) <==> c in multiset(cs); }
    assert |multiset(p)| == |p| && |multiset(cs)| == |cs|;
  }

  lemma OtherKeepsMessage(h: Health, c: OperatorCondition)
    requires c.conditionType != AVAILABLE && c.conditionType != DEGRADED
    ensures Absorb(h, c).message == h.message
  {
  }

  /** Conditions of other types do not touch the message. */
  lemma {:induction false} OthersKeepMessage(name: string, head: seq<OperatorCondition>, rest: seq<OperatorCondition>)
    requires forall c :: c in rest ==> c.conditionType != AVAILABLE && c.conditionType != DEGRADED
    ensures Fold(name, head + rest).message == Fold(name, head).message
  {
    if rest == [] {
      assert head + rest == head;
    } else {
      var n := |rest| - 1;
      OthersKeepMessage(name, head, rest[..n]);
      assert rest[n] in rest;
      assert (head + rest)[..|head| + n] == head + rest[..n];
      OtherKeepsMessage(Fold(name, head + rest[..n]), rest[n]);
    }
  }

  /** The two orders of an ambiguous pair give different messages. */
  lemma AmbiguousPairDiffers(name: string, a: OperatorCondition, d: OperatorCondition, rest: seq<OperatorCondition>)
    requires a.conditionType == AVAILABLE && a.status != TRUE && a.message == ""
    requires d.conditionType == DEGRADED && d.status == TRUE && d.message != ""
    requires forall c :: c in rest ==> c.conditionType != AVAILABLE && c.conditionType != DEGRADED
    ensures Fold(name, [a, d] + rest).message != Fold(name, [d, a] + rest).message
  {
    OthersKeepMessage(name, [a, d], rest);
    OthersKeepMessage(name, [d, a], rest);
    assert [a, d][..1] == [a] && [d, a][..1] == [d] && [a][..0] == [] && [d][..0] == [];
  }

  lemma RemoveAt(cs: seq<OperatorCondition>, i: nat)
    requires i < |cs| && DistinctTypes(cs)
    ensures var rest := cs[..i] + cs[i + 1..];
      multiset(cs) == multiset{cs[i]} + multiset(rest) && DistinctTypes(rest)
  {
    assert cs == cs[..i] + [cs[i]] + cs[i + 1..];
  }

  /** The conditions other than a given one. */
  lemma Without(cs: seq<OperatorCondition>, a: OperatorCondition) returns (rest: seq<OperatorCondition>)
    requires DistinctTypes(cs) && a in cs
    ensures multiset(cs) == multiset{a} + multiset(rest) && DistinctTypes(rest)
    ensures forall c :: c in rest <==> c in cs && c.conditionType != a.conditionType
  {
    var i :| 0 <= i < |cs| && cs[i] == a;
    rest := cs[..i] + cs[i + 1..];
    RemoveAt(cs, i);
  }

  lemma WithoutTwo(cs: seq<OperatorCondition>, a: OperatorCondition, d: OperatorCondition)
    returns (rest: seq<OperatorCondition>)
    requires DistinctTypes(cs) && a in cs && d in cs && a.conditionType != d.conditionType
    ensures multiset([a, d] + rest) == multiset(cs) && multiset([d, a] + rest) == multiset(cs)
    ensures forall c :: c in rest ==> c.conditionType != a.conditionType && c.conditionType != d.conditionType
  {
    var most := Without(cs, a);
    rest := Without(most, d);
    assert multiset([a, d]) == multiset{a} + multiset{d} == multiset([d, a]);
    assert multiset([a, d] + rest) == multiset([a, d]) + multiset(rest);
    assert multiset([d, a] + rest) == multiset([d, a]) + multiset(rest);
  }

  lemma UnambiguousIgnoresOrder(name: string, cs: seq<OperatorCondition>, p: seq<OperatorCondition>)
    requires DistinctTypes(cs) && !Ambiguous(cs) && multiset(p) == multiset(cs)
    ensures Fold(name, p).message == Fold(name, cs).message
  {
    PermutationKeepsTypes(cs, p);
    PermutationKeepsFind(cs, p, AVAILABLE);
    PermutationKeepsFind(cs, p, DEGRADED);
    FoldReadsMessage(name, cs);
    FoldReadsMessage(name, p);
  }

  lemma AmbiguousDependsOnOrder(name: string, cs: seq<OperatorCondition>)
    returns (p: seq<OperatorCondition>, q: seq<OperatorCondition>)
    requires DistinctTypes(cs) && Ambiguous(cs)
    ensures multiset(p) == multiset(cs) == multiset(q) && Fold(name, p).message != Fold(name, q).message
  {
    var a, d := Find(cs, AVAILABLE).value, Find(cs, DEGRADED).value;
    var rest := WithoutTwo(cs, a, d);
    AmbiguousPairDiffers(name, a, d, rest);
    p, q := [a, d] + rest, [d, a] + rest;
  }

  /** So the message is independent of the order exactly when it is not ambiguous. */
  lemma MessageIgnoresOrderExactly(name: string, cs: seq<OperatorCondition>)
    requires DistinctTypes(cs)
    ensures !Ambiguous(cs) <==>
      forall p :: multiset(p) == multiset(cs) ==> Fold(name, p).message == Fold(name, cs).message
  {
    if Ambiguous(cs) {
      var p, q := AmbiguousDependsOnOrder(name, cs);
    } else {
      forall p | multiset(p) == multiset(cs) ensures Fold(name, p).message == Fold(name, cs).message {
        UnambiguousIgnoresOrder(name, cs, p);
      }
    }
  }
}
