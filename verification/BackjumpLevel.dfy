/** The least decision level at which a falsified constraint conflicts or propagates
    (lowestDLAtWhich..., ConflictAnalysis.cpp; constraintIsConflictingOrPropagating, ConstraintValue.cpp). */
module BackjumpLevel {
  import opened Arith
  import opened PBCore
  import opened Trail
  import opened Engine
  import opened Repair

  // ----- conflicting or propagating -----

  ghost function MaxUndef(s: seq<Term>, tr: seq<Elem>): nat {
    if |s| == 0 then 0
    else
      var t := s[|s| - 1];
      var m := MaxUndef(s[..|s| - 1], tr);
      if !Assigned(t.lit, tr) && t.coef > m then t.coef else m
  }

  /** constraintIsConflictingOrPropagating, on a trail. */
  ghost predicate ConflictsOrPropagates(c: PB, tr: seq<Elem>) {
    Slack(c, NonFalse(tr)) - MaxUndef(c.lhs, tr) < 0
  }

  lemma {:induction false} MaxUndefIsMax(s: seq<Term>, tr: seq<Elem>)
    ensures forall i :: 0 <= i < |s| && !Assigned(s[i].lit, tr) ==> s[i].coef <= MaxUndef(s, tr)
    ensures MaxUndef(s, tr) > 0 ==> exists i :: 0 <= i < |s| && !Assigned(s[i].lit, tr) && s[i].coef == MaxUndef(s, tr)
  {
    if |s| > 0 {
      var u := s[..|s| - 1];
      MaxUndefIsMax(u, tr);
      if MaxUndef(s, tr) > 0 && MaxUndef(s, tr) == MaxUndef(u, tr) {
        var i :| 0 <= i < |u| && !Assigned(u[i].lit, tr) && u[i].coef == MaxUndef(u, tr);
        assert s[i] == u[i];
      }
    }
  }

  /** The other reading: falsified, or some unassigned literal is forced. */
  lemma ConflictsOrPropagatesMeans(c: PB, tr: seq<Elem>)
    requires Positive(c.lhs)
    ensures ConflictsOrPropagates(c, tr) <==>
            Slack(c, NonFalse(tr)) < 0
            || exists i :: 0 <= i < |c.lhs| && !Assigned(c.lhs[i].lit, tr) && c.lhs[i].coef > Slack(c, NonFalse(tr))
  {
    MaxUndefIsMax(c.lhs, tr);
  }

  /** Neither conflicting nor propagating is what propagation calls settled. */
  lemma SettledMeans(c: PB, tr: seq<Elem>)
    requires Positive(c.lhs)
    ensures Settled(c, Slack(c, NonFalse(tr)), tr) <==> !ConflictsOrPropagates(c, tr)
  {
    ConflictsOrPropagatesMeans(c, tr);
  }

  // ----- levels of a trail -----

  lemma {:induction false} LevelPrefixIsPrefix(tr: seq<Elem>, d: nat) returns (n: nat)
    requires LevelsGrow(tr)
    ensures n <= |tr| && LevelPrefix(tr, d) == tr[..n]
    ensures forall i :: 0 <= i < n ==> tr[i].dl <= d
    ensures forall i :: n <= i < |tr| ==> tr[i].dl > d
  {
    if |tr| > 0 && tr[|tr| - 1].dl > d {
      n := LevelPrefixIsPrefix(tr[..|tr| - 1], d);
      assert tr[..|tr| - 1][..n] == tr[..n];
      forall i | n <= i < |tr|
        ensures tr[i].dl > d
      {
        assert i < |tr| - 1 ==> tr[..|tr| - 1][i] == tr[i];
      }
    } else {
      n := |tr|;
      assert tr[..n] == tr;
    }
  }

  /** Literal l was assigned at a level above d. */
  ghost predicate Above(tr: seq<Elem>, l: int, d: int) {
    exists i :: 0 <= i < |tr| && Var(tr[i].lit) == Var(l) && tr[i].dl > d
  }

  lemma AssignedMeans(tr: seq<Elem>, l: int)
    requires l != 0
    ensures Assigned(l, tr) <==> exists i :: 0 <= i < |tr| && Var(tr[i].lit) == Var(l)
  {
    if l in TrueLits(tr) {
      var i :| 0 <= i < |tr| && tr[i].lit == l;
      assert Var(tr[i].lit) == Var(l);
    }
    if l in FalseLits(tr) {
      var i :| 0 <= i < |tr| && -tr[i].lit == l;
      assert Var(tr[i].lit) == Var(l);
    }
    if i :| 0 <= i < |tr| && Var(tr[i].lit) == Var(l) {
      assert tr[i].lit == l || -tr[i].lit == l;
      assert tr[i].lit in TrueLits(tr) && -tr[i].lit in FalseLits(tr);
    }
  }

  /** The position of a literal's variable decides everything about the literal. */
  lemma AtPosition(tr: seq<Elem>, l: int, h: nat)
    requires OneEach(tr) && h < |tr| && Var(tr[h].lit) == Var(l)
    ensures Assigned(l, tr) && (l in FalseLits(tr) <==> tr[h].lit == -l)
  {
    assert tr[h].lit in TrueLits(tr) && -tr[h].lit in FalseLits(tr);
    if l in FalseLits(tr) {
      var i :| 0 <= i < |tr| && -tr[i].lit == l;
      assert i == h;
    }
  }

  lemma AboveMeans(tr: seq<Elem>, l: int, h: nat, d: int)
    requires OneEach(tr) && h < |tr| && Var(tr[h].lit) == Var(l)
    ensures Above(tr, l, d) <==> tr[h].dl > d
  {
    if Above(tr, l, d) {
      var i :| 0 <= i < |tr| && Var(tr[i].lit) == Var(l) && tr[i].dl > d;
      assert i == h;
    }
  }

  lemma PrefixOneEach(tr: seq<Elem>, n: nat)
    requires OneEach(tr) && n <= |tr|
    ensures OneEach(tr[..n])
  {
  }

  lemma InPrefix(tr: seq<Elem>, l: int, n: nat, h: nat)
    requires OneEach(tr) && n <= |tr| && h < |tr| && Var(tr[h].lit) == Var(l) && l != 0
    ensures Assigned(l, tr[..n]) <==> h < n
    ensures l in FalseLits(tr[..n]) <==> h < n && l in FalseLits(tr)
  {
    var p := tr[..n];
    PrefixOneEach(tr, n);
    AtPosition(tr, l, h);
    if h < n {
      AtPosition(p, l, h);
    } else {
      AssignedMeans(p, l);
      forall i | 0 <= i < |p|
        ensures Var(p[i].lit) != Var(l)
      {
        assert p[i] == tr[i];
      }
    }
  }

  /** Going back to level d unassigns exactly the literals above d. */
  lemma AtLevel(tr: seq<Elem>, l: int, d: nat)
    requires TrailOk(tr) && l != 0
    ensures Assigned(l, LevelPrefix(tr, d)) <==> Assigned(l, tr) && !Above(tr, l, d)
    ensures l in FalseLits(LevelPrefix(tr, d)) <==> l in FalseLits(tr) && !Above(tr, l, d)
  {
    hide FalseLits, TrueLits, Assigned, LevelsStart, LevelsGrow;
    var n := LevelPrefixIsPrefix(tr, d);
    AssignedMeans(tr, l);
    if h :| 0 <= h < |tr| && Var(tr[h].lit) == Var(l) {
      AboveMeans(tr, l, h, d);
      InPrefix(tr, l, n, h);
    } else {
      UnassignedInPrefix(tr, l, n);
    }
  }

  lemma UnassignedInPrefix(tr: seq<Elem>, l: int, n: nat)
    requires !Assigned(l, tr) && n <= |tr|
    ensures !Assigned(l, tr[..n]) && l !in FalseLits(tr[..n]) && l !in FalseLits(tr)
  {
    NonFalseShrinks(tr, n);
  }

  // ----- the list of assigned literals -----

  datatype Triple = Triple(coef: int, lit: int, dl: nat)

  ghost function FalseAbove(T: seq<Triple>, F: set<int>, d: int): int {
    if |T| == 0 then 0
    else
      var t := T[|T| - 1];
      FalseAbove(T[..|T| - 1], F, d) + (if t.dl > d && t.lit in F then t.coef else 0)
  }

  ghost function MaxAbove(T: seq<Triple>, d: int): int {
    if |T| == 0 then 0
    else
      var t := T[|T| - 1];
      var m := MaxAbove(T[..|T| - 1], d);
      if t.dl > d then Max(m, t.coef) else m
  }

  function InsertTriple(t: Triple, T: seq<Triple>): (r: seq<Triple>)
    ensures |r| == |T| + 1
  {
    if |T| == 0 || T[|T| - 1].dl >= t.dl then T + [t]
    else InsertTriple(t, T[..|T| - 1]) + [T[|T| - 1]]
  }

  /** std::sort by decreasing decision level. */
  function SortTriples(T: seq<Triple>): (r: seq<Triple>)
    ensures |r| == |T|
  {
    if |T| == 0 then [] else InsertTriple(T[|T| - 1], SortTriples(T[..|T| - 1]))
  }

  ghost predicate LevelsDecrease(T: seq<Triple>) {
    forall i, j :: 0 <= i <= j < |T| ==> T[i].dl >= T[j].dl
  }

  lemma {:induction false} InsertTripleKeeps(t: Triple, T: seq<Triple>, F: set<int>, d: int)
    ensures FalseAbove(InsertTriple(t, T), F, d) == FalseAbove(T + [t], F, d)
    ensures MaxAbove(InsertTriple(t, T), d) == MaxAbove(T + [t], d)
  {
    assert (T + [t])[..|T|] == T;
    if |T| > 0 && T[|T| - 1].dl < t.dl {
      var u := T[..|T| - 1];
      InsertTripleKeeps(t, u, F, d);
      assert (u + [t])[..|u|] == u;
      var r := InsertTriple(t, T);
      assert r[..|r| - 1] == InsertTriple(t, u);
    }
  }

  lemma {:induction false} InsertTripleOrders(t: Triple, T: seq<Triple>, lo: int)
    requires LevelsDecrease(T) && t.dl >= lo && forall i :: 0 <= i < |T| ==> T[i].dl >= lo
    ensures LevelsDecrease(InsertTriple(t, T))
    ensures forall i :: 0 <= i < |T| + 1 ==> InsertTriple(t, T)[i].dl >= lo
  {
    if |T| > 0 && T[|T| - 1].dl < t.dl {
      InsertTripleOrders(t, T[..|T| - 1], T[|T| - 1].dl);
    }
  }

  lemma {:induction false} InsertTripleOk(t: Triple, T: seq<Triple>, tr: seq<Elem>, n: nat)
    requires TripleOk(t, tr, n) && forall i :: 0 <= i < |T| ==> TripleOk(T[i], tr, n)
    ensures forall i :: 0 <= i < |T| + 1 ==> TripleOk(InsertTriple(t, T)[i], tr, n)
  {
    if |T| > 0 && T[|T| - 1].dl < t.dl {
      InsertTripleOk(t, T[..|T| - 1], tr, n);
    }
  }

  lemma {:induction false} SortTriplesKeeps(T: seq<Triple>, F: set<int>, d: int)
    ensures FalseAbove(SortTriples(T), F, d) == FalseAbove(T, F, d)
    ensures MaxAbove(SortTriples(T), d) == MaxAbove(T, d)
  {
    if |T| > 0 {
      var u, t := T[..|T| - 1], T[|T| - 1];
      SortTriplesKeeps(u, F, d);
      var s := SortTriples(u);
      InsertTripleKeeps(t, s, F, d);
      assert (s + [t])[..|s|] == s;
    }
  }

  lemma {:induction false} SortTriplesOrders(T: seq<Triple>, tr: seq<Elem>, n: nat)
    requires forall i :: 0 <= i < |T| ==> TripleOk(T[i], tr, n)
    ensures LevelsDecrease(SortTriples(T))
    ensures forall i :: 0 <= i < |T| ==> TripleOk(SortTriples(T)[i], tr, n)
  {
    if |T| > 0 {
      SortTriplesOrders(T[..|T| - 1], tr, n);
      InsertTripleOrders(T[|T| - 1], SortTriples(T[..|T| - 1]), 0);
      InsertTripleOk(T[|T| - 1], SortTriples(T[..|T| - 1]), tr, n);
    }
  }

  /** A prefix of a sorted list that reaches down to level d holds everything above d. */
  lemma {:induction false} PrefixHoldsAbove(T: seq<Triple>, F: set<int>, n: nat, d: int)
    requires n <= |T| && (forall i :: 0 <= i < n ==> T[i].dl > d) && (forall i :: n <= i < |T| ==> T[i].dl <= d)
    ensures FalseAbove(T, F, d) == FalseAbove(T[..n], F, -1)
    ensures MaxAbove(T, d) == MaxAbove(T[..n], -1)
  {
    if |T| > 0 {
      var u := T[..|T| - 1];
      if n < |T| {
        assert u[..n] == T[..n];
        PrefixHoldsAbove(u, F, n, d);
      } else {
        assert T[..n] == T;
        assert u[..n - 1] == u;
        PrefixHoldsAbove(u, F, n - 1, d);
      }
    }
  }

  lemma FalseAboveStep(T: seq<Triple>, F: set<int>, i: nat)
    requires i < |T|
    ensures FalseAbove(T[..i + 1], F, -1) == FalseAbove(T[..i], F, -1) + (if T[i].lit in F then T[i].coef else 0)
    ensures MaxAbove(T[..i + 1], -1) == Max(MaxAbove(T[..i], -1), T[i].coef)
  {
    assert T[..i + 1][..i] == T[..i];
  }

  // ----- slack at a lower level -----

  ghost predicate TripleOk(t: Triple, tr: seq<Elem>, n: nat) {
    t.coef > 0 && t.dl <= LevelOf(tr) && 1 <= Var(t.lit) <= n
  }

  /** What the first loop has collected from the terms s: the triples tell the slack at every lower level. */
  ghost predicate Collected(s: seq<Term>, T: seq<Triple>, maxUnassigned: nat, tr: seq<Elem>, n: nat) {
    && maxUnassigned == MaxUndef(s, tr)
    && (forall i :: 0 <= i < |T| ==> TripleOk(T[i], tr, n))
    && forall d: nat :: TellsLevel(s, T, maxUnassigned, tr, d)
  }

  ghost predicate TellsLevel(s: seq<Term>, T: seq<Triple>, maxUnassigned: nat, tr: seq<Elem>, d: nat) {
    && Weight(s, NonFalse(LevelPrefix(tr, d))) == Weight(s, NonFalse(tr)) + FalseAbove(T, FalseLits(tr), d)
    && MaxUndef(s, LevelPrefix(tr, d)) == Max(maxUnassigned, MaxAbove(T, d))
  }

  lemma CollectUndef(s: seq<Term>, t: Term, T: seq<Triple>, m: nat, tr: seq<Elem>, n: nat)
    requires TrailOk(tr) && Collected(s, T, m, tr, n) && t.coef > 0 && t.lit != 0 && !Assigned(t.lit, tr)
    ensures Collected(s + [t], T, Max(m, t.coef), tr, n)
  {
    assert (s + [t])[..|s|] == s;
    forall d: nat
      ensures TellsLevel(s + [t], T, Max(m, t.coef), tr, d)
    {
      assert TellsLevel(s, T, m, tr, d);
      AtLevel(tr, t.lit, d);
      WeightSnoc(s, t, NonFalse(tr));
      WeightSnoc(s, t, NonFalse(LevelPrefix(tr, d)));
    }
  }

  lemma CollectAssigned(s: seq<Term>, t: Term, T: seq<Triple>, m: nat, tr: seq<Elem>, n: nat, h: nat)
    requires TrailOk(tr) && Collected(s, T, m, tr, n) && t.coef > 0 && 1 <= Var(t.lit) <= n
    requires h < |tr| && Var(tr[h].lit) == Var(t.lit) && Assigned(t.lit, tr)
    ensures Collected(s + [t], T + [Triple(t.coef, t.lit, tr[h].dl)], m, tr, n)
  {
    var T' := T + [Triple(t.coef, t.lit, tr[h].dl)];
    assert (s + [t])[..|s|] == s && T'[..|T|] == T;
    forall d: nat
      ensures TellsLevel(s + [t], T', m, tr, d)
    {
      assert TellsLevel(s, T, m, tr, d);
      AtLevel(tr, t.lit, d);
      AboveMeans(tr, t.lit, h, d);
      WeightSnoc(s, t, NonFalse(tr));
      WeightSnoc(s, t, NonFalse(LevelPrefix(tr, d)));
      MaxAboveNonNegative(T, d);
    }
  }

  lemma {:induction false} MaxAboveNonNegative(T: seq<Triple>, d: int)
    ensures MaxAbove(T, d) >= 0
  {
    if |T| > 0 {
      MaxAboveNonNegative(T[..|T| - 1], d);
    }
  }

  /** -1: the current level is the first one; otherwise r is the first, and below the current level. */
  ghost predicate LeastLevel(c: PB, tr: seq<Elem>, r: int) {
    if r == -1 then NoneBelow(c, tr, LevelOf(tr))
    else 0 <= r < LevelOf(tr) && ConflictsOrPropagates(c, LevelPrefix(tr, r)) && NoneBelow(c, tr, r)
  }

  ghost predicate NoneBelow(c: PB, tr: seq<Elem>, r: int) {
    forall d: nat :: d < r ==> !ConflictsOrPropagates(c, LevelPrefix(tr, d))
  }

  function NextLevel(T: seq<Triple>, i: nat): nat
    requires i <= |T|
  {
    if i < |T| then T[i].dl else 0
  }

  /** State of the simulation after undoing the first i triples. */
  ghost predicate Simulated(c: PB, T: seq<Triple>, i: nat, slack: int, maxUn: int, best: nat, tr: seq<Elem>) {
    && i <= |T|
    && slack == Slack(c, NonFalse(tr)) + FalseAbove(T[..i], FalseLits(tr), -1)
    && maxUn == Max(MaxUndef(c.lhs, tr), MaxAbove(T[..i], -1))
    && NextLevel(T, i) <= best <= LevelOf(tr)
    && ConflictsOrPropagates(c, LevelPrefix(tr, best))
    && forall d: nat :: NextLevel(T, i) <= d < best ==> !ConflictsOrPropagates(c, LevelPrefix(tr, d))
  }

  /** Between two consecutive levels of the list nothing changes. */
  lemma BetweenLevels(c: PB, T: seq<Triple>, i: nat, tr: seq<Elem>, d: nat)
    requires TellsLevel(c.lhs, T, MaxUndef(c.lhs, tr), tr, d) && LevelsDecrease(T) && i <= |T|
    requires (i < |T| ==> T[i].dl <= d) && (i > 0 ==> T[i - 1].dl > d)
    ensures Slack(c, NonFalse(LevelPrefix(tr, d))) == Slack(c, NonFalse(tr)) + FalseAbove(T[..i], FalseLits(tr), -1)
    ensures MaxUndef(c.lhs, LevelPrefix(tr, d)) == Max(MaxUndef(c.lhs, tr), MaxAbove(T[..i], -1))
  {
    PrefixHoldsAbove(T, FalseLits(tr), i, d);
  }

  lemma SimulateStart(c: PB, T: seq<Triple>, tr: seq<Elem>, n: nat)
    requires Collected(c.lhs, T, MaxUndef(c.lhs, tr), tr, n) && LevelsDecrease(T) && Slack(c, NonFalse(tr)) < 0
    ensures Simulated(c, T, 0, Slack(c, NonFalse(tr)), MaxUndef(c.lhs, tr), NextLevel(T, 0), tr)
  {
    assert TellsLevel(c.lhs, T, MaxUndef(c.lhs, tr), tr, NextLevel(T, 0));
    BetweenLevels(c, T, 0, tr, NextLevel(T, 0));
  }

  lemma SimulateStep(c: PB, T: seq<Triple>, i: nat, slack: int, maxUn: int, best: nat, tr: seq<Elem>, n: nat)
    requires Collected(c.lhs, T, MaxUndef(c.lhs, tr), tr, n) && LevelsDecrease(T)
    requires Simulated(c, T, i, slack, maxUn, best, tr) && i < |T|
    ensures var slack' := if T[i].lit in FalseLits(tr) then slack + T[i].coef else slack;
            var maxUn' := Max(maxUn, T[i].coef);
            var best' := if T[i].dl != NextLevel(T, i + 1) && slack' - maxUn' < 0 then NextLevel(T, i + 1) else best;
            Simulated(c, T, i + 1, slack', maxUn', best', tr)
  {
    hide Weight, FalseAbove, MaxAbove, MaxUndef, FalseLits, NonFalse, LevelPrefix;
    FalseAboveStep(T, FalseLits(tr), i);
    var next := NextLevel(T, i + 1);
    forall d: nat | next <= d < T[i].dl
      ensures ConflictsOrPropagates(c, LevelPrefix(tr, d)) <==>
              Slack(c, NonFalse(tr)) + FalseAbove(T[..i + 1], FalseLits(tr), -1)
              - Max(MaxUndef(c.lhs, tr), MaxAbove(T[..i + 1], -1)) < 0
    {
      assert TellsLevel(c.lhs, T, MaxUndef(c.lhs, tr), tr, d);
      BetweenLevels(c, T, i + 1, tr, d);
    }
  }

  /** The collecting loop of the general algorithm. */
  method Collect(model: Model, c: PB) returns (T: seq<Triple>, slack: int, maxUnassigned: nat)
    requires model.Valid() && Positive(c.lhs) && KnownVars(c.lhs, model.numVars)
    ensures Collected(c.lhs, T, maxUnassigned, model.modelStack, model.numVars)
    ensures maxUnassigned == MaxUndef(c.lhs, model.modelStack)
    ensures slack == Slack(c, NonFalse(model.modelStack))
  {
    hide TrailOk, Mirrors, FalseLits, TrueLits, Weight, MaxUndef, Collected;
    T, slack, maxUnassigned := [], -c.rhs, 0;
    ghost var tr := model.modelStack;
    CollectedNothing(tr, model.numVars);
    assert c.lhs[..0] == [];
    for i := 0 to |c.lhs|
      invariant Collected(c.lhs[..i], T, maxUnassigned, tr, model.numVars)
      invariant slack == Weight(c.lhs[..i], NonFalse(tr)) - c.rhs
    {
      var t := c.lhs[i];
      WeightStep(c.lhs, i, NonFalse(tr));
      assert c.lhs[..i + 1] == c.lhs[..i] + [t];
      if !model.IsFalseLit(t.lit) {
        slack := slack + t.coef;
      }
      if model.IsUndefLit(t.lit) {
        CollectUndef(c.lhs[..i], t, T, maxUnassigned, tr, model.numVars);
        maxUnassigned := Max(maxUnassigned, t.coef);
      } else {
        CollectAssigned(c.lhs[..i], t, T, maxUnassigned, tr, model.numVars, model.HeightOf(t.lit));
        T := T + [Triple(t.coef, t.lit, model.LevelOfLit(t.lit))];
      }
    }
    assert c.lhs[..|c.lhs|] == c.lhs;
    CollectedMax(c.lhs, T, maxUnassigned, tr, model.numVars);
  }

  lemma CollectedMax(s: seq<Term>, T: seq<Triple>, m: nat, tr: seq<Elem>, n: nat)
    requires Collected(s, T, m, tr, n)
    ensures m == MaxUndef(s, tr) && forall i :: 0 <= i < |T| ==> TripleOk(T[i], tr, n)
  {
  }

  lemma CollectedNothing(tr: seq<Elem>, n: nat)
    ensures Collected([], [], 0, tr, n) && Weight([], NonFalse(tr)) == 0
  {
  }

  lemma CollectedSorted(s: seq<Term>, T: seq<Triple>, m: nat, tr: seq<Elem>, n: nat)
    requires Collected(s, T, m, tr, n)
    ensures Collected(s, SortTriples(T), m, tr, n) && LevelsDecrease(SortTriples(T))
  {
    SortTriplesOrders(T, tr, n);
    forall d: nat
      ensures TellsLevel(s, SortTriples(T), m, tr, d)
    {
      assert TellsLevel(s, T, m, tr, d);
      SortTriplesKeeps(T, FalseLits(tr), d);
    }
  }

  lemma SimulateEnd(c: PB, T: seq<Triple>, slack: int, maxUn: int, best: nat, tr: seq<Elem>)
    requires Simulated(c, T, |T|, slack, maxUn, best, tr)
    ensures LeastLevel(c, tr, if best == LevelOf(tr) then -1 else best)
  {
  }

  /** lowestDLAtWhichConstraintPropagatesOrConflicting, general case. */
  method LowestLevelGeneral(model: Model, c: PB) returns (r: int)
    requires model.Valid() && Positive(c.lhs) && KnownVars(c.lhs, model.numVars)
    requires Slack(c, NonFalse(model.modelStack)) < 0
    ensures LeastLevel(c, model.modelStack, r)
  {
    hide TrailOk, Mirrors, FalseLits, TrueLits, Weight, MaxUndef, Collected, Simulated, LeastLevel, MaxAbove,
         FalseAbove;
    ghost var tr, n := model.modelStack, model.numVars;
    var T, slack, maxUnassigned := Collect(model, c);
    CollectedSorted(c.lhs, T, maxUnassigned, tr, n);
    T := SortTriples(T);
    CollectedMax(c.lhs, T, maxUnassigned, tr, n);
    SimulateStart(c, T, tr, n);
    var best := NextLevel(T, 0);
    for i := 0 to |T|
      invariant Simulated(c, T, i, slack, maxUnassigned, best, tr)
    {
      SimulateStep(c, T, i, slack, maxUnassigned, best, tr, n);
      assert TripleOk(T[i], tr, n);
      if model.IsFalseLit(T[i].lit) {
        slack := slack + T[i].coef;
      }
      maxUnassigned := Max(maxUnassigned, T[i].coef);
      if T[i].dl != NextLevel(T, i + 1) && slack - maxUnassigned < 0 {
        best := NextLevel(T, i + 1);
      }
    }
    SimulateEnd(c, T, slack, maxUnassigned, best, tr);
    if best == model.decisionLevel {
      return -1;
    }
    return best;
  }

  // ----- the shortcut for clauses -----

  ghost function CountAbove(s: seq<Term>, tr: seq<Elem>, d: int): nat {
    if |s| == 0 then 0
    else CountAbove(s[..|s| - 1], tr, d) + (if Above(tr, s[|s| - 1].lit, d) then 1 else 0)
  }

  ghost predicate AllFalse(s: seq<Term>, tr: seq<Elem>) {
    forall i :: 0 <= i < |s| ==> s[i].lit in FalseLits(tr)
  }

  /** A falsified clause conflicts or propagates at level d exactly when at most one literal lies above d. */
  lemma ClauseAtLevel(c: PB, tr: seq<Elem>, d: nat)
    requires TrailOk(tr) && Positive(c.lhs) && IsClause(c) && AllFalse(c.lhs, tr)
    ensures ConflictsOrPropagates(c, LevelPrefix(tr, d)) <==> CountAbove(c.lhs, tr, d) <= 1
  {
    CountTells(c.lhs, tr, d);
  }

  lemma {:induction false} CountTells(s: seq<Term>, tr: seq<Elem>, d: nat)
    requires TrailOk(tr) && Positive(s) && UnitCoefs(s) && AllFalse(s, tr)
    ensures Weight(s, NonFalse(LevelPrefix(tr, d))) == CountAbove(s, tr, d)
    ensures MaxUndef(s, LevelPrefix(tr, d)) == if CountAbove(s, tr, d) > 0 then 1 else 0
  {
    if |s| > 0 {
      CountTells(s[..|s| - 1], tr, d);
      AtLevel(tr, s[|s| - 1].lit, d);
    }
  }

  /** What the scan knows: the two highest levels and how many literals have the highest. */
  ghost predicate Ranked(s: seq<Term>, tr: seq<Elem>, max: int, second: int, n: nat) {
    && -1 <= second <= max <= LevelOf(tr)
    && (second == max ==> max == -1)
    && (|s| > 0 ==> n >= 1 && max >= 0)
    && (|s| == 0 ==> max == -1)
    && forall d: nat :: CountIs(s, tr, max, second, n, d)
  }

  ghost predicate CountIs(s: seq<Term>, tr: seq<Elem>, max: int, second: int, n: nat, d: nat) {
    && (d >= max ==> CountAbove(s, tr, d) == 0)
    && (second <= d < max ==> CountAbove(s, tr, d) == n)
    && (d < second ==> CountAbove(s, tr, d) >= n + 1)
  }

  lemma RankStep(s: seq<Term>, t: Term, tr: seq<Elem>, max: int, second: int, n: nat, h: nat)
    requires TrailOk(tr) && Ranked(s, tr, max, second, n) && h < |tr| && Var(tr[h].lit) == Var(t.lit)
    ensures var dl := tr[h].dl;
            if dl > max then Ranked(s + [t], tr, dl, max, 1)
            else if dl == max then Ranked(s + [t], tr, max, second, n + 1)
            else if dl > second then Ranked(s + [t], tr, max, dl, n)
            else Ranked(s + [t], tr, max, second, n)
  {
    var dl := tr[h].dl;
    assert dl <= LevelOf(tr);
    assert (s + [t])[..|s|] == s;
    forall d: nat
      ensures CountAbove(s + [t], tr, d) == CountAbove(s, tr, d) + (if dl > d then 1 else 0)
      ensures CountIs(s, tr, max, second, n, d)
    {
      AboveMeans(tr, t.lit, h, d);
    }
  }

  lemma RankedAnswer(c: PB, tr: seq<Elem>, max: int, second: int, n: nat)
    requires TrailOk(tr) && Positive(c.lhs) && IsClause(c) && AllFalse(c.lhs, tr) && |c.lhs| > 0
    requires Ranked(c.lhs, tr, max, second, n)
    ensures LevelOf(tr) > 0 && n == 1 ==> LeastLevel(c, tr, if second == -1 then 0 else second)
    ensures n != 1 ==> LeastLevel(c, tr, if max != LevelOf(tr) then max else -1)
  {
    forall d: nat
      ensures ConflictsOrPropagates(c, LevelPrefix(tr, d)) <==> CountAbove(c.lhs, tr, d) <= 1
      ensures CountIs(c.lhs, tr, max, second, n, d)
    {
      ClauseAtLevel(c, tr, d);
    }
  }

  /** lowestDLAtWhichClausePropagatesOrConflicting; exact whenever the current level is not the root. */
  method LowestLevelClause(model: Model, c: PB) returns (r: int)
    requires model.Valid() && Positive(c.lhs) && KnownVars(c.lhs, model.numVars) && IsClause(c) && |c.lhs| > 0
    requires AllFalse(c.lhs, model.modelStack)
    ensures LevelOf(model.modelStack) > 0 ==> LeastLevel(c, model.modelStack, r)
  {
    hide Mirrors, FalseLits, TrueLits, Ranked, LeastLevel, TrailOk;
    ghost var tr := model.modelStack;
    var maxDL, secondMaxDL, nMax := -1, -1, 0;
    RankedNothing(tr);
    assert c.lhs[..0] == [];
    for i := 0 to |c.lhs|
      invariant Ranked(c.lhs[..i], tr, maxDL, secondMaxDL, nMax)
    {
      var l := c.lhs[i].lit;
      FalseIsAssigned(model, l);
      var dl := model.LevelOfLit(l);
      RankStep(c.lhs[..i], c.lhs[i], tr, maxDL, secondMaxDL, nMax, model.HeightOf(l));
      assert c.lhs[..i + 1] == c.lhs[..i] + [c.lhs[i]];
      if dl > maxDL {
        secondMaxDL, maxDL, nMax := maxDL, dl, 1;
      } else if dl == maxDL {
        nMax := nMax + 1;
      } else if dl > secondMaxDL {
        secondMaxDL := dl;
      }
    }
    assert c.lhs[..|c.lhs|] == c.lhs;
    RankedAnswer(c, tr, maxDL, secondMaxDL, nMax);
    if nMax == 1 {
      if secondMaxDL == -1 {
        secondMaxDL := 0;
      }
      return secondMaxDL;
    } else if maxDL != model.decisionLevel {
      return maxDL;
    } else {
      return -1;
    }
  }

  lemma RankedNothing(tr: seq<Elem>)
    ensures Ranked([], tr, -1, -1, 0)
  {
  }

  lemma FalseIsAssigned(model: Model, l: int)
    requires model.Valid() && model.HasVar(l) && l in FalseLits(model.modelStack)
    ensures !model.IsUndefLit(l)
  {
  }

  /** A falsified clause has only false literals. */
  lemma FalsifiedClause(c: PB, tr: seq<Elem>)
    requires Positive(c.lhs) && IsClause(c) && Slack(c, NonFalse(tr)) < 0
    ensures AllFalse(c.lhs, tr)
  {
    if i :| 0 <= i < |c.lhs| && c.lhs[i].lit !in FalseLits(tr) {
      WeightAtLeastTerm(c.lhs, i, NonFalse(tr));
      assert false;
    }
  }

  /** lowestDLAtWhichConstraintPropagatesOrConflicting. */
  method LowestLevel(model: Model, c: PB) returns (r: int)
    requires model.Valid() && Positive(c.lhs) && KnownVars(c.lhs, model.numVars) && |c.lhs| > 0
    requires Slack(c, NonFalse(model.modelStack)) < 0 && model.decisionLevel > 0
    ensures LeastLevel(c, model.modelStack, r)
  {
    var clause := IsClauseCheck(c);
    if clause {
      FalsifiedClause(c, model.modelStack);
      r := LowestLevelClause(model, c);
    } else {
      r := LowestLevelGeneral(model, c);
    }
  }

  /** WConstraint::isClause. */
  method IsClauseCheck(c: PB) returns (b: bool)
    ensures b <==> IsClause(c)
  {
    if c.rhs != 1 {
      return false;
    }
    for i := 0 to |c.lhs|
      invariant forall j :: 0 <= j < i ==> c.lhs[j].coef == 1
    {
      if c.lhs[i].coef != 1 {
        return false;
      }
    }
    return true;
  }
}
