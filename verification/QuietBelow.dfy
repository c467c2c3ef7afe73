/** Why conflict analysis never pops a decision: no constraint it meets conflicts or propagates below the level
    it works on (conflictAnalysisAndBackjump, ConflictAnalysis.cpp). */
module QuietBelow {
  import opened Arith
  import opened PBCore
  import opened Normalise
  import opened Cut
  import opened Trail
  import opened Watches
  import opened Engine
  import opened Repair
  import opened BackjumpLevel
  import opened Closure
  import opened PropagateLoop
  import opened LemmaShortening
  import opened Database
  import opened Resolution

  /** Below the current level of the trail the constraint neither conflicts nor propagates. */
  ghost predicate Quiet(c: PB, tr: seq<Elem>) {
    NoneBelow(c, tr, LevelOf(tr))
  }

  // ----- one trail -----

  /** A constraint that neither conflicts nor propagates stays satisfied without any one unassigned literal. */
  lemma QuietTells(c: PB, p: seq<Elem>, l: int)
    requires WellFormed(c) && !ConflictsOrPropagates(c, p) && !Assigned(l, p)
    ensures Sat(c, NonFalse(p)) && Sat(c, NonFalse(p) - iset{l})
  {
    hide Weight;
    ConflictsOrPropagatesMeans(c, p);
    OrderedIsDistinct(c.lhs);
    if i :| 0 <= i < |c.lhs| && c.lhs[i].lit == l {
      WeightRemoveLit(c.lhs, i, NonFalse(p));
    } else {
      WeightAgree(c.lhs, NonFalse(p), NonFalse(p) - iset{l});
    }
  }

  lemma QuietBy(c: PB, p: seq<Elem>)
    requires Positive(c.lhs) && DistinctVars(c.lhs) && Sat(c, NonFalse(p))
    requires forall i :: 0 <= i < |c.lhs| && !Assigned(c.lhs[i].lit, p) ==> Sat(c, NonFalse(p) - iset{c.lhs[i].lit})
    ensures !ConflictsOrPropagates(c, p)
  {
    hide Weight;
    ConflictsOrPropagatesMeans(c, p);
    if i :| 0 <= i < |c.lhs| && !Assigned(c.lhs[i].lit, p) && c.lhs[i].coef > Slack(c, NonFalse(p)) {
      WeightRemoveLit(c.lhs, i, NonFalse(p));
    }
  }

  lemma WeakerIsQuiet(c: PB, d: PB, p: seq<Elem>)
    requires WellFormed(c) && WellFormed(d) && Weaker(c, d) && !ConflictsOrPropagates(c, p)
    ensures !ConflictsOrPropagates(d, p)
  {
    hide ConflictsOrPropagates, Weight, Sat, NonFalse, Assigned;
    ConflictsOrPropagatesMeans(c, p);
    assert Sat(c, NonFalse(p)) by { SlackSat(c, NonFalse(p)); }
    forall i | 0 <= i < |d.lhs| && !Assigned(d.lhs[i].lit, p)
      ensures Sat(d, NonFalse(p) - iset{d.lhs[i].lit})
    {
      QuietTells(c, p, d.lhs[i].lit);
    }
    OrderedIsDistinct(d.lhs);
    QuietBy(d, p);
  }

  lemma SlackSat(c: PB, L: Lits)
    ensures Sat(c, L) <==> Slack(c, L) >= 0
  {
  }

  lemma ApartSum(k1: int, k2: int, s1: int, s2: int, a1: int, a2: int)
    requires k1 > 0 && k2 > 0 && k1 * a1 == k2 * a2 && s1 >= 0 && s2 >= 0 && (s1 >= a1 || s2 >= a2)
    ensures k1 * s1 + k2 * s2 - k1 * a1 >= 0
  {
    MulLeq(0, s1, k1);
    MulLeq(0, s2, k2);
    if s1 >= a1 {
      MulLeq(a1, s1, k1);
    } else {
      MulLeq(a2, s2, k2);
    }
  }

  lemma QuietSlack(c: PB, i: nat, p: seq<Elem>)
    requires WellFormed(c) && i < |c.lhs| && !Assigned(c.lhs[i].lit, p) && !ConflictsOrPropagates(c, p)
    ensures Slack(c, NonFalse(p)) >= c.lhs[i].coef
  {
    ConflictsOrPropagatesMeans(c, p);
  }

  /** Both constraints keep their own slack, and one of them its pivot's coefficient as well. */
  lemma SumSatisfied(q: Parents, L: Lits)
    requires Pivots(q.c1, q.c2, q.i1, q.i2) && !Clash(q.c1.lhs, q.c2.lhs, Var(q.c1.lhs[q.i1].lit))
    requires q.c1.lhs[q.i1].lit in L && q.c2.lhs[q.i2].lit in L && Sat(q.c1, L) && Sat(q.c2, L)
    requires Slack(q.c1, L) >= q.c1.lhs[q.i1].coef || Slack(q.c2, L) >= q.c2.lhs[q.i2].coef
    ensures Sat(Plain(q), L)
  {
    hide Weight, CutOf, Ordered, Clash;
    var a1, a2 := q.c1.lhs[q.i1].coef, q.c2.lhs[q.i2].coef;
    FactorsBalance(a1, a2);
    CutSlackApart(q.c1, q.c2, q.i1, q.i2, L);
    ApartSum(a2 / GCD(a1, a2), a1 / GCD(a1, a2), Slack(q.c1, L), Slack(q.c2, L), a1, a2);
  }

  /** Two quiet constraints that share the pivot and nothing else have a quiet sum. */
  lemma SumIsQuiet(q: Parents, p: seq<Elem>, l: int)
    requires Pivots(q.c1, q.c2, q.i1, q.i2) && !Clash(q.c1.lhs, q.c2.lhs, Var(q.c1.lhs[q.i1].lit))
    requires !Assigned(q.c1.lhs[q.i1].lit, p) && !Assigned(q.c2.lhs[q.i2].lit, p)
    requires !ConflictsOrPropagates(q.c1, p) && !ConflictsOrPropagates(q.c2, p)
    ensures Sat(Plain(q), NonFalse(p))
    ensures !Assigned(l, p) && Var(l) != Var(q.c1.lhs[q.i1].lit) ==> Sat(Plain(q), NonFalse(p) - iset{l})
  {
    hide Weight, CutOf, ConflictsOrPropagates, Slack, Ordered, Positive, Clash, MentionsVar, Plain;
    var N := NonFalse(p);
    QuietTells(q.c1, p, q.c1.lhs[q.i1].lit);
    QuietTells(q.c2, p, q.c1.lhs[q.i1].lit);
    QuietSlack(q.c1, q.i1, p);
    QuietSlack(q.c2, q.i2, p);
    SumSatisfied(q, N);
    if !Assigned(l, p) && Var(l) != Var(q.c1.lhs[q.i1].lit) {
      QuietTells(q.c1, p, l);
      QuietTells(q.c2, p, l);
      OnlyInOne(q, l);
      SameWithout(q.c1, N, l);
      SameWithout(q.c2, N, l);
      SumSatisfied(q, N - iset{l});
    }
  }

  lemma OnlyInOne(q: Parents, l: int)
    requires Pivots(q.c1, q.c2, q.i1, q.i2) && !Clash(q.c1.lhs, q.c2.lhs, Var(q.c1.lhs[q.i1].lit))
    requires Var(l) != Var(q.c1.lhs[q.i1].lit)
    ensures !MentionsVar(q.c1.lhs, Var(l)) || !MentionsVar(q.c2.lhs, Var(l))
  {
  }

  lemma SameWithout(c: PB, N: Lits, l: int)
    ensures !MentionsVar(c.lhs, Var(l)) ==> Slack(c, N - iset{l}) == Slack(c, N)
  {
    if !MentionsVar(c.lhs, Var(l)) {
      NotMentioned(c.lhs, l, N);
    }
  }

  /** ... and so does their cut. */
  lemma ApartIsQuiet(q: Parents, v: int, cut: PB, p: seq<Elem>)
    requires IsCut(q, v, cut, false) && !Assigned(v, p) && !Assigned(-v, p)
    requires !ConflictsOrPropagates(q.c1, p) && !ConflictsOrPropagates(q.c2, p)
    ensures !ConflictsOrPropagates(cut, p)
  {
    hide Weight, CutOf, ConflictsOrPropagates, NormalisedCut, Clash, Sat, Assigned, NonFalse;
    AcceptedCutIsImplied(q.c1, q.c2, q.i1, q.i2);
    CutShape(q.c1, q.c2, q.i1, q.i2);
    NormalisedCutExact(Plain(q), NonFalse(p));
    SumIsQuiet(q, p, 0);
    forall i | 0 <= i < |cut.lhs| && !Assigned(cut.lhs[i].lit, p)
      ensures Sat(cut, NonFalse(p) - iset{cut.lhs[i].lit})
    {
      assert Var(cut.lhs[i].lit) != v;
      SumIsQuiet(q, p, cut.lhs[i].lit);
      NormalisedCutExact(Plain(q), NonFalse(p) - iset{cut.lhs[i].lit});
    }
    OrderedIsDistinct(cut.lhs);
    QuietBy(cut, p);
  }

  // ----- the database -----

  /** A clause with a true literal, or with two that are not false, does nothing. */
  lemma ClauseDoesNothing(lits: seq<int>, p: seq<Elem>, x: int, y: int)
    requires DistinctLitVars(lits) && (forall i :: 0 <= i < |lits| ==> lits[i] != 0) && x in lits && y in lits
    requires x !in FalseLits(p) && (Assigned(x, p) || (x != y && y !in FalseLits(p)))
    ensures !ConflictsOrPropagates(ClausePB(lits), p)
  {
    hide ConflictsOrPropagates, Sat, Assigned;
    var c, N := ClausePB(lits), NonFalse(p);
    assert forall i :: 0 <= i < |lits| ==> c.lhs[i] == Term(1, lits[i]);
    ClauseSat(lits, N);
    forall i | 0 <= i < |c.lhs| && !Assigned(c.lhs[i].lit, p)
      ensures Sat(c, N - iset{c.lhs[i].lit})
    {
      ClauseSat(lits, N - iset{c.lhs[i].lit});
      assert x in N - iset{c.lhs[i].lit} || y in N - iset{c.lhs[i].lit};
    }
    QuietBy(c, p);
  }

  lemma TrueIsNotFalse(tr: seq<Elem>, x: int, d: nat, n: nat)
    requires OneEach(tr) && n <= |tr| && TrueBy(tr, x, d) && forall j :: n <= j < |tr| ==> tr[j].dl > d
    ensures x !in FalseLits(tr[..n]) && Assigned(x, tr[..n])
  {
    var i :| 0 <= i < |tr| && tr[i].lit == x && tr[i].dl <= d;
    assert tr[..n][i] == tr[i] && x in TrueLits(tr[..n]);
    PrefixOneEach(tr, n);
    AtPosition(tr[..n], x, i);
  }

  lemma StoredIsQuiet(s: Solver, k: nat)
    requires Underway(s) && k < |s.constraintsPB|
    ensures Quiet(s.constraintsPB[k], s.model.modelStack)
  {
    hide LowerClauses, LowerPropagated, ReasonsOk, Mirrors, ClausesOk, ListsWatch, ListsOk, TrailOk, CountersOk,
         BinsKnown, StampsOk, LevelPrefix, Settled, ConflictsOrPropagates;
    var tr, c := s.model.modelStack, s.constraintsPB[k];
    assert Stored(c, s.model.numVars);
    forall d: nat | d < LevelOf(tr)
      ensures !ConflictsOrPropagates(c, LevelPrefix(tr, d))
    {
      assert SettledAt(s.constraintsPB, LevelPrefix(tr, d));
      SettledMeans(c, LevelPrefix(tr, d));
    }
  }

  /** A watch that is false below the current level comes with a literal that was true by then. */
  lemma FalseWatch(tr: seq<Elem>, n: nat, d: nat, cl: seq<int>, k: nat, w: int, clauses: seq<seq<int>>,
                   gen: map<int, seq<GenElem>>) returns (x: int)
    requires OneEach(tr) && n <= |tr| && d < LevelOf(tr) && LowerClauses(tr, clauses, gen)
    requires (forall i :: 0 <= i < n ==> tr[i].dl <= d) && (forall i :: n <= i < |tr| ==> tr[i].dl > d)
    requires k < |clauses| && clauses[k] == cl && Watches.Watches(cl, w) && w in FalseLits(tr[..n])
    ensures x in cl && x !in FalseLits(tr[..n]) && Assigned(x, tr[..n])
  {
    var i :| 0 <= i < n && -tr[..n][i].lit == w;
    assert WatchOkAt(tr, i, clauses);
    x :| x in cl && TrueBy(tr, x, tr[i].dl);
    assert TrueBy(tr, x, d);
    TrueIsNotFalse(tr, x, d, n);
  }

  lemma ClauseIsQuiet(s: Solver, k: nat)
    requires Underway(s) && k < |s.store.clauses| && DistinctLitVars(s.store.clauses[k])
    ensures Quiet(ClausePB(s.store.clauses[k]), s.model.modelStack)
  {
    hide LowerClauses, LowerPropagated, LevelsClosed, ReasonsOk, Mirrors, ListsWatch, ListsOk, CountersOk, BinsKnown,
         Stored, StampsOk, LevelPrefix, ConflictsOrPropagates, ClausePB, LevelsStart, FalseLits, Assigned;
    var tr, cl := s.model.modelStack, s.store.clauses[k];
    assert ClauseOk(cl, s.store.watchIdx[k], s.store.numVars);
    forall d: nat | d < LevelOf(tr)
      ensures !ConflictsOrPropagates(ClausePB(cl), LevelPrefix(tr, d))
    {
      var n := LevelPrefixIsPrefix(tr, d);
      if cl[0] in FalseLits(tr[..n]) {
        var x := FalseWatch(tr, n, d, cl, k, cl[0], s.store.clauses, s.genWatchList);
        ClauseDoesNothing(cl, tr[..n], x, x);
      } else if cl[1] in FalseLits(tr[..n]) {
        var x := FalseWatch(tr, n, d, cl, k, cl[1], s.store.clauses, s.genWatchList);
        ClauseDoesNothing(cl, tr[..n], x, x);
      } else {
        assert cl[0] != cl[1];
        ClauseDoesNothing(cl, tr[..n], cl[0], cl[1]);
      }
    }
  }

  /** A literal of a binary clause that is false below the current level has its partner true by then. */
  lemma FalsePartner(tr: seq<Elem>, n: nat, d: nat, l: int, o: int, clauses: seq<seq<int>>,
                     gen: map<int, seq<GenElem>>)
    requires OneEach(tr) && n <= |tr| && d < LevelOf(tr) && LowerClauses(tr, clauses, gen)
    requires (forall i :: 0 <= i < n ==> tr[i].dl <= d) && (forall i :: n <= i < |tr| ==> tr[i].dl > d)
    requires l in gen && Bin(o) in gen[l] && l in FalseLits(tr[..n])
    ensures o !in FalseLits(tr[..n]) && Assigned(o, tr[..n])
  {
    var i :| 0 <= i < n && -tr[..n][i].lit == l;
    assert BinOkAt(tr, i, gen);
    var j :| 0 <= j < |gen[l]| && gen[l][j] == Bin(o);
    assert gen[l][j].Bin? && TrueBy(tr, o, tr[i].dl);
    assert TrueBy(tr, o, d);
    TrueIsNotFalse(tr, o, d, n);
  }

  lemma BinaryIsQuiet(s: Solver, l: int, o: int)
    requires Underway(s) && l in s.genWatchList && Bin(o) in s.genWatchList[l] && DistinctLitVars([l, o])
    requires l != 0 && o != 0
    ensures Quiet(ClausePB([l, o]), s.model.modelStack)
  {
    hide LowerClauses, LowerPropagated, LevelsClosed, ReasonsOk, Mirrors, ListsWatch, ListsOk, CountersOk, BinsKnown,
         Stored, StampsOk, LevelPrefix, ConflictsOrPropagates, ClausePB, LevelsStart, FalseLits, Assigned, ClausesOk;
    var tr, cl, gen := s.model.modelStack, [l, o], s.genWatchList;
    assert o in gen && Bin(l) in gen[o];
    assert cl[0] == l && cl[1] == o;
    forall d: nat | d < LevelOf(tr)
      ensures !ConflictsOrPropagates(ClausePB(cl), LevelPrefix(tr, d))
    {
      var n := LevelPrefixIsPrefix(tr, d);
      if l in FalseLits(tr[..n]) {
        FalsePartner(tr, n, d, l, o, s.store.clauses, gen);
        ClauseDoesNothing(cl, tr[..n], o, o);
      } else if o in FalseLits(tr[..n]) {
        FalsePartner(tr, n, d, o, l, s.store.clauses, gen);
        ClauseDoesNothing(cl, tr[..n], l, l);
      } else {
        ClauseDoesNothing(cl, tr[..n], l, o);
      }
    }
  }

  /** Order of the terms does not matter. */
  lemma SortedIsQuiet(c: PB, tr: seq<Elem>, n: nat)
    requires Positive(c.lhs) && DistinctVars(c.lhs) && KnownVars(c.lhs, n) && Quiet(c, tr)
    ensures Quiet(SortedPB(c), tr)
  {
    hide LevelPrefix, Weight, NonFalse, Assigned;
    SortedFacts(c, n);
    forall d: nat | d < LevelOf(tr)
      ensures !ConflictsOrPropagates(SortedPB(c), LevelPrefix(tr, d))
    {
      var p := LevelPrefix(tr, d);
      assert !ConflictsOrPropagates(c, p);
      ConflictsOrPropagatesMeans(c, p);
      ConflictsOrPropagatesMeans(SortedPB(c), p);
      forall t | t in SortedPB(c).lhs && !Assigned(t.lit, p)
        ensures t.coef <= Slack(c, NonFalse(p))
      {
        var i :| 0 <= i < |c.lhs| && c.lhs[i] == t;
      }
    }
  }

  /** The reason of a trail element is quiet. */
  lemma ReasonIsQuiet(s: Solver, e: Elem)
    requires Underway(s) && e.reason != NoReason && s.model.HasVar(e.lit) && !Assigned(e.lit, s.model.modelStack)
    requires ReasonOk(e, s.model.modelStack, s.constraintsPB, s.store.clauses, s.genWatchList)
    ensures Quiet(ReasonPB(e, s.constraintsPB, s.store.clauses), s.model.modelStack)
  {
    hide LowerClauses, LowerPropagated, LevelsClosed, ReasonsOk, Mirrors, ListsWatch, ListsOk, CountersOk, BinsKnown,
         StampsOk, ClausePB, LevelsStart, Quiet, SortedPB, Forces, Settled, StampsOk, FalseLits, Assigned;
    var tr, n := s.model.modelStack, s.model.numVars;
    match e.reason {
      case ByConstraint(k) =>
        assert Stored(s.constraintsPB[k], n);
        StoredIsQuiet(s, k);
        SortedIsQuiet(s.constraintsPB[k], tr, n);
      case ByClause(k) =>
        var cl := s.store.clauses[k];
        assert ClauseOk(cl, s.store.watchIdx[k], s.store.numVars);
        FalseLitsDistinct(cl, tr, e.lit);
        ClauseShape(cl, n);
        ClauseIsQuiet(s, k);
        SortedIsQuiet(ClausePB(cl), tr, n);
      case ByBinary(o) =>
        FalseIsKnown(s.model, o);
        FalseLitsDistinct([e.lit, o], tr, e.lit);
        ClauseShape([e.lit, o], n);
        BinaryIsQuiet(s, e.lit, o);
        SortedIsQuiet(ClausePB([e.lit, o]), tr, n);
    }
  }

  // ----- one round -----

  /** A constraint that was quiet does not lose its falsity with a decision: the popped element has a reason. */
  lemma PoppedHasReason(tr0: seq<Elem>, tr: seq<Elem>, c: PB, i: nat)
    requires TrailOk(tr0) && tr < tr0 && WellFormed(c) && Quiet(c, tr0) && i < |c.lhs|
    requires c.lhs[i].lit == -tr0[|tr|].lit && Slack(c, NonFalse(tr)) < c.lhs[i].coef && tr0[|tr|].dl > 0
    ensures tr0[|tr|].reason != NoReason
  {
    hide ConflictsOrPropagates, NonFalse, Assigned, Weight;
    var n, e := |tr|, tr0[|tr|];
    if e.reason == NoReason {
      assert StartsLevel(tr0, n) && tr0[..n] == tr;
      DecisionEndsLevel(tr0, n);
      Unassigned(tr0, n);
      ConflictsOrPropagatesMeans(c, tr);
      assert false;
    }
  }

  lemma {:induction false} DecisionEndsLevel(tr: seq<Elem>, n: nat)
    requires LevelsGrow(tr) && n < |tr| && tr[n].dl > LevelOf(tr[..n])
    ensures LevelPrefix(tr, LevelOf(tr[..n])) == tr[..n]
  {
    var u := tr[..|tr| - 1];
    assert u[..n] == tr[..n];
    if n < |tr| - 1 {
      DecisionEndsLevel(u, n);
    }
  }

  lemma Unassigned(tr: seq<Elem>, n: nat)
    requires OneEach(tr) && n < |tr|
    ensures !Assigned(tr[n].lit, tr[..n]) && !Assigned(-tr[n].lit, tr[..n])
  {
    AssignedMeans(tr[..n], tr[n].lit);
    AssignedMeans(tr[..n], -tr[n].lit);
    assert forall i :: 0 <= i < n ==> tr[..n][i] == tr[i];
  }

  lemma QuietPrefix(c: PB, tr0: seq<Elem>, tr: seq<Elem>)
    requires Quiet(c, tr0) && tr <= tr0 && LevelsGrow(tr0)
    ensures Quiet(c, tr)
  {
    forall d: nat | d < LevelOf(tr)
      ensures !ConflictsOrPropagates(c, LevelPrefix(tr, d))
    {
      LowerLevelOfPrefix(tr0, tr, d);
      assert tr[|tr| - 1] == tr0[|tr| - 1];
    }
  }

  lemma {:induction false} LowerLevelOfPrefix(tr0: seq<Elem>, tr: seq<Elem>, d: nat)
    requires tr <= tr0 && LevelsGrow(tr0) && d < LevelOf(tr)
    ensures LevelPrefix(tr0, d) == LevelPrefix(tr, d)
    decreases |tr0|
  {
    if |tr| < |tr0| {
      var u := tr0[..|tr0| - 1];
      assert tr <= u;
      assert tr[|tr| - 1] == tr0[|tr| - 1];
      LowerLevelOfPrefix(u, tr, d);
    } else {
      assert tr == tr0;
    }
  }

  /** A cut without a clash is quiet when the conflicting constraint and the reason are. */
  lemma CutIsQuiet(c: PB, r: PB, q: Parents, v: int, cut: PB, tr: seq<Elem>)
    requires LevelsGrow(tr) && WellFormed(c) && WellFormed(r) && Quiet(c, tr) && Quiet(r, tr)
    requires Weaker(c, q.c1) && Weaker(r, q.c2) && IsCut(q, v, cut, false)
    requires !Assigned(v, tr) && !Assigned(-v, tr)
    ensures Quiet(cut, tr)
  {
    hide ConflictsOrPropagates, Weaker, IsCut, Assigned;
    forall d: nat | d < LevelOf(tr)
      ensures !ConflictsOrPropagates(cut, LevelPrefix(tr, d))
    {
      var n := LevelPrefixIsPrefix(tr, d);
      CutParents(q, v, cut);
      WeakerIsQuiet(c, q.c1, tr[..n]);
      WeakerIsQuiet(r, q.c2, tr[..n]);
      StillUnassigned(tr, n, v);
      ApartIsQuiet(q, v, cut, tr[..n]);
    }
  }

  lemma CutParents(q: Parents, v: int, cut: PB)
    requires IsCut(q, v, cut, false)
    ensures WellFormed(q.c1) && WellFormed(q.c2)
  {
  }

  lemma StillUnassigned(tr: seq<Elem>, n: nat, v: int)
    requires n <= |tr| && !Assigned(v, tr) && !Assigned(-v, tr)
    ensures !Assigned(v, tr[..n]) && !Assigned(-v, tr[..n])
  {
    NonFalseShrinks(tr, n);
  }
}
