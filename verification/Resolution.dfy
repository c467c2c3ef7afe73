/** One resolution step of conflict analysis: pop the trail until the conflicting constraint is no longer
    falsified, then cut it with the reason of the last literal popped (ConflictAnalysis.cpp). */
module Resolution {
  import opened Arith
  import opened PBCore
  import opened Normalise
  import opened Cut
  import opened Trail
  import opened Watches
  import opened Engine
  import opened Repair
  import opened BackjumpLevel
  import opened Closure
  import opened PropagateLoop
  import opened LemmaShortening
  import opened Database

  /** slack, ConstraintValue.cpp. */
  method SlackOf(model: Model, c: PB) returns (r: int)
    requires model.Valid() && KnownVars(c.lhs, model.numVars)
    ensures r == Slack(c, NonFalse(model.modelStack))
  {
    hide TrailOk, Mirrors, Weight, FalseLits;
    r := -c.rhs;
    ghost var N := NonFalse(model.modelStack);
    assert c.lhs[..0] == [];
    WeightOfNothing(N);
    for i := 0 to |c.lhs|
      invariant r == Weight(c.lhs[..i], N) - c.rhs
    {
      WeightStep(c.lhs, i, N);
      if !model.IsFalseLit(c.lhs[i].lit) {
        r := r + c.lhs[i].coef;
      }
    }
    WeightFull(c.lhs, N);
  }

  lemma WeightOfNothing(L: Lits)
    ensures Weight([], L) == 0
  {
  }

  // ----- cuts that stay falsified -----

  /** c propagates its literal at position i, which is not assigned. */
  ghost predicate Propagates(c: PB, i: nat, tr: seq<Elem>, n: nat) {
    && WellFormed(c) && KnownVars(c.lhs, n)
    && i < |c.lhs| && c.lhs[i].lit in NonFalse(tr) && Slack(c, NonFalse(tr)) < c.lhs[i].coef
  }

  lemma KnownIsBelow(s: seq<Term>, n: nat)
    requires Positive(s)
    ensures KnownVars(s, n) <==> Below(s, n + 1)
  {
  }

  /** The cut only mentions variables of its parents. */
  lemma CutKnown(c1: PB, c2: PB, i1: nat, i2: nat, n: nat)
    requires Pivots(c1, c2, i1, i2) && KnownVars(c1.lhs, n) && KnownVars(c2.lhs, n)
    ensures KnownVars(CutOf(c1, c2, c1.lhs[i1].coef, c2.lhs[i2].coef).lhs, n)
  {
    hide Merge, Clash;
    var a1, a2 := c1.lhs[i1].coef, c2.lhs[i2].coef;
    FactorsBalance(a1, a2);
    var k1, k2 := a2 / GCD(a1, a2), a1 / GCD(a1, a2);
    ScaleShape(c1.lhs, k1);
    ScaleShape(c2.lhs, k2);
    KnownIsBelow(c1.lhs, n);
    KnownIsBelow(c2.lhs, n);
    MergeShape(Scale(c1.lhs, k1), Scale(c2.lhs, k2), n + 1);
    KnownIsBelow(Merge(Scale(c1.lhs, k1), Scale(c2.lhs, k2)).lhs, n);
  }

  /** What conflict analysis needs of the cut it continues with. */
  ghost predicate GoodCut(c1: PB, c2: PB, v: int, cut: PB, tr: seq<Elem>, n: nat) {
    && WellFormed(cut) && KnownVars(cut.lhs, n) && Saturated(cut) && cut.rhs >= 1 && !MentionsVar(cut.lhs, v)
    && Slack(cut, NonFalse(tr)) < 0
    && forall a: Lits :: Total(a) && Sat(c1, a) && Sat(c2, a) ==> Sat(cut, a)
  }

  lemma NormalisedKnown(raw: PB, n: nat)
    requires raw.rhs > 0 && KnownVars(raw.lhs, n)
    ensures KnownVars(NormalisedCut(raw).lhs, n)
  {
  }

  lemma AcceptedCut(c1: PB, c2: PB, i1: nat, i2: nat, tr: seq<Elem>, n: nat)
    requires Pivots(c1, c2, i1, i2) && KnownVars(c1.lhs, n) && KnownVars(c2.lhs, n)
    requires !CutRefused(CutOf(c1, c2, c1.lhs[i1].coef, c2.lhs[i2].coef))
    ensures var cut := NormalisedCut(CutOf(c1, c2, c1.lhs[i1].coef, c2.lhs[i2].coef));
            KnownVars(cut.lhs, n) &&
            (Slack(cut, NonFalse(tr)) < 0 ==> GoodCut(c1, c2, Var(c1.lhs[i1].lit), cut, tr, n))
  {
    hide Merge, RawCut, NormalisedCut;
    CutKnown(c1, c2, i1, i2, n);
    NormalisedKnown(CutOf(c1, c2, c1.lhs[i1].coef, c2.lhs[i2].coef), n);
    AcceptedCutIsImplied(c1, c2, i1, i2);
  }

  lemma TightSum(k1: int, k2: int, s1: int, s2: int, a1: int, a2: int)
    requires k1 > 0 && k2 > 0 && k1 * a1 == k2 * a2 && s1 < a1 && s2 < a2 && (s1 <= 0 || s2 <= 0)
    ensures k1 * s1 + k2 * s2 - k1 * a1 < 0
  {
    if s1 <= 0 {
      MulLeq(s1, 0, k1);
      MulLeq(s2, a2 - 1, k2);
      Distribute(k2, a2, -1);
    } else {
      MulLeq(s2, 0, k2);
      MulLeq(s1, a1 - 1, k1);
      Distribute(k1, a1, -1);
    }
  }

  /** When one parent has slack 0 the cut is falsified, so it is no tautology. */
  lemma TightCutFalsified(c1: PB, c2: PB, i1: nat, i2: nat, tr: seq<Elem>, n: nat)
    requires TrailOk(tr) && Pivots(c1, c2, i1, i2) && Propagates(c1, i1, tr, n) && Propagates(c2, i2, tr, n)
    requires Slack(c1, NonFalse(tr)) <= 0 || Slack(c2, NonFalse(tr)) <= 0
    ensures var raw := CutOf(c1, c2, c1.lhs[i1].coef, c2.lhs[i2].coef);
            raw.rhs > 0 && Slack(NormalisedCut(raw), NonFalse(tr)) < 0
  {
    hide Merge, RawCut, NormalisedCut, Weight, TrailOk, CutOf, FalseLits, GCD;
    var a1, a2, N := c1.lhs[i1].coef, c2.lhs[i2].coef, NonFalse(tr);
    var raw := CutOf(c1, c2, a1, a2);
    NonFalseCovers(tr);
    CutSlack(c1, c2, i1, i2, N);
    TightSum(a2 / GCD(a1, a2), a1 / GCD(a1, a2), Slack(c1, N), Slack(c2, N), a1, a2);
    CutShape(c1, c2, i1, i2);
    WeightAtMostSum(raw.lhs, N);
    NormalisedCutExact(raw, N);
  }

  lemma {:induction false} CancelledNonNegative(s1: seq<Term>, s2: seq<Term>)
    requires Positive(s1) && Positive(s2)
    ensures Merge(s1, s2).cancelled >= 0
    decreases |s1| + |s2|
  {
    var n1, n2 := |s1|, |s2|;
    if n1 > 0 && (n2 == 0 || Var(s1[n1 - 1].lit) > Var(s2[n2 - 1].lit)) {
      CancelledNonNegative(s1[..n1 - 1], s2);
    } else if n2 > 0 && (n1 == 0 || Var(s1[n1 - 1].lit) < Var(s2[n2 - 1].lit)) {
      CancelledNonNegative(s1, s2[..n2 - 1]);
    } else if n1 > 0 {
      CancelledNonNegative(s1[..n1 - 1], s2[..n2 - 1]);
    }
  }

  /** The cut of two clauses always fits. */
  lemma ClauseCutFits(c1: PB, c2: PB, i1: nat, i2: nat)
    requires Pivots(c1, c2, i1, i2) && IsClause(c1) && IsClause(c2)
    requires CutOf(c1, c2, c1.lhs[i1].coef, c2.lhs[i2].coef).rhs > 0
    ensures !CutRefused(CutOf(c1, c2, c1.lhs[i1].coef, c2.lhs[i2].coef))
  {
    var raw := CutOf(c1, c2, 1, 1);
    ScaleShape(c1.lhs, 1);
    ScaleShape(c2.lhs, 1);
    CancelledNonNegative(Scale(c1.lhs, 1), Scale(c2.lhs, 1));
    assert raw.rhs <= 2;
    if |raw.lhs| > 0 {
      DivUpPositive(raw.rhs, DivisorFor(raw.lhs, raw.rhs, raw.rhs));
    }
  }

  /** Repairing keeps the constraint propagating the pivot, and tightens it. */
  lemma RepairedPropagates(c: PB, p: nat, w: PB, tr: seq<Elem>, n: nat) returns (q: nat)
    requires Propagates(c, p, tr, n) && Repaired(c, p, w, tr)
    ensures Propagates(w, q, tr, n) && w.lhs[q].lit == c.lhs[p].lit && Slack(w, NonFalse(tr)) == 0 && IsClause(w)
  {
    q :| 0 <= q < |w.lhs| && w.lhs[q] == Term(1, c.lhs[p].lit);
    forall i | 0 <= i < |w.lhs|
      ensures 1 <= Var(w.lhs[i].lit) <= n
    {
      assert w.lhs[i].lit in LitSet(c.lhs);
      var j :| 0 <= j < |c.lhs| && c.lhs[j].lit == w.lhs[i].lit;
    }
  }

  ghost predicate Weaker(c: PB, d: PB) {
    forall a: Lits :: Sat(c, a) ==> Sat(d, a)
  }

  /** d is a clause that c implies and that propagates the same literal with nothing to spare. */
  ghost predicate FixedTo(c: PB, i: nat, d: PB, j: nat, tr: seq<Elem>) {
    && i < |c.lhs| && j < |d.lhs| && d.lhs[j].lit == c.lhs[i].lit
    && Weaker(c, d) && IsClause(d) && Slack(d, NonFalse(tr)) == 0
  }

  /** fixRoundingProblemSAT on one of the two parents. */
  method Fix(model: Model, v: int, c: PB, ghost p: nat) returns (w: PB, ghost q: nat)
    requires model.Valid() && Propagates(c, p, model.modelStack, model.numVars) && Var(c.lhs[p].lit) == v
    ensures Propagates(w, q, model.modelStack, model.numVars) && w.lhs[q].lit == c.lhs[p].lit
    ensures FixedTo(c, p, w, q, model.modelStack)
  {
    w := FixRoundingProblem(model, v, c, p);
    q := RepairedPropagates(c, p, w, model.modelStack, model.numVars);
  }

  lemma GoodCutOfWeaker(c1: PB, c2: PB, d1: PB, d2: PB, v: int, cut: PB, tr: seq<Elem>, n: nat)
    requires GoodCut(d1, d2, v, cut, tr, n) && Weaker(c1, d1) && Weaker(c2, d2)
    ensures GoodCut(c1, c2, v, cut, tr, n)
  {
  }

  /** The two constraints of a cut, with the positions of the pivot. */
  datatype Parents = Parents(c1: PB, i1: nat, c2: PB, i2: nat)

  ghost function Plain(p: Parents): PB
    requires Pivots(p.c1, p.c2, p.i1, p.i2)
  {
    CutOf(p.c1, p.c2, p.c1.lhs[p.i1].coef, p.c2.lhs[p.i2].coef)
  }

  /** The first cut is enough: it fits and the trail falsifies it. */
  ghost predicate Suffices(p: Parents, tr: seq<Elem>)
    requires Pivots(p.c1, p.c2, p.i1, p.i2)
  {
    !CutRefused(Plain(p)) && Slack(NormalisedCut(Plain(p)), NonFalse(tr)) < 0
  }

  /** cut is the normalised cut of the two constraints, and clash tells whether they share a second variable. */
  ghost predicate IsCut(p: Parents, v: int, cut: PB, clash: bool) {
    && Pivots(p.c1, p.c2, p.i1, p.i2) && Var(p.c1.lhs[p.i1].lit) == v
    && !CutRefused(Plain(p)) && cut == NormalisedCut(Plain(p))
    && (clash <==> Clash(p.c1.lhs, p.c2.lhs, v))
  }

  /** The longer parent is repaired, and the other one as well when that is not yet enough. */
  ghost predicate RepairedParents(p: Parents, q: Parents, tr: seq<Elem>) {
    if |p.c2.lhs| > |p.c1.lhs| then
      FixedTo(p.c2, p.i2, q.c2, q.i2, tr)
      && ((q.c1 == p.c1 && q.i1 == p.i1) || FixedTo(p.c1, p.i1, q.c1, q.i1, tr))
    else
      FixedTo(p.c1, p.i1, q.c1, q.i1, tr)
      && ((q.c2 == p.c2 && q.i2 == p.i2) || FixedTo(p.c2, p.i2, q.c2, q.i2, tr))
  }

  lemma FixedTwice(c: PB, i: nat, d: PB, j: nat, e: PB, k: nat, tr: seq<Elem>)
    requires (c == d && i == j) || FixedTo(c, i, d, j, tr)
    requires (d == e && j == k) || FixedTo(d, j, e, k, tr)
    ensures (c == e && i == k) || FixedTo(c, i, e, k, tr)
    ensures Weaker(c, e)
  {
  }

  /** A cut that is not enough asks for a repair; a cut of repaired parents always is. */
  method CutAgain(model: Model, v: int, c1: PB, c2: PB, ghost i1: nat, ghost i2: nat)
    returns (cut: PB, clash: bool, ghost q: Parents)
    requires model.Valid() && Pivots(c1, c2, i1, i2) && Var(c1.lhs[i1].lit) == v
    requires Propagates(c1, i1, model.modelStack, model.numVars) && Propagates(c2, i2, model.modelStack, model.numVars)
    requires Slack(c1, NonFalse(model.modelStack)) <= 0 || Slack(c2, NonFalse(model.modelStack)) <= 0
    ensures GoodCut(c1, c2, v, cut, model.modelStack, model.numVars) && IsCut(q, v, cut, clash)
    ensures (q.c1 == c1 && q.i1 == i1) || FixedTo(c1, i1, q.c1, q.i1, model.modelStack)
    ensures (q.c2 == c2 && q.i2 == i2) || FixedTo(c2, i2, q.c2, q.i2, model.modelStack)
  {
    hide TrailOk, Mirrors, NormalisedCut, CutOf, CutRefused, GoodCut, Clash, Propagates, Weight;
    ghost var tr, n := model.modelStack, model.numVars;
    var refused;
    PropagatesKnown(c1, i1, tr, n);
    PropagatesKnown(c2, i2, tr, n);
    TightCutFalsified(c1, c2, i1, i2, tr, n);
    refused, cut, clash := ApplyCut(v, c1, c2, i1, i2);
    q := Parents(c1, i1, c2, i2);
    if !refused {
      AcceptedCut(c1, c2, i1, i2, tr, n);
      return;
    }
    var d1, d2: PB;
    ghost var j1: nat, j2: nat;
    d2, j2 := Fix(model, v, c2, i2);
    d1, j1 := Fix(model, v, c1, i1);
    PropagatesKnown(d1, j1, tr, n);
    PropagatesKnown(d2, j2, tr, n);
    TightCutFalsified(d1, d2, j1, j2, tr, n);
    ClauseCutFits(d1, d2, j1, j2);
    AcceptedCut(d1, d2, j1, j2, tr, n);
    refused, cut, clash := ApplyCut(v, d1, d2, j1, j2);
    q := Parents(d1, j1, d2, j2);
    GoodCutOfWeaker(c1, c2, d1, d2, v, cut, tr, n);
  }

  lemma PropagatesKnown(c: PB, i: nat, tr: seq<Elem>, n: nat)
    requires Propagates(c, i, tr, n)
    ensures WellFormed(c) && KnownVars(c.lhs, n) && i < |c.lhs| && c.lhs[i].lit in NonFalse(tr)
  {
  }

  /** The cut of a conflicting constraint with a reason: the plain one when it is enough; otherwise the longer
      parent is repaired, then both. */
  method Resolve(model: Model, v: int, c1: PB, c2: PB, ghost i1: nat, ghost i2: nat)
    returns (cut: PB, clash: bool, ghost q: Parents)
    requires model.Valid() && Pivots(c1, c2, i1, i2) && Var(c1.lhs[i1].lit) == v
    requires Propagates(c1, i1, model.modelStack, model.numVars) && Propagates(c2, i2, model.modelStack, model.numVars)
    ensures GoodCut(c1, c2, v, cut, model.modelStack, model.numVars) && IsCut(q, v, cut, clash)
    ensures var p := Parents(c1, i1, c2, i2);
            if Suffices(p, model.modelStack) then q == p else RepairedParents(p, q, model.modelStack)
  {
    hide TrailOk, Mirrors, NormalisedCut, CutOf, CutRefused, GoodCut, Clash, Propagates, Weight, NonFalse, Weaker;
    ghost var tr, n := model.modelStack, model.numVars;
    PropagatesKnown(c1, i1, tr, n);
    PropagatesKnown(c2, i2, tr, n);
    var refused;
    refused, cut, clash := ApplyCut(v, c1, c2, i1, i2);
    q := Parents(c1, i1, c2, i2);
    if !refused {
      AcceptedCut(c1, c2, i1, i2, tr, n);
      var slack := SlackOf(model, cut);
      if slack < 0 {
        return;
      }
    }
    if |c2.lhs| > |c1.lhs| {
      var d2: PB;
      ghost var j2: nat;
      d2, j2 := Fix(model, v, c2, i2);
      PropagatesKnown(d2, j2, tr, n);
      cut, clash, q := CutAgain(model, v, c1, d2, i1, j2);
      WeakerSelf(c1);
      FixedTwice(c2, i2, d2, j2, q.c2, q.i2, tr);
      GoodCutOfWeaker(c1, c2, c1, d2, v, cut, tr, n);
    } else {
      var d1: PB;
      ghost var j1: nat;
      d1, j1 := Fix(model, v, c1, i1);
      PropagatesKnown(d1, j1, tr, n);
      cut, clash, q := CutAgain(model, v, d1, c2, j1, i2);
      WeakerSelf(c2);
      FixedTwice(c1, i1, d1, j1, q.c1, q.i1, tr);
      GoodCutOfWeaker(c1, c2, d1, c2, v, cut, tr, n);
    }
  }

  lemma WeakerSelf(c: PB)
    ensures Weaker(c, c)
  {
  }

  // ----- popping the trail -----

  lemma UnderwayPops(pbs: seq<PB>, clauses: seq<seq<int>>, gen: map<int, seq<GenElem>>, tr: seq<Elem>, lp: int)
    requires TrailOk(tr) && |tr| > 0 && -1 <= lp < |tr|
    requires LowerClauses(tr, clauses, gen) && LowerPropagated(tr, lp) && LevelsClosed(pbs, tr)
    ensures var r := tr[..|tr| - 1];
            LowerClauses(r, clauses, gen) && LevelsClosed(pbs, r)
            && LowerPropagated(r, if lp == |tr| - 1 then lp - 1 else lp)
  {
    hide LevelsStart, OneEach, LowerClauses, LevelsClosed, LowerPropagated;
    LowerClausesPop(tr, clauses, gen);
    LowerPropagatedPop(tr, lp);
    LevelsClosedPop(pbs, tr);
  }

  /** popAndUnassign during conflict analysis. */
  method Pop(s: Solver)
    requires Underway(s) && LevelOf(s.model.modelStack) > 0
    modifies s`sumOfWatches, s.model
    ensures Underway(s) && |old(s.model.modelStack)| > 0
    ensures s.model.modelStack == old(s.model.modelStack)[..|old(s.model.modelStack)| - 1]
  {
    hide LowerClauses, LowerPropagated, LevelsClosed, ReasonsOk, Mirrors, ClausesOk, ListsWatch, ListsOk, TrailOk,
         CountersOk, BinsKnown, Stored, Pending, StampsOk;
    UnderwayPops(s.constraintsPB, s.store.clauses, s.genWatchList, s.model.modelStack, s.model.lastPropagated);
    var _ := s.PopAndUnassign();
  }

  lemma PopFrees(tr: seq<Elem>)
    requires OneEach(tr) && |tr| > 0
    ensures var e := tr[|tr| - 1];
            NonFalse(tr) == NonFalse(tr[..|tr| - 1]) - iset{-e.lit} && -e.lit in NonFalse(tr[..|tr| - 1])
            && e.lit in NonFalse(tr[..|tr| - 1])
  {
    var r, e := tr[..|tr| - 1], tr[|tr| - 1];
    NonFalseSnoc(r, e);
    assert r + [e] == tr;
    forall i | 0 <= i < |r|
      ensures -r[i].lit != -e.lit && -r[i].lit != e.lit
    {
      assert Var(tr[i].lit) != Var(e.lit);
    }
  }

  /** Popping a literal raises the slack by the coefficient of its complement. */
  lemma SlackPops(c: PB, tr: seq<Elem>)
    requires OneEach(tr) && |tr| > 0 && WellFormed(c)
    ensures var r, l := tr[..|tr| - 1], -tr[|tr| - 1].lit;
            && (forall i :: 0 <= i < |c.lhs| && c.lhs[i].lit == l ==>
                  Slack(c, NonFalse(r)) == Slack(c, NonFalse(tr)) + c.lhs[i].coef)
            && ((forall i :: 0 <= i < |c.lhs| ==> c.lhs[i].lit != l) ==>
                  Slack(c, NonFalse(r)) == Slack(c, NonFalse(tr)))
  {
    hide NonFalse;
    var r, l := tr[..|tr| - 1], -tr[|tr| - 1].lit;
    PopFrees(tr);
    OrderedIsDistinct(c.lhs);
    forall i | 0 <= i < |c.lhs| && c.lhs[i].lit == l
      ensures Slack(c, NonFalse(r)) == Slack(c, NonFalse(tr)) + c.lhs[i].coef
    {
      WeightRemoveLit(c.lhs, i, NonFalse(r));
    }
    if forall i :: 0 <= i < |c.lhs| ==> c.lhs[i].lit != l {
      WeightAgree(c.lhs, NonFalse(r), NonFalse(tr));
    }
  }

  /** The term of the last trail variable is false exactly when its literal is the complement. */
  lemma TopTerm(tr: seq<Elem>, l: int)
    requires OneEach(tr) && |tr| > 0 && Var(l) == Var(tr[|tr| - 1].lit)
    ensures l in FalseLits(tr) <==> l == -tr[|tr| - 1].lit
  {
    var h := |tr| - 1;
    AtPosition(tr, l, h);
  }

  /** One pop of the inner loop: the new slack, and whether the popped literal was one of the constraint. */
  method PopWithSlack(s: Solver, c: PB, slack: int) returns (slack': int, ghost i: nat)
    requires Underway(s) && LevelOf(s.model.modelStack) > 0
    requires WellFormed(c) && KnownVars(c.lhs, s.model.numVars) && slack == Slack(c, NonFalse(s.model.modelStack))
    modifies s`sumOfWatches, s.model
    ensures Underway(s) && |old(s.model.modelStack)| > 0
    ensures s.model.modelStack == old(s.model.modelStack)[..|old(s.model.modelStack)| - 1]
    ensures slack' == Slack(c, NonFalse(s.model.modelStack))
    ensures slack' > slack ==> i < |c.lhs| && c.lhs[i].lit == -old(s.model.modelStack)[|s.model.modelStack|].lit
                               && slack' == slack + c.lhs[i].coef
    ensures slack' >= slack
  {
    hide LowerClauses, LowerPropagated, LevelsClosed, ReasonsOk, Mirrors, ClausesOk, ListsWatch, ListsOk, LevelsStart,
         LevelsGrow, CountersOk, BinsKnown, Stored, Pending, StampsOk, Weight, NonFalse, FalseLits, TrueLits;
    ghost var tr := s.model.modelStack;
    var lit := s.model.modelStack[|s.model.modelStack| - 1].lit;
    SlackPops(c, tr);
    i := 0;
    slack' := slack;
    var t := FindTerm(c.lhs, Var(lit));
    if t.coef != 0 {
      i :| 0 <= i < |c.lhs| && c.lhs[i] == t;
      TopTerm(tr, t.lit);
      if s.model.IsFalseLit(t.lit) {
        slack' := slack' + t.coef;
      }
    }
    NoOtherTerm(c.lhs, t, lit);
    Pop(s);
  }

  lemma NoOtherTerm(s: seq<Term>, t: Term, lit: int)
    requires Ordered(s) && Positive(s)
    requires t != Term(0, 0) ==> t in s && Var(t.lit) == Var(lit)
    requires MentionsVar(s, Var(lit)) ==> t in s && Var(t.lit) == Var(lit)
    ensures t.coef == 0 ==> forall i :: 0 <= i < |s| ==> s[i].lit != -lit
    ensures t.coef != 0 ==> forall i :: 0 <= i < |s| && s[i].lit == -lit ==> s[i] == t
    ensures t.coef != 0 ==> t in s && t.coef > 0
  {
    forall i | 0 <= i < |s| && s[i].lit == -lit
      ensures t in s && s[i] == t && t.coef > 0
    {
      assert Var(s[i].lit) == Var(lit);
      var j :| 0 <= j < |s| && s[j] == t;
      assert i == j;
    }
  }

  /** The inner loop: pop until c is no longer falsified, unless level 0 is reached first. */
  method PopUntil(s: Solver, c: PB, slack0: int) returns (atRoot: bool, e: Elem, ghost i: nat)
    requires Underway(s) && slack0 == Slack(c, NonFalse(s.model.modelStack)) < 0
    requires WellFormed(c) && KnownVars(c.lhs, s.model.numVars)
    modifies s`sumOfWatches, s.model
    ensures Underway(s) && s.model.modelStack <= old(s.model.modelStack)
    ensures atRoot ==> LevelOf(s.model.modelStack) == 0 && Slack(c, NonFalse(s.model.modelStack)) < 0
    ensures !atRoot ==> |s.model.modelStack| < |old(s.model.modelStack)|
                        && e == old(s.model.modelStack)[|s.model.modelStack|] && e.dl > 0
    ensures !atRoot ==> i < |c.lhs| && c.lhs[i].lit == -e.lit
                        && 0 <= Slack(c, NonFalse(s.model.modelStack)) < c.lhs[i].coef
  {
    hide LowerClauses, LowerPropagated, LevelsClosed, ReasonsOk, Mirrors, ClausesOk, ListsWatch, ListsOk, TrailOk,
         CountersOk, BinsKnown, Stored, Pending, StampsOk, Weight, NonFalse, FalseLits, TrueLits;
    ghost var tr := s.model.modelStack;
    var slack := slack0;
    atRoot, e, i := false, Elem(0, 0, NoReason), 0;
    while slack < 0
      invariant Underway(s) && slack == Slack(c, NonFalse(s.model.modelStack)) && s.model.modelStack <= tr
      invariant slack >= 0 ==> |s.model.modelStack| < |tr| && e == tr[|s.model.modelStack|] && e.dl > 0
      invariant slack >= 0 ==> i < |c.lhs| && c.lhs[i].lit == -e.lit && slack < c.lhs[i].coef
      decreases |s.model.modelStack|
    {
      if s.model.decisionLevel == 0 {
        return true, e, i;
      }
      e := s.model.modelStack[|s.model.modelStack| - 1];
      slack, i := PopWithSlack(s, c, slack);
    }
  }

  // ----- the reason as a constraint -----

  function SortedPB(c: PB): PB {
    PB(SortByVar(c.lhs), c.rhs)
  }

  /** Sorting by variable puts a constraint with distinct variables into the form the cut needs. */
  lemma SortedFacts(c: PB, n: nat)
    requires Positive(c.lhs) && DistinctVars(c.lhs) && KnownVars(c.lhs, n)
    ensures WellFormed(SortedPB(c)) && KnownVars(SortedPB(c).lhs, n)
    ensures forall L: Lits :: Slack(SortedPB(c), L) == Slack(c, L)
    ensures forall t :: t in SortedPB(c).lhs <==> t in c.lhs
  {
    SortByVarOrdered(c.lhs, n);
    RearrangedShape(c.lhs, SortByVar(c.lhs), n);
  }

  ghost predicate FollowsFromDatabase(s: Solver, c: PB)
    reads s, s.model, s.store
  {
    forall F: iset<PB> :: DatabaseImplied(s, F) ==> Implied(F, c)
  }

  lemma SortedFollows(s: Solver, c: PB, n: nat)
    requires Positive(c.lhs) && DistinctVars(c.lhs) && KnownVars(c.lhs, n)
    requires FollowsFromDatabase(s, c)
    ensures FollowsFromDatabase(s, SortedPB(c))
  {
    SortedFacts(c, n);
    forall F: iset<PB> | DatabaseImplied(s, F)
      ensures Implied(F, SortedPB(c))
    {
      forall a: Lits | Total(a) && Holds(F, a)
        ensures Sat(SortedPB(c), a)
      {
        assert Sat(c, a);
      }
    }
  }

  /** Known literals of which no two share a variable. */
  lemma ClauseShape(lits: seq<int>, n: nat)
    requires DistinctLitVars(lits) && forall i :: 0 <= i < |lits| ==> 1 <= Var(lits[i]) <= n
    ensures Positive(ClausePB(lits).lhs) && DistinctVars(ClausePB(lits).lhs) && KnownVars(ClausePB(lits).lhs, n)
    ensures UnitCoefs(ClausePB(lits).lhs)
  {
  }

  /** False literals without repetition have distinct variables, even next to one unassigned literal. */
  lemma FalseLitsDistinct(lits: seq<int>, tr: seq<Elem>, l: int)
    requires NoDup(lits) && OneEach(tr) && (forall i :: 0 <= i < |lits| ==> lits[i] != 0)
    requires forall m :: m in lits && m != l ==> m in FalseLits(tr)
    requires !Assigned(l, tr)
    ensures DistinctLitVars(lits)
  {
    forall i, j | 0 <= i < j < |lits|
      ensures Var(lits[i]) != Var(lits[j])
    {
      var x, y := lits[i], lits[j];
      assert x in lits && y in lits && x != y;
      TrueMeansComplementFalse(tr, l);
      if x != l && y != l {
        OneValue(tr, x);
      }
    }
  }

  /** A clause that is unit under the trail has slack 0. */
  lemma UnitSlack(lits: seq<int>, tr: seq<Elem>, l: int) returns (i: nat)
    requires DistinctLitVars(lits) && UnitUnder(lits, l, tr) && !Assigned(l, tr)
    ensures i < |lits| && ClausePB(lits).lhs[i] == Term(1, l) && Slack(ClausePB(lits), NonFalse(tr)) == 0
  {
    i :| 0 <= i < |lits| && lits[i] == l;
    var c := ClausePB(lits);
    forall j | 0 <= j < |c.lhs| && j != i
      ensures c.lhs[j].lit !in NonFalse(tr)
    {
      assert lits[j] in lits && Var(lits[j]) != Var(lits[i]);
    }
    OnlyOne(c.lhs, NonFalse(tr), i);
  }

  /** From an unsorted propagating constraint to the sorted one. */
  lemma SortedPropagates(c: PB, j: nat, tr: seq<Elem>, n: nat) returns (i: nat)
    requires Positive(c.lhs) && DistinctVars(c.lhs) && KnownVars(c.lhs, n)
    requires j < |c.lhs| && c.lhs[j].lit in NonFalse(tr) && Slack(c, NonFalse(tr)) < c.lhs[j].coef
    ensures Propagates(SortedPB(c), i, tr, n) && SortedPB(c).lhs[i].lit == c.lhs[j].lit
  {
    hide NonFalse;
    SortedFacts(c, n);
    assert c.lhs[j] in SortedPB(c).lhs;
    i :| 0 <= i < |SortedPB(c).lhs| && SortedPB(c).lhs[i] == c.lhs[j];
  }

  /** The literals of a clause or binary reason, as a constraint. */
  lemma ClauseReason(s: Solver, lits: seq<int>, l: int) returns (i: nat)
    requires s.Valid() && NoDup(lits) && UnitUnder(lits, l, s.model.modelStack) && !Assigned(l, s.model.modelStack)
    requires forall k :: 0 <= k < |lits| ==> 1 <= Var(lits[k]) <= s.model.numVars
    requires FollowsFromDatabase(s, ClausePB(lits))
    ensures var r := SortedPB(ClausePB(lits));
            Propagates(r, i, s.model.modelStack, s.model.numVars) && r.lhs[i].lit == l && FollowsFromDatabase(s, r)
  {
    hide ReasonsOk, Mirrors, ClausesOk, ListsWatch, ListsOk, BinsKnown, Stored, LevelsGrow, LevelsStart,
         DatabaseImplied, Implied, SortedPB, FollowsFromDatabase;
    var tr, n, c := s.model.modelStack, s.model.numVars, ClausePB(lits);
    FalseLitsDistinct(lits, tr, l);
    ClauseShape(lits, n);
    var j := UnitSlack(lits, tr, l);
    i := SortedPropagates(c, j, tr, n);
    SortedFollows(s, c, n);
  }

  lemma StoredFollows(s: Solver)
    ensures forall k :: 0 <= k < |s.constraintsPB| ==> FollowsFromDatabase(s, s.constraintsPB[k])
    ensures forall k :: 0 <= k < |s.store.clauses| ==> FollowsFromDatabase(s, ClausePB(s.store.clauses[k]))
    ensures forall l, o :: l in s.genWatchList && Bin(o) in s.genWatchList[l] ==>
              FollowsFromDatabase(s, ClausePB([l, o]))
  {
    hide Implied;
  }

  lemma ConstraintReason(s: Solver, k: nat, l: int) returns (i: nat)
    requires s.Valid() && k < |s.constraintsPB| && Forces(s.constraintsPB[k], l, s.model.modelStack)
    requires !Assigned(l, s.model.modelStack)
    ensures var r := SortedPB(s.constraintsPB[k]);
            Propagates(r, i, s.model.modelStack, s.model.numVars) && r.lhs[i].lit == l && FollowsFromDatabase(s, r)
  {
    hide ReasonsOk, Mirrors, ClausesOk, ListsWatch, ListsOk, BinsKnown, TrailOk, DatabaseImplied,
         Implied, SortedPB, FollowsFromDatabase;
    var tr, n, c := s.model.modelStack, s.model.numVars, s.constraintsPB[k];
    assert Stored(c, n);
    StoredFollows(s);
    var j := ForcedTerm(c, l, tr);
    i := SortedPropagates(c, j, tr, n);
    SortedFollows(s, c, n);
  }

  /** The reason of a trail element as a constraint over increasing variables. */
  function ReasonPB(e: Elem, pbs: seq<PB>, clauses: seq<seq<int>>): PB
    requires e.reason.ByConstraint? ==> e.reason.id < |pbs|
    requires e.reason.ByClause? ==> e.reason.id < |clauses|
    requires e.reason != NoReason
  {
    match e.reason
    case ByConstraint(k) => SortedPB(pbs[k])
    case ByClause(k) => SortedPB(ClausePB(clauses[k]))
    case ByBinary(o) => SortedPB(ClausePB([e.lit, o]))
  }

  /** The reason of the popped literal; a decision has none. */
  method ReasonConstraint(s: Solver, e: Elem) returns (found: bool, r: PB, ghost i: nat)
    requires s.Valid() && s.model.HasVar(e.lit) && !Assigned(e.lit, s.model.modelStack)
    requires ReasonOk(e, s.model.modelStack, s.constraintsPB, s.store.clauses, s.genWatchList)
    ensures found <==> e.reason != NoReason
    ensures found ==> Propagates(r, i, s.model.modelStack, s.model.numVars) && r.lhs[i].lit == e.lit
    ensures found ==> FollowsFromDatabase(s, r) && r == ReasonPB(e, s.constraintsPB, s.store.clauses)
  {
    hide ReasonsOk, Mirrors, ListsWatch, ListsOk, BinsKnown, TrailOk, Forces, Propagates, Stored,
         FollowsFromDatabase, SortedPB, ClausePB;
    found, r, i := true, PB([], 0), 0;
    StoredFollows(s);
    match e.reason {
      case NoReason =>
        found := false;
      case ByConstraint(k) =>
        r := SortedPB(s.constraintsPB[k]);
        i := ConstraintReason(s, k, e.lit);
      case ByClause(k) =>
        r := SortedPB(ClausePB(s.store.clauses[k]));
        assert ClauseOk(s.store.clauses[k], s.store.watchIdx[k], s.store.numVars);
        i := ClauseReason(s, s.store.clauses[k], e.lit);
      case ByBinary(o) =>
        r := SortedPB(ClausePB([e.lit, o]));
        FalseIsKnown(s.model, o);
        BinaryEitherOrder(s, o, e.lit);
        i := ClauseReason(s, [e.lit, o], e.lit);
    }
  }

  lemma BinaryEitherOrder(s: Solver, l: int, o: int)
    requires FollowsFromDatabase(s, ClausePB([l, o]))
    ensures FollowsFromDatabase(s, ClausePB([o, l]))
  {
    forall F: iset<PB>, a: Lits | DatabaseImplied(s, F) && Total(a) && Holds(F, a)
      ensures Sat(ClausePB([o, l]), a)
    {
      ClauseSat([l, o], a);
      ClauseSat([o, l], a);
      assert Implied(F, ClausePB([l, o]));
    }
  }
}
