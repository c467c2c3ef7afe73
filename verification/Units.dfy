/** Removing the literals assigned at level 0 from a learned constraint (removeUnits, ConflictAnalysis.cpp). */
module Units {
  import opened PBCore
  import opened Trail
  import opened Engine
  import opened Repair
  import opened BackjumpLevel
  import opened LemmaShortening
  import opened Roots

  /** L agrees with every literal of level 0. */
  ghost predicate RootAgree(tr: seq<Elem>, L: Lits) {
    forall i :: 0 <= i < |tr| && tr[i].dl == 0 ==> tr[i].lit in L && -tr[i].lit !in L
  }

  lemma ModelsAgree(tr: seq<Elem>, F: iset<PB>, a: Lits)
    requires OneEach(tr) && RootsImplied(tr, F) && Total(a) && Holds(F, a)
    ensures RootAgree(tr, a)
  {
    forall i | 0 <= i < |tr| && tr[i].dl == 0
      ensures tr[i].lit in a
    {
      RootIsTrue(tr, F, a, i);
    }
  }

  /** Every lower level of the trail keeps the literals of level 0. */
  lemma PrefixesAgree(tr: seq<Elem>, d: nat)
    requires TrailOk(tr)
    ensures RootAgree(tr, NonFalse(LevelPrefix(tr, d)))
  {
    hide LevelsStart;
    var n := LevelPrefixIsPrefix(tr, d);
    var p := tr[..n];
    forall i | 0 <= i < |tr| && tr[i].dl == 0
      ensures tr[i].lit in NonFalse(p) && -tr[i].lit !in NonFalse(p)
    {
      assert i < n && p[i] == tr[i];
      assert -p[i].lit in FalseLits(p);
      forall j | 0 <= j < |p|
        ensures -p[j].lit != tr[i].lit
      {
        assert j != i ==> Var(tr[j].lit) != Var(tr[i].lit);
      }
    }
  }

  /** The constraint r without the terms assigned at level 0: same slack wherever level 0 is respected. */
  ghost predicate WithoutUnits(s: seq<Term>, rhs: int, r: seq<Term>, rhs': int, tr: seq<Elem>) {
    && (forall t :: t in r <==> t in s && !RootVar(tr, Var(t.lit)))
    && forall L: Lits :: RootAgree(tr, L) ==> Weight(r, L) - rhs' == Weight(s, L) - rhs
  }

  lemma UnitsStep(s: seq<Term>, rhs: int, r: seq<Term>, rhs': int, tr: seq<Elem>, t: Term)
    requires WithoutUnits(s, rhs, r, rhs', tr) && OneEach(tr) && t.lit != 0
    ensures !RootVar(tr, Var(t.lit)) ==> WithoutUnits(s + [t], rhs, r + [t], rhs', tr)
    ensures RootVar(tr, Var(t.lit)) ==>
              WithoutUnits(s + [t], rhs, r, if t.lit in TrueLits(tr) then rhs' - t.coef else rhs', tr)
  {
    forall L: Lits | RootAgree(tr, L)
      ensures Weight(r, L) - rhs' == Weight(s, L) - rhs
      ensures Weight(s + [t], L) == Weight(s, L) + (if t.lit in L then t.coef else 0)
      ensures Weight(r + [t], L) == Weight(r, L) + (if t.lit in L then t.coef else 0)
      ensures RootVar(tr, Var(t.lit)) ==> (t.lit in L <==> t.lit in TrueLits(tr))
    {
      WeightSnoc(s, t, L);
      WeightSnoc(r, t, L);
      if RootVar(tr, Var(t.lit)) {
        RootDecides(tr, L, t.lit);
      }
    }
  }

  lemma RootDecides(tr: seq<Elem>, L: Lits, l: int)
    requires OneEach(tr) && RootAgree(tr, L) && RootVar(tr, Var(l))
    ensures l in L <==> l in TrueLits(tr)
  {
    var i :| 0 <= i < |tr| && Var(tr[i].lit) == Var(l) && tr[i].dl == 0;
    assert tr[i].lit in TrueLits(tr);
    if l in TrueLits(tr) {
      var j :| 0 <= j < |tr| && tr[j].lit == l;
      assert i == j;
    }
  }

  lemma RootMeans(model: Model, l: int)
    requires model.Valid() && model.HasVar(l)
    ensures RootVar(model.modelStack, Var(l)) <==> !model.IsUndefLit(l) && model.LevelOfLit(l) == 0
  {
    hide LevelsGrow, LevelsStart;
    var tr := model.modelStack;
    if RootVar(tr, Var(l)) {
      var i :| 0 <= i < |tr| && Var(tr[i].lit) == Var(l) && tr[i].dl == 0;
      AtPosition(tr, l, i);
      assert i == model.HeightOf(l);
    }
  }

  /** removeUnits. */
  method RemoveUnits(model: Model, c: PB) returns (r: PB)
    requires model.Valid() && WellFormed(c) && KnownVars(c.lhs, model.numVars)
    ensures WellFormed(r) && KnownVars(r.lhs, model.numVars)
    ensures WithoutUnits(c.lhs, c.rhs, r.lhs, r.rhs, model.modelStack)
  {
    hide TrailOk, Mirrors, FalseLits, TrueLits, WithoutUnits, Weight;
    ghost var tr := model.modelStack;
    var newCtr: seq<Term> := [];
    var constant := c.rhs;
    WithoutNothing(c.rhs, tr);
    assert c.lhs[..0] == [];
    TrailIsOneEach(model);
    for i := 0 to |c.lhs|
      invariant WithoutUnits(c.lhs[..i], c.rhs, newCtr, constant, tr)
      invariant Positive(newCtr) && Ordered(newCtr) && KnownVars(newCtr, model.numVars)
      invariant forall j, k :: 0 <= j < |newCtr| && i <= k < |c.lhs| ==> Var(newCtr[j].lit) < Var(c.lhs[k].lit)
    {
      var t := c.lhs[i];
      UnitsStep(c.lhs[..i], c.rhs, newCtr, constant, tr, t);
      RootMeans(model, t.lit);
      assert c.lhs[..i + 1] == c.lhs[..i] + [t];
      if !model.IsUndefLit(t.lit) && model.LevelOfLit(t.lit) == 0 {
        if model.IsTrueLit(t.lit) {
          constant := constant - t.coef;
        }
      } else {
        newCtr := newCtr + [t];
      }
    }
    assert c.lhs[..|c.lhs|] == c.lhs;
    r := PB(newCtr, constant);
  }

  lemma TrailIsOneEach(model: Model)
    requires model.Valid()
    ensures OneEach(model.modelStack) && TrailOk(model.modelStack)
  {
  }

  lemma WithoutNothing(rhs: int, tr: seq<Elem>)
    ensures WithoutUnits([], rhs, [], rhs, tr)
  {
  }

  /** Without its units the constraint still follows from the formula. */
  lemma UnitsImplied(c: PB, r: PB, tr: seq<Elem>, F: iset<PB>)
    requires OneEach(tr) && RootsImplied(tr, F) && Implied(F, c) && WithoutUnits(c.lhs, c.rhs, r.lhs, r.rhs, tr)
    ensures Implied(F, r)
  {
    forall a: Lits | Total(a) && Holds(F, a)
      ensures Sat(r, a)
    {
      ModelsAgree(tr, F, a);
      assert Sat(c, a);
    }
  }

  /** ... and conflicts or propagates at the same levels, with the same slack. */
  lemma UnitsSameLevels(c: PB, r: PB, tr: seq<Elem>, d: nat)
    requires TrailOk(tr) && WellFormed(c) && WellFormed(r) && WithoutUnits(c.lhs, c.rhs, r.lhs, r.rhs, tr)
    ensures Slack(r, NonFalse(LevelPrefix(tr, d))) == Slack(c, NonFalse(LevelPrefix(tr, d)))
    ensures ConflictsOrPropagates(r, LevelPrefix(tr, d)) <==> ConflictsOrPropagates(c, LevelPrefix(tr, d))
  {
    hide LevelPrefix, NonFalse, Weight, MaxUndef, LevelsStart, LevelsGrow, OneEach;
    var p := LevelPrefix(tr, d);
    PrefixesAgree(tr, d);
    ConflictsOrPropagatesMeans(c, p);
    ConflictsOrPropagatesMeans(r, p);
    forall t | t in c.lhs && !Assigned(t.lit, p)
      ensures t in r.lhs
    {
      if RootVar(tr, Var(t.lit)) {
        RootAssigned(tr, t.lit, d);
      }
    }
    assert forall i :: 0 <= i < |r.lhs| ==> r.lhs[i] in r.lhs;
    assert forall i :: 0 <= i < |c.lhs| ==> c.lhs[i] in c.lhs;
  }

  lemma RootAssigned(tr: seq<Elem>, l: int, d: nat)
    requires TrailOk(tr) && RootVar(tr, Var(l)) && l != 0
    ensures Assigned(l, LevelPrefix(tr, d))
  {
    var i :| 0 <= i < |tr| && Var(tr[i].lit) == Var(l) && tr[i].dl == 0;
    AtPosition(tr, l, i);
    AboveMeans(tr, l, i, d);
    AtLevel(tr, l, d);
  }
}
