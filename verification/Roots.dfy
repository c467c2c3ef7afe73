/** What level 0 knows: its literals follow from the formula, and a conflict there refutes the formula. */
module Roots {
  import opened PBCore
  import opened Trail
  import opened Watches
  import opened Engine
  import opened Repair
  import opened BackjumpLevel
  import opened Closure
  import opened PropagateLoop
  import opened LemmaShortening

  /** Everything in the solver is a consequence of F. */
  ghost predicate Knows(s: Solver, F: iset<PB>)
    reads s`constraintsPB, s`genWatchList, s.store`clauses, s.model`modelStack
  {
    DatabaseImplied(s, F) && RootsImplied(s.model.modelStack, F)
  }

  ghost predicate Unsatisfiable(F: iset<PB>) {
    forall a: Lits :: Total(a) ==> !Holds(F, a)
  }

  lemma RootsPrefix(tr: seq<Elem>, tr': seq<Elem>, F: iset<PB>)
    requires RootsImplied(tr, F) && tr' <= tr
    ensures RootsImplied(tr', F)
  {
    forall i | 0 <= i < |tr'| && tr'[i].dl == 0
      ensures Implied(F, ClausePB([tr'[i].lit]))
    {
      assert tr'[i] == tr[i];
    }
  }

  lemma {:induction false} LevelPrefixIsInitial(tr: seq<Elem>, d: nat)
    ensures LevelPrefix(tr, d) <= tr
  {
    if |tr| > 0 && tr[|tr| - 1].dl > d {
      LevelPrefixIsInitial(tr[..|tr| - 1], d);
    }
  }

  /** A model of the formula makes every literal of level 0 true. */
  lemma RootIsTrue(tr: seq<Elem>, F: iset<PB>, a: Lits, i: nat)
    requires RootsImplied(tr, F) && Total(a) && Holds(F, a) && i < |tr| && tr[i].dl == 0
    ensures tr[i].lit in a
  {
    assert Implied(F, ClausePB([tr[i].lit]));
    ClauseSat([tr[i].lit], a);
  }

  /** A consequence falsified at level 0 refutes the formula. */
  lemma FalsifiedAtRoot(tr: seq<Elem>, F: iset<PB>, c: PB)
    requires LevelsGrow(tr) && OneEach(tr) && LevelOf(tr) == 0 && RootsImplied(tr, F)
    requires Positive(c.lhs) && Implied(F, c) && Slack(c, NonFalse(tr)) < 0
    ensures Unsatisfiable(F)
  {
    forall a: Lits | Total(a)
      ensures !Holds(F, a)
    {
      if Holds(F, a) {
        assert Sat(c, a);
        RootsInModel(tr, F, a);
        WeightMono(c.lhs, a, NonFalse(tr));
      }
    }
  }

  lemma RootsInModel(tr: seq<Elem>, F: iset<PB>, a: Lits)
    requires LevelsGrow(tr) && OneEach(tr) && LevelOf(tr) == 0 && RootsImplied(tr, F) && Total(a) && Holds(F, a)
    ensures forall l :: l in a && l != 0 ==> l in NonFalse(tr)
  {
    forall l | l in a && l != 0
      ensures l !in FalseLits(tr)
    {
      if l in FalseLits(tr) {
        var i :| 0 <= i < |tr| && -tr[i].lit == l;
        assert tr[i].dl <= LevelOf(tr);
        RootIsTrue(tr, F, a, i);
      }
    }
  }

  function TrailVars(tr: seq<Elem>): set<int> {
    set i | 0 <= i < |tr| :: Var(tr[i].lit)
  }

  lemma FalseVar(tr: seq<Elem>, y: int)
    requires y in FalseLits(tr)
    ensures Var(y) in TrailVars(tr)
  {
    var i :| 0 <= i < |tr| && -tr[i].lit == y;
    assert Var(tr[i].lit) == Var(y);
  }

  /** Every literal with a reason is justified by the whole trail. */
  lemma TrailJustifies(s: Solver, h: nat)
    requires s.Valid() && s.cleaned <= h < |s.model.modelStack| && s.model.modelStack[h].reason != NoReason
    ensures Justified(s, h, TrailVars(s.model.modelStack))
  {
    hide ListsOk, Mirrors, ListsWatch, ClausesOk, TrailOk, BinsKnown, Stored, Forces, FalseLits, TrailVars;
    var tr := s.model.modelStack;
    assert ReasonOk(tr[h], tr[..h], s.constraintsPB, s.store.clauses, s.genWatchList);
    NonFalseShrinks(tr, h);
    forall y | ReasonFalse(s, tr[h], y)
      ensures Var(y) in TrailVars(tr)
    {
      FalseVar(tr, y);
    }
  }

  /** Propagation at level 0 only adds consequences. */
  lemma {:induction false} RootsGrow(s: Solver, F: iset<PB>, from: nat, n: nat)
    requires s.Valid() && DatabaseImplied(s, F) && s.cleaned <= from <= n <= |s.model.modelStack|
    requires RootsImplied(s.model.modelStack[..from], F)
    requires forall i :: from <= i < n ==> s.model.modelStack[i].reason != NoReason
    ensures RootsImplied(s.model.modelStack[..n], F)
    decreases n
  {
    hide Solver.Valid, DatabaseImplied, RootsImplied;
    var tr := s.model.modelStack;
    if n > from {
      RootsGrow(s, F, from, n - 1);
      if tr[n - 1].dl == 0 {
        RootStep(s, F, n - 1);
      }
      RootsSnoc(tr, n - 1, F);
    }
  }

  lemma RootsSnoc(tr: seq<Elem>, h: nat, F: iset<PB>)
    requires h < |tr| && RootsImplied(tr[..h], F) && (tr[h].dl == 0 ==> Implied(F, ClausePB([tr[h].lit])))
    ensures RootsImplied(tr[..h + 1], F)
  {
    hide Implied;
    var s := tr[..h + 1];
    forall i | 0 <= i < |s| && s[i].dl == 0
      ensures Implied(F, ClausePB([s[i].lit]))
    {
      assert i < h ==> tr[..h][i] == s[i];
    }
  }

  lemma RootStep(s: Solver, F: iset<PB>, h: nat)
    requires s.Valid() && DatabaseImplied(s, F) && s.cleaned <= h < |s.model.modelStack|
    requires RootsImplied(s.model.modelStack[..h], F) && s.model.modelStack[h].reason != NoReason
    requires s.model.modelStack[h].dl == 0
    ensures Implied(F, ClausePB([s.model.modelStack[h].lit]))
  {
    hide ListsOk, Mirrors, ListsWatch, ClausesOk, BinsKnown, Stored, Forces, DatabaseImplied, Justified;
    var tr := s.model.modelStack;
    TrailJustifies(s, h);
    assert ReasonOk(tr[h], tr[..h], s.constraintsPB, s.store.clauses, s.genWatchList);
    forall a: Lits | Total(a) && Holds(F, a)
      ensures Sat(ClausePB([tr[h].lit]), a)
    {
      forall i | 0 <= i < h
        ensures tr[i].lit in a
      {
        assert tr[..h][i] == tr[i] && tr[i].dl == 0;
        RootIsTrue(tr[..h], F, a, i);
      }
      ReasonMakesTrue(s, F, TrailVars(tr), a, h);
      ClauseSat([tr[h].lit], a);
      assert tr[h].lit in [tr[h].lit];
    }
  }

  /** ... in particular the continuation of a trail by propagation. */
  lemma RootsExtend(s: Solver, F: iset<PB>, tr: seq<Elem>)
    requires s.Valid() && DatabaseImplied(s, F) && RootsImplied(tr, F) && Extends(tr, s.model.modelStack)
    requires s.cleaned <= |tr|
    ensures Knows(s, F)
  {
    hide ListsOk, Mirrors, ListsWatch, ClausesOk, BinsKnown, Stored, ReasonsOk, DatabaseImplied, TrailOk;
    RootsGrow(s, F, |tr|, |s.model.modelStack|);
    assert s.model.modelStack[..|s.model.modelStack|] == s.model.modelStack;
  }
}
