/** The search loop (solve, Solver.cpp): propagation, conflict analysis, decisions, restarts and the tightening of
    the objective, with what its final answers mean. */
module Search {
  import opened Arith
  import opened PBCore
  import opened Trail
  import opened Watches
  import opened Engine
  import opened Repair
  import opened BackjumpLevel
  import opened Closure
  import opened ClauseVisit
  import opened PropagateLoop
  import opened LemmaShortening
  import opened Database
  import opened Resolution
  import opened ClauseLearning
  import opened Roots
  import opened QuietBelow
  import opened ConflictAnalysis
  import opened Coverage
  import opened Cleaning
  import opened Cleanup

  // ----- solutions -----

  /** The assignment of a stored solution; variables the solver does not know are true. */
  ghost function Assignment(sol: seq<bool>): Lits {
    iset l: int | if Var(l) < |sol| then l != 0 && sol[Var(l)] == (l > 0) else l > 0
  }

  lemma AssignmentTotal(sol: seq<bool>)
    ensures Total(Assignment(sol))
  {
  }

  /** All variables assigned: being true and not being false are the same. */
  ghost predicate Complete(model: Model)
    requires model.Valid()
    reads model
  {
    forall v: int :: 1 <= v <= model.numVars ==> !model.IsUndefLit(v)
  }

  ghost predicate Mirrored(model: Model, sol: seq<bool>)
    requires model.Valid()
    reads model
  {
    |sol| == model.numVars + 1 && forall v: int :: 1 <= v <= model.numVars ==> (sol[v] <==> model.IsTrueLit(v))
  }

  /** Copying the model into lastSolution. */
  method CopySolution(model: Model) returns (sol: seq<bool>)
    requires model.Valid()
    ensures Mirrored(model, sol)
  {
    hide TrailOk, Mirrors, TrueLits, FalseLits;
    sol := [false];
    for i := 1 to model.numVars + 1
      invariant |sol| == i && forall v: int :: 1 <= v < i ==> (sol[v] <==> model.IsTrueLit(v))
    {
      sol := sol + [model.IsTrueLit(i)];
    }
  }

  /** In the copied solution a known literal is true exactly when it is true, or not false, on the trail. */
  lemma MirroredLit(model: Model, sol: seq<bool>, l: int)
    requires model.Valid() && Complete(model) && Mirrored(model, sol) && model.HasVar(l)
    ensures l in Assignment(sol) <==> l in TrueLits(model.modelStack)
    ensures l in Assignment(sol) <==> l in NonFalse(model.modelStack)
  {
    var tr, v: int := model.modelStack, Var(l);
    assert !model.IsUndefLit(v);
    TrueMeansComplementFalse(tr, v);
    TrueMeansComplementFalse(tr, -v);
    if v in TrueLits(tr) {
      NotBoth(tr, -v);
    }
    if v in FalseLits(tr) {
      NotBoth(tr, v);
    }
    assert l == v || l == -v;
  }

  lemma MirroredWeight(model: Model, sol: seq<bool>, s: seq<Term>)
    requires model.Valid() && Complete(model) && Mirrored(model, sol) && KnownVars(s, model.numVars)
    ensures Weight(s, Assignment(sol)) == Weight(s, NonFalse(model.modelStack))
  {
    hide TrailOk, Mirrors, TrueLits, FalseLits, NonFalse, Assignment;
    forall i | 0 <= i < |s|
      ensures s[i].lit in Assignment(sol) <==> s[i].lit in NonFalse(model.modelStack)
    {
      MirroredLit(model, sol, s[i].lit);
    }
    WeightAgree(s, Assignment(sol), NonFalse(model.modelStack));
  }

  lemma MirroredPB(s: Solver, sol: seq<bool>, k: nat)
    requires Ready(s) && s.model.AllPropagated() && Complete(s.model) && Mirrored(s.model, sol) && k < |s.constraintsPB|
    ensures Sat(s.constraintsPB[k], Assignment(sol))
  {
    hide Weight, NonFalse, Assignment, Mirrors, ListsOk, ListsWatch, ClausesOk, ReasonsOk, BinsOk, WatchesOk,
         LevelsClosed, LowerPropagated, BinsKnown, TrailOk, Mirrored, Complete;
    var c := s.constraintsPB[k];
    assert Stored(c, s.model.numVars);
    PBsPropagated(s, k, 0);
    MirroredWeight(s.model, sol, c.lhs);
  }

  lemma MirroredClause(s: Solver, sol: seq<bool>, k: nat)
    requires Ready(s) && s.model.AllPropagated() && Complete(s.model) && Mirrored(s.model, sol) && k < |s.store.clauses|
    ensures Sat(ClausePB(s.store.clauses[k]), Assignment(sol))
  {
    hide Weight, NonFalse, Assignment, Mirrors, ListsOk, ListsWatch, ReasonsOk, BinsOk, WatchesOk, LevelsClosed,
         LowerPropagated, BinsKnown, TrailOk, Mirrored, TrueLits, FalseLits, CountersOk, IndicesOk, AllSettled, Stored;
    var cl, tr := s.store.clauses[k], s.model.modelStack;
    assert ClauseOk(cl, s.store.watchIdx[k], s.store.numVars);
    ClausesPropagated(s, k);
    CompleteAssigned(s.model, cl[0]);
    var x :| x in cl && x in TrueLits(tr);
    MirroredLit(s.model, sol, x);
    ClauseSat(cl, Assignment(sol));
  }

  lemma CompleteAssigned(model: Model, l: int)
    requires model.Valid() && Complete(model) && model.HasVar(l)
    ensures Assigned(l, model.modelStack)
  {
    var v: int := Var(l);
    assert !model.IsUndefLit(v);
    TrueMeansComplementFalse(model.modelStack, v);
    TrueMeansComplementFalse(model.modelStack, -v);
    assert l == v || l == -v;
  }

  lemma MirroredBin(s: Solver, sol: seq<bool>, l: int, o: int)
    requires Ready(s) && s.model.AllPropagated() && Complete(s.model) && Mirrored(s.model, sol)
    requires s.model.HasVar(l) && Bin(o) in s.genWatchList[l]
    ensures Sat(ClausePB([l, o]), Assignment(sol))
  {
    hide Weight, NonFalse, Assignment, Mirrors, ListsOk, ListsWatch, ReasonsOk, BinsOk, WatchesOk, LevelsClosed,
         LowerPropagated, TrailOk, Mirrored, TrueLits, FalseLits, CountersOk, IndicesOk, AllSettled, Stored, ClausesOk;
    ClauseSat([l, o], Assignment(sol));
    CompleteAssigned(s.model, l);
    if l in FalseLits(s.model.modelStack) {
      BinsPropagated(s, l, o);
      assert BinLitsKnown(s.genWatchList[l], s.model.numVars);
      MirroredLit(s.model, sol, o);
      assert o in [l, o];
    } else {
      MirroredLit(s.model, sol, l);
      assert l in [l, o];
    }
  }

  lemma MirroredRoots(model: Model, sol: seq<bool>)
    requires model.Valid() && Complete(model) && Mirrored(model, sol)
    ensures forall l :: l in RootLits(model.modelStack) ==> l in Assignment(sol)
  {
    var tr := model.modelStack;
    forall i | 0 <= i < |tr|
      ensures tr[i].lit in Assignment(sol)
    {
      assert Recorded(tr[i].lit, i, model.truthValue, model.stackHeight, model.numVars);
      assert tr[i].lit in TrueLits(tr);
      MirroredLit(model, sol, tr[i].lit);
    }
  }

  /** All variables assigned, everything propagated, no conflict: a solution of the formula. */
  lemma SolutionHolds(s: Solver, sol: seq<bool>, F: iset<PB>)
    requires Ready(s) && s.model.AllPropagated() && Complete(s.model) && Mirrored(s.model, sol) && Covers(s, F)
    ensures Holds(F, Assignment(sol)) && Total(Assignment(sol))
    ensures forall k :: 0 <= k < |s.constraintsPB| ==> Sat(s.constraintsPB[k], Assignment(sol))
  {
    hide Sound, Solver.Valid, Solver.Closed, Model.Valid, Assignment, Mirrored, Complete, Ready, RootLits, Holds, Sat,
         ClausePB;
    AssignmentTotal(sol);
    ReadyIsValid(s);
    MirroredRoots(s.model, sol);
    forall k | 0 <= k < |s.constraintsPB|
      ensures Sat(s.constraintsPB[k], Assignment(sol))
    {
      MirroredPB(s, sol, k);
    }
    forall k | 0 <= k < |s.store.clauses|
      ensures Sat(ClausePB(s.store.clauses[k]), Assignment(sol))
    {
      MirroredClause(s, sol, k);
    }
    forall l, o | s.model.HasVar(l) && l in s.genWatchList && Bin(o) in s.genWatchList[l]
      ensures Sat(ClausePB([l, o]), Assignment(sol))
    {
      MirroredBin(s, sol, l, o);
    }
  }

  // ----- a conflict as a constraint -----

  /** Propagation keeps what the solver knows. */
  lemma KnowsPropagated(s: Solver, F: iset<PB>, cs: seq<seq<int>>, tr: seq<Elem>)
    requires s.Valid() && SameClauses(cs, s.store.clauses) && RootsImplied(tr, F) && Extends(tr, s.model.modelStack)
    requires s.cleaned <= |tr|
    requires forall k :: 0 <= k < |s.constraintsPB| ==> Implied(F, s.constraintsPB[k])
    requires forall k :: 0 <= k < |cs| ==> Implied(F, ClausePB(cs[k]))
    requires forall l, o :: l in s.genWatchList && Bin(o) in s.genWatchList[l] ==> Implied(F, ClausePB([l, o]))
    ensures Knows(s, F)
  {
    hide Solver.Valid;
    forall k | 0 <= k < |s.store.clauses|
      ensures Implied(F, ClausePB(s.store.clauses[k]))
    {
      ReorderedImplied(F, cs[k], s.store.clauses[k]);
    }
    RootsExtend(s, F, tr);
  }

  lemma ReorderedImplied(F: iset<PB>, c: seq<int>, d: seq<int>)
    requires Implied(F, ClausePB(c)) && forall x :: x in c <==> x in d
    ensures Implied(F, ClausePB(d))
  {
    forall a: Lits | Total(a) && Holds(F, a)
      ensures Sat(ClausePB(d), a)
    {
      assert Sat(ClausePB(c), a);
      ClauseSat(c, a);
      ClauseSat(d, a);
    }
  }

  /** Literals that are all false and do not repeat have distinct variables. */
  lemma AllFalseDistinct(lits: seq<int>, tr: seq<Elem>)
    requires NoDup(lits) && OneEach(tr) && forall i :: 0 <= i < |lits| ==> lits[i] != 0 && lits[i] in FalseLits(tr)
    ensures DistinctLitVars(lits)
  {
    forall i, j | 0 <= i < j < |lits|
      ensures Var(lits[i]) != Var(lits[j])
    {
      OneValue(tr, lits[i]);
    }
  }

  /** A clause whose literals are all false, as a falsified constraint. */
  lemma FalseClause(lits: seq<int>, tr: seq<Elem>, n: nat)
    requires NoDup(lits) && OneEach(tr) && forall i :: 0 <= i < |lits| ==>
               1 <= Var(lits[i]) <= n && lits[i] in FalseLits(tr)
    ensures var c := ClausePB(lits);
            Positive(c.lhs) && DistinctVars(c.lhs) && KnownVars(c.lhs, n) && Slack(c, NonFalse(tr)) < 0
  {
    AllFalseDistinct(lits, tr);
    ClauseShape(lits, n);
    ClauseSat(lits, NonFalse(tr));
  }

  ghost predicate Analysable(s: Solver, c: PB, F: iset<PB>)
    requires s.model.Valid()
    reads s.model
  {
    Positive(c.lhs) && DistinctVars(c.lhs) && KnownVars(c.lhs, s.model.numVars) && Implied(F, c)
    && Slack(c, NonFalse(s.model.modelStack)) < 0
  }

  lemma StoredKnown(c: PB, n: nat)
    requires Stored(c, n)
    ensures Positive(c.lhs) && DistinctVars(c.lhs) && KnownVars(c.lhs, n)
  {
  }

  /** The dispatch of conflictAnalysis on the kind of conflict. */
  function ConflictPB(s: Solver): PB
    requires ConflictIsReal(s)
    reads s, s.model, s.store
  {
    match s.conflict
    case PBConflict(k) => s.constraintsPB[k]
    case ClauseConflict(id) => ClausePB(s.store.clauses[id])
    case BinConflict(l1, l2) => ClausePB([l1, l2])
  }

  /** Whatever the kind, the conflict is a consequence of the formula that the trail falsifies. */
  lemma ConflictAnalysable(s: Solver, F: iset<PB>)
    requires Sound(s) && ConflictIsReal(s) && Knows(s, F)
    ensures s.model.Valid() && Analysable(s, ConflictPB(s), F)
  {
    hide ReasonsOk, Mirrors, ListsWatch, ListsOk, LevelsGrow, LevelsStart, Stored, CountersOk, IndicesOk, BinsOk,
         WatchesOk, LowerPropagated, LevelsClosed, FalseLits, TrueLits, Weight, Implied, BinLitsKnown, NonFalse;
    match s.conflict
    case PBConflict(k) =>
      assert Stored(s.constraintsPB[k], s.model.numVars);
      StoredKnown(s.constraintsPB[k], s.model.numVars);
    case ClauseConflict(id) =>
      assert ClauseOk(s.store.clauses[id], s.store.watchIdx[id], s.store.numVars);
      assert forall i :: 0 <= i < |s.store.clauses[id]| ==> s.store.clauses[id][i] in s.store.clauses[id];
      FalseClause(s.store.clauses[id], s.model.modelStack, s.model.numVars);
    case BinConflict(l1, l2) =>
      FalseIsKnown(s.model, l1);
      FalseIsKnown(s.model, l2);
      assert l1 != l2;
      FalseClause([l1, l2], s.model.modelStack, s.model.numVars);
  }

  lemma DistinctLits(lits: seq<int>)
    requires Positive(ClausePB(lits).lhs) && DistinctVars(ClausePB(lits).lhs)
    ensures DistinctLitVars(lits) && forall i :: 0 <= i < |lits| ==> lits[i] != 0
  {
    assert forall i :: 0 <= i < |lits| ==> ClausePB(lits).lhs[i] == Term(1, lits[i]);
  }

  /** ... and it conflicts at the current level for the first time. */
  lemma ConflictIsQuiet(s: Solver, F: iset<PB>)
    requires Sound(s) && ConflictIsReal(s) && s.model.Valid() && Analysable(s, ConflictPB(s), F)
    ensures Quiet(ConflictPB(s), s.model.modelStack)
  {
    hide Sound, Underway, Quiet, ClausePB, Implied, Slack, Positive, DistinctVars, Model.Valid;
    SoundIsUnderway(s);
    match s.conflict
    case PBConflict(k) => StoredIsQuiet(s, k);
    case ClauseConflict(id) =>
      DistinctLits(s.store.clauses[id]);
      ClauseIsQuiet(s, id);
    case BinConflict(l1, l2) =>
      DistinctLits([l1, l2]);
      assert [l1, l2][0] == l1 && [l1, l2][1] == l2;
      BinaryIsQuiet(s, l1, l2);
  }

  // ----- between two decisions -----

  /** The state between two steps of the loop. */
  ghost predicate Consistent(s: Solver, F: iset<PB>, F0: iset<PB>)
    reads s, s.model, s.store
  {
    && Sound(s) && Knows(s, F) && Covers(s, F0)
    && (s.conflict == NoConflict ==> Ready(s))
    && (s.conflict != NoConflict ==> ConflictIsReal(s))
  }

  ghost predicate ConstraintsKept(s: Solver, pbs: seq<PB>)
    reads s`constraintsPB
  {
    pbs <= s.constraintsPB
  }

  /** A conflict at level 0 refutes the formula. */
  lemma ConflictAtRoot(s: Solver, F: iset<PB>, F0: iset<PB>)
    requires Consistent(s, F, F0) && s.conflict != NoConflict && LevelOf(s.model.modelStack) == 0
    ensures Unsatisfiable(F)
  {
    ConflictAnalysable(s, F);
    FalsifiedAtRoot(s.model.modelStack, F, ConflictPB(s));
  }

  /** if (!conflict) propagate(). */
  method PropagateAgain(s: Solver, ghost F: iset<PB>, ghost F0: iset<PB>)
    requires Consistent(s, F, F0)
    modifies s`maxWIdx, s`stamp, s`sumOfWatches, s`conflict, s.model, s.store
    ensures Consistent(s, F, F0) && LevelOf(s.model.modelStack) == LevelOf(old(s.model.modelStack))
    ensures s.conflict == NoConflict ==> s.model.AllPropagated()
    ensures old(s.model.modelStack) <= s.model.modelStack
  {
    hide Sound, Solver.Valid, Solver.Closed, Model.Valid, Implied, RootLits, DbCovers, SameClauses;
    if s.conflict == NoConflict {
      ghost var tr, d := s.model.modelStack, DbOf(s);
      KnowsParts(s, F);
      ReadyIsValid(s);
      CleanedOnTrail(s);
      Propagate(s);
      SoundIsValid(s);
      ExtendsIsPrefix(tr, s.model.modelStack);
      RootsExtended(tr, s.model.modelStack);
      KnowsPropagated(s, F, d.clauses, tr);
      CoversPropagated(s, F0, d, RootLits(tr));
    }
  }

  lemma SoundIsValid(s: Solver)
    requires Sound(s)
    ensures s.Valid() && s.model.Valid() && s.model.decisionLevel == LevelOf(s.model.modelStack)
  {
  }

  /** One conflict analysis of the inner loop: the level drops, or the search is over. */
  method AnalyseConflict(s: Solver, ghost F: iset<PB>, ghost F0: iset<PB>) returns (out: Outcome)
    requires Consistent(s, F, F0) && s.conflict != NoConflict && s.model.decisionLevel > 0
    modifies s, s.model, s.store
    ensures out == Refuted || out == Learned
    ensures out == Refuted ==> Unsatisfiable(F)
    ensures out == Learned ==> Consistent(s, F, F0) && s.conflict == NoConflict
                               && LevelOf(s.model.modelStack) < LevelOf(old(s.model.modelStack))
                               && ConstraintsKept(s, old(s.constraintsPB))
  {
    hide Sound, Solver.Valid, Solver.Closed, Model.Valid, Implied, RootLits, DbCovers, Unsatisfiable, Underway, Weight,
         LevelPrefix, NonFalse;
    ghost var tr, d := s.model.modelStack, DbOf(s);
    SoundIsUnderway(s);
    ConflictAnalysable(s, F);
    ConflictIsQuiet(s, F);
    var shared;
    ghost var rounds;
    out, shared, rounds := AnalyseAndBackjump(s, ConflictPB(s), F);
    if out == Learned {
      AssertedRoots(tr, s.model.modelStack);
      CoversGrown(s, F0, d, RootLits(tr));
      assert ConstraintsKept(s, d.pbs);
    }
  }

  /** Learning keeps level 0 and lowers the current level. */
  lemma AssertedRoots(tr0: seq<Elem>, tr: seq<Elem>)
    requires exists d: nat :: Asserted(tr0, d, tr)
    ensures RootLits(tr0) <= RootLits(tr) && LevelOf(tr) < LevelOf(tr0)
  {
    var d: nat :| Asserted(tr0, d, tr);
    var p := LevelPrefix(tr0, d);
    RootsJump(tr0, d);
    RootsExtended(p, tr);
    LevelPrefixLevel(tr0, d);
    assert tr[|tr| - 1].dl == LevelOf(p);
  }

  /** The inner loop of solve: analyse and propagate until there is no conflict. */
  method ResolveConflicts(s: Solver, ghost F: iset<PB>, ghost F0: iset<PB>) returns (out: Outcome)
    requires Consistent(s, F, F0) && (s.conflict == NoConflict ==> s.model.AllPropagated())
    modifies s, s.model, s.store
    ensures out == Refuted || out == Learned
    ensures out == Refuted ==> Unsatisfiable(F)
    ensures out == Learned ==> Consistent(s, F, F0) && s.conflict == NoConflict && s.model.AllPropagated()
                               && ConstraintsKept(s, old(s.constraintsPB))
  {
    hide Sound, Solver.Valid, Solver.Closed, Model.Valid, Knows, Covers, Unsatisfiable, Ready, ConflictIsReal;
    out := Learned;
    while s.conflict != NoConflict
      invariant Consistent(s, F, F0) && (s.conflict == NoConflict ==> s.model.AllPropagated())
      invariant ConstraintsKept(s, old(s.constraintsPB)) && out == Learned
      decreases LevelOf(s.model.modelStack)
    {
      SoundIsValid(s);
      if s.model.decisionLevel == 0 {
        ConflictAtRoot(s, F, F0);
        return Refuted;
      }
      out := AnalyseConflict(s, F, F0);
      if out != Learned {
        return;
      }
      PropagateAgain(s, F, F0);
    }
  }

  // ----- the objective -----

  /** The best solution so far, its value, and the number of the constraint that asks for a better one. */
  datatype Incumbent = NoSolution | Best(objNum: nat, cost: int, solution: seq<bool>)

  /** The formula the search works on: with a solution at hand, it must also be improved. */
  ghost function InForce(F0: iset<PB>, objective: seq<Term>, inc: Incumbent): iset<PB> {
    match inc
    case NoSolution => F0
    case Best(_, cost, _) => F0 + iset{PB(objective, cost + 1)}
  }

  ghost predicate IncumbentOk(s: Solver, F0: iset<PB>, objective: seq<Term>, inc: Incumbent)
    reads s`constraintsPB
  {
    match inc
    case NoSolution => true
    case Best(k, cost, sol) =>
      Holds(F0, Assignment(sol)) && cost == Weight(objective, Assignment(sol))
      && k < |s.constraintsPB| && s.constraintsPB[k] == PB(objective, cost + 1)
  }

  /** A stronger formula implies as much. */
  lemma ImpliedStronger(F: iset<PB>, G: iset<PB>, c: PB)
    requires Implied(F, c) && forall a: Lits :: Holds(G, a) ==> Holds(F, a)
    ensures Implied(G, c)
  {
  }

  /** Asking for more than the incumbent is stronger than what was asked before. */
  lemma InForceStronger(F0: iset<PB>, objective: seq<Term>, inc: Incumbent, inc': Incumbent)
    requires inc'.Best? && (inc.Best? ==> inc.cost <= inc'.cost)
    ensures forall a: Lits :: Holds(InForce(F0, objective, inc'), a) ==> Holds(InForce(F0, objective, inc), a)
    ensures Implied(InForce(F0, objective, inc'), PB(objective, inc'.cost + 1))
  {
    var G := InForce(F0, objective, inc');
    forall a: Lits | Holds(G, a)
      ensures Holds(InForce(F0, objective, inc), a) && Sat(PB(objective, inc'.cost + 1), a)
    {
      assert PB(objective, inc'.cost + 1) in G;
      assert forall c :: c in F0 ==> c in G;
    }
  }

  lemma KnowsStronger(s: Solver, F: iset<PB>, G: iset<PB>)
    requires Knows(s, F) && forall a: Lits :: Holds(G, a) ==> Holds(F, a)
    ensures Knows(s, G)
  {
    forall c: PB | Implied(F, c)
      ensures Implied(G, c)
    {
      ImpliedStronger(F, G, c);
    }
  }

  lemma CoversTightened(s: Solver, d: Db, k: nat, c: PB, F: iset<PB>, roots: set<int>)
    requires DbCovers(d, roots, s.model.numVars, F)
    requires k < |d.pbs| && DbOf(s) == d.(pbs := d.pbs[k := c]) && c.lhs == d.pbs[k].lhs && c.rhs >= d.pbs[k].rhs
    requires roots <= RootLits(s.model.modelStack)
    ensures Covers(s, F)
  {
    forall a: Lits | Total(a) && DbSat(DbOf(s), RootLits(s.model.modelStack), s.model.numVars, a)
      ensures DbSat(d, roots, s.model.numVars, a)
    {
      forall j | 0 <= j < |d.pbs| && j !in d.learnedPB
        ensures Sat(d.pbs[j], a)
      {
        assert Sat(s.constraintsPB[j], a);
      }
    }
  }

  /** constraintIsContradiction: level 0 alone keeps the left-hand side below the right-hand side. */
  method IsContradiction(model: Model, c: PB) returns (b: bool)
    requires model.Valid() && KnownVars(c.lhs, model.numVars)
    ensures b <==> Slack(c, NonFalse(LevelPrefix(model.modelStack, 0))) < 0
  {
    hide TrailOk, Mirrors, Weight, FalseLits, TrueLits, LevelPrefix, NonFalse;
    var maxSum := 0;
    ghost var N := NonFalse(LevelPrefix(model.modelStack, 0));
    assert c.lhs[..0] == [];
    WeightOfNothing(N);
    for i := 0 to |c.lhs|
      invariant maxSum == Weight(c.lhs[..i], N)
    {
      var lit := c.lhs[i].lit;
      WeightStep(c.lhs, i, N);
      RootFalse(model, lit);
      if !model.IsFalseLit(lit) || model.LevelOfLit(lit) > 0 {
        maxSum := maxSum + c.lhs[i].coef;
      }
    }
    WeightFull(c.lhs, N);
    b := maxSum < c.rhs;
  }

  lemma RootFalse(model: Model, l: int)
    requires model.Valid() && model.HasVar(l)
    ensures model.IsFalseLit(l) ==> !model.IsUndefLit(l)
    ensures l in NonFalse(LevelPrefix(model.modelStack, 0)) <==> !model.IsFalseLit(l) || model.LevelOfLit(l) > 0
  {
    AtLevel(model.modelStack, l, 0);
    if model.IsFalseLit(l) {
      LevelIsAboveOf(model, l);
    }
  }

  lemma LevelIsAboveOf(model: Model, l: int)
    requires model.Valid() && model.HasVar(l) && !model.IsUndefLit(l)
    ensures Above(model.modelStack, l, 0) <==> model.LevelOfLit(l) > 0
  {
    AboveMeans(model.modelStack, l, model.HeightOf(l), 0);
  }

  /** A contradiction at level 0 refutes what it is a consequence of. */
  lemma ContradictionRefutes(tr: seq<Elem>, F: iset<PB>, c: PB)
    requires TrailOk(tr) && RootsImplied(tr, F) && Implied(F, c) && Positive(c.lhs)
    requires Slack(c, NonFalse(LevelPrefix(tr, 0))) < 0
    ensures Unsatisfiable(F)
  {
    var n := LevelPrefixIsPrefix(tr, 0);
    TrailOkPrefix(tr, n);
    LevelPrefixLevel(tr, 0);
    RootsPrefix(tr, tr[..n], F);
    FalsifiedAtRoot(tr[..n], F, c);
  }

  // ----- asking for a better solution -----

  lemma IndicesTighten(pbs: seq<PB>, maxWIdx: seq<nat>, stamp: seq<nat>, now: nat, tr: seq<Elem>, k: nat, c: PB)
    requires IndicesOk(pbs, maxWIdx, stamp, now, tr) && k < |pbs| && c.lhs == pbs[k].lhs
    ensures IndicesOk(pbs[k := c], maxWIdx, stamp, now, tr)
  {
    forall j | 0 <= j < |pbs|
      ensures SavedIndexOk(pbs[k := c][j], maxWIdx[j], stamp[j], now, tr)
    {
      assert SavedIndexOk(pbs[j], maxWIdx[j], stamp[j], now, tr);
    }
  }

  /** The backjump of the improvement step, exact by the same simulation that conflict analysis uses. */
  method JumpToImprove(s: Solver, c: PB) returns (ghost d: nat)
    requires s.Valid() && s.Counters() && Positive(c.lhs) && KnownVars(c.lhs, s.model.numVars)
    requires s.model.decisionLevel > 0 ==> Slack(c, NonFalse(s.model.modelStack)) < 0 && |c.lhs| > 0
    modifies s`sumOfWatches, s`numOfBackjump, s.model
    ensures s.Valid() && s.Counters() && d <= LevelOf(old(s.model.modelStack))
    ensures s.model.modelStack == LevelPrefix(old(s.model.modelStack), d)
    ensures s.model.lastPropagated == Min(old(s.model.lastPropagated), |s.model.modelStack| - 1)
    ensures if d < LevelOf(old(s.model.modelStack)) then s.numOfBackjump == old(s.numOfBackjump) + 1
            else s.numOfBackjump == old(s.numOfBackjump)
    ensures NoneBelow(c, s.model.modelStack, LevelOf(s.model.modelStack))
  {
    hide ReasonsOk, Mirrors, ClausesOk, ListsWatch, ListsOk, CountersOk, BinsKnown, Stored, NonFalse, FalseLits,
         TrueLits, Weight, LevelsStart, LevelsGrow, OneEach, ConflictsOrPropagates, LevelPrefix, Pending;
    ghost var tr := s.model.modelStack;
    d := LevelOf(tr);
    OwnPrefix(tr);
    if s.model.decisionLevel != 0 {
      var dl := LowestLevel(s.model, c);
      if dl != -1 {
        d := dl;
        s.BackjumpTo(dl);
        NoneBelowAfterJump(c, tr, dl);
      }
    }
  }

  /** Everything that holds on a completely propagated trail also holds after a backjump from it. */
  lemma JumpFacts(pbs: seq<PB>, tr: seq<Elem>, d: nat, clauses: seq<seq<int>>, gen: map<int, seq<GenElem>>)
    requires TrailOk(tr) && d <= LevelOf(tr) && BinsOk(tr, |tr|, gen) && WatchesOk(tr, |tr|, clauses)
    requires LevelsClosed(pbs, tr) && SettledAt(pbs, tr)
    ensures var r := LevelPrefix(tr, d);
            BinsOk(r, |r|, gen) && WatchesOk(r, |r|, clauses) && LevelsClosed(pbs, r) && SettledAt(pbs, r)
            && |r| <= |tr|
  {
    hide LevelsStart, OneEach, BinsOk, WatchesOk, LevelsClosed, SettledAt;
    if d < LevelOf(tr) {
      NothingPending(tr);
      LowerClausesOfOk(tr, |tr| - 1, clauses, gen);
      BackjumpKeepsClauses(tr, |tr| - 1, d, clauses, gen);
      BackjumpKeepsLevels(pbs, tr, d);
    } else {
      OwnPrefix(tr);
    }
  }

  lemma JumpIndices(pbs: seq<PB>, maxWIdx: seq<nat>, stamp: seq<nat>, now: nat, tr: seq<Elem>, d: nat)
    requires IndicesOk(pbs, maxWIdx, stamp, now, tr) && d <= LevelOf(tr)
    ensures IndicesOk(pbs, maxWIdx, stamp, if d < LevelOf(tr) then now + 1 else now, LevelPrefix(tr, d))
  {
    IndicesStamps(pbs, maxWIdx, stamp, now, tr);
    if d < LevelOf(tr) {
      StampsAfterBackjump(pbs, maxWIdx, stamp, now, LevelPrefix(tr, d));
    } else {
      OwnPrefix(tr);
    }
  }

  /** backjumpToDL(0) on a completely propagated trail: restarts, and the option to start over after a solution. */
  method Restart(s: Solver)
    requires Ready(s) && s.model.AllPropagated()
    modifies s`sumOfWatches, s`numOfBackjump, s.model
    ensures Ready(s) && s.model.AllPropagated() && s.model.modelStack == LevelPrefix(old(s.model.modelStack), 0)
  {
    hide Sound, Solver.Closed, Solver.Valid, BinsOk, WatchesOk, LevelsClosed, SettledAt, IndicesOk, CountersOk,
         LevelPrefix, OneEach, LevelsStart, LevelsGrow, NonFalse, StampsOk, Mirrors;
    ghost var tr := s.model.modelStack;
    ReadyParts(s);
    JumpFacts(s.constraintsPB, tr, 0, s.store.clauses, s.genWatchList);
    IndicesStamps(s.constraintsPB, s.maxWIdx, s.stamp, s.numOfBackjump, tr);
    StampsAfterBackjump(s.constraintsPB, s.maxWIdx, s.stamp, s.numOfBackjump, LevelPrefix(tr, 0));
    s.BackjumpTo(0);
    CleanAgain(s);
  }

  /** The first improvement constraint. */
  method AddObjective(s: Solver, c: PB)
    requires Ready(s) && s.model.AllPropagated() && Stored(c, s.model.numVars)
    requires s.model.decisionLevel > 0 ==> Slack(c, NonFalse(s.model.modelStack)) < 0
    modifies s`occurLists, s`genWatchList, s`sumOfWatches, s`constraintsPB, s`maxWIdx, s`stamp, s`numOfBackjump,
             s`conflict, s.model
    ensures Sound(s) && s.constraintsPB == old(s.constraintsPB) + [c] && BinsGrow(old(s.genWatchList), s.genWatchList)
    ensures GenGrows(old(s.genWatchList), s.genWatchList)
    ensures exists d: nat :: Extends(LevelPrefix(old(s.model.modelStack), d), s.model.modelStack)
    ensures s.conflict == NoConflict ==> Ready(s)
    ensures s.conflict != NoConflict ==> ConflictIsReal(s)
  {
    hide Sound, Solver.Closed, Solver.Valid, BinsOk, WatchesOk, LevelsClosed, SettledAt, IndicesOk, CountersOk,
         LevelPrefix, OneEach, LevelsStart, LevelsGrow, NonFalse, NoneBelow, Weight, BinsGrow, GenGrows, Extends,
         Mirrors, DecreasingCoefs;
    ghost var tr, gen := s.model.modelStack, s.genWatchList;
    ReadyParts(s);
    ghost var d := JumpToImprove(s, c);
    JumpFacts(s.constraintsPB, tr, d, s.store.clauses, s.genWatchList);
    JumpIndices(s.constraintsPB, s.maxWIdx, s.stamp, old(s.numOfBackjump), tr, d);
    CleanAgain(s);
    AddAndPropagate(s, c);
    GenGrowsBins(gen, s.genWatchList);
  }

  lemma SettledButOne(pbs: seq<PB>, k: nat, c: PB, tr: seq<Elem>)
    requires SettledAt(pbs, tr) && k < |pbs|
    ensures SettledBut(pbs[k := c], k, NonFalse(tr), tr)
  {
    var qs := pbs[k := c];
    forall j | 0 <= j < |qs| && j != k
      ensures Settled(qs[j], Slack(qs[j], NonFalse(tr)), tr)
    {
      assert Settled(pbs[j], Slack(pbs[j], NonFalse(tr)), tr);
    }
  }

  /** A later improvement: the stored constraint is tightened in place. */
  method TightenAndSettle(s: Solver, k: nat, rhs: int)
    requires Ready(s) && s.model.AllPropagated() && k < |s.constraintsPB| && rhs >= s.constraintsPB[k].rhs
    requires s.model.decisionLevel > 0 ==> Slack(PB(s.constraintsPB[k].lhs, rhs), NonFalse(s.model.modelStack)) < 0
    modifies s`sumOfWatches, s`constraintsPB, s`numOfBackjump, s`maxWIdx, s`stamp, s`conflict, s.model
    ensures Sound(s) && s.constraintsPB == old(s.constraintsPB)[k := PB(old(s.constraintsPB)[k].lhs, rhs)]
    ensures exists d: nat :: Extends(LevelPrefix(old(s.model.modelStack), d), s.model.modelStack)
    ensures s.conflict == NoConflict ==> Ready(s)
    ensures s.conflict != NoConflict ==> ConflictIsReal(s)
  {
    hide Sound, Solver.Closed, Solver.Valid, BinsOk, WatchesOk, LevelsClosed, SettledAt, IndicesOk, LevelPrefix,
         OneEach, LevelsStart, LevelsGrow, NonFalse, NoneBelow, Weight, Extends, Mirrors, SettledBut, CountersOk;
    ghost var tr, pbs := s.model.modelStack, s.constraintsPB;
    ReadyParts(s);
    StoredAt(s, k);
    ghost var c := PB(pbs[k].lhs, rhs);
    TightenObjective(s, k, rhs);
    IndicesTighten(pbs, s.maxWIdx, s.stamp, s.numOfBackjump, tr, k, c);
    ghost var d := JumpToImprove(s, s.constraintsPB[k]);
    JumpFacts(pbs, tr, d, s.store.clauses, s.genWatchList);
    JumpIndices(s.constraintsPB, s.maxWIdx, s.stamp, old(s.numOfBackjump), tr, d);
    LevelsClosedReplace(pbs, s.model.modelStack, k, c);
    SettledButOne(pbs, k, c, s.model.modelStack);
    CleanAgain(s);
    SettleConstraint(s, k);
  }

  lemma StoredAt(s: Solver, k: nat)
    requires s.Valid() && k < |s.constraintsPB|
    ensures Stored(s.constraintsPB[k], s.model.numVars)
    ensures KnownVars(s.constraintsPB[k].lhs, s.model.numVars) && Positive(s.constraintsPB[k].lhs)
  {
  }

  // ----- a solution is found -----

  ghost predicate ObjectiveOk(objective: seq<Term>, n: nat) {
    Positive(objective) && DistinctVars(objective) && DecreasingCoefs(objective) && KnownVars(objective, n)
  }

  /** The value of the objective under a complete assignment. */
  method ObjectiveValue(model: Model, objective: seq<Term>) returns (v: int)
    requires model.Valid() && Complete(model) && KnownVars(objective, model.numVars)
    ensures v == Weight(objective, NonFalse(model.modelStack))
  {
    hide TrailOk, Mirrors, Weight, FalseLits, TrueLits;
    v := 0;
    ghost var N := NonFalse(model.modelStack);
    assert objective[..0] == [];
    WeightOfNothing(N);
    for i := 0 to |objective|
      invariant v == Weight(objective[..i], N)
    {
      WeightStep(objective, i, N);
      CompleteAssigned(model, objective[i].lit);
      TrueOrFalse(model, objective[i].lit);
      if model.IsTrueLit(objective[i].lit) {
        v := v + objective[i].coef;
      }
    }
    WeightFull(objective, N);
  }

  lemma TrueOrFalse(model: Model, l: int)
    requires model.Valid() && model.HasVar(l) && Assigned(l, model.modelStack)
    ensures model.IsTrueLit(l) <==> l in NonFalse(model.modelStack)
  {
    if l in FalseLits(model.modelStack) {
      NotBoth(model.modelStack, l);
    }
  }

  lemma ExtendedRoots(tr0: seq<Elem>, tr: seq<Elem>)
    requires exists d: nat :: Extends(LevelPrefix(tr0, d), tr)
    ensures RootLits(tr0) <= RootLits(tr)
  {
    var d: nat :| Extends(LevelPrefix(tr0, d), tr);
    RootsJump(tr0, d);
    ExtendsIsPrefix(LevelPrefix(tr0, d), tr);
    RootsExtended(LevelPrefix(tr0, d), tr);
  }

  /** A backjump keeps the cleaned literals. */
  lemma {:induction false} CleanedPrefix(tr: seq<Elem>, cleaned: nat, d: nat)
    requires CleanedRoots(tr, cleaned)
    ensures CleanedRoots(LevelPrefix(tr, d), cleaned)
  {
    if |tr| > 0 && tr[|tr| - 1].dl > d {
      CleanedPrefix(tr[..|tr| - 1], cleaned, d);
    }
  }

  lemma ExtendedKnows(s: Solver, F: iset<PB>, tr0: seq<Elem>)
    requires s.Valid() && DatabaseImplied(s, F) && RootsImplied(tr0, F) && CleanedRoots(tr0, s.cleaned)
    requires exists d: nat :: Extends(LevelPrefix(tr0, d), s.model.modelStack)
    ensures Knows(s, F)
  {
    hide Solver.Valid, DatabaseImplied, RootsImplied;
    var d: nat :| Extends(LevelPrefix(tr0, d), s.model.modelStack);
    LevelPrefixIsInitial(tr0, d);
    RootsPrefix(tr0, LevelPrefix(tr0, d), F);
    CleanedPrefix(tr0, s.cleaned, d);
    RootsExtend(s, F, LevelPrefix(tr0, d));
  }

  /** From the solution to the constraint that asks for a better one. */
  method AskForMore(s: Solver, objective: seq<Term>, inc: Incumbent, cost: int, sol: seq<bool>,
                    ghost F0: iset<PB>) returns (inc': Incumbent)
    requires Ready(s) && s.model.AllPropagated() && ObjectiveOk(objective, s.model.numVars) && |objective| > 0
    requires Knows(s, InForce(F0, objective, inc)) && Covers(s, F0) && IncumbentOk(s, F0, objective, inc)
    requires Holds(F0, Assignment(sol)) && cost == Weight(objective, Assignment(sol))
    requires inc.Best? ==> cost > inc.cost
    requires s.model.decisionLevel > 0 ==> Slack(PB(objective, cost + 1), NonFalse(s.model.modelStack)) < 0
    modifies s, s.model
    ensures inc'.Best? && inc'.cost == cost && inc'.solution == sol
    ensures Consistent(s, InForce(F0, objective, inc'), F0) && IncumbentOk(s, F0, objective, inc')
  {
    hide Sound, Solver.Closed, Solver.Valid, Model.Valid, Weight, NonFalse, Implied, DatabaseImplied, RootsImplied,
         DbCovers, RootLits, Ready, ConflictIsReal, BinsGrow, GenGrows, Extends, Holds, Assignment, InForce,
         LevelPrefix;
    ghost var F, tr, pbs, d := InForce(F0, objective, inc), s.model.modelStack, s.constraintsPB, DbOf(s);
    ReadyIsValid(s);
    CleanedOnTrail(s);
    var c := PB(objective, cost + 1);
    var k := if inc.Best? then inc.objNum else |s.constraintsPB|;
    inc' := Best(k, cost, sol);
    ghost var G := InForce(F0, objective, inc');
    InForceStronger(F0, objective, inc, inc');
    KnowsStronger(s, F, G);
    KnowsParts(s, G);
    if inc.NoSolution? {
      assert Stored(c, s.model.numVars);
      AddObjective(s, c);
      DatabaseGrows(s, G, pbs, d.gen, c);
      ExtendedRoots(tr, s.model.modelStack);
      CoversGrown(s, F0, d, RootLits(tr));
    } else {
      TightenAndSettle(s, k, cost + 1);
      ExtendedRoots(tr, s.model.modelStack);
      CoversTightened(s, d, k, c, F0, RootLits(tr));
      DatabaseTightened(s, pbs, k, c, G);
    }
    SoundIsValid(s);
    ExtendedKnows(s, G, tr);
  }

  lemma DatabaseTightened(s: Solver, pbs: seq<PB>, k: nat, c: PB, F: iset<PB>)
    requires k < |pbs| && s.constraintsPB == pbs[k := c] && Implied(F, c)
    requires forall j :: 0 <= j < |pbs| ==> Implied(F, pbs[j])
    requires forall j :: 0 <= j < |s.store.clauses| ==> Implied(F, ClausePB(s.store.clauses[j]))
    requires forall l, o :: l in s.genWatchList && Bin(o) in s.genWatchList[l] ==> Implied(F, ClausePB([l, o]))
    ensures DatabaseImplied(s, F)
  {
    hide Implied;
  }

  /** What is known about a stored solution. */
  ghost predicate SolutionOf(F0: iset<PB>, objective: seq<Term>, inc: Incumbent) {
    inc.Best? ==> Holds(F0, Assignment(inc.solution)) && inc.cost == Weight(objective, Assignment(inc.solution))
  }

  /** The incumbent's own constraint makes every new solution strictly better. */
  lemma StrictlyBetter(s: Solver, F0: iset<PB>, objective: seq<Term>, inc: Incumbent, a: Lits)
    requires IncumbentOk(s, F0, objective, inc) && forall k :: 0 <= k < |s.constraintsPB| ==> Sat(s.constraintsPB[k], a)
    ensures inc.Best? ==> Weight(objective, a) > inc.cost
  {
  }

  /** Every 0/1 point above the new cost was asked for before, so level 0 decides about it. */
  lemma ContradictionIsOptimal(s: Solver, F0: iset<PB>, objective: seq<Term>, inc: Incumbent, inc': Incumbent)
    requires s.Valid() && Knows(s, InForce(F0, objective, inc)) && Positive(objective)
    requires inc'.Best? && (inc.Best? ==> inc.cost <= inc'.cost)
    requires Slack(PB(objective, inc'.cost + 1), NonFalse(LevelPrefix(s.model.modelStack, 0))) < 0
    ensures Unsatisfiable(InForce(F0, objective, inc'))
  {
    hide Sound, Solver.Closed, Weight, NonFalse, Implied, DatabaseImplied, RootsImplied, InForce, LevelPrefix,
         Unsatisfiable, ListsOk, ReasonsOk, Mirrors, ListsWatch, ClausesOk;
    InForceStronger(F0, objective, inc, inc');
    KnowsStronger(s, InForce(F0, objective, inc), InForce(F0, objective, inc'));
    KnowsParts(s, InForce(F0, objective, inc'));
    ContradictionRefutes(s.model.modelStack, InForce(F0, objective, inc'), PB(objective, inc'.cost + 1));
  }

  lemma ReadyLevel(s: Solver)
    requires Ready(s)
    ensures s.Valid() && s.model.Valid() && s.Counters() && s.model.decisionLevel == LevelOf(s.model.modelStack)
  {
  }

  lemma EmptyContradicts(objective: seq<Term>, cost: int, N: Lits, M: Lits)
    requires cost == Weight(objective, N) && Slack(PB(objective, cost + 1), M) >= 0
    ensures |objective| > 0
  {
  }

  /** All variables are assigned without a conflict: store the solution and ask for a better one. */
  method OnSolution(s: Solver, objective: seq<Term>, inc: Incumbent, bt0: bool, ghost F0: iset<PB>)
    returns (optimal: bool, inc': Incumbent)
    requires Ready(s) && s.model.AllPropagated() && Complete(s.model) && ObjectiveOk(objective, s.model.numVars)
    requires Knows(s, InForce(F0, objective, inc)) && Covers(s, F0) && IncumbentOk(s, F0, objective, inc)
    modifies s, s.model
    ensures inc'.Best? && SolutionOf(F0, objective, inc') && (inc.Best? ==> inc'.cost > inc.cost)
    ensures optimal ==> Unsatisfiable(InForce(F0, objective, inc'))
    ensures !optimal ==> Consistent(s, InForce(F0, objective, inc'), F0) && IncumbentOk(s, F0, objective, inc')
  {
    hide Sound, Solver.Closed, Solver.Valid, Model.Valid, Weight, NonFalse, Implied, DatabaseImplied, RootsImplied,
         DbCovers, RootLits, Ready, Extends, Holds, Assignment, InForce, LevelPrefix, Complete, Mirrored, IncumbentOk,
         Unsatisfiable, Consistent, BinsGrow;
    ReadyLevel(s);
    ghost var tr := s.model.modelStack;
    var bestSoFar := ObjectiveValue(s.model, objective);
    var sol := CopySolution(s.model);
    SolutionHolds(s, sol, F0);
    MirroredWeight(s.model, sol, objective);
    StrictlyBetter(s, F0, objective, inc, Assignment(sol));
    inc' := Best(0, bestSoFar, sol);
    var contradiction := IsContradiction(s.model, PB(objective, bestSoFar + 1));
    if contradiction {
      ContradictionIsOptimal(s, F0, objective, inc, inc');
      s.BackjumpTo(0);
      return true, inc';
    }
    EmptyContradicts(objective, bestSoFar, NonFalse(tr), NonFalse(LevelPrefix(tr, 0)));
    if bt0 {
      Restart(s);
      ReadyLevel(s);
      LevelPrefixLevel(tr, 0);
      RootsJump(tr, 0);
      GrewSelf(s);
      CoversGrown(s, F0, DbOf(s), RootLits(tr));
      KnowsAfterJump(s, InForce(F0, objective, inc), tr, 0);
    }
    inc' := AskForMore(s, objective, inc, bestSoFar, sol, F0);
    return false, inc';
  }

  // ----- decisions -----

  /** takeDecisionForVar: a decision on a completely propagated trail keeps every invariant of propagation. */
  method Decide(s: Solver, l: int)
    requires Ready(s) && s.model.AllPropagated() && s.model.HasVar(l) && s.model.IsUndefLit(l)
    modifies s.model
    ensures Ready(s)
    ensures s.model.modelStack == old(s.model.modelStack) + [Elem(l, LevelOf(old(s.model.modelStack)) + 1, NoReason)]
  {
    hide LowerPropagated, LevelsClosed, ReasonsOk, Mirrors, ClausesOk, ListsWatch, ListsOk, CountersOk, BinsKnown,
         Stored, IndicesOk, NonFalse, FalseLits, TrueLits, BinsOk, WatchesOk, AllSettled, TrailOk, Pending, SettledAt;
    ghost var tr, e := s.model.modelStack, Elem(l, s.model.decisionLevel + 1, NoReason);
    ReadyParts(s);
    DecisionFacts(s.constraintsPB, s.maxWIdx, s.stamp, s.numOfBackjump, tr, e);
    BinsPush(tr, e, |tr|, s.genWatchList);
    WatchesPush(tr, e, |tr|, s.store.clauses);
    ReasonsPush(tr, s.cleaned, e, s.constraintsPB, s.store.clauses, s.genWatchList);
    s.model.SetTrueDueToDecision(l);
  }

  lemma DecisionFacts(pbs: seq<PB>, maxWIdx: seq<nat>, stamp: seq<nat>, now: nat, tr: seq<Elem>, e: Elem)
    requires IndicesOk(pbs, maxWIdx, stamp, now, tr) && LevelsClosed(pbs, tr) && e.dl == LevelOf(tr) + 1
    requires SettledAt(pbs, tr)
    ensures IndicesOk(pbs, maxWIdx, stamp, now, tr + [e]) && LevelsClosed(pbs, tr + [e])
    ensures Pending(tr + [e], |tr| - 1) == Pending(tr, |tr| - 1)
    ensures AllSettled(pbs, Pending(tr, |tr| - 1), tr + [e])
    ensures LowerPropagated(tr + [e], |tr| - 1)
  {
    IndicesPush(pbs, maxWIdx, stamp, now, tr, e);
    DecisionClosesLevel(pbs, tr, e);
    PendingPush(tr, e, |tr| - 1);
    FullPrefix(tr);
    AllSettledPush(pbs, NonFalse(tr), tr, e);
  }

  /** The decision of a round: any unassigned variable, with any polarity. */
  method TakeDecision(s: Solver, v: int, ghost F: iset<PB>, ghost F0: iset<PB>)
    requires Consistent(s, F, F0) && s.conflict == NoConflict && s.model.AllPropagated()
    requires 1 <= v <= s.model.numVars && s.model.IsUndefLit(v)
    modifies s.model
    ensures Consistent(s, F, F0)
  {
    hide Sound, Solver.Closed, Solver.Valid, Model.Valid, DatabaseImplied, DbCovers, RootLits, Ready;
    ghost var tr := s.model.modelStack;
    var lit := v;
    if * {
      lit := -v;
      OppositeUndef(s, v);
    }
    Decide(s, lit);
    ReadySound(s);
    RootsExtended(tr, s.model.modelStack);
    CoversPushed(s, F0, tr);
    RootsDecision(tr, s.model.modelStack, F);
  }

  lemma ReadySound(s: Solver)
    requires Ready(s)
    ensures Sound(s) && s.conflict == NoConflict
  {
  }

  lemma OppositeUndef(s: Solver, v: int)
    requires Sound(s) && 1 <= v <= s.model.numVars && s.model.IsUndefLit(v)
    ensures s.model.HasVar(-v) && s.model.IsUndefLit(-v)
  {
    hide ListsOk, ListsWatch, ClausesOk, ReasonsOk, BinsOk, WatchesOk, LevelsClosed, LowerPropagated, CountersOk,
         IndicesOk, Stored, BinsKnown, TrailOk;
    MirrorsValue(s.model.modelStack, s.model.truthValue, s.model.stackHeight, s.model.numVars, v);
    MirrorsValue(s.model.modelStack, s.model.truthValue, s.model.stackHeight, s.model.numVars, -v);
  }

  lemma CoversPushed(s: Solver, F0: iset<PB>, tr: seq<Elem>)
    requires DbCovers(DbOf(s), RootLits(tr), s.model.numVars, F0)
    requires RootLits(tr) <= RootLits(s.model.modelStack)
    ensures Covers(s, F0)
  {
    GrewSelf(s);
    CoversGrown(s, F0, DbOf(s), RootLits(tr));
  }

  lemma RootsDecision(tr: seq<Elem>, tr': seq<Elem>, F: iset<PB>)
    requires RootsImplied(tr, F) && |tr'| == |tr| + 1 && tr <= tr' && tr'[|tr|].dl > 0
    ensures RootsImplied(tr', F)
  {
    forall i | 0 <= i < |tr'| && tr'[i].dl == 0
      ensures Implied(F, ClausePB([tr'[i].lit]))
    {
      assert tr'[i] == tr[i];
    }
  }

  method RestartSearch(s: Solver, ghost F: iset<PB>, ghost F0: iset<PB>)
    requires Consistent(s, F, F0) && s.conflict == NoConflict && s.model.AllPropagated()
    modifies s`sumOfWatches, s`numOfBackjump, s.model
    ensures Consistent(s, F, F0) && s.conflict == NoConflict && s.model.AllPropagated()
            && LevelOf(s.model.modelStack) == 0
  {
    hide Sound, Solver.Closed, Solver.Valid, Model.Valid, DatabaseImplied, DbCovers, RootLits, Ready, LevelPrefix;
    ghost var tr := s.model.modelStack;
    Restart(s);
    ReadySound(s);
    RootsJump(tr, 0);
    CoversPushed(s, F0, tr);
    KnowsAfterJump(s, F, tr, 0);
    LevelPrefixLevel(tr, 0);
  }

  lemma AllAtRoot(s: Solver)
    requires Ready(s) && s.model.AllPropagated() && LevelOf(s.model.modelStack) == 0
    ensures Rooted(s)
  {
    forall i | 0 <= i < |s.model.modelStack|
      ensures s.model.modelStack[i].dl == 0
    {
      assert s.model.modelStack[i].dl <= LevelOf(s.model.modelStack);
    }
  }

  lemma NoneOlder(d: Db, k: nat)
    ensures Without(d, Older([])) == d && Without(d, Older([k])) == d
  {
    assert Older([k]) == {} && Older([]) == {};
    assert d.learnedPB + {} == d.learnedPB;
  }

  /** Cleaning the database between two rounds: the incumbent's constraint gets a new number, nothing else changes. */
  method CleanupRound(s: Solver, objective: seq<Term>, inc: Incumbent, ghost F0: iset<PB>) returns (inc': Incumbent)
    requires Consistent(s, InForce(F0, objective, inc), F0) && s.conflict == NoConflict && s.model.AllPropagated()
    requires LevelOf(s.model.modelStack) == 0 && IncumbentOk(s, F0, objective, inc)
    modifies s, s.store
    ensures Consistent(s, InForce(F0, objective, inc'), F0) && s.conflict == NoConflict && s.model.AllPropagated()
    ensures IncumbentOk(s, F0, objective, inc') && (inc.NoSolution? ==> inc' == inc)
    ensures inc.Best? ==> inc'.Best? && inc' == inc.(objNum := inc'.objNum)
  {
    hide Sound, Solver.Closed, Solver.Valid, Model.Valid, DatabaseImplied, DbCovers, RootLits, Ready, Rooted,
         KeepsPoints, KeepsPointsExactly, Holds, Assignment, Without, Older, AtRoot, DropsHalfAtMost;
    AllAtRoot(s);
    inc' := inc;
    var objNum, objectiveFunctions;
    ghost var bad;
    match inc {
      case NoSolution =>
        NoneOlder(DbOf(s), 0);
        objNum, objectiveFunctions, bad := DoCleanup(s, [], InForce(F0, objective, inc), F0);
      case Best(k, cost, sol) =>
        NoneOlder(DbOf(s), k);
        objNum, objectiveFunctions, bad := DoCleanup(s, [k], InForce(F0, objective, inc), F0);
        inc' := Best(objNum, cost, sol);
    }
    StillReady(s);
  }

  lemma StillReady(s: Solver)
    requires Rooted(s)
    ensures Ready(s) && Sound(s) && s.conflict == NoConflict && s.model.AllPropagated()
  {
  }

  // ----- the loop -----

  datatype Status = Infeasible | OptimumFound | SomeSolution | NoAnswer

  /** What an answer claims about the formula. */
  ghost predicate AnswerOk(status: Status, inc: Incumbent, objective: seq<Term>, feasibility: bool, F0: iset<PB>) {
    match status
    case Infeasible => inc.NoSolution? && Unsatisfiable(F0)
    case OptimumFound =>
      if feasibility then exists a: Lits :: Total(a) && Holds(F0, a)
      else inc.Best? && SolutionOf(F0, objective, inc) && NoneBetter(F0, objective, inc.cost)
    case SomeSolution => inc.Best? && SolutionOf(F0, objective, inc)
    case NoAnswer => inc.NoSolution?
  }

  /** The search was interrupted: there is no conflict, and nothing left to propagate. */
  ghost predicate Interrupted(s: Solver, F: iset<PB>, F0: iset<PB>)
    reads s, s.model, s.store
  {
    Consistent(s, F, F0) && s.conflict == NoConflict && s.model.AllPropagated()
  }

  /** The two counters of the statistics that measure the rounds of the search. */
  class Statistics {
    var numOfDecisions: nat
    var numOfSolutionsFound: nat

    constructor ()
      ensures numOfDecisions == 0 && numOfSolutionsFound == 0
    {
      numOfDecisions, numOfSolutionsFound := 0, 0;
    }

    function Rounds(): nat
      reads this
    {
      numOfDecisions + numOfSolutionsFound
    }
  }

  ghost predicate NoneBetter(F0: iset<PB>, objective: seq<Term>, cost: int) {
    forall a: Lits :: Total(a) && Holds(F0, a) ==> Weight(objective, a) <= cost
  }

  lemma RefutedMeans(F0: iset<PB>, objective: seq<Term>, inc: Incumbent)
    requires Unsatisfiable(InForce(F0, objective, inc))
    ensures inc.NoSolution? ==> Unsatisfiable(F0)
    ensures inc.Best? ==> NoneBetter(F0, objective, inc.cost)
  {
    if inc.Best? {
      forall a: Lits | Total(a) && Holds(F0, a)
        ensures Weight(objective, a) <= inc.cost
      {
        assert !Holds(InForce(F0, objective, inc), a);
      }
    }
  }

  lemma IncumbentKept(s: Solver, F0: iset<PB>, objective: seq<Term>, inc: Incumbent, pbs: seq<PB>)
    requires ConstraintsKept(s, pbs)
    requires inc.Best? ==>
               SolutionOf(F0, objective, inc) && inc.objNum < |pbs| && pbs[inc.objNum] == PB(objective, inc.cost + 1)
    ensures IncumbentOk(s, F0, objective, inc)
  {
  }

  lemma IncumbentMeans(s: Solver, F0: iset<PB>, objective: seq<Term>, inc: Incumbent)
    requires IncumbentOk(s, F0, objective, inc)
    ensures SolutionOf(F0, objective, inc)
    ensures inc.Best? ==> inc.objNum < |s.constraintsPB| && s.constraintsPB[inc.objNum] == PB(objective, inc.cost + 1)
  {
  }

  /** solve.  The budget, a number of decisions and solutions, stands for the time limit; restarts, cleanups, decisions
      and polarities are arbitrary.  The answer is withheld only when the budget is used up, and then in a state
      without a conflict. */
  method Solve(s: Solver, stats: Statistics, objective: seq<Term>, feasibility: bool, bt0: bool, budget: nat,
               ghost F0: iset<PB>)
    returns (status: Status, inc: Incumbent)
    requires Consistent(s, F0, F0) && LevelOf(s.model.modelStack) == 0 && ObjectiveOk(objective, s.model.numVars)
    requires stats.Rounds() == 0
    modifies s, s.model, s.store, stats
    ensures AnswerOk(status, inc, objective, feasibility, F0)
    ensures stats.Rounds() <= budget && (inc.Best? <==> stats.numOfSolutionsFound > 0)
    ensures status == NoAnswer || status == SomeSolution ==>
              stats.Rounds() == budget && Interrupted(s, InForce(F0, objective, inc), F0)
  {
    hide Sound, Solver.Closed, Solver.Valid, Model.Valid, Weight, Knows, Covers, Ready, Holds, Assignment, InForce,
         Complete, IncumbentOk, Unsatisfiable, ConflictIsReal, NoneBetter, Total, SolutionOf, ObjectiveOk;
    inc := NoSolution;
    NothingInForce(s, F0, objective);
    PropagateAgain(s, F0, F0);
    if s.conflict != NoConflict {
      ConflictAtRoot(s, F0, F0);
      return Infeasible, inc;
    }
    inc := CleanupRound(s, objective, inc, F0);
    while true
      invariant Consistent(s, InForce(F0, objective, inc), F0) && IncumbentOk(s, F0, objective, inc)
      invariant stats.Rounds() <= budget && (inc.Best? <==> stats.numOfSolutionsFound > 0)
      decreases budget - stats.Rounds()
    {
      ghost var F := InForce(F0, objective, inc);
      PropagateAgain(s, F, F0);
      ghost var pbs := s.constraintsPB;
      IncumbentMeans(s, F0, objective, inc);
      var out := ResolveConflicts(s, F, F0);
      if out == Refuted {
        RefutedMeans(F0, objective, inc);
        status := if stats.numOfSolutionsFound == 0 then Infeasible else OptimumFound;
        if feasibility && inc.Best? {
          WitnessOf(F0, objective, inc);
        }
        return;
      }
      IncumbentKept(s, F0, objective, inc, pbs);
      inc := Maintain(s, objective, inc, F0);
      if stats.Rounds() == budget {
        IncumbentMeans(s, F0, objective, inc);
        status := if inc.Best? then SomeSolution else NoAnswer;
        return;
      }
      var done;
      done, status, inc := Explore(s, stats, objective, feasibility, bt0, inc, F0);
      if done {
        return;
      }
    }
  }

  /** Restart and cleanup, whenever the strategy asks for them. */
  method Maintain(s: Solver, objective: seq<Term>, inc: Incumbent, ghost F0: iset<PB>) returns (inc': Incumbent)
    requires Interrupted(s, InForce(F0, objective, inc), F0) && IncumbentOk(s, F0, objective, inc)
    modifies s, s.model, s.store
    ensures Interrupted(s, InForce(F0, objective, inc'), F0) && IncumbentOk(s, F0, objective, inc')
    ensures inc.Best? <==> inc'.Best?
  {
    hide Sound, Solver.Closed, Solver.Valid, Model.Valid, Knows, Covers, Ready, Holds, Assignment, ConflictIsReal,
         InForce;
    inc' := inc;
    if * {
      RestartSearch(s, InForce(F0, objective, inc), F0);
    }
    if * {
      RestartSearch(s, InForce(F0, objective, inc), F0);
      inc' := CleanupRound(s, objective, inc, F0);
    }
  }

  /** The end of a round: a decision, or a solution when every variable has a value. */
  method Explore(s: Solver, stats: Statistics, objective: seq<Term>, feasibility: bool, bt0: bool, inc: Incumbent,
                 ghost F0: iset<PB>)
    returns (done: bool, status: Status, inc': Incumbent)
    requires Interrupted(s, InForce(F0, objective, inc), F0) && IncumbentOk(s, F0, objective, inc)
    requires ObjectiveOk(objective, s.model.numVars) && (inc.Best? <==> stats.numOfSolutionsFound > 0)
    modifies s, s.model, s.store, stats
    ensures done ==> AnswerOk(status, inc', objective, feasibility, F0) && status == OptimumFound
    ensures stats.Rounds() == old(stats.Rounds()) + (if done && feasibility then 0 else 1)
    ensures inc'.Best? <==> stats.numOfSolutionsFound > 0
    ensures !done ==> Consistent(s, InForce(F0, objective, inc'), F0) && IncumbentOk(s, F0, objective, inc')
  {
    hide Sound, Solver.Closed, Solver.Valid, Model.Valid, Weight, Knows, Covers, Ready, Holds, Assignment, InForce,
         Complete, IncumbentOk, Unsatisfiable, ConflictIsReal, NoneBetter, Total, SolutionOf, ObjectiveOk;
    ghost var F := InForce(F0, objective, inc);
    done, status, inc' := false, OptimumFound, inc;
    SoundIsValid(s);
    if v: int :| 1 <= v <= s.model.numVars && s.model.IsUndefLit(v) {
      ghost var pbs := s.constraintsPB;
      IncumbentMeans(s, F0, objective, inc);
      stats.numOfDecisions := stats.numOfDecisions + 1;
      TakeDecision(s, v, F, F0);
      IncumbentKept(s, F0, objective, inc, pbs);
      return;
    }
    AllAssigned(s.model);
    if feasibility {
      var sol := CopySolution(s.model);
      CompleteHolds(s, sol, F, F0);
      return true, OptimumFound, inc;
    }
    stats.numOfSolutionsFound := stats.numOfSolutionsFound + 1;
    done, inc' := SolutionRound(s, objective, inc, bt0, F0);
    if done {
      RefutedMeans(F0, objective, inc');
    }
  }

  lemma NothingInForce(s: Solver, F0: iset<PB>, objective: seq<Term>)
    ensures InForce(F0, objective, NoSolution) == F0 && IncumbentOk(s, F0, objective, NoSolution)
  {
  }

  lemma AllAssigned(model: Model)
    requires model.Valid() && !exists v: int :: 1 <= v <= model.numVars && model.IsUndefLit(v)
    ensures Complete(model)
  {
  }

  lemma CompleteHolds(s: Solver, sol: seq<bool>, F: iset<PB>, F0: iset<PB>)
    requires Consistent(s, F, F0) && s.conflict == NoConflict && s.model.AllPropagated()
    requires s.model.Valid() && Complete(s.model) && Mirrored(s.model, sol)
    ensures Total(Assignment(sol)) && Holds(F0, Assignment(sol))
  {
    hide Sound, Ready, Knows, Covers, ConflictIsReal, Holds, Total, Assignment;
    SolutionHolds(s, sol, F0);
  }

  lemma WitnessOf(F0: iset<PB>, objective: seq<Term>, inc: Incumbent)
    requires inc.Best? && SolutionOf(F0, objective, inc)
    ensures Total(Assignment(inc.solution)) && Holds(F0, Assignment(inc.solution))
  {
    AssignmentTotal(inc.solution);
  }

  method SolutionRound(s: Solver, objective: seq<Term>, inc: Incumbent, bt0: bool, ghost F0: iset<PB>)
    returns (optimal: bool, inc': Incumbent)
    requires Consistent(s, InForce(F0, objective, inc), F0) && s.conflict == NoConflict && s.model.AllPropagated()
    requires s.model.Valid() && Complete(s.model) && ObjectiveOk(objective, s.model.numVars)
    requires IncumbentOk(s, F0, objective, inc)
    modifies s, s.model
    ensures inc'.Best? && SolutionOf(F0, objective, inc')
    ensures optimal ==> Unsatisfiable(InForce(F0, objective, inc'))
    ensures !optimal ==> Consistent(s, InForce(F0, objective, inc'), F0) && IncumbentOk(s, F0, objective, inc')
  {
    hide Sound, Knows, Covers, Ready, ObjectiveOk, IncumbentOk, SolutionOf, InForce, Complete, Unsatisfiable,
         ConflictIsReal;
    optimal, inc' := OnSolution(s, objective, inc, bt0, F0);
  }
}
