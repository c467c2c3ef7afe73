/** The propagation loop (propagate, Propagate.cpp) and what holds when it ends without a conflict. */
module PropagateLoop {
  import opened PBCore
  import opened Trail
  import opened Watches
  import opened Engine
  import opened Closure
  import opened Propagation
  import opened ClauseVisit

  /** The invariants that also hold in a conflict. */
  ghost predicate Sound(s: Solver)
    reads s`constraintsPB, s`maxWIdx, s`stamp, s`sumOfWatches, s`occurLists, s`genWatchList, s`numOfBackjump, s`cleaned,
          s.model, s.store
  {
    && s.Valid() && s.Counters() && s.Indices()
    && BinsOk(s.model.modelStack, s.model.lastPropagated + 1, s.genWatchList)
    && WatchesOk(s.model.modelStack, s.model.lastPropagated + 1, s.store.clauses)
    && LowerPropagated(s.model.modelStack, s.model.lastPropagated)
    && LevelsClosed(s.constraintsPB, s.model.modelStack)
  }

  /** What is left of them while conflict analysis pops literals of the current level. */
  ghost predicate Underway(s: Solver)
    reads s`constraintsPB, s`maxWIdx, s`stamp, s`sumOfWatches, s`occurLists, s`genWatchList, s`numOfBackjump, s`cleaned,
          s.model, s.store
  {
    && s.Valid() && s.Counters()
    && StampsOk(s.constraintsPB, s.maxWIdx, s.stamp, s.numOfBackjump)
    && LowerClauses(s.model.modelStack, s.store.clauses, s.genWatchList)
    && LowerPropagated(s.model.modelStack, s.model.lastPropagated)
    && LevelsClosed(s.constraintsPB, s.model.modelStack)
  }

  lemma SoundIsUnderway(s: Solver)
    requires Sound(s)
    ensures Underway(s)
  {
    hide LevelsClosed, ReasonsOk, ListsOk, Mirrors, ListsWatch, ClausesOk, CountersOk, IndicesOk, BinsOk, WatchesOk,
         LowerPropagated, TrailOk, BinsKnown, Stored;
    IndicesStamps(s.constraintsPB, s.maxWIdx, s.stamp, s.numOfBackjump, s.model.modelStack);
    LowerClausesOfOk(s.model.modelStack, s.model.lastPropagated, s.store.clauses, s.genWatchList);
  }

  /** ... and the state propagation starts from. */
  ghost predicate Ready(s: Solver)
    reads s`constraintsPB, s`maxWIdx, s`stamp, s`sumOfWatches, s`occurLists, s`genWatchList, s`numOfBackjump, s`cleaned,
          s`conflict, s.model, s.store
  {
    Sound(s) && s.Closed() && s.conflict == NoConflict
  }

  /** The reported constraint, clause or binary clause is falsified by the trail. */
  ghost predicate Falsified(conflict: Conflict, pbs: seq<PB>, clauses: seq<seq<int>>, gen: map<int, seq<GenElem>>,
                            n: nat, tr: seq<Elem>) {
    match conflict
    case NoConflict => false
    case PBConflict(k) => k < |pbs| && Slack(pbs[k], NonFalse(tr)) < 0
    case ClauseConflict(id) => id < |clauses| && forall x :: x in clauses[id] ==> x in FalseLits(tr)
    case BinConflict(l1, l2) =>
      1 <= Var(l1) <= n && l1 in gen && Bin(l2) in gen[l1] && l1 in FalseLits(tr) && l2 in FalseLits(tr)
  }

  ghost predicate ConflictIsReal(s: Solver)
    reads s`constraintsPB, s`genWatchList, s`conflict, s.model, s.store
  {
    Falsified(s.conflict, s.constraintsPB, s.store.clauses, s.genWatchList, s.model.numVars, s.model.modelStack)
  }

  /** What a continuation of the trail on the same level leaves intact. */
  lemma Continue(pbs: seq<PB>, maxWIdx: seq<nat>, stamp: seq<nat>, now: nat, tr: seq<Elem>, tr': seq<Elem>, p: nat,
                 N: Lits)
    requires Extends(tr, tr') && p < |tr| && TrailOk(tr)
    requires IndicesOk(pbs, maxWIdx, stamp, now, tr) && LowerPropagated(tr, p - 1) && LevelsClosed(pbs, tr)
    requires AllSettled(pbs, N, tr)
    ensures IndicesOk(pbs, maxWIdx, stamp, now, tr') && LowerPropagated(tr', p - 1) && LevelsClosed(pbs, tr')
    ensures AllSettled(pbs, N, tr')
    ensures p < |tr'| && tr'[p] == tr[p] && tr'[p].dl == LevelOf(tr')
    ensures Pending(tr', p - 1) == Pending(tr, p - 1) && -tr[p].lit in Pending(tr, p - 1)
    ensures Pending(tr', p) == Pending(tr, p - 1) - iset{-tr[p].lit}
    ensures -tr[p].lit in FalseLits(tr')
  {
    IndicesExtend(pbs, maxWIdx, stamp, now, tr, tr');
    LowerExtends(tr, tr', p - 1);
    LevelsClosedExtends(pbs, tr, tr');
    AllSettledExtends(pbs, N, tr, tr');
    PendingStep(tr, p - 1);
    assert tr'[..|tr|][p] == tr[p];
    assert tr'[..p] == tr[..p] && tr'[..p + 1] == tr[..p + 1];
    assert tr'[p].lit == tr[p].lit;
    assert -tr'[p].lit in FalseLits(tr');
  }

  lemma NonFalseInPending(tr: seq<Elem>, p: nat)
    requires p < |tr|
    ensures NonFalse(tr) <= Pending(tr, p)
  {
    NonFalseShrinks(tr, p + 1);
  }

  lemma BinsStep(tr: seq<Elem>, p: nat, gen: map<int, seq<GenElem>>)
    requires p < |tr| && BinsOk(tr, p, gen) && tr[p].dl == LevelOf(tr)
    requires -tr[p].lit in gen && BinListOk(tr, gen[-tr[p].lit], LevelOf(tr))
    ensures BinsOk(tr, p + 1, gen)
  {
    assert BinOkAt(tr, p, gen);
  }

  /** The facts about literal p of the trail that the three visits share. */
  ghost predicate At(s: Solver, p: nat)
    reads s, s.model, s.store
  {
    && s.Valid() && s.Indices() && p < |s.model.modelStack| && s.model.lastPropagated == p
    && s.model.modelStack[p].dl == LevelOf(s.model.modelStack)
    && CountersOk(s.constraintsPB, s.sumOfWatches, Pending(s.model.modelStack, p - 1))
    && AllSettled(s.constraintsPB, Pending(s.model.modelStack, p - 1), s.model.modelStack)
    && LowerPropagated(s.model.modelStack, p - 1)
    && LevelsClosed(s.constraintsPB, s.model.modelStack)
  }

  lemma AtContinues(s: Solver, p: nat, tr: seq<Elem>)
    requires s.Valid() && Extends(tr, s.model.modelStack) && TrailOk(tr) && p < |tr|
    requires s.model.lastPropagated == p && IndicesOk(s.constraintsPB, s.maxWIdx, s.stamp, s.numOfBackjump, tr)
    requires LowerPropagated(tr, p - 1) && LevelsClosed(s.constraintsPB, tr)
    requires AllSettled(s.constraintsPB, Pending(tr, p - 1), tr)
    requires CountersOk(s.constraintsPB, s.sumOfWatches, Pending(tr, p - 1))
    ensures At(s, p)
  {
    hide IndicesOk, LowerPropagated, LevelsClosed, AllSettled, CountersOk, Extends, ReasonsOk, Mirrors, ClausesOk,
         ListsWatch, ListsOk, Pending, NonFalse, TrailOk, Stored;
    Continue(s.constraintsPB, s.maxWIdx, s.stamp, s.numOfBackjump, tr, s.model.modelStack, p, Pending(tr, p - 1));
  }

  lemma AtLiteral(s: Solver, p: nat)
    requires s.Valid() && p < |s.model.modelStack|
    ensures s.model.HasVar(-s.model.modelStack[p].lit) && -s.model.modelStack[p].lit in FalseLits(s.model.modelStack)
  {
    assert Recorded(s.model.modelStack[p].lit, p, s.model.truthValue, s.model.stackHeight, s.model.numVars);
  }

  /** Taking back the last step of lastPropagated after a conflict. */
  method Unstep(s: Solver, p: nat)
    requires At(s, p)
    requires BinsOk(s.model.modelStack, p, s.genWatchList) && WatchesOk(s.model.modelStack, p, s.store.clauses)
    modifies s.model`lastPropagated
    ensures Sound(s)
  {
    hide IndicesOk, LowerPropagated, LevelsClosed, AllSettled, CountersOk, ReasonsOk, Mirrors, ClausesOk, ListsWatch,
         ListsOk, TrailOk, BinsOk, WatchesOk, Stored;
    s.model.lastPropagated := s.model.lastPropagated - 1;
  }

  /** One round of propagate. */
  method PropagateOne(s: Solver)
    requires Ready(s) && !s.model.AllPropagated()
    modifies s`maxWIdx, s`stamp, s`sumOfWatches, s`conflict, s.model, s.store
    ensures Sound(s) && Extends(old(s.model.modelStack), s.model.modelStack)
    ensures SameClauses(old(s.store.clauses), s.store.clauses)
    ensures s.conflict == NoConflict ==> Ready(s) && s.model.lastPropagated == old(s.model.lastPropagated) + 1
    ensures s.conflict != NoConflict ==> ConflictIsReal(s)
  {
    hide IndicesOk, LowerPropagated, LevelsClosed, AllSettled, CountersOk, Extends, ReasonsOk, Mirrors, ClausesOk,
         ListsWatch, ListsOk, NonFalse, TrailOk, BinsOk, WatchesOk, Stored, BinLitsKnown, Pending, SameClauses,
         FalseLits;
    ghost var tr0 := s.model.modelStack;
    ExtendsSelf(tr0);
    SameClausesSelf(s.store.clauses);
    var p: nat := s.model.lastPropagated + 1;
    StartRound(s.model.modelStack, p);
    var lit := s.model.NextLitToPropagate();
    assert s.Valid();
    AtContinues(s, p, tr0);
    AtLiteral(s, p);
    VisitBinClause(s, -lit);
    AtContinues(s, p, tr0);
    BinsExtend(tr0, s.model.modelStack, p, s.genWatchList);
    WatchesExtend(tr0, s.model.modelStack, p, s.store.clauses);
    AtLiteral(s, p);
    KnowPrefix(tr0, s.model.modelStack, p);
    if s.conflict != NoConflict {
      assert ConflictIsReal(s);
      Unstep(s, p);
      return;
    }
    KnowPrefix(tr0, s.model.modelStack, p);
    BinsStep(s.model.modelStack, p, s.genWatchList);
    PropagateRest(s, p, tr0);
  }

  lemma StartRound(tr: seq<Elem>, p: nat)
    requires p < |tr| && LowerPropagated(tr, p - 1)
    ensures tr[p].dl == LevelOf(tr)
  {
  }

  lemma KnowPrefix(tr: seq<Elem>, tr': seq<Elem>, p: nat)
    requires Extends(tr, tr') && p < |tr|
    ensures p < |tr'| && tr'[p] == tr[p]
  {
    assert tr'[..|tr|][p] == tr[p];
  }

  /** Clauses and PB constraints of the literal at position p. */
  method PropagateRest(s: Solver, p: nat, ghost tr0: seq<Elem>)
    requires At(s, p) && s.conflict == NoConflict && Extends(tr0, s.model.modelStack)
    requires BinsOk(s.model.modelStack, p + 1, s.genWatchList) && WatchesOk(s.model.modelStack, p, s.store.clauses)
    modifies s`maxWIdx, s`stamp, s`sumOfWatches, s`conflict, s.model, s.store
    ensures Sound(s) && Extends(tr0, s.model.modelStack) && SameClauses(old(s.store.clauses), s.store.clauses)
    ensures s.conflict == NoConflict ==> Ready(s) && s.model.lastPropagated == p
    ensures s.conflict != NoConflict ==> ConflictIsReal(s)
  {
    hide IndicesOk, LowerPropagated, LevelsClosed, AllSettled, CountersOk, Extends, ReasonsOk, Mirrors, ClausesOk,
         ListsWatch, ListsOk, NonFalse, TrailOk, BinsOk, WatchesOk, Stored, BinsKnown, Pending, SameClauses, FalseLits;
    ghost var tr1 := s.model.modelStack;
    var lit := s.model.modelStack[p].lit;
    AtLiteral(s, p);
    VisitClauseWatchList(s, -lit, p);
    AtContinues(s, p, tr1);
    ExtendsTrans(tr0, tr1, s.model.modelStack);
    BinsExtend(tr1, s.model.modelStack, p + 1, s.genWatchList);
    KnowPrefix(tr1, s.model.modelStack, p);
    if s.conflict != NoConflict {
      BinsFewer(s.model.modelStack, p, s.genWatchList);
      Unstep(s, p);
      return;
    }
    PropagatePBs(s, p, tr0);
  }

  lemma BinsFewer(tr: seq<Elem>, p: nat, gen: map<int, seq<GenElem>>)
    requires p < |tr| && BinsOk(tr, p + 1, gen)
    ensures BinsOk(tr, p, gen)
  {
  }

  lemma WatchesFewer(tr: seq<Elem>, p: nat, clauses: seq<seq<int>>)
    requires p < |tr| && WatchesOk(tr, p + 1, clauses)
    ensures WatchesOk(tr, p, clauses)
  {
  }

  lemma PendingFacts(tr: seq<Elem>, p: nat)
    requires TrailOk(tr) && p < |tr|
    ensures -tr[p].lit in Pending(tr, p - 1) && Pending(tr, p) == Pending(tr, p - 1) - iset{-tr[p].lit}
    ensures NonFalse(tr) <= Pending(tr, p)
  {
    PendingStep(tr, p - 1);
    NonFalseInPending(tr, p);
  }

  lemma LowerAdvances(tr: seq<Elem>, p: nat)
    requires LowerPropagated(tr, p - 1)
    ensures LowerPropagated(tr, p)
  {
  }

  /** The counters of the literal at position p. */
  method PropagatePBs(s: Solver, p: nat, ghost tr0: seq<Elem>)
    requires At(s, p) && s.conflict == NoConflict && Extends(tr0, s.model.modelStack)
    requires BinsOk(s.model.modelStack, p + 1, s.genWatchList) && WatchesOk(s.model.modelStack, p + 1, s.store.clauses)
    modifies s`maxWIdx, s`stamp, s`sumOfWatches, s`conflict, s.model
    ensures Sound(s) && Extends(tr0, s.model.modelStack)
    ensures s.conflict == NoConflict ==> Ready(s) && s.model.lastPropagated == p
    ensures s.conflict != NoConflict ==> ConflictIsReal(s)
  {
    hide IndicesOk, LowerPropagated, LevelsClosed, AllSettled, CountersOk, Extends, ReasonsOk, Mirrors, ClausesOk,
         ListsWatch, ListsOk, NonFalse, TrailOk, BinsOk, WatchesOk, Stored, BinsKnown, Pending, FalseLits;
    ghost var tr1 := s.model.modelStack;
    var lit := s.model.modelStack[p].lit;
    AtLiteral(s, p);
    PendingFacts(tr1, p);
    ghost var N := Pending(tr1, p - 1);
    VisitPBCounterLists(s, -lit, N);
    ghost var tr2 := s.model.modelStack;
    ExtendsTrans(tr0, tr1, tr2);
    BinsExtend(tr1, tr2, p + 1, s.genWatchList);
    WatchesExtend(tr1, tr2, p + 1, s.store.clauses);
    KnowPrefix(tr1, tr2, p);
    ContinueLevels(s.constraintsPB, tr1, tr2, p);
    if s.conflict != NoConflict {
      AllSettledExtends(s.constraintsPB, N, tr1, tr2);
      BinsFewer(tr2, p, s.genWatchList);
      WatchesFewer(tr2, p, s.store.clauses);
      Unstep(s, p);
      return;
    }
    LowerAdvances(tr2, p);
  }

  lemma ContinueLevels(pbs: seq<PB>, tr: seq<Elem>, tr': seq<Elem>, p: nat)
    requires Extends(tr, tr') && p < |tr| && TrailOk(tr) && LowerPropagated(tr, p - 1) && LevelsClosed(pbs, tr)
    requires tr[p].dl == LevelOf(tr)
    ensures LowerPropagated(tr', p - 1) && LevelsClosed(pbs, tr')
    ensures p < |tr'| && tr'[p].dl == LevelOf(tr')
    ensures Pending(tr', p - 1) == Pending(tr, p - 1)
    ensures Pending(tr', p) == Pending(tr, p - 1) - iset{-tr[p].lit}
  {
    LowerExtends(tr, tr', p - 1);
    LevelsClosedExtends(pbs, tr, tr');
    KnowPrefix(tr, tr', p);
    PendingStep(tr, p - 1);
    assert tr'[..p] == tr[..p] && tr'[..p + 1] == tr[..p + 1];
  }

  lemma SolverTrailBounded(s: Solver)
    requires s.Valid()
    ensures |s.model.modelStack| <= s.model.numVars
  {
    forall i | 0 <= i < |s.model.modelStack|
      ensures 1 <= Var(s.model.modelStack[i].lit) <= s.model.numVars
    {
      assert Recorded(s.model.modelStack[i].lit, i, s.model.truthValue, s.model.stackHeight, s.model.numVars);
    }
    TrailBounded(s.model.modelStack, s.model.numVars);
  }

  /** propagate: ends with a genuine conflict, or with everything propagated. */
  method Propagate(s: Solver)
    requires Ready(s)
    modifies s`maxWIdx, s`stamp, s`sumOfWatches, s`conflict, s.model, s.store
    ensures Sound(s) && Extends(old(s.model.modelStack), s.model.modelStack)
    ensures SameClauses(old(s.store.clauses), s.store.clauses)
    ensures s.conflict == NoConflict ==> Ready(s) && s.model.AllPropagated()
    ensures s.conflict != NoConflict ==> ConflictIsReal(s)
  {
    hide IndicesOk, LowerPropagated, LevelsClosed, AllSettled, CountersOk, Extends, ReasonsOk, Mirrors, ClausesOk,
         ListsWatch, ListsOk, NonFalse, TrailOk, BinsOk, WatchesOk, Stored, BinsKnown, Pending, SameClauses, FalseLits;
    ghost var tr0, cs := s.model.modelStack, s.store.clauses;
    ExtendsSelf(tr0);
    SameClausesSelf(cs);
    while !s.model.AllPropagated()
      invariant Ready(s) && Extends(tr0, s.model.modelStack) && SameClauses(cs, s.store.clauses)
      decreases s.model.numVars - s.model.lastPropagated
    {
      ghost var tr1, cs1 := s.model.modelStack, s.store.clauses;
      SolverTrailBounded(s);
      PropagateOne(s);
      ExtendsTrans(tr0, tr1, s.model.modelStack);
      SameClausesTrans(cs, cs1, s.store.clauses);
      if s.conflict != NoConflict {
        return;
      }
    }
  }

  // ----- what the debug checkers of the source test -----

  /** checkPropagatedPBs: no constraint is falsified and none has an unassigned literal it forces. */
  lemma PBsPropagated(s: Solver, k: nat, i: nat)
    requires Ready(s) && s.model.AllPropagated() && k < |s.constraintsPB| && i < |s.constraintsPB[k].lhs|
    ensures var c := s.constraintsPB[k];
            var slack := Slack(c, NonFalse(s.model.modelStack));
            && slack >= 0 && (!Assigned(c.lhs[i].lit, s.model.modelStack) ==> c.lhs[i].coef <= slack)
            && s.sumOfWatches[k] == slack - c.lhs[0].coef
  {
    var tr := s.model.modelStack;
    assert tr[..|tr|] == tr;
    assert Settled(s.constraintsPB[k], Slack(s.constraintsPB[k], NonFalse(tr)), tr);
    assert CounterOk(s.constraintsPB[k], s.sumOfWatches[k], NonFalse(tr));
  }

  /** An assigned watch of a clause means a true literal in it. */
  lemma AssignedWatch(tr: seq<Elem>, clauses: seq<seq<int>>, k: nat, w: int)
    requires WatchesOk(tr, |tr|, clauses) && k < |clauses| && Watches.Watches(clauses[k], w) && Assigned(w, tr)
    ensures exists x :: x in clauses[k] && x in TrueLits(tr)
  {
    if w in TrueLits(tr) {
      assert w in clauses[k];
    } else {
      var i :| 0 <= i < |tr| && -tr[i].lit == w;
      assert WatchOkAt(tr, i, clauses);
      var x :| x in clauses[k] && TrueBy(tr, x, tr[i].dl);
      assert x in TrueLits(tr);
    }
  }

  /** checkClausesPropagated: a clause is satisfied or both its watches are unassigned. */
  lemma ClausesPropagated(s: Solver, k: nat)
    requires Ready(s) && s.model.AllPropagated() && k < |s.store.clauses|
    ensures var cl := s.store.clauses[k];
            |cl| >= 2 &&
            ((exists x :: x in cl && x in TrueLits(s.model.modelStack))
             || (!Assigned(cl[0], s.model.modelStack) && !Assigned(cl[1], s.model.modelStack)))
  {
    hide ReasonsOk, ListsOk, Mirrors, ListsWatch, TrailOk, WatchesOk, TrueLits, FalseLits, Assigned, LevelsClosed,
         LowerPropagated, BinsOk, CountersOk, IndicesOk, AllSettled;
    var tr, cl := s.model.modelStack, s.store.clauses[k];
    assert ClauseOk(cl, s.store.watchIdx[k], s.store.numVars);
    if Assigned(cl[0], tr) {
      AssignedWatch(tr, s.store.clauses, k, cl[0]);
    } else if Assigned(cl[1], tr) {
      AssignedWatch(tr, s.store.clauses, k, cl[1]);
    }
  }

  /** Binary clauses: when one literal is false the other is true. */
  lemma BinsPropagated(s: Solver, l: int, o: int)
    requires Ready(s) && s.model.AllPropagated()
    requires s.model.HasVar(l) && Bin(o) in s.genWatchList[l] && l in FalseLits(s.model.modelStack)
    ensures o in TrueLits(s.model.modelStack)
  {
    var tr := s.model.modelStack;
    var i :| 0 <= i < |tr| && -tr[i].lit == l;
    assert BinOkAt(tr, i, s.genWatchList);
    var list := s.genWatchList[l];
    var j :| 0 <= j < |list| && list[j] == Bin(o);
    assert TrueBy(tr, list[j].other, tr[i].dl);
  }
}
