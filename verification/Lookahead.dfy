/** The native solver as the backend of cube generation (assumeAndPropagate and backtrack, CubeConquerAPI.cpp): its
    answers are trustworthy, and a backtrack undoes an assumption. */
module Lookahead {
  import opened PBCore
  import opened Trail
  import opened Watches
  import opened Engine
  import opened Repair
  import opened BackjumpLevel
  import opened Closure
  import opened ClauseVisit
  import opened PropagateLoop
  import opened LemmaShortening
  import opened Database
  import opened ClauseLearning
  import opened Roots
  import opened ConflictAnalysis
  import opened Coverage
  import opened Search
  import Cubes = CubeGeneration

  // ----- assumptions -----

  ghost predicate IsAssumption(e: Elem) {
    e.reason == NoReason && e.dl > 0
  }

  /** The assumed literals of the trail, in order. */
  ghost function PathOf(tr: seq<Elem>): seq<int> {
    if |tr| == 0 then []
    else
      var p := PathOf(tr[..|tr| - 1]);
      if IsAssumption(tr[|tr| - 1]) then p + [tr[|tr| - 1].lit] else p
  }

  lemma PathSnoc(tr: seq<Elem>, e: Elem)
    ensures PathOf(tr + [e]) == if IsAssumption(e) then PathOf(tr) + [e.lit] else PathOf(tr)
  {
    assert (tr + [e])[..|tr|] == tr;
  }

  lemma {:induction false} PathExtends(tr: seq<Elem>, tr': seq<Elem>)
    requires Extends(tr, tr')
    ensures PathOf(tr') == PathOf(tr)
    decreases |tr'|
  {
    if |tr'| == |tr| {
      assert tr' == tr;
    } else {
      var u := tr'[..|tr'| - 1];
      assert u[..|tr|] == tr'[..|tr|];
      assert |u| > |tr| ==> u[|u| - 1] == tr'[|u|  - 1];
      assert |u| == |tr| ==> u == tr;
      PathExtends(tr, u);
    }
  }

  lemma {:induction false} AssumptionOnPath(tr: seq<Elem>, i: nat)
    requires i < |tr| && IsAssumption(tr[i])
    ensures tr[i].lit in PathOf(tr)
  {
    var u := tr[..|tr| - 1];
    if i < |tr| - 1 {
      assert u[i] == tr[i];
      AssumptionOnPath(u, i);
    }
  }

  lemma PathTrue(tr: seq<Elem>, a: Lits, i: nat)
    requires Cubes.AllTrue(PathOf(tr), a) && i < |tr| && IsAssumption(tr[i])
    ensures tr[i].lit in a
  {
    AssumptionOnPath(tr, i);
    var k :| 0 <= k < |PathOf(tr)| && PathOf(tr)[k] == tr[i].lit;
  }

  // ----- the trail follows from formula and assumptions -----

  function AssumedVars(tr: seq<Elem>): set<int> {
    set i | 0 <= i < |tr| && tr[i].reason == NoReason && tr[i].dl > 0 :: Var(tr[i].lit)
  }

  lemma TrailWellFounded(s: Solver)
    requires s.Valid()
    ensures WellFounded(s, TrailVars(s.model.modelStack), AssumedVars(s.model.modelStack))
  {
    hide ListsOk, Mirrors, ListsWatch, ClausesOk, BinsKnown, Stored, TrailVars, Justified;
    var tr := s.model.modelStack;
    forall h | 0 <= h < |tr| && Var(tr[h].lit) !in AssumedVars(tr) && tr[h].dl != 0
      ensures Justified(s, h, TrailVars(tr))
    {
      TrailJustifies(s, h);
    }
  }

  lemma AssumedTrue(tr: seq<Elem>, a: Lits)
    requires OneEach(tr) && Cubes.AllTrue(PathOf(tr), a)
    ensures forall i :: 0 <= i < |tr| && Var(tr[i].lit) in AssumedVars(tr) ==> tr[i].lit in a
  {
    forall i | 0 <= i < |tr| && Var(tr[i].lit) in AssumedVars(tr)
      ensures tr[i].lit in a
    {
      var j :| 0 <= j < |tr| && tr[j].reason == NoReason && tr[j].dl > 0 && Var(tr[j].lit) == Var(tr[i].lit);
      assert i == j;
      PathTrue(tr, a, i);
    }
  }

  /** Every model of the formula that respects the assumptions makes the whole trail true. */
  lemma TrailFollows(s: Solver, F: iset<PB>, a: Lits)
    requires s.Valid() && Knows(s, F) && Cubes.Extending(F, PathOf(s.model.modelStack), a)
    ensures forall i :: 0 <= i < |s.model.modelStack| ==> s.model.modelStack[i].lit in a
  {
    hide ListsOk, Mirrors, ListsWatch, ClausesOk, BinsKnown, Stored, ReasonsOk, LevelsGrow, LevelsStart, WellFounded,
         DatabaseImplied, RootsImplied, PathOf, AssumedVars;
    var tr := s.model.modelStack;
    TrailWellFounded(s);
    AssumedTrue(tr, a);
    forall i | 0 <= i < |tr|
      ensures tr[i].lit in a
    {
      assert Var(tr[i].lit) in TrailVars(tr);
      JustifiedIsTrue(s, F, TrailVars(tr), AssumedVars(tr), a, i);
    }
  }

  /** A conflict excludes formula and path together. */
  lemma ConflictRefutes(s: Solver, F: iset<PB>)
    requires Sound(s) && s.conflict != NoConflict && ConflictIsReal(s) && Knows(s, F)
    ensures forall a: Lits :: !Cubes.Extending(F, PathOf(s.model.modelStack), a)
  {
    hide Sound, Falsified, PathOf, DatabaseImplied, RootsImplied, Solver.Valid, Model.Valid, KnownVars, DistinctVars;
    var tr, c := s.model.modelStack, ConflictPB(s);
    SoundIsValid(s);
    ConflictAnalysable(s, F);
    forall a: Lits
      ensures !Cubes.Extending(F, PathOf(tr), a)
    {
      if Cubes.Extending(F, PathOf(tr), a) {
        TrailFollows(s, F, a);
        assert Sat(c, a);
        TrueOnlyNonFalse(tr, a, c.lhs);
        WeightMono(c.lhs, a, NonFalse(tr));
      }
    }
  }

  lemma FalseOutside(tr: seq<Elem>, a: Lits, x: int)
    requires Total(a) && x != 0 && x in FalseLits(tr) && forall i :: 0 <= i < |tr| ==> tr[i].lit in a
    ensures x !in a
  {
    var j :| 0 <= j < |tr| && -tr[j].lit == x;
    assert tr[j].lit in a;
  }

  lemma TrueOnlyNonFalse(tr: seq<Elem>, a: Lits, lhs: seq<Term>)
    requires Total(a) && Positive(lhs) && forall i :: 0 <= i < |tr| ==> tr[i].lit in a
    ensures forall i :: 0 <= i < |lhs| ==> (lhs[i].lit in a ==> lhs[i].lit in NonFalse(tr))
  {
    forall i | 0 <= i < |lhs| && lhs[i].lit in a
      ensures lhs[i].lit !in FalseLits(tr)
    {
      if lhs[i].lit in FalseLits(tr) {
        FalseOutside(tr, a, lhs[i].lit);
      }
    }
  }

  /** With everything assigned and propagated there is a solution on the path. */
  lemma CompleteExtends(s: Solver, F: iset<PB>, sol: seq<bool>)
    requires Ready(s) && s.model.AllPropagated() && Complete(s.model) && Mirrored(s.model, sol) && Covers(s, F)
    ensures Cubes.Extending(F, PathOf(s.model.modelStack), Assignment(sol))
  {
    hide Sound, Solver.Closed, PathOf, Assignment, Complete, Mirrored, Covers, Holds, Total, ListsOk, ListsWatch,
         ClausesOk, ReasonsOk;
    var tr := s.model.modelStack;
    SolutionHolds(s, sol, F);
    ReadyIsValid(s);
    forall i | 0 <= i < |tr|
      ensures tr[i].lit in Assignment(sol)
    {
      assert Recorded(tr[i].lit, i, s.model.truthValue, s.model.stackHeight, s.model.numVars);
      assert tr[i].lit in TrueLits(tr);
      MirroredLit(s.model, sol, tr[i].lit);
    }
    PathInTrail(tr, Assignment(sol));
  }

  lemma {:induction false} PathInTrail(tr: seq<Elem>, a: Lits)
    requires forall i :: 0 <= i < |tr| ==> tr[i].lit in a
    ensures Cubes.AllTrue(PathOf(tr), a)
  {
    if |tr| > 0 {
      PathInTrail(tr[..|tr| - 1], a);
    }
  }

  /** What the solver shows at a node. */
  ghost function Answer(s: Solver): Cubes.Answer
    reads s`conflict, s.model`modelStack
  {
    if s.conflict == NoConflict then Cubes.Assigned(TrueLits(s.model.modelStack)) else Cubes.InConflict
  }

  /** Whatever the solver answers at a node is trustworthy there. */
  lemma AnswersTrustworthy(s: Solver, F: iset<PB>, cfg: Cubes.Config)
    requires Sound(s) && Knows(s, F) && Covers(s, F)
    requires if s.conflict == NoConflict then Ready(s) && s.model.AllPropagated() else ConflictIsReal(s)
    requires cfg.answer(PathOf(s.model.modelStack)) == Answer(s)
    requires forall v: int :: 1 <= v <= s.model.numVars ==> v in cfg.vars
    ensures Cubes.Refutes(cfg, F, PathOf(s.model.modelStack)) && Cubes.Completes(cfg, F, PathOf(s.model.modelStack))
  {
    hide Sound, Falsified, PathOf, Covers, Knows, Solver.Closed, Ready, TrueLits;
    if s.conflict != NoConflict {
      ConflictRefutes(s, F);
    } else if forall i :: 0 <= i < |cfg.vars| ==> !Cubes.IsUndef(TrueLits(s.model.modelStack), cfg.vars[i]) {
      SoundIsValid(s);
      NothingOpen(s.model, cfg);
      hide *;
      var sol := SolutionOnTrail(s.model);
      CompleteExtends(s, F, sol);
    }
  }

  lemma NothingOpen(model: Model, cfg: Cubes.Config)
    requires model.Valid() && forall v: int :: 1 <= v <= model.numVars ==> v in cfg.vars
    requires forall i :: 0 <= i < |cfg.vars| ==> !Cubes.IsUndef(TrueLits(model.modelStack), cfg.vars[i])
    ensures Complete(model)
  {
    hide TrueLits;
    forall v: int | 1 <= v <= model.numVars
      ensures !model.IsUndefLit(v)
    {
      assert v in cfg.vars;
      TrueMeansComplementFalse(model.modelStack, -v);
    }
  }

  lemma SolutionOnTrail(model: Model) returns (sol: seq<bool>)
    requires model.Valid()
    ensures Mirrored(model, sol)
  {
    hide TrueLits, TrailOk, Mirrors;
    var T := TrueLits(model.modelStack);
    sol := seq(model.numVars + 1, i requires 0 <= i < model.numVars + 1 => i > 0 && i in T);
  }

  // ----- the two calls -----

  lemma PrefixTrueLits(tr: seq<Elem>, tr': seq<Elem>)
    requires tr <= tr'
    ensures TrueLits(tr) <= TrueLits(tr')
  {
    forall i | 0 <= i < |tr|
      ensures tr[i].lit in TrueLits(tr')
    {
      assert tr'[i] == tr[i];
    }
  }

  /** Above level 0 nothing is added to level 0. */
  lemma NoNewRoots(tr0: seq<Elem>, tr1: seq<Elem>, tr: seq<Elem>)
    requires |tr1| == |tr0| + 1 && tr1[..|tr0|] == tr0 && tr1[|tr0|].dl > 0 && Extends(tr1, tr)
    ensures RootLits(tr) <= RootLits(tr0)
  {
    forall i | 0 <= i < |tr| && tr[i].dl == 0
      ensures tr[i].lit in RootLits(tr0)
    {
      assert i < |tr1| ==> tr[i] == tr1[i];
      assert i < |tr0| ==> tr1[i] == tr0[i];
    }
  }

  /** assumeAndPropagate at a propagated node: what was assigned stays, the literal comes in addition, and a failure
      excludes the longer path. */
  method AssumeAndPropagate(s: Solver, lit: int, ghost F: iset<PB>) returns (ok: bool)
    requires Ready(s) && s.model.AllPropagated() && s.model.HasVar(lit) && s.model.IsUndefLit(lit)
    requires Knows(s, F) && Covers(s, F)
    modifies s`maxWIdx, s`stamp, s`sumOfWatches, s`conflict, s.model, s.store
    ensures Sound(s) && Knows(s, F) && Covers(s, F) && (ok <==> s.conflict == NoConflict)
    ensures ok ==> Ready(s) && s.model.AllPropagated()
    ensures !ok ==> ConflictIsReal(s) && forall a: Lits :: !Cubes.Extending(F, PathOf(s.model.modelStack), a)
    ensures Extends(old(s.model.modelStack) + [Elem(lit, old(s.model.decisionLevel) + 1, NoReason)], s.model.modelStack)
    ensures PathOf(s.model.modelStack) == PathOf(old(s.model.modelStack)) + [lit]
    ensures TrueLits(old(s.model.modelStack)) + {lit} <= TrueLits(s.model.modelStack)
    ensures SameClauses(old(s.store.clauses), s.store.clauses)
    ensures RootLits(s.model.modelStack) == RootLits(old(s.model.modelStack))
  {
    hide Sound, Solver.Valid, Solver.Closed, Model.Valid, PathOf, DatabaseImplied, RootsImplied, DbCovers, RootLits,
         Falsified, TrueLits, Extends, SameClauses;
    ghost var tr0, e, db := s.model.modelStack, Elem(lit, s.model.decisionLevel + 1, NoReason), DbOf(s);
    ReadyIsValid(s);
    SoundIsValid(s);
    CleanedOnTrail(s);
    Decide(s, lit);
    ghost var tr1 := s.model.modelStack;
    NonFalseSnoc(tr0, e);
    PathSnoc(tr0, e);
    RootsDecision(tr0, tr1, F);
    RootsExtended(tr0, tr1);
    KnowsParts(s, F);
    Propagate(s);
    SoundIsValid(s);
    ExtendsIsPrefix(tr1, s.model.modelStack);
    PrefixTrueLits(tr1, s.model.modelStack);
    RootsExtended(tr1, s.model.modelStack);
    NoNewRoots(tr0, tr1, s.model.modelStack);
    PathExtends(tr1, s.model.modelStack);
    KnowsPropagated(s, F, db.clauses, tr1);
    CoversPropagated(s, F, db, RootLits(tr0));
    ok := s.conflict == NoConflict;
    if !ok {
      ConflictRefutes(s, F);
    }
  }

  /** backtrack. */
  method Backtrack(s: Solver, levels: nat, ghost F: iset<PB>)
    requires Sound(s) && Knows(s, F) && Covers(s, F) && levels <= LevelOf(s.model.modelStack)
    requires levels == 0 ==> Ready(s) && s.model.AllPropagated()
    modifies s`sumOfWatches, s`numOfBackjump, s`conflict, s.model
    ensures Ready(s) && s.model.AllPropagated() && Knows(s, F) && Covers(s, F)
    ensures levels > 0 ==>
              s.model.modelStack == LevelPrefix(old(s.model.modelStack), LevelOf(old(s.model.modelStack)) - levels)
    ensures levels == 0 ==> s.model.modelStack == old(s.model.modelStack)
  {
    hide Sound, Solver.Valid, Solver.Closed, Model.Valid, DatabaseImplied, RootsImplied, DbCovers, RootLits, Underway,
         Clean, LevelPrefix;
    if levels == 0 {
      return;
    }
    ghost var tr, db := s.model.modelStack, DbOf(s);
    SoundIsValid(s);
    SoundIsUnderway(s);
    RootsOfKnown(s, F);
    var goal: nat := s.model.decisionLevel - levels;
    BackjumpClean(s, goal);
    s.conflict := NoConflict;
    CleanWithoutConflict(s);
    CleanPropagated(s);
    KnowsAfterJump(s, F, tr, goal);
    RootsJump(tr, goal);
    CoversPushed(s, F, tr);
  }

  lemma RootsOfKnown(s: Solver, F: iset<PB>)
    requires Knows(s, F)
    ensures RootsImplied(s.model.modelStack, F) && DatabaseImplied(s, F)
  {
  }

  lemma {:induction false} JumpRestores(tr0: seq<Elem>, tr: seq<Elem>, d: nat)
    requires Extends(tr0, tr) && LevelOf(tr0) > d
    ensures LevelPrefix(tr, d) == LevelPrefix(tr0, d)
    decreases |tr|
  {
    LowerPrefixSame(tr0, tr, d);
  }

  /** An assumption followed by backtrack(1) leaves the trail as it was, whether or not it failed. */
  method TryLiteral(s: Solver, lit: int, ghost F: iset<PB>) returns (ok: bool)
    requires Ready(s) && s.model.AllPropagated() && s.model.HasVar(lit) && s.model.IsUndefLit(lit)
    requires Knows(s, F) && Covers(s, F)
    modifies s`maxWIdx, s`stamp, s`sumOfWatches, s`numOfBackjump, s`conflict, s.model, s.store
    ensures Ready(s) && s.model.AllPropagated() && Knows(s, F) && Covers(s, F)
    ensures s.model.modelStack == old(s.model.modelStack) && SameClauses(old(s.store.clauses), s.store.clauses)
    ensures !ok ==> forall a: Lits :: !Cubes.Extending(F, PathOf(s.model.modelStack) + [lit], a)
  {
    hide Sound, Solver.Valid, Solver.Closed, Model.Valid, PathOf, Knows, Covers, Falsified, TrueLits, LevelPrefix,
         Ready, Extends;
    ghost var tr := s.model.modelStack;
    ReadyLevel(s);
    ghost var tr1 := tr + [Elem(lit, LevelOf(tr) + 1, NoReason)];
    ok := AssumeAndPropagate(s, lit, F);
    SameLevels(tr1, s.model.modelStack);
    assert LevelOf(tr1) == LevelOf(tr) + 1;
    JumpRestores(tr1, s.model.modelStack, LevelOf(tr));
    PopDecision(tr, tr1);
    Backtrack(s, 1, F);
  }

  lemma SameLevels(tr: seq<Elem>, tr': seq<Elem>)
    requires Extends(tr, tr')
    ensures LevelOf(tr') == LevelOf(tr)
  {
  }

  lemma PopDecision(tr: seq<Elem>, tr1: seq<Elem>)
    requires |tr1| == |tr| + 1 && tr1[..|tr|] == tr && tr1[|tr|].dl > LevelOf(tr)
    ensures LevelPrefix(tr1, LevelOf(tr)) == tr
  {
    assert LevelPrefix(tr1, LevelOf(tr)) == LevelPrefix(tr, LevelOf(tr));
    OwnPrefix(tr);
  }
}
