/** Conflict analysis (conflictAnalysis and conflictAnalysisAndBackjump, ConflictAnalysis.cpp). */
module ConflictAnalysis {
  import opened PBCore
  import opened Normalise
  import opened Cut
  import opened Trail
  import opened Watches
  import opened Engine
  import opened Repair
  import opened BackjumpLevel
  import opened Closure
  import opened PropagateLoop
  import opened LemmaShortening
  import opened Database
  import opened Resolution
  import opened QuietBelow
  import opened ClauseLearning
  import opened AssertionLevel
  import opened Roots
  import opened Units

  /** Again: the analysis goes on.  Refuted: the formula has no solution.  Learned: search goes on.
      The branch in which the source exits because a decision would have to be explained is never taken. */
  datatype Outcome = Again | Refuted | Learned

  /** The trail after learning: a whole-level prefix of the old one, and something new on top of it. */
  ghost predicate Asserted(tr0: seq<Elem>, d: nat, tr: seq<Elem>) {
    var p := LevelPrefix(tr0, d);
    d < LevelOf(tr0) && p < tr && forall i :: |p| <= i < |tr| ==> tr[i].dl == LevelOf(p)
  }

  /** A consequence of F that the trail falsifies. */
  ghost predicate Conflicting(s: Solver, c: PB, F: iset<PB>)
    requires s.model.Valid()
    reads s.model
  {
    WellFormed(c) && KnownVars(c.lhs, s.model.numVars) && Implied(F, c) && Slack(c, NonFalse(s.model.modelStack)) < 0
  }

  // ----- the lemma follows from the formula -----

  lemma ClauseOfLits(c: PB, lits: seq<int>, r: seq<int>, a: Lits)
    requires IsClause(c) && LitsOf(c, lits) && SameLits(r, lits)
    ensures Sat(c, a) ==> Sat(ClausePB(r), a)
  {
    assert c.lhs == ClausePB(lits).lhs by {
      assert forall i :: 0 <= i < |lits| ==> c.lhs[i] == Term(1, lits[i]);
    }
    ClauseSat(lits, a);
    ClauseSat(r, a);
  }

  lemma ShortIsImplied(s: Solver, F: iset<PB>, c: PB, lits: seq<int>, r: seq<int>, short: seq<int>)
    requires Knows(s, F) && Implied(F, c) && IsClause(c) && LitsOf(c, lits) && SameLits(r, lits)
    requires ImpliesShort(s, r, short)
    ensures Implied(F, ClausePB(short))
  {
    hide DatabaseImplied, RootsImplied, SameLits, LitsOf;
    forall a: Lits | Total(a) && Holds(F, a)
      ensures Sat(ClausePB(short), a)
    {
      assert Sat(c, a);
      ClauseOfLits(c, lits, r, a);
    }
  }

  // ----- a clause is learned -----

  lemma DatabaseLearned(s: Solver, F: iset<PB>, short: seq<int>, tr: seq<Elem>, clauses: seq<seq<int>>,
                        gen: map<int, seq<GenElem>>)
    requires |short| > 0 && LearnedShort(s, short, tr, clauses, gen) && Implied(F, ClausePB(short))
    requires forall k :: 0 <= k < |s.constraintsPB| ==> Implied(F, s.constraintsPB[k])
    requires forall k :: 0 <= k < |clauses| ==> Implied(F, ClausePB(clauses[k]))
    requires forall l, o :: l in gen && Bin(o) in gen[l] ==> Implied(F, ClausePB([l, o]))
    ensures DatabaseImplied(s, F)
  {
    hide Implied;
    forall l, o | l in s.genWatchList && Bin(o) in s.genWatchList[l]
      ensures Implied(F, ClausePB([l, o]))
    {
      if !(l in gen && Bin(o) in gen[l]) {
        PairImplied(F, short, l, o);
      }
    }
  }

  lemma PairImplied(F: iset<PB>, short: seq<int>, l: int, o: int)
    requires |short| == 2 && {l, o} == {short[0], short[1]} && Implied(F, ClausePB(short))
    ensures Implied(F, ClausePB([l, o]))
  {
    assert short[0] in {l, o} && short[1] in {l, o};
    forall a: Lits | Total(a) && Holds(F, a)
      ensures Sat(ClausePB([l, o]), a)
    {
      ClauseSat(short, a);
      ClauseSat([l, o], a);
      assert Sat(ClausePB(short), a);
      var x :| x in short && x in a;
      assert x in [l, o];
    }
  }

  lemma RootsLearned(s: Solver, F: iset<PB>, short: seq<int>, tr: seq<Elem>, clauses: seq<seq<int>>,
                     gen: map<int, seq<GenElem>>)
    requires |short| > 0 && LearnedShort(s, short, tr, clauses, gen) && Implied(F, ClausePB(short))
    requires s.Valid() && DatabaseImplied(s, F) && RootsImplied(tr, F) && s.cleaned <= |tr|
    ensures Knows(s, F)
  {
    hide Implied, DatabaseImplied, Solver.Valid;
    var e := Elem(short[0], LevelOf(tr), LearnedReason(short, |clauses|));
    if |short| == 1 {
      assert short == [short[0]];
      var s' := tr + [e];
      assert s'[..|tr|] == tr && s'[..|tr| + 1] == s';
      RootsSnoc(s', |tr|, F);
    } else {
      ExtendsSelf(tr);
      ExtendsPush(tr, tr, e);
      RootsExtend(s, F, tr);
    }
  }

  lemma AssertedPush(tr0: seq<Elem>, d: nat, e: Elem)
    requires d < LevelOf(tr0) && e.dl == LevelOf(LevelPrefix(tr0, d))
    ensures Asserted(tr0, d, LevelPrefix(tr0, d) + [e])
  {
  }

  /** From the falsified clause with a single UIP to the lemma that will be stored. */
  method MakeLemma(s: Solver, c: PB, lits: seq<int>, pos: nat, dl: nat, ghost F: iset<PB>) returns (short: seq<int>)
    requires Underway(s) && Knows(s, F) && Conflicting(s, c, F) && IsClause(c)
    requires LitsOf(c, lits) && AllOnTrail(s.model, lits) && AllFalseLits(lits, s.model.modelStack)
    requires Uip(s.model, lits, pos, 1) && LeastLevel(c, s.model.modelStack, dl)
    ensures JumpsTo(s.model, short, dl) && Implied(F, ClausePB(short))
    ensures |short| > 0 && short[0] == lits[pos]
    ensures Slack(c, NonFalse(LevelPrefix(s.model.modelStack, dl))) < 0 <==>
            lits[pos] in FalseLits(LevelPrefix(s.model.modelStack, dl))
  {
    hide Underway, Knows, Solver.Valid, Model.Valid, Implied, LeastLevel, AllFalseLits, Shortened, ImpliesShort,
         Ranking, JumpsTo, SameLits, NonFalse;
    UnderwayIsValid(s);
    FalsifiedClause(c, s.model.modelStack);
    UniqueUipRanks(s.model, c, lits, pos, dl);
    UipDecides(s.model, c, lits, pos, dl);
    SwapKeepsLits(lits, pos);
    ghost var r := UipFirstOrder(lits, pos);
    SortedFalse(r, lits, s.model.modelStack);
    RankingDistinct(s.model, r, dl);
    short := Shorten(s, UipFirstOrder(lits, pos));
    ShortenedJumps(s, r, short, dl);
    ShortenedFirst(s, r, short);
    ShortIsImplied(s, F, c, lits, r, short);
  }

  lemma ShortenedFirst(s: Solver, lits: seq<int>, short: seq<int>)
    requires s.Valid() && AllOnTrail(s.model, lits) && Shortened(s, lits, short)
    ensures |short| > 0 && |lits| > 0 && short[0] == lits[0]
  {
  }

  lemma RankingDistinct(model: Model, lits: seq<int>, dl: nat)
    requires model.Valid() && AllOnTrail(model, lits) && Ranking(model, lits, dl)
    ensures DistinctLitVars(lits) && |lits| > 0
  {
  }

  lemma KnowsAfterJump(s: Solver, F: iset<PB>, tr: seq<Elem>, dl: nat)
    requires DatabaseImplied(s, F) && RootsImplied(tr, F) && s.model.modelStack == LevelPrefix(tr, dl)
    ensures Knows(s, F)
  {
    LevelPrefixIsInitial(tr, dl);
    RootsPrefix(tr, LevelPrefix(tr, dl), F);
  }

  lemma LandedAsserts(s: Solver, short: seq<int>)
    requires s.model.Valid() && Landed(s.model.modelStack, short) && DistinctLitVars(short)
    requires forall i :: 0 <= i < |short| ==> s.model.HasVar(short[i])
    requires |short| == 1 ==> short[0] !in FalseLits(s.model.modelStack)
    ensures Asserting(s, short)
  {
  }

  /** Only a unit can still be false where it is stored. */
  lemma LandedFalse(tr: seq<Elem>, short: seq<int>, dl: nat, model: Model)
    requires model.Valid() && JumpsTo(model, short, dl) && tr == model.modelStack && Landed(LevelPrefix(tr, dl), short)
    ensures short[0] in FalseLits(LevelPrefix(tr, dl)) ==> |short| == 1
    ensures |short| == 1 ==> dl == 0
  {
  }

  lemma JumpKnown(model: Model, short: seq<int>, dl: nat)
    requires model.Valid() && JumpsTo(model, short, dl)
    ensures |short| > 0 && DistinctLitVars(short) && forall i :: 0 <= i < |short| ==> model.HasVar(short[i])
  {
  }

  lemma UnitRefutes(tr: seq<Elem>, F: iset<PB>, l: int)
    requires LevelsGrow(tr) && OneEach(tr) && LevelOf(tr) == 0 && RootsImplied(tr, F) && l in FalseLits(tr) && l != 0
    requires Implied(F, ClausePB([l]))
    ensures Unsatisfiable(F)
  {
    ClauseSat([l], NonFalse(tr));
    FalsifiedAtRoot(tr, F, ClausePB([l]));
  }

  lemma CleanIsUnderway(s: Solver)
    requires Clean(s)
    ensures Underway(s) && s.Valid() && s.model.Valid()
  {
    hide Sound, Solver.Closed, Underway;
    SoundIsUnderway(s);
    UnderwayIsValid(s);
  }

  /** The branch that stores a lemma. */
  method StoreLemma(s: Solver, short: seq<int>, dl: nat, ghost F: iset<PB>) returns (out: Outcome)
    requires Underway(s) && Knows(s, F) && s.conflict != NoConflict && dl < s.model.decisionLevel
    requires s.model.Valid() && JumpsTo(s.model, short, dl) && Implied(F, ClausePB(short))
    modifies s`sumOfWatches, s`numOfBackjump, s`genWatchList, s`learnedClauses, s`conflict, s.model, s.store
    ensures out == Refuted || out == Learned
    ensures out == Refuted <==> |short| > 0 && short[0] in FalseLits(LevelPrefix(old(s.model.modelStack), dl))
    ensures out == Refuted ==> Unsatisfiable(F) && s.conflict != NoConflict && LevelOf(s.model.modelStack) == 0
                               && dl == 0
    ensures out == Learned ==> Ready(s) && Knows(s, F) && Asserted(old(s.model.modelStack), dl, s.model.modelStack)
    ensures DatabaseGrew(s, old(DbOf(s)))
  {
    hide Underway, Solver.Valid, Model.Valid, Implied, Clean, Landed, JumpsTo, DatabaseImplied, RootsImplied, Asserting,
         FalseLits, TrueLits, LearnedShort, Ready, Unsatisfiable;
    UnderwayIsValid(s);
    ghost var tr, cs, gen, d0 := s.model.modelStack, s.store.clauses, s.genWatchList, DbOf(s);
    JumpLands(s.model, short, dl);
    JumpKnown(s.model, short, dl);
    LandedFalse(tr, short, dl, s.model);
    BackjumpClean(s, dl);
    KnowsAfterJump(s, F, tr, dl);
    CleanIsUnderway(s);
    var saved := s.conflict;
    s.conflict := NoConflict;
    if |short| == 1 && s.model.IsFalseLit(short[0]) {
      s.conflict := saved;
      assert short == [short[0]];
      RootUnit(s, short, F);
      return Refuted;
    }
    CleanWithoutConflict(s);
    LandedAsserts(s, short);
    ghost var tr1 := s.model.modelStack;
    CleanedOnTrail(s);
    KnowsParts(s, F);
    LearnShort(s, short);
    DatabaseLearned(s, F, short, tr1, cs, gen);
    ReadyIsValid(s);
    RootsLearned(s, F, short, tr1, cs, gen);
    LearnedTrail(s, short, tr1, cs, gen);
    LearnedGrows(s, short, tr1, d0);
    AssertedPush(tr, dl, Elem(short[0], LevelOf(tr1), LearnedReason(short, |cs|)));
    return Learned;
  }

  lemma RootUnit(s: Solver, short: seq<int>, F: iset<PB>)
    requires s.model.Valid() && Landed(s.model.modelStack, short) && short == [short[0]] && s.model.HasVar(short[0])
    requires Knows(s, F) && short[0] in FalseLits(s.model.modelStack) && Implied(F, ClausePB(short))
    ensures Unsatisfiable(F) && LevelOf(s.model.modelStack) == 0
  {
    UnitRefutes(s.model.modelStack, F, short[0]);
  }

  lemma CleanWithoutConflict(s: Solver)
    requires Clean(s)
    ensures s.conflict == NoConflict ==> Ready(s)
    ensures s.Valid() && s.model.Valid()
  {
  }

  lemma ReadyIsValid(s: Solver)
    requires Ready(s)
    ensures s.Valid() && s.model.Valid()
  {
  }

  lemma CleanedOnTrail(s: Solver)
    requires s.Valid()
    ensures CleanedRoots(s.model.modelStack, s.cleaned)
  {
  }

  lemma KnowsParts(s: Solver, F: iset<PB>)
    requires Knows(s, F)
    ensures forall k :: 0 <= k < |s.constraintsPB| ==> Implied(F, s.constraintsPB[k])
    ensures forall k :: 0 <= k < |s.store.clauses| ==> Implied(F, ClausePB(s.store.clauses[k]))
    ensures forall l, o :: l in s.genWatchList && Bin(o) in s.genWatchList[l] ==> Implied(F, ClausePB([l, o]))
    ensures RootsImplied(s.model.modelStack, F)
  {
  }

  lemma LearnedGrows(s: Solver, short: seq<int>, tr: seq<Elem>, d: Db)
    requires |short| > 0 && LearnedShort(s, short, tr, d.clauses, d.gen) && d.pbs == s.constraintsPB
    requires s.learnedPB == d.learnedPB
    requires s.learnedClauses == d.learnedClauses + (if |short| > 2 then {|d.clauses|} else {})
    ensures DatabaseGrew(s, d)
  {
    hide BinsGrow;
  }

  lemma LearnedTrail(s: Solver, short: seq<int>, tr: seq<Elem>, clauses: seq<seq<int>>, gen: map<int, seq<GenElem>>)
    requires |short| > 0 && LearnedShort(s, short, tr, clauses, gen)
    ensures s.model.modelStack == tr + [Elem(short[0], LevelOf(tr), LearnedReason(short, |clauses|))]
  {
  }

  /** The constraint itself, or the constraint without its level-0 literals. */
  ghost predicate SameOrUnitless(c: PB, c': PB, tr: seq<Elem>) {
    c' == c || WithoutUnits(c.lhs, c.rhs, c'.lhs, c'.rhs, tr)
  }

  /** What a round with cut c hands over when the analysis goes on with c' after a backjump to level d. */
  ghost predicate GoesOn(s: Solver, c: PB, c': PB, F: iset<PB>, tr0: seq<Elem>, d: nat)
    reads s, s.model, s.store
  {
    && Underway(s) && Knows(s, F) && s.conflict != NoConflict && s.model.Valid() && Conflicting(s, c', F)
    && s.model.modelStack == LevelPrefix(tr0, d) && Quiet(c', LevelPrefix(tr0, d))
    && SameOrUnitless(c, c', LevelPrefix(tr0, d))
  }

  /** The clause branch of the backjump. */
  method LearnClause(s: Solver, c: PB, dl: nat, ghost F: iset<PB>) returns (out: Outcome)
    requires Underway(s) && Knows(s, F) && s.conflict != NoConflict && Conflicting(s, c, F)
    requires IsClause(c) && |c.lhs| > 0 && LeastLevel(c, s.model.modelStack, dl)
    modifies s`sumOfWatches, s`numOfBackjump, s`genWatchList, s`learnedClauses, s`conflict, s.model, s.store
    ensures out == Again || out == Refuted || out == Learned
    ensures out == Again ==> GoesOn(s, c, c, F, old(s.model.modelStack), dl)
    ensures out == Refuted ==> Unsatisfiable(F) && s.conflict != NoConflict && LevelOf(s.model.modelStack) == 0
                               && dl == 0
    ensures out == Learned ==> Ready(s) && Knows(s, F) && Asserted(old(s.model.modelStack), dl, s.model.modelStack)
    ensures out == Learned <==> Slack(c, NonFalse(LevelPrefix(old(s.model.modelStack), dl))) >= 0
    ensures DatabaseGrew(s, old(DbOf(s)))
  {
    hide Underway, Solver.Valid, Model.Valid, Implied, Clean, JumpsTo, DatabaseImplied, RootsImplied, FalseLits,
         TrueLits, Ready, Unsatisfiable, Uip, AllFalseLits, Weight;
    UnderwayIsValid(s);
    ghost var tr := s.model.modelStack;
    FalsifiedClause(c, tr);
    LeastIsLower(c, s.model, dl);
    var lits, posUIP, numUIP := ScanClause(s.model, c);
    if numUIP != 1 {
      SeveralUips(s.model, c, lits, posUIP, numUIP, dl);
      NoneBelowAfterJump(c, tr, dl);
      BackjumpClean(s, dl);
      KnowsAfterJump(s, F, tr, dl);
      CleanIsUnderway(s);
      return Again;
    }
    var short := MakeLemma(s, c, lits, posUIP, dl, F);
    out := StoreLemma(s, short, dl, F);
  }

  lemma LeastIsLower(c: PB, model: Model, dl: nat)
    requires model.Valid() && LeastLevel(c, model.modelStack, dl)
    ensures dl < model.decisionLevel
  {
  }

  // ----- a PB constraint is learned -----

  /** The constraint that goes into the database: units removed, largest coefficient first, simplified. */
  lemma ReadyToStore(c: PB, tr: seq<Elem>, n: nat)
    requires WellFormed(c) && KnownVars(c.lhs, n) && ConflictsOrPropagates(c, tr) && Slack(c, NonFalse(tr)) >= 0
    ensures c.rhs >= 1 && |c.lhs| > 0
    ensures var d := Simplified(PB(SortByCoef(c.lhs), c.rhs));
            Stored(d, n) && (forall L: Lits :: Sat(d, L) <==> Sat(c, L))
            && forall p: seq<Elem> :: ConflictsOrPropagates(d, p) <==> ConflictsOrPropagates(c, p)
  {
    hide NonFalse, Simplified, SortByCoef, ConflictsOrPropagates;
    PropagatingShape(c, tr);
    OrderedIsDistinct(c.lhs);
    var b := PB(SortByCoef(c.lhs), c.rhs);
    SortByCoefKeeps(c.lhs);
    SortByCoefOrders(c.lhs);
    RearrangedShape(c.lhs, b.lhs, n);
    SimplifiedShape(b);
    SimplifiedDecreasing(b);
    forall L: Lits
      ensures Sat(Simplified(b), L) <==> Sat(c, L)
    {
      SimplifiedExact(b, L);
    }
    forall p: seq<Elem>
      ensures ConflictsOrPropagates(Simplified(b), p) <==> ConflictsOrPropagates(c, p)
    {
      SimplifyKeepsPropagation(b, p);
      RearrangedPropagates(c, b, p);
    }
  }

  lemma PropagatingShape(c: PB, tr: seq<Elem>)
    requires WellFormed(c) && ConflictsOrPropagates(c, tr) && Slack(c, NonFalse(tr)) >= 0
    ensures c.rhs >= 1 && |c.lhs| > 0
  {
    ConflictsOrPropagatesMeans(c, tr);
    var i :| 0 <= i < |c.lhs| && !Assigned(c.lhs[i].lit, tr) && c.lhs[i].coef > Slack(c, NonFalse(tr));
    WeightAtLeastTerm(c.lhs, i, NonFalse(tr));
  }

  lemma RearrangedPropagates(c: PB, b: PB, tr: seq<Elem>)
    requires Positive(c.lhs) && Positive(b.lhs) && Rearranged(c.lhs, b.lhs) && b.rhs == c.rhs
    ensures ConflictsOrPropagates(b, tr) <==> ConflictsOrPropagates(c, tr)
  {
    hide NonFalse;
    ConflictsOrPropagatesMeans(c, tr);
    ConflictsOrPropagatesMeans(b, tr);
    assert forall i :: 0 <= i < |b.lhs| ==> b.lhs[i] in c.lhs;
    assert forall i :: 0 <= i < |c.lhs| ==> c.lhs[i] in b.lhs;
  }

  lemma NoneBelowAfterJump(c: PB, tr0: seq<Elem>, dl: nat)
    requires LeastLevel(c, tr0, dl)
    ensures NoneBelow(c, LevelPrefix(tr0, dl), LevelOf(LevelPrefix(tr0, dl)))
    ensures ConflictsOrPropagates(c, LevelPrefix(tr0, dl))
  {
    var tr := LevelPrefix(tr0, dl);
    LevelPrefixLevel(tr0, dl);
    forall d: nat | d < LevelOf(tr)
      ensures !ConflictsOrPropagates(c, LevelPrefix(tr, d))
    {
      LevelPrefixTwice(tr0, dl, d);
    }
  }

  lemma {:induction false} OwnPrefix(tr: seq<Elem>)
    ensures LevelPrefix(tr, LevelOf(tr)) == tr
  {
  }

  /** All that is kept when the units go. */
  lemma UnitsKeep(c: PB, r: PB, tr: seq<Elem>, F: iset<PB>)
    requires TrailOk(tr) && RootsImplied(tr, F) && Implied(F, c) && WellFormed(c) && WellFormed(r)
    requires WithoutUnits(c.lhs, c.rhs, r.lhs, r.rhs, tr)
    requires NoneBelow(c, tr, LevelOf(tr)) && ConflictsOrPropagates(c, tr)
    ensures Implied(F, r) && Slack(r, NonFalse(tr)) == Slack(c, NonFalse(tr))
    ensures NoneBelow(r, tr, LevelOf(tr)) && ConflictsOrPropagates(r, tr)
  {
    hide WithoutUnits, ConflictsOrPropagates, NonFalse, Implied, RootsImplied;
    UnitsImplied(c, r, tr, F);
    OwnPrefix(tr);
    UnitsSameLevels(c, r, tr, LevelOf(tr));
    forall d: nat | d < LevelOf(tr)
      ensures !ConflictsOrPropagates(r, LevelPrefix(tr, d))
    {
      UnitsSameLevels(c, r, tr, d);
    }
  }

  lemma NoneBelowSame(c: PB, d: PB, tr: seq<Elem>, r: int)
    requires NoneBelow(c, tr, r) && forall p: seq<Elem> :: ConflictsOrPropagates(d, p) <==> ConflictsOrPropagates(c, p)
    ensures NoneBelow(d, tr, r)
  {
  }

  lemma SameSolutionsImplied(F: iset<PB>, c: PB, d: PB)
    requires Implied(F, c) && forall L: Lits :: Sat(d, L) <==> Sat(c, L)
    ensures Implied(F, d)
  {
  }

  /** A settled constraint that used to propagate has assigned something new. */
  lemma PropagatedSomething(c: PB, N: Lits, tr: seq<Elem>, tr': seq<Elem>)
    requires Positive(c.lhs) && N == NonFalse(tr) && ConflictsOrPropagates(c, tr) && Settled(c, Slack(c, N), tr')
    requires tr <= tr'
    ensures tr < tr'
  {
    ConflictsOrPropagatesMeans(c, tr);
    var i :| 0 <= i < |c.lhs| && !Assigned(c.lhs[i].lit, tr) && c.lhs[i].coef > Slack(c, N);
    assert Assigned(c.lhs[i].lit, tr');
  }

  lemma DatabaseGrows(s: Solver, F: iset<PB>, pbs: seq<PB>, gen: map<int, seq<GenElem>>, c: PB)
    requires s.constraintsPB == pbs + [c] && Implied(F, c) && GenGrows(gen, s.genWatchList)
    requires forall k :: 0 <= k < |pbs| ==> Implied(F, pbs[k])
    requires forall k :: 0 <= k < |s.store.clauses| ==> Implied(F, ClausePB(s.store.clauses[k]))
    requires forall l, o :: l in gen && Bin(o) in gen[l] ==> Implied(F, ClausePB([l, o]))
    ensures DatabaseImplied(s, F)
  {
    hide Implied;
    forall l, o | l in s.genWatchList && Bin(o) in s.genWatchList[l]
      ensures Implied(F, ClausePB([l, o]))
    {
      assert ListGrows(gen[l], s.genWatchList[l]);
      var j :| 0 <= j < |s.genWatchList[l]| && s.genWatchList[l][j] == Bin(o);
      assert j < |gen[l]|;
    }
  }

  lemma AssertedExtends(tr0: seq<Elem>, d: nat, tr: seq<Elem>)
    requires d < LevelOf(tr0) && Extends(LevelPrefix(tr0, d), tr) && LevelPrefix(tr0, d) < tr
    ensures Asserted(tr0, d, tr)
  {
  }

  lemma ExtendsIsPrefix(tr: seq<Elem>, tr': seq<Elem>)
    requires Extends(tr, tr')
    ensures tr <= tr'
  {
  }

  lemma CleanPending(s: Solver)
    requires Clean(s)
    ensures s.Valid() && s.model.Valid() && s.PendingLits() == NonFalse(s.model.modelStack)
            && TrailOk(s.model.modelStack)
    ensures s.model.decisionLevel == LevelOf(s.model.modelStack)
  {
    assert s.model.modelStack[..|s.model.modelStack|] == s.model.modelStack;
  }

  lemma ReadyPending(s: Solver, k: nat)
    requires Ready(s) && k < |s.constraintsPB|
    ensures s.Valid() && Settled(s.constraintsPB[k], Slack(s.constraintsPB[k], s.PendingLits()), s.model.modelStack)
    ensures Stored(s.constraintsPB[k], s.model.numVars)
  {
  }

  /** Store a propagating constraint and let it propagate. */
  method StoreConstraint(s: Solver, c: PB, ghost F: iset<PB>) returns (learned: PB)
    requires Clean(s) && s.conflict == NoConflict && Knows(s, F) && s.model.Valid()
    requires WellFormed(c) && KnownVars(c.lhs, s.model.numVars) && Implied(F, c)
    requires ConflictsOrPropagates(c, s.model.modelStack) && Slack(c, NonFalse(s.model.modelStack)) >= 0
    requires NoneBelow(c, s.model.modelStack, LevelOf(s.model.modelStack))
    modifies s`occurLists, s`genWatchList, s`sumOfWatches, s`constraintsPB, s`maxWIdx, s`stamp, s`learnedPB, s`conflict,
             s.model
    ensures Ready(s) && Knows(s, F) && Implied(F, learned)
    ensures Extends(old(s.model.modelStack), s.model.modelStack) && old(s.model.modelStack) < s.model.modelStack
    ensures DatabaseGrew(s, old(DbOf(s)))
  {
    hide Solver.Valid, Model.Valid, Implied, Clean, DatabaseImplied, RootsImplied, NonFalse, ConflictsOrPropagates,
         NoneBelow, Ready, Simplified, Weight, Extends, Settled, GenGrows, Sound, Stored, Pending;
    ghost var tr, pbs, gen := s.model.modelStack, s.constraintsPB, s.genWatchList;
    CleanPending(s);
    CleanWithoutConflict(s);
    CleanPropagated(s);
    CleanedOnTrail(s);
    KnowsParts(s, F);
    ReadyToStore(c, tr, s.model.numVars);
    learned := Simplified(PB(SortByCoef(c.lhs), c.rhs));
    NoneBelowSame(c, learned, tr, LevelOf(tr));
    SameSolutionsImplied(F, c, learned);
    assert Sat(learned, NonFalse(tr));
    AddAndPropagate(s, learned);
    s.learnedPB := s.learnedPB + {|s.constraintsPB| - 1};
    DatabaseGrows(s, F, pbs, gen, learned);
    GenGrowsBins(gen, s.genWatchList);
    ReadyPending(s, |pbs|);
    RootsExtend(s, F, tr);
    ExtendsIsPrefix(tr, s.model.modelStack);
    StillPending(s, tr);
    StoredIsPositive(learned, s.model.numVars);
    PropagatedSomething(learned, NonFalse(tr), tr, s.model.modelStack);
  }

  lemma StoredIsPositive(c: PB, n: nat)
    requires Stored(c, n)
    ensures Positive(c.lhs)
  {
  }

  lemma StillPending(s: Solver, tr: seq<Elem>)
    requires s.model.Valid() && Extends(tr, s.model.modelStack) && s.model.lastPropagated == |tr| - 1
    ensures s.PendingLits() == NonFalse(tr)
  {
    assert s.model.modelStack[..|tr|] == tr;
  }

  lemma CleanPropagated(s: Solver)
    requires Clean(s)
    ensures s.model.lastPropagated == |s.model.modelStack| - 1
  {
  }

  /** The PB branch of the backjump; c' is the constraint the analysis goes on with. */
  method LearnConstraint(s: Solver, c: PB, dl: nat, ghost F: iset<PB>) returns (out: Outcome, c': PB)
    requires Underway(s) && Knows(s, F) && s.conflict != NoConflict && Conflicting(s, c, F)
    requires LeastLevel(c, s.model.modelStack, dl)
    modifies s, s.model
    ensures out == Again || out == Refuted || out == Learned
    ensures out == Again ==> GoesOn(s, c, c', F, old(s.model.modelStack), dl)
    ensures out == Refuted ==> Unsatisfiable(F) && s.conflict != NoConflict && LevelOf(s.model.modelStack) == 0
                               && dl == 0
    ensures out == Learned <==> Slack(c, NonFalse(LevelPrefix(old(s.model.modelStack), dl))) >= 0
    ensures out == Learned ==> Ready(s) && Knows(s, F) && Asserted(old(s.model.modelStack), dl, s.model.modelStack)
    ensures DatabaseGrew(s, old(DbOf(s)))
    ensures out == Learned ==> Implied(F, c')
  {
    hide Underway, Solver.Valid, Model.Valid, Implied, Clean, DatabaseImplied, RootsImplied, FalseLits, TrueLits,
         Ready, Unsatisfiable, Weight, LeastLevel, NoneBelow, ConflictsOrPropagates, WithoutUnits, NonFalse, Extends;
    UnderwayIsValid(s);
    ghost var tr0 := s.model.modelStack;
    LeastIsLower(c, s.model, dl);
    NoneBelowAfterJump(c, tr0, dl);
    BackjumpClean(s, dl);
    KnowsAfterJump(s, F, tr0, dl);
    CleanIsUnderway(s);
    CleanPending(s);
    ghost var tr := s.model.modelStack;
    c' := c;
    var slack := SlackOf(s.model, c);
    if dl == 0 && slack < 0 {
      LevelPrefixLevel(tr0, 0);
      FalsifiedAtRoot(tr, F, c);
      return Refuted, c';
    }
    c' := RemoveUnits(s.model, c);
    UnitsKeep(c, c', tr, F);
    if slack < 0 {
      return Again, c';
    }
    s.conflict := NoConflict;
    c' := StoreConstraint(s, c', F);
    AssertedExtends(tr0, dl, s.model.modelStack);
    return Learned, c';
  }

  // ----- one round -----

  /** The popped element still has its reason, and is unassigned. */
  lemma PoppedReason(s: Solver, tr0: seq<Elem>)
    requires s.Valid() && s.model.modelStack < tr0 && TrailOk(tr0)
    requires ReasonsOk(tr0, s.cleaned, s.constraintsPB, s.store.clauses, s.genWatchList)
    ensures var e := tr0[|s.model.modelStack|];
            ReasonOk(e, s.model.modelStack, s.constraintsPB, s.store.clauses, s.genWatchList)
            && !Assigned(e.lit, s.model.modelStack)
            && (e.reason != NoReason ==> LevelOf(s.model.modelStack) == e.dl)
  {
    hide ListsOk, Mirrors, ListsWatch, ClausesOk, BinsKnown, Stored, Forces, UnitUnder;
    var tr := s.model.modelStack;
    var n := |tr|;
    assert tr0[..n] == tr;
    assert ReasonOk(tr0[n], tr0[..n], s.constraintsPB, s.store.clauses, s.genWatchList);
    AssignedMeans(tr, tr0[n].lit);
    forall i | 0 <= i < n
      ensures Var(tr[i].lit) != Var(tr0[n].lit)
    {
      assert tr[i] == tr0[i];
    }
    assert n > 0 ==> tr[n - 1] == tr0[n - 1];
    assert StartsLevel(tr0, n);
  }

  lemma PivotOf(c: PB, r: PB, i: nat, j: nat, tr: seq<Elem>, n: nat, l: int)
    requires WellFormed(c) && KnownVars(c.lhs, n) && i < |c.lhs| && c.lhs[i].lit == -l
    requires Slack(c, NonFalse(tr)) < c.lhs[i].coef && !Assigned(l, tr)
    requires Propagates(r, j, tr, n) && r.lhs[j].lit == l
    ensures Pivots(c, r, i, j) && Var(c.lhs[i].lit) == Var(l) && Propagates(c, i, tr, n)
  {
    TrueMeansComplementFalse(tr, l);
  }

  lemma CutConflicts(s: Solver, c: PB, r: PB, v: int, cut: PB, F: iset<PB>)
    requires s.model.Valid() && Implied(F, c) && Implied(F, r)
    requires GoodCut(c, r, v, cut, s.model.modelStack, s.model.numVars)
    ensures Conflicting(s, cut, F) && cut.rhs >= 1
  {
    forall a: Lits | Total(a) && Holds(F, a)
      ensures Sat(cut, a)
    {
      assert Sat(c, a) && Sat(r, a);
    }
  }

  /** An implied constraint with nothing on the left refutes the formula. */
  lemma InconsistentCut(c: PB, F: iset<PB>)
    requires Implied(F, c) && |c.lhs| == 0 && c.rhs >= 1
    ensures Unsatisfiable(F)
  {
    forall a: Lits | Total(a)
      ensures !Holds(F, a)
    {
      assert !Sat(c, a);
    }
  }

  /** One round: the constraint it starts from, the reason of the popped literal, the constraints that were cut
      (repaired or not), the cut, the trail it is falsified by, and the level to jump to, -1 for none. */
  datatype Round = Round(before: PB, reason: PB, parents: Parents, cut: PB, clash: bool, tr: seq<Elem>, level: int)

  /** The cut and its flag are those of the two constraints, which follow from what the round started from. */
  ghost predicate IsRoundCut(r: Round, F: iset<PB>) {
    && Weaker(r.before, r.parents.c1) && Weaker(r.reason, r.parents.c2) && Implied(F, r.reason)
    && (exists v :: IsCut(r.parents, v, r.cut, r.clash))
    && Slack(r.cut, NonFalse(r.tr)) < 0
  }

  /** Pop, find the reason, cut.  The new constraint is falsified again, on a shorter trail of the same level, and
      without a clash there is no lower level at which it conflicts or propagates. */
  method ResolveRound(s: Solver, c: PB, ghost F: iset<PB>) returns (out: Outcome, cut: PB, clash: bool, ghost r: Round)
    requires Underway(s) && Knows(s, F) && s.conflict != NoConflict && Conflicting(s, c, F)
    requires Quiet(c, s.model.modelStack)
    modifies s`sumOfWatches, s.model
    ensures out == Again || out == Refuted
    ensures Underway(s) && Knows(s, F) && s.model.modelStack <= old(s.model.modelStack)
    ensures out == Again ==> Conflicting(s, cut, F) && cut.rhs >= 1 && LevelOf(s.model.modelStack) > 0
                             && |s.model.modelStack| < |old(s.model.modelStack)|
    ensures out == Again ==> IsRoundCut(r, F) && r.before == c && r.cut == cut && r.clash == clash
                             && r.tr == s.model.modelStack && r.level == -1
                             && (!clash ==> Quiet(cut, s.model.modelStack))
    ensures out == Refuted <==> LevelOf(old(s.model.modelStack)) == 0
    ensures out == Refuted ==> Unsatisfiable(F) && LevelOf(s.model.modelStack) == 0
  {
    hide Underway, Solver.Valid, Model.Valid, Implied, DatabaseImplied, RootsImplied, FalseLits, TrueLits, ReasonOk,
         Unsatisfiable, Weight, NonFalse, Propagates, GoodCut, ReasonsOk, TrailOk, Assigned, FollowsFromDatabase,
         Quiet, IsCut, RepairedParents, Suffices, Weaker, ReasonPB;
    UnderwayIsValid(s);
    ghost var tr0 := s.model.modelStack;
    ValidReasons(s);
    var slack := SlackOf(s.model, c);
    var atRoot, e;
    ghost var i: nat;
    atRoot, e, i := PopUntil(s, c, slack);
    UnderwayIsValid(s);
    RootsPrefix(tr0, s.model.modelStack, F);
    clash, cut := false, c;
    r := Round(c, c, Parents(c, 0, c, 0), c, false, tr0, -1);
    if atRoot {
      ValidReasons(s);
      RefutedAtRoot(s, F, c);
      NotPoppedToRoot(tr0, s.model.modelStack, c);
      return Refuted, cut, clash, r;
    }
    PoppedReason(s, tr0);
    PoppedKnown(s, tr0);
    PoppedHasReason(tr0, s.model.modelStack, c, i);
    LevelAtLeast(tr0, |s.model.modelStack|);
    var found, reason;
    ghost var j: nat;
    found, reason, j := ReasonConstraint(s, e);
    if !found {
      assert false;
    }
    FollowsMeans(s, reason, F);
    PivotOf(c, reason, i, j, s.model.modelStack, s.model.numVars, e.lit);
    ghost var q;
    cut, clash, q := Resolve(s.model, Var(e.lit), c, reason, i, j);
    CutConflicts(s, c, reason, Var(e.lit), cut, F);
    r := Round(c, reason, q, cut, clash, s.model.modelStack, -1);
    ParentsAreWeaker(Parents(c, i, reason, j), q, s.model.modelStack);
    CutIsFalsified(s, cut, F);
    if !clash {
      ReasonIsQuiet(s, e);
      QuietPrefix(c, tr0, s.model.modelStack);
      VarUnassigned(tr0, s.model.modelStack);
      CutIsQuiet(c, reason, q, Var(e.lit), cut, s.model.modelStack);
    }
    return Again, cut, clash, r;
  }

  lemma LevelAtLeast(tr: seq<Elem>, n: nat)
    requires TrailOk(tr) && n < |tr|
    ensures LevelOf(tr) >= tr[n].dl
  {
  }

  lemma VarUnassigned(tr0: seq<Elem>, tr: seq<Elem>)
    requires TrailOk(tr0) && tr < tr0
    ensures !Assigned(Var(tr0[|tr|].lit), tr) && !Assigned(-Var(tr0[|tr|].lit), tr)
  {
    assert tr == tr0[..|tr|];
    Unassigned(tr0, |tr|);
  }

  lemma ParentsAreWeaker(p: Parents, q: Parents, tr: seq<Elem>)
    requires Pivots(p.c1, p.c2, p.i1, p.i2)
    requires if Suffices(p, tr) then q == p else RepairedParents(p, q, tr)
    ensures Weaker(p.c1, q.c1) && Weaker(p.c2, q.c2)
  {
  }

  lemma CutIsFalsified(s: Solver, cut: PB, F: iset<PB>)
    requires s.model.Valid() && Conflicting(s, cut, F)
    ensures Slack(cut, NonFalse(s.model.modelStack)) < 0
  {
  }

  /** The trail of level 0 cannot falsify a constraint that is quiet on a higher level. */
  lemma NotPoppedToRoot(tr0: seq<Elem>, tr: seq<Elem>, c: PB)
    requires TrailOk(tr0) && tr <= tr0 && LevelOf(tr) == 0 && Quiet(c, tr0)
    requires Positive(c.lhs) && Slack(c, NonFalse(tr)) < 0
    ensures LevelOf(tr0) == 0
  {
    hide LevelsStart, OneEach, Weight, MaxUndef;
    if LevelOf(tr0) > 0 {
      var n := LevelPrefixIsPrefix(tr0, 0);
      var p := tr0[..n];
      assert |tr| > 0 ==> tr0[|tr| - 1].dl == 0;
      assert tr == p[..|tr|];
      NonFalseShrinks(p, |tr|);
      WeightMono(c.lhs, NonFalse(p), NonFalse(tr));
      ConflictsOrPropagatesMeans(c, p);
    }
  }

  lemma FollowsMeans(s: Solver, r: PB, F: iset<PB>)
    requires FollowsFromDatabase(s, r) && DatabaseImplied(s, F)
    ensures Implied(F, r)
  {
  }

  lemma RefutedAtRoot(s: Solver, F: iset<PB>, c: PB)
    requires s.model.Valid() && Knows(s, F) && LevelOf(s.model.modelStack) == 0
    requires Positive(c.lhs) && Implied(F, c) && Slack(c, NonFalse(s.model.modelStack)) < 0
    ensures Unsatisfiable(F)
  {
    FalsifiedAtRoot(s.model.modelStack, F, c);
  }

  lemma ValidReasons(s: Solver)
    requires s.Valid()
    ensures ReasonsOk(s.model.modelStack, s.cleaned, s.constraintsPB, s.store.clauses, s.genWatchList)
            && TrailOk(s.model.modelStack)
    ensures forall i :: 0 <= i < |s.model.modelStack| ==> s.model.HasVar(s.model.modelStack[i].lit)
  {
    forall i | 0 <= i < |s.model.modelStack|
      ensures s.model.HasVar(s.model.modelStack[i].lit)
    {
      assert Recorded(s.model.modelStack[i].lit, i, s.model.truthValue, s.model.stackHeight, s.model.numVars);
    }
  }

  lemma PoppedKnown(s: Solver, tr0: seq<Elem>)
    requires s.model.modelStack < tr0 && forall i :: 0 <= i < |tr0| ==> s.model.HasVar(tr0[i].lit)
    ensures s.model.HasVar(tr0[|s.model.modelStack|].lit)
  {
  }

  /** The constraints a solver shares as "good clauses" follow from the formula and are short. */
  ghost predicate Shareable(shared: seq<PB>, F: iset<PB>) {
    forall i :: 0 <= i < |shared| ==> Implied(F, shared[i]) && |shared[i].lhs| <= 3
  }

  /** Backjumping from a falsified cut, when it conflicts or propagates below the current level. */
  method Backjump(s: Solver, c: PB, dl: nat, shared0: seq<PB>, ghost F: iset<PB>)
    returns (out: Outcome, c': PB, shared: seq<PB>)
    requires Underway(s) && Knows(s, F) && s.conflict != NoConflict && Conflicting(s, c, F) && |c.lhs| > 0
    requires LeastLevel(c, s.model.modelStack, dl) && Shareable(shared0, F)
    modifies s, s.model, s.store
    ensures out == Again || out == Refuted || out == Learned
    ensures out == Again ==> GoesOn(s, c, c', F, old(s.model.modelStack), dl)
    ensures out == Refuted ==> Unsatisfiable(F) && s.conflict != NoConflict && LevelOf(s.model.modelStack) == 0
                               && dl == 0
    ensures out == Learned <==> Slack(c, NonFalse(LevelPrefix(old(s.model.modelStack), dl))) >= 0
    ensures out == Learned ==> Ready(s) && Knows(s, F) && Asserted(old(s.model.modelStack), dl, s.model.modelStack)
    ensures DatabaseGrew(s, old(DbOf(s)))
    ensures Shareable(shared, F)
  {
    hide Underway, Ready, Knows, Implied, Unsatisfiable, LeastLevel, Asserted, Solver.Valid, Model.Valid, Weight,
         NonFalse, GoesOn;
    c', shared := c, shared0;
    var clause := IsClauseCheck(c);
    if clause {
      if |c.lhs| <= 3 {
        shared := shared + [c];
      }
      out := LearnClause(s, c, dl, F);
    } else {
      out, c' := LearnConstraint(s, c, dl, F);
      if out == Learned && |c'.lhs| <= 3 {
        shared := shared + [c'];
      }
    }
  }

  // ----- one run -----

  /** The trail after the jump of a round. */
  ghost function Landing(r: Round): seq<Elem> {
    if r.level < 0 then r.tr else LevelPrefix(r.tr, r.level)
  }

  /** The level of a round is the least one at which its cut conflicts or propagates; it is only looked for on a
      clash, and is then the only level there can be. */
  ghost predicate RoundOk(r: Round, F: iset<PB>) {
    && IsRoundCut(r, F) && r.level >= -1 && (!r.clash ==> r.level == -1)
    && (|r.cut.lhs| > 0 ==> LeastLevel(r.cut, r.tr, r.level))
  }

  /** After round r the analysis goes on with c: the trail it has jumped to falsifies the cut as well. */
  ghost predicate Continues(r: Round, c: PB) {
    && |r.cut.lhs| > 0 && Slack(r.cut, NonFalse(Landing(r))) < 0
    && SameOrUnitless(r.cut, c, Landing(r)) && (r.level == -1 ==> c == r.cut)
  }

  /** A run from the falsified constraint c0 over trail tr0. */
  ghost predicate IsRun(rounds: seq<Round>, c0: PB, tr0: seq<Elem>, F: iset<PB>) {
    && (forall k :: 0 <= k < |rounds| ==> RoundOk(rounds[k], F))
    && (|rounds| > 0 ==> rounds[0].before == c0 && rounds[0].tr < tr0)
    && (forall k :: 0 < k < |rounds| ==>
          Continues(rounds[k - 1], rounds[k].before) && rounds[k].tr < Landing(rounds[k - 1]))
  }

  /** Where the run stands before its next round. */
  ghost predicate StandsAt(rounds: seq<Round>, c: PB, tr: seq<Elem>, c0: PB, tr0: seq<Elem>) {
    if |rounds| == 0 then c == c0 && tr == tr0
    else Continues(rounds[|rounds| - 1], c) && tr == Landing(rounds[|rounds| - 1])
  }

  /** What the last round decides.  Learned: its cut propagates at its level.  Refuted: its cut is 0 >= 1, or is still
      falsified at level 0. */
  ghost predicate EndsIn(rounds: seq<Round>, out: Outcome) {
    && |rounds| > 0
    && var r := rounds[|rounds| - 1];
    match out
    case Learned => |r.cut.lhs| > 0 && r.level >= 0 && Slack(r.cut, NonFalse(Landing(r))) >= 0
    case Refuted => |r.cut.lhs| == 0 || (LevelOf(Landing(r)) == 0 && Slack(r.cut, NonFalse(Landing(r))) < 0)
    case Again => false
  }

  lemma RunGrows(rounds: seq<Round>, r: Round, c: PB, tr: seq<Elem>, c0: PB, tr0: seq<Elem>, F: iset<PB>)
    requires IsRun(rounds, c0, tr0, F) && StandsAt(rounds, c, tr, c0, tr0)
    requires RoundOk(r, F) && r.before == c && r.tr < tr
    ensures IsRun(rounds + [r], c0, tr0, F)
  {
    hide RoundOk, Continues, Landing;
    var now := rounds + [r];
    forall k | 0 < k < |now|
      ensures Continues(now[k - 1], now[k].before) && now[k].tr < Landing(now[k - 1])
    {
      assert k < |rounds| ==> now[k] == rounds[k] && now[k - 1] == rounds[k - 1];
    }
  }

  /** A round without a jump. */
  lemma StaysThere(rounds: seq<Round>, r: Round, c0: PB, tr0: seq<Elem>)
    requires r.level == -1 && |r.cut.lhs| > 0 && Slack(r.cut, NonFalse(r.tr)) < 0
    ensures StandsAt(rounds + [r], r.cut, r.tr, c0, tr0)
  {
  }

  lemma JumpsThere(rounds: seq<Round>, r: Round, s: Solver, c: PB, c0: PB, tr0: seq<Elem>, F: iset<PB>)
    requires r.level >= 0 && GoesOn(s, r.cut, c, F, r.tr, r.level) && |r.cut.lhs| > 0
    requires Slack(r.cut, NonFalse(LevelPrefix(r.tr, r.level))) < 0
    ensures StandsAt(rounds + [r], c, s.model.modelStack, c0, tr0)
  {
  }

  lemma CutOfRound(r: Round, F: iset<PB>)
    requires IsRoundCut(r, F)
    ensures Slack(r.cut, NonFalse(r.tr)) < 0
  {
  }

  lemma WithLevel(r: Round, F: iset<PB>, d: int)
    requires IsRoundCut(r, F) && d >= -1 && (!r.clash ==> d == -1)
    requires |r.cut.lhs| > 0 ==> LeastLevel(r.cut, r.tr, d)
    ensures RoundOk(r.(level := d), F)
  {
  }

  lemma QuietIsLeast(c: PB, tr: seq<Elem>)
    ensures Quiet(c, tr) <==> LeastLevel(c, tr, -1)
  {
  }

  lemma EndsAtRoot(rounds: seq<Round>, c: PB, tr: seq<Elem>, c0: PB, tr0: seq<Elem>)
    requires StandsAt(rounds, c, tr, c0, tr0) && LevelOf(tr) == 0 && LevelOf(tr0) > 0
    ensures EndsIn(rounds, Refuted)
  {
  }

  lemma EndsAfterJump(rounds: seq<Round>, r: Round, out: Outcome)
    requires |r.cut.lhs| > 0 && r.level >= 0 && (out == Learned || out == Refuted)
    requires out == Learned <==> Slack(r.cut, NonFalse(LevelPrefix(r.tr, r.level))) >= 0
    requires out == Refuted ==> LevelOf(LevelPrefix(r.tr, r.level)) == 0
    ensures EndsIn(rounds + [r], out)
  {
  }

  lemma RootLevel(tr: seq<Elem>, d: nat)
    requires LevelsGrow(tr) && d == 0
    ensures LevelOf(LevelPrefix(tr, d)) == 0
  {
    LevelPrefixLevel(tr, 0);
  }

  /** conflictAnalysisAndBackjump.  It never has to explain a decision, and every round jumps exactly when its cut
      conflicts or propagates at a lower level, and then to the least such level.  The run ends at the first cut that
      is inconsistent, falsified at level 0, or not falsified at its level: this one is learned, and the solver is
      ready to propagate on a whole-level prefix of the trail extended by something new. */
  method AnalyseAndBackjump(s: Solver, falsified: PB, ghost F: iset<PB>)
    returns (out: Outcome, shared: seq<PB>, ghost rounds: seq<Round>)
    requires Underway(s) && Knows(s, F) && s.conflict != NoConflict && s.model.decisionLevel > 0
    requires Positive(falsified.lhs) && DistinctVars(falsified.lhs) && KnownVars(falsified.lhs, s.model.numVars)
    requires Implied(F, falsified) && Slack(falsified, NonFalse(s.model.modelStack)) < 0
    requires Quiet(falsified, s.model.modelStack)
    modifies s, s.model, s.store
    ensures out == Refuted || out == Learned
    ensures out == Refuted ==> Unsatisfiable(F) && s.conflict != NoConflict && LevelOf(s.model.modelStack) == 0
    ensures out == Learned ==> Ready(s) && Knows(s, F)
    ensures IsRun(rounds, SortedPB(falsified), old(s.model.modelStack), F) && EndsIn(rounds, out)
    ensures out == Learned ==> Asserted(old(s.model.modelStack), rounds[|rounds| - 1].level, s.model.modelStack)
    ensures DatabaseGrew(s, old(DbOf(s)))
    ensures Shareable(shared, F)
  {
    hide Underway, Ready, Knows, Implied, Unsatisfiable, LeastLevel, Asserted, Solver.Valid, Model.Valid, Weight,
         NonFalse, GoesOn, SortedPB, LevelPrefix, BinsGrow, Quiet, IsRun, StandsAt, IsRoundCut, RoundOk, EndsIn;
    UnderwayIsValid(s);
    ghost var tr0 := s.model.modelStack;
    ghost var d0 := DbOf(s);
    ValidLevels(s);
    GrewSelf(s);
    shared, rounds := [], [];
    var c := SortedPB(falsified);
    ghost var c0 := c;
    SortedFacts(falsified, s.model.numVars);
    SameSlackImplied(F, falsified, c);
    SortedIsQuiet(falsified, tr0, s.model.numVars);
    NoRounds(c0, tr0, F);
    while true
      invariant Underway(s) && Knows(s, F) && s.conflict != NoConflict && s.model.Valid() && Conflicting(s, c, F)
      invariant s.model.modelStack <= tr0 && Shareable(shared, F) && DatabaseGrew(s, d0)
      invariant Quiet(c, s.model.modelStack)
      invariant IsRun(rounds, c0, tr0, F) && StandsAt(rounds, c, s.model.modelStack, c0, tr0)
      decreases |s.model.modelStack|
    {
      var cut, clash;
      ghost var r, tr1 := Round(c, c, Parents(c, 0, c, 0), c, false, tr0, -1), s.model.modelStack;
      out, cut, clash, r := ResolveRound(s, c, F);
      UnderwayIsValid(s);
      if out != Again {
        EndsAtRoot(rounds, c, tr1, c0, tr0);
        return;
      }
      CutOfRound(r, F);
      if |cut.lhs| == 0 {
        InconsistentCut(cut, F);
        WithLevel(r, F, -1);
        RunGrows(rounds, r.(level := -1), c, tr1, c0, tr0, F);
        rounds := rounds + [r.(level := -1)];
        EndsInconsistent(rounds);
        ToRoot(s);
        return Refuted, shared, rounds;
      }
      c := cut;
      var dl := -1;
      QuietIsLeast(c, s.model.modelStack);
      if clash {
        dl := LowestLevel(s.model, c);
      }
      WithLevel(r, F, dl);
      r := r.(level := dl);
      RunGrows(rounds, r, r.before, tr1, c0, tr0, F);
      if dl == -1 {
        StaysThere(rounds, r, c0, tr0);
      } else {
        ghost var tr, d1 := s.model.modelStack, DbOf(s);
        LeastIsNatural(c, tr, dl);
        out, c, shared := Backjump(s, c, dl, shared, F);
        GrewTrans(s, d0, d1);
        if out != Again {
          BackjumpedFrom(tr0, tr, dl, s.model.modelStack);
          if out == Refuted {
            ValidPrefix(tr0, tr);
            RootLevel(tr, dl);
          }
          EndsAfterJump(rounds, r, out);
          rounds := rounds + [r];
          return;
        }
        LevelPrefixIsInitial(tr, dl);
        GoesOnMeans(s, cut, c, F, tr, dl);
        JumpsThere(rounds, r, s, c, c0, tr0, F);
      }
      rounds := rounds + [r];
    }
  }

  lemma NoRounds(c0: PB, tr0: seq<Elem>, F: iset<PB>)
    ensures IsRun([], c0, tr0, F) && StandsAt([], c0, tr0, c0, tr0)
  {
  }

  lemma EndsInconsistent(rounds: seq<Round>)
    requires |rounds| > 0 && |rounds[|rounds| - 1].cut.lhs| == 0
    ensures EndsIn(rounds, Refuted)
  {
  }

  lemma ValidPrefix(tr0: seq<Elem>, tr: seq<Elem>)
    requires LevelsGrow(tr0) && tr <= tr0
    ensures LevelsGrow(tr)
  {
  }

  lemma GrewSelf(s: Solver)
    ensures DatabaseGrew(s, DbOf(s))
  {
  }

  lemma GrewTrans(s: Solver, d: Db, d1: Db)
    requires d.pbs <= d1.pbs && d.clauses <= d1.clauses && BinsGrow(d.gen, d1.gen) && DatabaseGrew(s, d1)
    requires InitialKept(d.learnedPB, d1.learnedPB, |d.pbs|)
             && InitialKept(d.learnedClauses, d1.learnedClauses, |d.clauses|)
    ensures DatabaseGrew(s, d)
  {
  }

  lemma ValidLevels(s: Solver)
    requires s.Valid()
    ensures LevelsGrow(s.model.modelStack)
  {
  }

  lemma SameSlackImplied(F: iset<PB>, c: PB, d: PB)
    requires Implied(F, c) && forall L: Lits :: Slack(d, L) == Slack(c, L)
    ensures Implied(F, d)
  {
    forall a: Lits | Total(a) && Holds(F, a)
      ensures Sat(d, a)
    {
      assert Sat(c, a);
    }
  }

  lemma LeastIsNatural(c: PB, tr: seq<Elem>, dl: int)
    requires LeastLevel(c, tr, dl) && dl != -1
    ensures 0 <= dl < LevelOf(tr)
  {
  }

  lemma GoesOnMeans(s: Solver, c: PB, c': PB, F: iset<PB>, tr: seq<Elem>, d: nat)
    requires GoesOn(s, c, c', F, tr, d)
    ensures Underway(s) && Knows(s, F) && s.conflict != NoConflict && s.model.Valid() && Conflicting(s, c', F)
    ensures s.model.modelStack == LevelPrefix(tr, d) && Quiet(c', s.model.modelStack)
  {
  }

  /** backjumpToDL(0) after an inconsistent cut. */
  method ToRoot(s: Solver)
    requires Underway(s)
    modifies s`sumOfWatches, s`numOfBackjump, s.model
    ensures LevelOf(s.model.modelStack) == 0
  {
    ghost var tr := s.model.modelStack;
    s.BackjumpTo(0);
    LevelPrefixLevel(tr, 0);
  }

  lemma BackjumpedFrom(tr0: seq<Elem>, tr: seq<Elem>, d: nat, now: seq<Elem>)
    requires tr <= tr0 && LevelsGrow(tr0)
    ensures Asserted(tr, d, now) ==> Asserted(tr0, d, now)
  {
    if Asserted(tr, d, now) {
      LowerLevelOfPrefix(tr0, tr, d);
      assert tr[|tr| - 1] == tr0[|tr| - 1];
    }
  }
}
