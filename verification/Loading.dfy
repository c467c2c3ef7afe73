/** Reading a problem into the solver: the normal form of a linear constraint (PBProblem::addConstraint, Parser.cpp),
    the loading loop of main.cpp and NativeBackend.cpp, and the objective function (addObjectiveFunction,
    Solver.cpp). */
module Loading {
  import opened Arith
  import opened PBCore
  import opened Normalise
  import opened Trail
  import opened Watches
  import opened Engine
  import opened Repair
  import opened BackjumpLevel
  import opened Closure
  import opened Propagation
  import opened PropagateLoop
  import opened LemmaShortening
  import opened Database
  import opened ClauseLearning
  import opened Roots
  import opened Units
  import opened ConflictAnalysis
  import opened Coverage
  import opened Cleaning
  import opened Search

  // ----- linear constraints and their normal form -----

  /** The value of a linear form over variables. */
  ghost function LinearValue(coeffs: seq<int>, vars: seq<int>, a: Lits): int
    requires |coeffs| == |vars|
  {
    if |coeffs| == 0 then 0
    else LinearValue(coeffs[..|coeffs| - 1], vars[..|vars| - 1], a)
         + (if vars[|vars| - 1] in a then coeffs[|coeffs| - 1] else 0)
  }

  lemma LinearStep(coeffs: seq<int>, vars: seq<int>, i: nat, a: Lits)
    requires |coeffs| == |vars| && i < |coeffs|
    ensures LinearValue(coeffs[..i + 1], vars[..i + 1], a)
         == LinearValue(coeffs[..i], vars[..i], a) + (if vars[i] in a then coeffs[i] else 0)
  {
    assert coeffs[..i + 1][..i] == coeffs[..i] && vars[..i + 1][..i] == vars[..i];
  }

  /** Over 0/1 points the terms with bound are worth sign times the linear form, relative to rhs. */
  ghost predicate NormalForm(lhs: seq<Term>, bound: int, coeffs: seq<int>, vars: seq<int>, rhs: int)
    requires |coeffs| == |vars|
  {
    forall a: Lits :: Total(a) ==> Weight(lhs, a) - bound == LinearValue(coeffs, vars, a) - rhs
  }

  lemma NormalStep(lhs: seq<Term>, bound: int, coeffs: seq<int>, vars: seq<int>, rhs: int, i: nat)
    requires |coeffs| == |vars| && i < |coeffs| && vars[i] > 0
    requires NormalForm(lhs, bound, coeffs[..i], vars[..i], rhs)
    ensures coeffs[i] == 0 ==> NormalForm(lhs, bound, coeffs[..i + 1], vars[..i + 1], rhs)
    ensures coeffs[i] > 0 ==> NormalForm(lhs + [Term(coeffs[i], vars[i])], bound, coeffs[..i + 1], vars[..i + 1], rhs)
    ensures coeffs[i] < 0 ==>
              NormalForm(lhs + [Term(-coeffs[i], -vars[i])], bound - coeffs[i], coeffs[..i + 1], vars[..i + 1], rhs)
  {
    forall a: Lits | Total(a)
      ensures LinearValue(coeffs[..i + 1], vars[..i + 1], a)
           == LinearValue(coeffs[..i], vars[..i], a) + (if vars[i] in a then coeffs[i] else 0)
      ensures Weight(lhs + [Term(coeffs[i], vars[i])], a) == Weight(lhs, a) + (if vars[i] in a then coeffs[i] else 0)
      ensures Weight(lhs + [Term(-coeffs[i], -vars[i])], a) == Weight(lhs, a) + (if vars[i] in a then 0 else -coeffs[i])
    {
      LinearStep(coeffs, vars, i, a);
      WeightSnoc(lhs, Term(coeffs[i], vars[i]), a);
      WeightSnoc(lhs, Term(-coeffs[i], -vars[i]), a);
    }
  }

  function Negate(coeffs: seq<int>): (r: seq<int>)
    ensures |r| == |coeffs|
  {
    seq(|coeffs|, i requires 0 <= i < |coeffs| => -coeffs[i])
  }

  lemma {:induction false} NegateValue(coeffs: seq<int>, vars: seq<int>, a: Lits)
    requires |coeffs| == |vars|
    ensures LinearValue(Negate(coeffs), vars, a) == -LinearValue(coeffs, vars, a)
  {
    if |coeffs| > 0 {
      var u := coeffs[..|coeffs| - 1];
      assert Negate(coeffs)[..|coeffs| - 1] == Negate(u);
      NegateValue(u, vars[..|vars| - 1], a);
    }
  }

  /** The terms of the normal form: a negative coefficient goes to the complement. */
  function NormalTerms(coeffs: seq<int>, vars: seq<int>): seq<Term>
    requires |coeffs| == |vars|
  {
    if |coeffs| == 0 then []
    else
      var c, v := coeffs[|coeffs| - 1], vars[|vars| - 1];
      NormalTerms(coeffs[..|coeffs| - 1], vars[..|vars| - 1])
      + if c > 0 then [Term(c, v)] else if c < 0 then [Term(-c, -v)] else []
  }

  /** What the negative coefficients add to the bound. */
  function NegativePart(coeffs: seq<int>): int {
    if |coeffs| == 0 then 0 else NegativePart(coeffs[..|coeffs| - 1]) + Max(0, -coeffs[|coeffs| - 1])
  }

  function Normalised(coeffs: seq<int>, vars: seq<int>, rhs: int, isGeq: bool): PB
    requires |coeffs| == |vars|
  {
    var signed := if isGeq then coeffs else Negate(coeffs);
    PB(NormalTerms(signed, vars), (if isGeq then rhs else -rhs) + NegativePart(signed))
  }

  lemma NormalTermsStep(coeffs: seq<int>, vars: seq<int>, i: nat)
    requires |coeffs| == |vars| && i < |coeffs|
    ensures NormalTerms(coeffs[..i + 1], vars[..i + 1])
         == NormalTerms(coeffs[..i], vars[..i])
            + if coeffs[i] > 0 then [Term(coeffs[i], vars[i])] else if coeffs[i] < 0 then [Term(-coeffs[i], -vars[i])]
                else []
    ensures NegativePart(coeffs[..i + 1]) == NegativePart(coeffs[..i]) + Max(0, -coeffs[i])
  {
    assert coeffs[..i + 1][..i] == coeffs[..i] && vars[..i + 1][..i] == vars[..i];
  }

  /** No variable has two non-zero coefficients. */
  ghost predicate EachOnce(coeffs: seq<int>, vars: seq<int>) {
    |coeffs| == |vars|
    && forall i, j :: 0 <= i < j < |coeffs| && coeffs[i] != 0 && coeffs[j] != 0 ==> vars[i] != vars[j]
  }

  lemma {:induction false} NormalTermsDistinct(coeffs: seq<int>, vars: seq<int>)
    requires EachOnce(coeffs, vars) && forall i :: 0 <= i < |vars| ==> vars[i] > 0
    ensures DistinctVars(NormalTerms(coeffs, vars))
    ensures forall k :: 0 <= k < |NormalTerms(coeffs, vars)| ==>
                          exists i :: 0 <= i < |coeffs| && coeffs[i] != 0
                              && Var(NormalTerms(coeffs, vars)[k].lit) == vars[i]
    ensures (exists i :: 0 <= i < |coeffs| && coeffs[i] != 0) ==> |NormalTerms(coeffs, vars)| > 0
  {
    if |coeffs| > 0 {
      var n := |coeffs| - 1;
      var u := NormalTerms(coeffs[..n], vars[..n]);
      NormalTermsDistinct(coeffs[..n], vars[..n]);
      forall k | 0 <= k < |u|
        ensures exists i :: 0 <= i < n && coeffs[i] != 0 && Var(u[k].lit) == vars[i]
      {
        var i :| 0 <= i < n && coeffs[..n][i] != 0 && Var(u[k].lit) == vars[..n][i];
        assert coeffs[i] != 0 && Var(u[k].lit) == vars[i];
      }
      if i :| 0 <= i < n && coeffs[i] != 0 {
        assert coeffs[..n][i] != 0;
      }
    }
  }

  ghost predicate KnownVariables(vars: seq<int>, n: nat) {
    forall i :: 0 <= i < |vars| ==> 1 <= vars[i] <= n
  }

  /** What the input asks for. */
  ghost predicate Asks(coeffs: seq<int>, vars: seq<int>, rhs: int, isGeq: bool, a: Lits)
    requires |coeffs| == |vars|
  {
    if isGeq then LinearValue(coeffs, vars, a) >= rhs else LinearValue(coeffs, vars, a) <= rhs
  }

  /** addConstraint: positive coefficients, a greater-or-equal, and nothing at all for a tautology. */
  method AddConstraint(coeffs: seq<int>, vars: seq<int>, rhs: int, isGeq: bool, ghost n: nat)
    returns (c: PB, kept: bool)
    requires |coeffs| == |vars| && KnownVariables(vars, n)
    ensures Positive(c.lhs) && KnownVars(c.lhs, n)
    ensures forall a: Lits :: Total(a) ==> (Sat(c, a) <==> Asks(coeffs, vars, rhs, isGeq, a))
    ensures c == Normalised(coeffs, vars, rhs, isGeq) && (kept <==> c.rhs >= 1)
    ensures !kept ==> forall a: Lits :: Total(a) ==> Asks(coeffs, vars, rhs, isGeq, a)
  {
    hide Weight, LinearValue, NormalTerms, NegativePart, NormalForm, Positive, KnownVars, KnownVariables, Asks, Negate;
    var finalRhs := if isGeq then rhs else -rhs;
    ghost var signed := if isGeq then coeffs else Negate(coeffs);
    ghost var bound := finalRhs;
    var lhs: seq<Term> := [];
    NormalStart(bound, signed, vars);
    NegateAt(coeffs);
    NothingKnown(n);
    for i := 0 to |coeffs|
      invariant Positive(lhs) && KnownVars(lhs, n)
      invariant NormalForm(lhs, finalRhs, signed[..i], vars[..i], bound)
      invariant lhs == NormalTerms(signed[..i], vars[..i]) && finalRhs == bound + NegativePart(signed[..i])
    {
      NormalTermsStep(signed, vars, i);
      var coef := if isGeq then coeffs[i] else -coeffs[i];
      KnownAt(vars, i, n);
      NormalStep(lhs, finalRhs, signed, vars, bound, i);
      KnownSnoc(lhs, coef, vars[i], n);
      if coef < 0 {
        finalRhs := finalRhs - coef;
        lhs := lhs + [Term(-coef, -vars[i])];
      } else if coef > 0 {
        lhs := lhs + [Term(coef, vars[i])];
      }
    }
    assert signed[..|coeffs|] == signed && vars[..|coeffs|] == vars;
    c, kept := PB(lhs, finalRhs), finalRhs >= 1;
    NormalMeaning(c, coeffs, vars, rhs, isGeq);
  }

  lemma NegateAt(coeffs: seq<int>)
    ensures |Negate(coeffs)| == |coeffs| && forall i :: 0 <= i < |coeffs| ==> Negate(coeffs)[i] == -coeffs[i]
  {
  }

  lemma NothingKnown(n: nat)
    ensures Positive([]) && KnownVars([], n)
  {
  }

  lemma KnownAt(vars: seq<int>, i: nat, n: nat)
    requires KnownVariables(vars, n) && i < |vars|
    ensures 1 <= vars[i] <= n
  {
  }

  lemma KnownSnoc(lhs: seq<Term>, coef: int, v: int, n: nat)
    requires Positive(lhs) && KnownVars(lhs, n) && 1 <= v <= n
    ensures coef > 0 ==> Positive(lhs + [Term(coef, v)]) && KnownVars(lhs + [Term(coef, v)], n)
    ensures coef < 0 ==> Positive(lhs + [Term(-coef, -v)]) && KnownVars(lhs + [Term(-coef, -v)], n)
  {
  }

  lemma NormalMeaning(c: PB, coeffs: seq<int>, vars: seq<int>, rhs: int, isGeq: bool)
    requires |coeffs| == |vars| && Positive(c.lhs)
    requires NormalForm(c.lhs, c.rhs, if isGeq then coeffs else Negate(coeffs), vars, if isGeq then rhs else -rhs)
    ensures forall a: Lits :: Total(a) ==> (Sat(c, a) <==> Asks(coeffs, vars, rhs, isGeq, a))
    ensures c.rhs < 1 ==> forall a: Lits :: Total(a) ==> Asks(coeffs, vars, rhs, isGeq, a)
  {
    hide Weight, LinearValue;
    forall a: Lits | Total(a)
      ensures Sat(c, a) <==> Asks(coeffs, vars, rhs, isGeq, a)
      ensures c.rhs < 1 ==> Asks(coeffs, vars, rhs, isGeq, a)
    {
      NegateValue(coeffs, vars, a);
      WeightAtMostSum(c.lhs, a);
    }
  }

  lemma NormalStart(rhs: int, coeffs: seq<int>, vars: seq<int>)
    requires |coeffs| == |vars|
    ensures NormalForm([], rhs, coeffs[..0], vars[..0], rhs)
    ensures NormalTerms(coeffs[..0], vars[..0]) == [] && NegativePart(coeffs[..0]) == 0
  {
  }

  // ----- one constraint enters the solver -----

  /** The solver while constraints are loaded: level 0, nothing learned, and the formula is what was loaded. */
  ghost predicate Loadable(s: Solver, F: iset<PB>)
    reads s, s.model, s.store
  {
    Consistent(s, F, F) && LevelOf(s.model.modelStack) == 0 && s.learnedPB == {}
  }

  lemma FalsifiedKept(conflict: Conflict, pbs: seq<PB>, clauses: seq<seq<int>>, gen: map<int, seq<GenElem>>, n: nat,
                      tr: seq<Elem>, pbs': seq<PB>, gen': map<int, seq<GenElem>>, tr': seq<Elem>)
    requires Falsified(conflict, pbs, clauses, gen, n, tr) && pbs <= pbs' && BinsGrow(gen, gen') && Extends(tr, tr')
    requires forall k :: 0 <= k < |pbs| ==> Positive(pbs[k].lhs)
    ensures Falsified(conflict, pbs', clauses, gen', n, tr')
  {
    NonFalseShrinks(tr', |tr|);
    match conflict
    case PBConflict(k) => WeightMono(pbs[k].lhs, NonFalse(tr'), NonFalse(tr));
    case ClauseConflict(_) =>
    case BinConflict(l1, l2) => assert Bin(l2) in gen[l1];
  }

  /** propagateInitialConstraintCounter with a conflict already found: the conflict stays, or a new one takes its
      place. */
  method SettleInConflict(s: Solver, k: nat)
    requires Sound(s) && s.conflict != NoConflict && ConflictIsReal(s) && k < |s.constraintsPB|
    modifies s`maxWIdx, s`stamp, s`conflict, s.model
    ensures Sound(s) && Extends(old(s.model.modelStack), s.model.modelStack)
    ensures s.conflict != NoConflict && ConflictIsReal(s)
  {
    hide ReasonsOk, TrailOk, Mirrors, ClausesOk, ListsWatch, ListsOk, BinsKnown, LevelsClosed,
         LowerPropagated, BinsOk, WatchesOk, IndicesOk, Pending, NonFalse, Extends, Settled, Falsified;
    ghost var tr, lp := s.model.modelStack, s.model.lastPropagated;
    ghost var N := Pending(tr, lp);
    assert CounterOk(s.constraintsPB[k], s.sumOfWatches[k], N);
    assert Stored(s.constraintsPB[k], s.model.numVars);
    SlackAtMostPending(s.constraintsPB[k], tr, lp);
    ConstraintsPositive(s);
    var clash := VisitEntry(s, k);
    ghost var tr' := s.model.modelStack;
    PendingExtends(tr, tr', lp);
    BinsExtend(tr, tr', lp + 1, s.genWatchList);
    WatchesExtend(tr, tr', lp + 1, s.store.clauses);
    LowerExtends(tr, tr', lp);
    LevelsClosedExtends(s.constraintsPB, tr, tr');
    if clash {
      s.conflict := PBConflict(k);
      SlackExtends(s.constraintsPB[k], tr, tr');
      ClashIsReal(s, k, N);
    } else {
      FalsifiedKept(s.conflict, s.constraintsPB, s.store.clauses, s.genWatchList, s.model.numVars, tr, s.constraintsPB,
                    s.genWatchList, tr');
    }
  }

  lemma ClashIsReal(s: Solver, k: nat, N: Lits)
    requires s.conflict == PBConflict(k) && k < |s.constraintsPB|
             && Slack(s.constraintsPB[k], NonFalse(s.model.modelStack)) < 0
    ensures ConflictIsReal(s)
  {
  }

  lemma ConstraintsPositive(s: Solver)
    requires s.Valid()
    ensures forall k :: 0 <= k < |s.constraintsPB| ==> Positive(s.constraintsPB[k].lhs)
  {
  }

  lemma NoneBelowRoot(c: PB, tr: seq<Elem>)
    ensures NoneBelow(c, tr, 0)
  {
  }

  /** addAndPropagatePBConstraint on an input constraint, whether or not a conflict was already found. */
  method AddLoaded(s: Solver, d: PB)
    requires Sound(s) && LevelOf(s.model.modelStack) == 0 && Stored(d, s.model.numVars)
    requires s.conflict == NoConflict ==> Ready(s)
    requires s.conflict != NoConflict ==> ConflictIsReal(s)
    modifies s`occurLists, s`genWatchList, s`sumOfWatches, s`constraintsPB, s`maxWIdx, s`stamp, s`conflict, s.model
    ensures Sound(s) && s.constraintsPB == old(s.constraintsPB) + [d] && GenGrows(old(s.genWatchList), s.genWatchList)
    ensures Extends(old(s.model.modelStack), s.model.modelStack)
    ensures s.conflict == NoConflict ==> Ready(s)
    ensures s.conflict != NoConflict ==> ConflictIsReal(s)
  {
    hide Sound, Solver.Valid, Solver.Closed, Falsified, NoneBelow, Stored, Extends, GenGrows, BinsGrow;
    ghost var tr, gen, pbs := s.model.modelStack, s.genWatchList, s.constraintsPB;
    SoundIsValid(s);
    NoneBelowRoot(d, tr);
    if s.conflict == NoConflict {
      AddAndPropagate(s, d);
    } else {
      ConstraintsPositive(s);
      ExtendsSelf(tr);
      AddPBConstraintCounter(s, d);
      FalsifiedKept(s.conflict, pbs, s.store.clauses, gen, s.model.numVars, tr, s.constraintsPB, s.genWatchList, tr);
      SettleInConflict(s, |s.constraintsPB| - 1);
    }
  }

  lemma LoadedGrew(s: Solver, d: PB, old_: Db)
    requires DbOf(s) == old_.(pbs := old_.pbs + [d], gen := s.genWatchList) && BinsGrow(old_.gen, s.genWatchList)
    ensures DatabaseGrew(s, old_)
  {
    hide BinsGrow;
  }

  /** The formula grows by the constraint that was entered. */
  lemma CoversLoaded(s: Solver, F: iset<PB>, d: PB)
    requires Covers(s, F) && |s.constraintsPB| > 0 && s.constraintsPB[|s.constraintsPB| - 1] == d && s.learnedPB == {}
    ensures Covers(s, F + iset{d})
  {
    forall a: Lits | Total(a) && DbSat(DbOf(s), RootLits(s.model.modelStack), s.model.numVars, a)
      ensures Holds(F + iset{d}, a)
    {
      assert Sat(s.constraintsPB[|s.constraintsPB| - 1], a);
      assert Holds(F, a);
    }
  }

  lemma GrownStronger(s: Solver, F: iset<PB>, d: PB)
    requires Knows(s, F)
    ensures Knows(s, F + iset{d}) && Implied(F + iset{d}, d)
  {
    var G := F + iset{d};
    assert forall c :: c in F ==> c in G;
    forall a: Lits | Holds(G, a)
      ensures Holds(F, a) && Sat(d, a)
    {
      assert d in G;
    }
    KnowsStronger(s, F, G);
  }

  /** Loading keeps the solver consistent with everything that was entered. */
  method EnterLoaded(s: Solver, d: PB, ghost F: iset<PB>)
    requires Loadable(s, F) && Stored(d, s.model.numVars)
    modifies s`occurLists, s`genWatchList, s`sumOfWatches, s`constraintsPB, s`maxWIdx, s`stamp, s`conflict, s.model
    ensures Loadable(s, F + iset{d})
  {
    hide Sound, Solver.Valid, Solver.Closed, Falsified, Stored, Extends, GenGrows, BinsGrow, DbCovers, RootLits,
         Implied, DatabaseImplied, RootsImplied, Ready;
    ghost var tr, pbs, db, G := s.model.modelStack, s.constraintsPB, DbOf(s), F + iset{d};
    GrownStronger(s, F, d);
    SoundIsValid(s);
    CleanedOnTrail(s);
    KnowsParts(s, G);
    AddLoaded(s, d);
    GenGrowsBins(db.gen, s.genWatchList);
    LoadedGrew(s, d, db);
    ExtendsIsPrefix(tr, s.model.modelStack);
    RootsExtended(tr, s.model.modelStack);
    CoversGrown(s, F, db, RootLits(tr));
    CoversLoaded(s, F, d);
    DatabaseGrows(s, G, pbs, db.gen, d);
    SoundIsValid(s);
    RootsExtend(s, G, tr);
    SameLevel(tr, s.model.modelStack);
  }

  lemma SameLevel(tr: seq<Elem>, tr': seq<Elem>)
    requires Extends(tr, tr')
    ensures LevelOf(tr') == LevelOf(tr)
  {
  }

  // ----- what loading makes of a constraint -----

  /** The same constraint over 0/1 points. */
  ghost predicate SamePoints(c: PB, d: PB) {
    forall a: Lits :: Total(a) ==> (Sat(c, a) <==> Sat(d, a))
  }

  ghost predicate MentionsLit(s: seq<Term>, l: int) {
    exists i :: 0 <= i < |s| && s[i].lit == l
  }

  ghost predicate Opposes(s: seq<Term>, l: int) {
    l != 0 && (MentionsLit(s, -l) || (l > 0 && !MentionsLit(s, l)))
  }

  /** The 0/1 point that makes every literal of s false. */
  ghost function AllFalsePoint(s: seq<Term>): Lits {
    iset l: int | Opposes(s, l)
  }

  lemma AllFalseTotal(s: seq<Term>)
    requires Positive(s) && DistinctVars(s)
    ensures Total(AllFalsePoint(s)) && forall i :: 0 <= i < |s| ==> s[i].lit !in AllFalsePoint(s)
  {
    var a := AllFalsePoint(s);
    forall l: int | l != 0 && MentionsLit(s, l)
      ensures !MentionsLit(s, -l) && l !in a && -l in a
    {
      var i :| 0 <= i < |s| && s[i].lit == l;
      forall j | 0 <= j < |s|
        ensures s[j].lit != -l
      {
        assert j != i ==> Var(s[j].lit) != Var(s[i].lit);
      }
      assert MentionsLit(s, -(-l));
    }
    forall i | 0 <= i < |s|
      ensures s[i].lit !in a
    {
      assert MentionsLit(s, s[i].lit);
    }
  }

  lemma {:induction false} NothingWeighs(s: seq<Term>, L: Lits)
    requires forall i :: 0 <= i < |s| ==> s[i].lit !in L
    ensures Weight(s, L) == 0
  {
    if |s| > 0 {
      NothingWeighs(s[..|s| - 1], L);
    }
  }

  /** With a negative right-hand side the entered clause excludes a point of the input constraint. */
  lemma PointLost(b: PB)
    requires Positive(b.lhs) && DistinctVars(b.lhs) && b.rhs < 0
    ensures !SamePoints(PB(DividedByItself(b.lhs), 1), b)
  {
    var a := AllFalsePoint(b.lhs);
    AllFalseTotal(b.lhs);
    NothingWeighs(b.lhs, a);
    NothingWeighs(DividedByItself(b.lhs), a);
    assert Sat(b, a) && !Sat(PB(DividedByItself(b.lhs), 1), a);
  }

  /** What is stored for the merged constraint b, sorted by coefficient. */
  function Entered(b: PB): PB
    requires b.rhs != 0
  {
    if b.rhs >= 1 then Simplified(b) else PB(DividedByItself(b.lhs), 1)
  }

  /** The source needs a positive right-hand side here, and only then is the constraint kept. */
  lemma EnteredExactly(b: PB, n: nat)
    requires Positive(b.lhs) && DistinctVars(b.lhs) && DecreasingCoefs(b.lhs) && KnownVars(b.lhs, n)
    requires |b.lhs| > 0 && b.rhs != 0
    ensures Stored(Entered(b), n) && (SamePoints(Entered(b), b) <==> b.rhs >= 1)
  {
    hide NormSeq, DivisorFor;
    if b.rhs >= 1 {
      SimplifiedShape(b);
      SimplifiedDecreasing(b);
      forall a: Lits
        ensures Sat(Simplified(b), a) <==> Sat(b, a)
      {
        SimplifiedExact(b, a);
      }
    } else {
      PointLost(b);
    }
  }

  lemma WeightOfThree(t: Term, u: Term, w: Term, L: Lits)
    ensures Weight([w], L) == (if w.lit in L then w.coef else 0)
    ensures Weight([t, u, w], L) == (if t.lit in L then t.coef else 0) + (if u.lit in L then u.coef else 0)
                                    + (if w.lit in L then w.coef else 0)
  {
    assert [w] == [] + [w] && [t, u, w] == [t, u] + [w] && [t, u] == [t] + [u] && [t] == [] + [t];
    WeightSnoc([], w, L);
    WeightSnoc([], t, L);
    WeightSnoc([t], u, L);
    WeightSnoc([t, u], w, L);
  }

  lemma NormalisedExample()
    ensures Normalised([3, -3, 1], [1, 1, 2], -1, true) == PB([Term(3, 1), Term(3, -1), Term(1, 2)], 2)
  {
    var s, v := [3, -3, 1], [1, 1, 2];
    NormalTermsStep(s, v, 0);
    NormalTermsStep(s, v, 1);
    NormalTermsStep(s, v, 2);
    assert s[..3] == s && v[..3] == v && s[..0] == [] && v[..0] == [];
  }

  /** Written as 3 x1 - 3 x1 + x2 >= -1, which holds everywhere: the normal form is 3 x1 + 3 not-x1 + x2 >= 2, and it is
      entered as x2 >= 1. */
  lemma TautologyBecomesUnit()
    ensures var c, b := Normalised([3, -3, 1], [1, 1, 2], -1, true), PB([Term(1, 2)], -1);
            c.rhs >= 1 && SameSlack(b, c) && Entered(b) == PB([Term(1, 2)], 1) && !SamePoints(Entered(b), c)
  {
    NormalisedExample();
    var c, b := PB([Term(3, 1), Term(3, -1), Term(1, 2)], 2), PB([Term(1, 2)], -1);
    forall L: Lits | Total(L)
      ensures Slack(b, L) == Slack(c, L)
    {
      WeightOfThree(Term(3, 1), Term(3, -1), Term(1, 2), L);
      assert 1 in L <==> -1 !in L;
    }
    assert DividedByItself(b.lhs) == [Term(1, 2)];
    PointLost(b);
    SamePointsMerged(Entered(b), b, c);
  }

  /** Merged: distinct variables, largest coefficient first, the same slack on every 0/1 point. */
  ghost predicate MergedFrom(b: PB, c: PB, n: nat) {
    Positive(b.lhs) && DistinctVars(b.lhs) && DecreasingCoefs(b.lhs) && KnownVars(b.lhs, n) && SameSlack(b, c)
  }

  lemma SamePointsMerged(d: PB, b: PB, c: PB)
    requires SameSlack(b, c)
    ensures SamePoints(d, b) <==> SamePoints(d, c)
  {
    forall a: Lits | Total(a)
      ensures Sat(b, a) <==> Sat(c, a)
    {
      assert Slack(b, a) == Slack(c, a);
    }
  }

  lemma MergedKnown(s: seq<Term>, r: seq<Term>, n: nat)
    requires KnownVars(s, n) && VarsFrom(r, s)
    ensures KnownVars(r, n)
  {
    forall i | 0 <= i < |r|
      ensures 1 <= Var(r[i].lit) <= n
    {
      assert MentionsVar(s, Var(r[i].lit));
    }
  }

  lemma MergedSorted(c: PB, v: PB, m: PB, n: nat)
    requires v.lhs == SortByVar(c.lhs) && v.rhs == c.rhs && SameSlack(m, v)
    requires Positive(m.lhs) && Ordered(m.lhs) && KnownVars(m.lhs, n)
    ensures MergedFrom(PB(SortByCoef(m.lhs), m.rhs), c, n)
  {
    hide SortByCoef, SortByVar;
    SortByVarKeeps(c.lhs);
    SortByCoefKeeps(m.lhs);
    SortByCoefOrders(m.lhs);
    RearrangedShape(m.lhs, SortByCoef(m.lhs), n);
    var b := PB(SortByCoef(m.lhs), m.rhs);
    forall a: Lits | Total(a)
      ensures Slack(b, a) == Slack(c, a)
    {
      assert Slack(m, a) == Slack(v, a);
    }
  }

  /** One input constraint: sort, cancel opposite literals, sort by coefficient, simplify, enter, propagate.  The source
      stops at an empty left-hand side (it reads beyond its end) and at a right-hand side of 0 (it divides by it). */
  method LoadConstraint(s: Solver, c: PB, ghost F: iset<PB>) returns (ok: bool, ghost merged: PB)
    requires Loadable(s, F) && Positive(c.lhs) && KnownVars(c.lhs, s.model.numVars)
    modifies s`occurLists, s`genWatchList, s`sumOfWatches, s`constraintsPB, s`maxWIdx, s`stamp, s`conflict, s.model
    ensures MergedFrom(merged, c, s.model.numVars)
    ensures ok <==> |merged.lhs| > 0 && merged.rhs != 0
    ensures ok ==> Loadable(s, F + iset{Entered(merged)})
    ensures ok ==> (SamePoints(Entered(merged), c) <==> merged.rhs >= 1)
  {
    hide Loadable, Stored, MergedFrom, SamePoints, Simplified, Weight, SortByCoef, SortByVar;
    var n := s.model.numVars;
    var wc := new WConstraint(SortByVar(c.lhs), c.rhs);
    SortedForMerging(c.lhs, n);
    ghost var v := wc.Value();
    wc.RemoveDuplicates();
    ghost var m := wc.Value();
    MergedKnown(v.lhs, m.lhs, n);
    MergedSorted(c, v, m, n);
    wc.lhs := SortByCoef(wc.lhs);
    merged := wc.Value();
    if |wc.lhs| == 0 || wc.rhs == 0 {
      return false, merged;
    }
    MergedMeans(merged, c, n);
    EnteredExactly(merged, n);
    SamePointsMerged(Entered(merged), merged, c);
    wc.Simplify();
    EnterLoaded(s, wc.Value(), F);
    ok := true;
  }

  lemma MergedMeans(b: PB, c: PB, n: nat)
    requires MergedFrom(b, c, n)
    ensures Positive(b.lhs) && DistinctVars(b.lhs) && DecreasingCoefs(b.lhs) && KnownVars(b.lhs, n) && SameSlack(b, c)
  {
  }

  lemma SortedForMerging(s: seq<Term>, n: nat)
    requires Positive(s) && KnownVars(s, n)
    ensures Positive(SortByVar(s)) && SortedByVar(SortByVar(s)) && KnownVars(SortByVar(s), n)
  {
    SortByVarKeeps(s);
    SortByVarOrders(s, n);
    RearrangedShape(s, SortByVar(s), n);
  }

  // ----- the whole formula -----

  ghost function Formula(input: seq<PB>): iset<PB> {
    iset c | c in input
  }

  ghost predicate SameModels(F: iset<PB>, G: iset<PB>) {
    forall a: Lits :: Total(a) ==> (Holds(F, a) <==> Holds(G, a))
  }

  lemma SameModelsGrow(F: iset<PB>, input: seq<PB>, c: PB, d: PB)
    requires SameModels(F, Formula(input)) && SamePoints(d, c)
    ensures SameModels(F + iset{d}, Formula(input + [c]))
  {
    var G, H := F + iset{d}, Formula(input + [c]);
    assert forall x :: x in H <==> x in Formula(input) || x == c;
    assert d in G && forall x :: x in F ==> x in G;
    forall a: Lits | Total(a)
      ensures Holds(G, a) <==> Holds(H, a)
    {
      assert Holds(F, a) <==> Holds(Formula(input), a);
      assert Sat(d, a) <==> Sat(c, a);
      assert c in H;
    }
  }

  lemma LoadableSame(s: Solver, F: iset<PB>, G: iset<PB>)
    requires Loadable(s, F) && SameModels(F, G)
    ensures Loadable(s, G)
  {
    hide Sound, Ready, ConflictIsReal, DbSat, Total, RootLits;
    forall c: PB | Implied(F, c)
      ensures Implied(G, c)
    {
    }
  }

  ghost predicate AllKept(merged: seq<PB>) {
    forall i :: 0 <= i < |merged| ==> merged[i].rhs >= 1
  }

  lemma FreshIsLoadable(s: Solver)
    requires s.Valid() && s.Counters() && s.Indices() && s.Closed() && s.conflict == NoConflict
    requires s.model.modelStack == [] && s.constraintsPB == [] && s.store.clauses == [] && s.learnedPB == {}
    requires forall l :: l in s.genWatchList ==> s.genWatchList[l] == []
    ensures Loadable(s, Formula([]))
  {
    assert forall l, o :: l in s.genWatchList ==> Bin(o) !in s.genWatchList[l];
  }

  /** The loading loop.  When every merged constraint has a positive right-hand side, the solver is consistent with
      exactly the input. */
  method LoadFormula(s: Solver, input: seq<PB>) returns (ok: bool, ghost merged: seq<PB>)
    requires Loadable(s, Formula([]))
    requires forall i :: 0 <= i < |input| ==> Positive(input[i].lhs) && KnownVars(input[i].lhs, s.model.numVars)
    modifies s`occurLists, s`genWatchList, s`sumOfWatches, s`constraintsPB, s`maxWIdx, s`stamp, s`conflict, s.model
    ensures |merged| <= |input| && forall i :: 0 <= i < |merged| ==> MergedFrom(merged[i], input[i], s.model.numVars)
    ensures ok <==> |merged| == |input| && forall i :: 0 <= i < |merged| ==> |merged[i].lhs| > 0 && merged[i].rhs != 0
    ensures !ok ==> |merged| > 0 && (|merged[|merged| - 1].lhs| == 0 || merged[|merged| - 1].rhs == 0)
    ensures ok && AllKept(merged) ==> Loadable(s, Formula(input))
    ensures ok ==> exists F: iset<PB> :: Loadable(s, F)
  {
    hide Loadable, MergedFrom, SamePoints, SameModels, Entered, Positive;
    ghost var F := Formula([]);
    merged, ok := [], true;
    SameModelsSelf(F);
    assert input[..0] == [];
    for i := 0 to |input|
      invariant ok && |merged| == i && Loadable(s, F)
      invariant forall j :: 0 <= j < i ==> MergedFrom(merged[j], input[j], s.model.numVars)
      invariant forall j :: 0 <= j < i ==> |merged[j].lhs| > 0 && merged[j].rhs != 0
      invariant AllKept(merged) ==> SameModels(F, Formula(input[..i]))
    {
      ghost var b;
      ok, b := LoadConstraint(s, input[i], F);
      ghost var before := merged;
      merged := merged + [b];
      if !ok {
        return;
      }
      assert AllKept(merged) ==> AllKept(before) && b.rhs >= 1 by {
        assert merged[|before|] == b && forall j :: 0 <= j < |before| ==> merged[j] == before[j];
      }
      assert input[..i + 1] == input[..i] + [input[i]];
      if AllKept(merged) {
        SameModelsGrow(F, input[..i], input[i], Entered(b));
      }
      F := F + iset{Entered(b)};
    }
    assert input[..|input|] == input;
    if AllKept(merged) {
      LoadableSame(s, F, Formula(input));
    }
  }

  lemma SameModelsSelf(F: iset<PB>)
    ensures SameModels(F, F)
  {
  }

  // ----- the objective function -----

  /** Over 0/1 points that respect level 0 the objective and its constant are worth the linear form. */
  ghost predicate ObjectiveMeans(objective: seq<Term>, constant: int, coeffs: seq<int>, vars: seq<int>, minimize: bool,
                                 tr: seq<Elem>)
    requires |coeffs| == |vars|
  {
    forall a: Lits :: Total(a) && RootAgree(tr, a) ==>
      Weight(objective, a) + constant == (if minimize then -LinearValue(coeffs, vars, a)
                                          else LinearValue(coeffs, vars, a))
  }

  /** The signs: everything is maximised, with positive coefficients. */
  method SignedObjective(coeffs: seq<int>, vars: seq<int>, minimize: bool, ghost n: nat)
    returns (objective: seq<Term>, constant: int)
    requires |coeffs| == |vars| && KnownVariables(vars, n)
    ensures Positive(objective) && KnownVars(objective, n)
    ensures NormalForm(objective, -constant, if minimize then Negate(coeffs) else coeffs, vars, 0)
  {
    hide Weight, LinearValue;
    ghost var signed := if minimize then Negate(coeffs) else coeffs;
    objective, constant := [], 0;
    NormalStart(0, signed, vars);
    for i := 0 to |coeffs|
      invariant Positive(objective) && KnownVars(objective, n)
      invariant NormalForm(objective, -constant, signed[..i], vars[..i], 0)
    {
      var coef := if minimize then -coeffs[i] else coeffs[i];
      NormalStep(objective, -constant, signed, vars, 0, i);
      if coef < 0 {
        constant := constant + coef;
        objective := objective + [Term(-coef, -vars[i])];
      } else if coef > 0 {
        objective := objective + [Term(coef, vars[i])];
      }
    }
    assert signed[..|coeffs|] == signed && vars[..|coeffs|] == vars;
  }

  /** Literals of level 0 leave the objective; the true ones go into the constant. */
  method RemoveObjectiveUnits(model: Model, c: PB) returns (r: PB)
    requires model.Valid() && AtRoot(model.modelStack) && Positive(c.lhs) && DistinctVars(c.lhs)
             && DecreasingCoefs(c.lhs)
    requires KnownVars(c.lhs, model.numVars)
    ensures OpenPart(c.lhs, r.lhs, model.modelStack, model.numVars)
    ensures WithoutUnits(c.lhs, c.rhs, r.lhs, r.rhs, model.modelStack)
  {
    if |c.lhs| == 0 {
      WithoutNothing(c.rhs, model.modelStack);
      NothingOpen(model.modelStack, model.numVars);
      r := c;
    } else {
      r := RemoveAssigned(model, c);
    }
  }

  /** addObjectiveFunction.  No coefficients at all: a feasibility problem. */
  method AddObjectiveFunction(model: Model, coeffs: seq<int>, vars: seq<int>, minimize: bool)
    returns (feasibility: bool, objective: seq<Term>, constant: int)
    requires model.Valid() && AtRoot(model.modelStack) && |coeffs| == |vars| && KnownVariables(vars, model.numVars)
    ensures feasibility <==> |coeffs| == 0
    ensures ObjectiveOk(objective, model.numVars)
    ensures ObjectiveMeans(objective, constant, coeffs, vars, minimize, model.modelStack)
  {
    hide Model.Valid, AtRoot, NormalForm, MergedFrom, OpenPart, WithoutUnits, SortByVar, SortByCoef, Weight, SameSlack,
         ObjectiveMeans, LinearValue;
    var n := model.numVars;
    if |coeffs| == 0 {
      EmptyObjective(coeffs, vars, minimize, model.modelStack);
      return true, [], 0;
    }
    feasibility := false;
    objective, constant := SignedObjective(coeffs, vars, minimize, n);
    ghost var first := PB(objective, -constant);
    var wc := new WConstraint(SortByVar(objective), -constant);
    SortedForMerging(objective, n);
    ghost var v := wc.Value();
    wc.RemoveDuplicates();
    ghost var m := wc.Value();
    MergedKnown(v.lhs, m.lhs, n);
    MergedSorted(first, v, m, n);
    var b := PB(SortByCoef(wc.lhs), wc.rhs);
    MergedMeans(b, first, n);
    var r := RemoveObjectiveUnits(model, b);
    objective, constant := r.lhs, -r.rhs;
    OpenObjective(b.lhs, objective, model.modelStack, n);
    ObjectiveChain(first, b, r, coeffs, vars, minimize, model.modelStack);
  }

  lemma EmptyObjective(coeffs: seq<int>, vars: seq<int>, minimize: bool, tr: seq<Elem>)
    requires |coeffs| == |vars| == 0
    ensures ObjectiveMeans([], 0, coeffs, vars, minimize, tr)
  {
  }

  lemma OpenObjective(s: seq<Term>, r: seq<Term>, tr: seq<Elem>, n: nat)
    requires OpenPart(s, r, tr, n)
    ensures ObjectiveOk(r, n)
  {
  }

  lemma ObjectiveChain(first: PB, b: PB, r: PB, coeffs: seq<int>, vars: seq<int>, minimize: bool, tr: seq<Elem>)
    requires |coeffs| == |vars| && NormalForm(first.lhs, first.rhs, if minimize then Negate(coeffs)
                                              else coeffs, vars, 0)
    requires SameSlack(b, first) && WithoutUnits(b.lhs, b.rhs, r.lhs, r.rhs, tr)
    ensures ObjectiveMeans(r.lhs, -r.rhs, coeffs, vars, minimize, tr)
  {
    hide Weight, LinearValue;
    forall a: Lits | Total(a) && RootAgree(tr, a)
      ensures Weight(r.lhs, a) - r.rhs == (if minimize then -LinearValue(coeffs, vars, a)
                                           else LinearValue(coeffs, vars, a))
    {
      NegateValue(coeffs, vars, a);
      assert Slack(b, a) == Slack(first, a);
      assert Weight(r.lhs, a) - r.rhs == Weight(b.lhs, a) - b.rhs;
    }
  }

  // ----- from the input to the answer -----

  /** What an answer claims about the constraints that were loaded. */
  ghost predicate InputAnswer(status: Status, inc: Incumbent, input: seq<PB>, coeffs: seq<int>, vars: seq<int>,
                                minimize: bool)
    requires |coeffs| == |vars|
  {
    match status
    case Infeasible => inc.NoSolution? && Unsatisfiable(Formula(input))
    case OptimumFound =>
      if |coeffs| == 0 then exists a: Lits :: Total(a) && Holds(Formula(input), a)
      else inc.Best? && Holds(Formula(input), Assignment(inc.solution))
           && NoneCheaper(input, coeffs, vars, minimize, Assignment(inc.solution))
    case SomeSolution => inc.Best? && Holds(Formula(input), Assignment(inc.solution))
    case NoAnswer => inc.NoSolution?
  }

  ghost predicate NoneCheaper(input: seq<PB>, coeffs: seq<int>, vars: seq<int>, minimize: bool, best: Lits)
    requires |coeffs| == |vars|
  {
    forall a: Lits :: Total(a) && Holds(Formula(input), a) ==>
      if minimize then LinearValue(coeffs, vars, a) >= LinearValue(coeffs, vars, best)
      else LinearValue(coeffs, vars, a) <= LinearValue(coeffs, vars, best)
  }

  ghost predicate ModelsRespect(F: iset<PB>, tr: seq<Elem>) {
    forall a: Lits :: Total(a) && Holds(F, a) ==> RootAgree(tr, a)
  }

  lemma LoadedRespected(s: Solver, F: iset<PB>)
    requires Loadable(s, F)
    ensures ModelsRespect(F, s.model.modelStack) && s.model.Valid() && AtRoot(s.model.modelStack)
  {
    hide DbCovers, LevelsClosed, ListsOk, ReasonsOk, BinsOk, WatchesOk, CountersOk, IndicesOk, ListsWatch, ClausesOk,
         Mirrors;
    var tr := s.model.modelStack;
    forall i | 0 <= i < |tr|
      ensures tr[i].dl == 0
    {
      assert tr[i].dl <= LevelOf(tr);
    }
    forall a: Lits | Total(a) && Holds(F, a)
      ensures RootAgree(tr, a)
    {
      ModelsAgree(tr, F, a);
    }
  }

  lemma AnswerInInputTerms(status: Status, inc: Incumbent, input: seq<PB>, coeffs: seq<int>, vars: seq<int>,
                           minimize: bool, objective: seq<Term>, constant: int, tr: seq<Elem>)
    requires |coeffs| == |vars| && ObjectiveMeans(objective, constant, coeffs, vars, minimize, tr)
    requires ModelsRespect(Formula(input), tr)
    requires AnswerOk(status, inc, objective, |coeffs| == 0, Formula(input))
    ensures InputAnswer(status, inc, input, coeffs, vars, minimize)
  {
    hide Holds, Total, Weight, LinearValue, Assignment, Unsatisfiable, RootAgree, Formula;
    if status == OptimumFound && |coeffs| > 0 {
      var best := Assignment(inc.solution);
      AssignmentTotal(inc.solution);
      assert RootAgree(tr, best);
      forall a: Lits | Total(a) && Holds(Formula(input), a)
        ensures if minimize then LinearValue(coeffs, vars, a) >= LinearValue(coeffs, vars, best)
                else LinearValue(coeffs, vars, a) <= LinearValue(coeffs, vars, best)
      {
        assert RootAgree(tr, a);
        assert Weight(objective, a) <= inc.cost;
      }
    }
  }

  /** The search was not interrupted, or has used up its budget. */
  ghost predicate InTime(status: Status, rounds: nat, budget: nat) {
    rounds <= budget && (status == NoAnswer || status == SomeSolution ==> rounds == budget)
  }

  /** Load, set the objective, solve (main.cpp).  When every merged constraint has a positive right-hand side, the
      answer is right about the constraints in normal form; it is withheld only after as many decisions and solutions
      as the budget allows. */
  method LoadAndSolve(numVars: nat, input: seq<PB>, coeffs: seq<int>, vars: seq<int>, minimize: bool, bt0: bool,
                      budget: nat)
    returns (ok: bool, status: Status, inc: Incumbent, rounds: nat, ghost merged: seq<PB>)
    requires forall i :: 0 <= i < |input| ==> Positive(input[i].lhs) && KnownVars(input[i].lhs, numVars)
    requires |coeffs| == |vars| && KnownVariables(vars, numVars)
    ensures |merged| <= |input| && forall i :: 0 <= i < |merged| ==> MergedFrom(merged[i], input[i], numVars)
    ensures ok <==> |merged| == |input| && forall i :: 0 <= i < |merged| ==> |merged[i].lhs| > 0 && merged[i].rhs != 0
    ensures !ok ==> |merged| > 0 && (|merged[|merged| - 1].lhs| == 0 || merged[|merged| - 1].rhs == 0)
    ensures ok && AllKept(merged) ==> InputAnswer(status, inc, input, coeffs, vars, minimize)
    ensures ok ==> InTime(status, rounds, budget)
  {
    hide Loadable, MergedFrom, InputAnswer, AnswerOk, ObjectiveMeans, ModelsRespect, AtRoot, Model.Valid, ObjectiveOk,
         Solver.Valid, Solver.Closed, Solver.Counters, Solver.Indices;
    status, inc, rounds := NoAnswer, NoSolution, 0;
    var s := new Solver(numVars);
    FreshIsLoadable(s);
    ok, merged := LoadFormula(s, input);
    if !ok {
      return;
    }
    ghost var F: iset<PB> := LoadedFormula(s, input, merged);
    LoadedRespected(s, F);
    ghost var tr := s.model.modelStack;
    var feasibility, objective, constant := AddObjectiveFunction(s.model, coeffs, vars, minimize);
    LoadableIsConsistent(s, F);
    var stats := new Statistics();
    status, inc := Solve(s, stats, objective, feasibility, bt0, budget, F);
    rounds := stats.Rounds();
    if AllKept(merged) {
      AnswerInInputTerms(status, inc, input, coeffs, vars, minimize, objective, constant, tr);
    }
  }

  lemma LoadedFormula(s: Solver, input: seq<PB>, merged: seq<PB>) returns (F: iset<PB>)
    requires AllKept(merged) ==> Loadable(s, Formula(input))
    requires exists G: iset<PB> :: Loadable(s, G)
    ensures Loadable(s, F) && (AllKept(merged) ==> F == Formula(input))
  {
    if AllKept(merged) {
      F := Formula(input);
    } else {
      F :| Loadable(s, F);
    }
  }

  lemma LoadableIsConsistent(s: Solver, F: iset<PB>)
    requires Loadable(s, F)
    ensures Consistent(s, F, F) && LevelOf(s.model.modelStack) == 0
  {
  }

  // ----- the problem as it is written -----

  /** A linear constraint of the input. */
  datatype Linear = Linear(coeffs: seq<int>, vars: seq<int>, rhs: int, isGeq: bool)

  ghost predicate LinearOk(c: Linear, n: nat) {
    |c.coeffs| == |c.vars| && KnownVariables(c.vars, n)
  }

  ghost predicate Meets(c: Linear, a: Lits) {
    |c.coeffs| == |c.vars| && Asks(c.coeffs, c.vars, c.rhs, c.isGeq, a)
  }

  ghost predicate MeetsAll(written: seq<Linear>, a: Lits) {
    forall i :: 0 <= i < |written| ==> Meets(written[i], a)
  }

  /** Some coefficient is not 0, and no variable has two. */
  ghost predicate Clean(c: Linear) {
    EachOnce(c.coeffs, c.vars) && exists i :: 0 <= i < |c.coeffs| && c.coeffs[i] != 0
  }

  ghost predicate LoadsAsIs(c: PB) {
    c.rhs >= 1 && |c.lhs| > 0 && DistinctVars(c.lhs)
  }

  lemma EachOnceNegated(coeffs: seq<int>, vars: seq<int>)
    requires EachOnce(coeffs, vars)
    ensures EachOnce(Negate(coeffs), vars)
    ensures (exists i :: 0 <= i < |coeffs| && coeffs[i] != 0) ==>
              exists i :: 0 <= i < |Negate(coeffs)| && Negate(coeffs)[i] != 0
  {
    if i :| 0 <= i < |coeffs| && coeffs[i] != 0 {
      assert Negate(coeffs)[i] != 0;
    }
  }

  lemma CleanLoads(c: Linear, n: nat)
    requires LinearOk(c, n) && Clean(c)
    ensures var r := Normalised(c.coeffs, c.vars, c.rhs, c.isGeq); r.rhs >= 1 ==> LoadsAsIs(r)
  {
    EachOnceNegated(c.coeffs, c.vars);
    NormalTermsDistinct(if c.isGeq then c.coeffs else Negate(c.coeffs), c.vars);
  }

  /** The parser's calls of addConstraint: the normal forms that are kept have the 0/1 points of the written problem. */
  method ParseProblem(written: seq<Linear>, ghost n: nat) returns (input: seq<PB>)
    requires forall i :: 0 <= i < |written| ==> LinearOk(written[i], n)
    ensures forall i :: 0 <= i < |input| ==> Positive(input[i].lhs) && KnownVars(input[i].lhs, n) && input[i].rhs >= 1
    ensures forall a: Lits :: Total(a) ==> (Holds(Formula(input), a) <==> MeetsAll(written, a))
    ensures (forall i :: 0 <= i < |written| ==> Clean(written[i])) ==> forall i :: 0 <= i < |input| ==>
              LoadsAsIs(input[i])
  {
    hide Positive, Asks, Clean, LoadsAsIs, Total, Sat, Normalised;
    input := [];
    for k := 0 to |written|
      invariant forall i :: 0 <= i < |input| ==>
                  Positive(input[i].lhs) && KnownVars(input[i].lhs, n) && input[i].rhs >= 1
      invariant forall a: Lits :: Total(a) ==> (Holds(Formula(input), a) <==> MeetsAll(written[..k], a))
      invariant (forall i :: 0 <= i < k ==> Clean(written[i])) ==> forall i :: 0 <= i < |input| ==> LoadsAsIs(input[i])
    {
      var w := written[k];
      var c, kept := AddConstraint(w.coeffs, w.vars, w.rhs, w.isGeq, n);
      forall a: Lits | Total(a)
        ensures MeetsAll(written[..k + 1], a) <==> MeetsAll(written[..k], a) && Sat(c, a)
        ensures Holds(Formula(input + [c]), a) <==> Holds(Formula(input), a) && Sat(c, a)
        ensures !kept ==> Sat(c, a)
      {
        MeetsOneMore(written, k, a);
        HoldsOneMore(input, c, a);
      }
      if kept {
        if Clean(w) {
          CleanLoads(w, n);
        }
        input := input + [c];
      }
    }
    assert written[..|written|] == written;
  }

  lemma MeetsOneMore(written: seq<Linear>, k: nat, a: Lits)
    requires k < |written|
    ensures MeetsAll(written[..k + 1], a) <==> MeetsAll(written[..k], a) && Meets(written[k], a)
  {
    hide Meets;
    assert written[..k + 1] == written[..k] + [written[k]];
    if MeetsAll(written[..k + 1], a) {
      assert Meets(written[..k + 1][k], a);
      assert forall i :: 0 <= i < k ==> written[..k][i] == written[..k + 1][i];
    }
  }

  lemma HoldsOneMore(input: seq<PB>, c: PB, a: Lits)
    ensures Holds(Formula(input + [c]), a) <==> Holds(Formula(input), a) && Sat(c, a)
  {
    hide Sat;
    assert forall d: PB :: d in input + [c] <==> d in input || d == c;
    assert forall d: PB :: d in Formula(input + [c]) <==> d in Formula(input) || d == c;
  }

  /** The literals of s, and a total assignment around them. */
  ghost function Making(s: seq<Term>): (a: Lits)
    requires Positive(s) && DistinctVars(s)
    ensures Total(a) && forall i :: 0 <= i < |s| ==> s[i].lit in a
  {
    iset l: int | l != 0 && if MentionsVar(s, Var(l)) then HasLit(s, l) else l > 0
  }

  ghost predicate HasLit(s: seq<Term>, l: int) {
    exists i :: 0 <= i < |s| && s[i].lit == l
  }

  /** The complements of the terms. */
  function Opposite(s: seq<Term>): (r: seq<Term>)
    ensures |r| == |s| && forall i :: 0 <= i < |s| ==> r[i] == Term(s[i].coef, -s[i].lit)
  {
    seq(|s|, i requires 0 <= i < |s| => Term(s[i].coef, -s[i].lit))
  }

  /** The least slack of a constraint over distinct variables is minus its right-hand side. */
  lemma LeastSlack(c: PB) returns (a: Lits)
    requires Positive(c.lhs) && DistinctVars(c.lhs)
    ensures Total(a) && Slack(c, a) == -c.rhs
  {
    var r := Opposite(c.lhs);
    assert Positive(r) && DistinctVars(r);
    a := Making(r);
    forall i | 0 <= i < |c.lhs|
      ensures c.lhs[i].lit !in a
    {
      assert r[i].lit in a && r[i].lit == -c.lhs[i].lit;
    }
    NothingWeighs(c.lhs, a);
  }

  /** Merging changes nothing but the order when the variables are distinct already. */
  lemma MergedAsIs(b: PB, c: PB, n: nat)
    requires MergedFrom(b, c, n) && Positive(c.lhs) && DistinctVars(c.lhs)
    ensures b.rhs == c.rhs && (|c.lhs| > 0 ==> |b.lhs| > 0)
  {
    var low := LeastSlack(b);
    var low' := LeastSlack(c);
    assert Slack(b, low) == Slack(c, low) && Slack(b, low') == Slack(c, low');
    WeightAtMostSum(b.lhs, low');
    WeightAtMostSum(c.lhs, low);
    if |c.lhs| > 0 {
      var a := Making(c.lhs);
      WeightAtLeastTerm(c.lhs, 0, a);
      assert Slack(b, a) == Slack(c, a);
    }
  }

  lemma MergedAllAsIs(merged: seq<PB>, input: seq<PB>, n: nat)
    requires |merged| <= |input| && forall i :: 0 <= i < |merged| ==> MergedFrom(merged[i], input[i], n)
    requires forall i :: 0 <= i < |input| ==> Positive(input[i].lhs) && LoadsAsIs(input[i])
    ensures AllKept(merged) && forall i :: 0 <= i < |merged| ==> |merged[i].lhs| > 0
  {
    forall i | 0 <= i < |merged|
      ensures merged[i].rhs >= 1 && |merged[i].lhs| > 0
    {
      MergedAsIs(merged[i], input[i], n);
    }
  }

  /** What an answer claims about the problem as it is written. */
  ghost predicate ProblemAnswer(status: Status, inc: Incumbent, written: seq<Linear>, coeffs: seq<int>, vars: seq<int>,
                                minimize: bool)
    requires |coeffs| == |vars|
  {
    match status
    case Infeasible => inc.NoSolution? && forall a: Lits :: Total(a) ==> !MeetsAll(written, a)
    case OptimumFound =>
      if |coeffs| == 0 then exists a: Lits :: Total(a) && MeetsAll(written, a)
      else inc.Best? && MeetsAll(written, Assignment(inc.solution))
           && forall a: Lits :: Total(a) && MeetsAll(written, a) ==>
                if minimize then LinearValue(coeffs, vars, a) >= LinearValue(coeffs, vars, Assignment(inc.solution))
                else LinearValue(coeffs, vars, a) <= LinearValue(coeffs, vars, Assignment(inc.solution))
    case SomeSolution => inc.Best? && MeetsAll(written, Assignment(inc.solution))
    case NoAnswer => inc.NoSolution?
  }

  lemma AnswerAsWritten(status: Status, inc: Incumbent, written: seq<Linear>, input: seq<PB>, coeffs: seq<int>,
                        vars: seq<int>, minimize: bool)
    requires |coeffs| == |vars| && InputAnswer(status, inc, input, coeffs, vars, minimize)
    requires forall a: Lits :: Total(a) ==> (Holds(Formula(input), a) <==> MeetsAll(written, a))
    ensures ProblemAnswer(status, inc, written, coeffs, vars, minimize)
  {
    hide Holds, Total, LinearValue, Assignment, Formula, MeetsAll;
    if inc.Best? {
      AssignmentTotal(inc.solution);
    }
  }

  /** From the written problem to the answer.  Loading stops short exactly at a constraint merged to nothing or to the
      bound 0; when all merged bounds are positive, the answer is right.  Both are certain when no constraint repeats a
      variable. */
  method SolveProblem(numVars: nat, written: seq<Linear>, coeffs: seq<int>, vars: seq<int>, minimize: bool, bt0: bool,
                      budget: nat)
    returns (ok: bool, status: Status, inc: Incumbent, rounds: nat, ghost input: seq<PB>, ghost merged: seq<PB>)
    requires forall i :: 0 <= i < |written| ==> LinearOk(written[i], numVars)
    requires |coeffs| == |vars| && KnownVariables(vars, numVars)
    ensures |merged| <= |input| && forall i :: 0 <= i < |merged| ==> MergedFrom(merged[i], input[i], numVars)
    ensures forall a: Lits :: Total(a) ==> (Holds(Formula(input), a) <==> MeetsAll(written, a))
    ensures ok <==> |merged| == |input| && forall i :: 0 <= i < |merged| ==> |merged[i].lhs| > 0 && merged[i].rhs != 0
    ensures ok && AllKept(merged) ==> ProblemAnswer(status, inc, written, coeffs, vars, minimize)
    ensures ok ==> InTime(status, rounds, budget)
    ensures (forall i :: 0 <= i < |written| ==> Clean(written[i])) ==>
              ok && ProblemAnswer(status, inc, written, coeffs, vars, minimize)
  {
    hide MergedFrom, ProblemAnswer, InputAnswer, InTime, Clean, LinearOk, MeetsAll, Formula, Total, Holds, Positive,
         LoadsAsIs;
    var parsed := ParseProblem(written, numVars);
    input := parsed;
    ok, status, inc, rounds, merged := LoadAndSolve(numVars, parsed, coeffs, vars, minimize, bt0, budget);
    if forall i :: 0 <= i < |written| ==> Clean(written[i]) {
      MergedAllAsIs(merged, input, numVars);
    }
    if ok && AllKept(merged) {
      AnswerAsWritten(status, inc, written, input, coeffs, vars, minimize);
    }
  }
}
