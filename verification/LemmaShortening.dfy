/** Shortening a learned clause (lemmaShortening, ConflictAnalysis.cpp). */
module LemmaShortening {
  import opened Arith
  import opened PBCore
  import opened Trail
  import opened Watches
  import opened Engine
  import opened Repair
  import opened BackjumpLevel
  import opened Closure
  import opened PropagateLoop

  // ----- the database follows from a formula -----

  function ClausePB(lits: seq<int>): PB {
    PB(seq(|lits|, i requires 0 <= i < |lits| => Term(1, lits[i])), 1)
  }

  lemma {:induction false} ClauseWeight(lits: seq<int>, L: Lits)
    ensures Weight(ClausePB(lits).lhs, L) >= 0
    ensures Weight(ClausePB(lits).lhs, L) >= 1 <==> exists x :: x in lits && x in L
  {
    var s := ClausePB(lits).lhs;
    if |lits| > 0 {
      var u := lits[..|lits| - 1];
      assert s[..|lits| - 1] == ClausePB(u).lhs;
      ClauseWeight(u, L);
      assert lits == u + [lits[|lits| - 1]];
    }
  }

  lemma ClauseSat(lits: seq<int>, L: Lits)
    ensures Sat(ClausePB(lits), L) <==> exists x :: x in lits && x in L
  {
    ClauseWeight(lits, L);
  }

  ghost predicate DatabaseImplied(s: Solver, F: iset<PB>)
    reads s`constraintsPB, s`genWatchList, s.store`clauses
  {
    && (forall k :: 0 <= k < |s.constraintsPB| ==> Implied(F, s.constraintsPB[k]))
    && (forall k :: 0 <= k < |s.store.clauses| ==> Implied(F, ClausePB(s.store.clauses[k])))
    && (forall l, o :: l in s.genWatchList && Bin(o) in s.genWatchList[l] ==> Implied(F, ClausePB([l, o])))
  }

  /** The literals of level 0 follow from the formula. */
  ghost predicate RootsImplied(tr: seq<Elem>, F: iset<PB>) {
    forall i :: 0 <= i < |tr| && tr[i].dl == 0 ==> Implied(F, ClausePB([tr[i].lit]))
  }

  // ----- justification -----

  /** y is a false literal in the reason of e; for PB reasons, false under the whole trail. */
  ghost predicate ReasonFalse(s: Solver, e: Elem, y: int)
    reads s, s.model, s.store
  {
    match e.reason
    case NoReason => false
    case ByConstraint(k) =>
      k < |s.constraintsPB| && y in FalseLits(s.model.modelStack) && y in LitSet(s.constraintsPB[k].lhs)
    case ByClause(k) => k < |s.store.clauses| && y in s.store.clauses[k] && y != e.lit
    case ByBinary(o) => y == o
  }

  ghost predicate RootVar(tr: seq<Elem>, v: int) {
    exists i :: 0 <= i < |tr| && Var(tr[i].lit) == v && tr[i].dl == 0
  }

  /** The literal at position h has a reason whose false literals are all in J or of level 0. */
  ghost predicate Justified(s: Solver, h: nat, J: set<int>)
    requires h < |s.model.modelStack|
    reads s, s.model, s.store
  {
    && s.model.modelStack[h].reason != NoReason
    && forall y :: ReasonFalse(s, s.model.modelStack[h], y) ==> Var(y) in J || RootVar(s.model.modelStack, Var(y))
  }

  /** Every variable of J is assigned, and is in K, of level 0, or justified within J. */
  ghost predicate WellFounded(s: Solver, J: set<int>, K: set<int>)
    reads s, s.model, s.store
  {
    forall h :: 0 <= h < |s.model.modelStack| && Var(s.model.modelStack[h].lit) in J ==>
      Var(s.model.modelStack[h].lit) in K || s.model.modelStack[h].dl == 0 || Justified(s, h, J)
  }

  /** In a model of the formula that falsifies the kept literals, every justified trail literal is true. */
  lemma {:induction false} JustifiedIsTrue(s: Solver, F: iset<PB>, J: set<int>, K: set<int>, a: Lits, h: nat)
    requires s.Valid() && DatabaseImplied(s, F) && RootsImplied(s.model.modelStack, F)
    requires WellFounded(s, J, K) && Total(a) && Holds(F, a)
    requires h < |s.model.modelStack|
    requires Var(s.model.modelStack[h].lit) in J || s.model.modelStack[h].dl == 0
    requires forall i :: 0 <= i < |s.model.modelStack| && Var(s.model.modelStack[i].lit) in K ==>
               s.model.modelStack[i].lit in a
    ensures s.model.modelStack[h].lit in a
    decreases h
  {
    hide ListsOk, Mirrors, ClausesOk, ListsWatch, BinsKnown, WellFounded;
    var tr := s.model.modelStack;
    if tr[h].dl == 0 {
      assert Implied(F, ClausePB([tr[h].lit]));
      ClauseSat([tr[h].lit], a);
    } else if Var(tr[h].lit) !in K {
      WellFoundedAt(s, J, K, h);
      assert ReasonOk(tr[h], tr[..h], s.constraintsPB, s.store.clauses, s.genWatchList);
      forall i | 0 <= i < h && (Var(tr[i].lit) in J || tr[i].dl == 0)
        ensures tr[i].lit in a
      {
        JustifiedIsTrue(s, F, J, K, a, i);
      }
      ReasonMakesTrue(s, F, J, a, h);
    }
  }

  lemma WellFoundedAt(s: Solver, J: set<int>, K: set<int>, h: nat)
    requires WellFounded(s, J, K) && h < |s.model.modelStack| && Var(s.model.modelStack[h].lit) in J
    requires Var(s.model.modelStack[h].lit) !in K && s.model.modelStack[h].dl != 0
    ensures Justified(s, h, J)
  {
  }

  /** The false literals of the reason that were assigned before are false in a. */
  lemma EarlierFalse(s: Solver, J: set<int>, a: Lits, h: nat, y: int)
    requires h < |s.model.modelStack| && OneEach(s.model.modelStack) && Justified(s, h, J) && Total(a)
    requires forall i :: 0 <= i < h && (Var(s.model.modelStack[i].lit) in J || s.model.modelStack[i].dl == 0)
               ==> s.model.modelStack[i].lit in a
    requires ReasonFalse(s, s.model.modelStack[h], y) && y in FalseLits(s.model.modelStack[..h])
    ensures y !in a
  {
    var tr := s.model.modelStack;
    var i :| 0 <= i < |tr[..h]| && -tr[..h][i].lit == y;
    assert tr[i].lit == -y && tr[i].lit != 0;
    assert Var(tr[i].lit) == Var(y);
    if RootVar(tr, Var(y)) {
      var j :| 0 <= j < |tr| && Var(tr[j].lit) == Var(y) && tr[j].dl == 0;
      assert i == j;
    }
  }

  lemma ReasonMakesTrue(s: Solver, F: iset<PB>, J: set<int>, a: Lits, h: nat)
    requires s.Valid() && DatabaseImplied(s, F) && Total(a) && Holds(F, a)
    requires h < |s.model.modelStack| && Justified(s, h, J)
    requires ReasonOk(s.model.modelStack[h], s.model.modelStack[..h], s.constraintsPB, s.store.clauses, s.genWatchList)
    requires forall i :: 0 <= i < h && (Var(s.model.modelStack[i].lit) in J || s.model.modelStack[i].dl == 0)
               ==> s.model.modelStack[i].lit in a
    ensures s.model.modelStack[h].lit in a
  {
    hide ListsOk, Mirrors, ClausesOk, ListsWatch, BinsKnown, ReasonsOk;
    var tr := s.model.modelStack;
    match tr[h].reason
    case ByConstraint(k) =>
      ConstraintMakesTrue(s, F, J, a, h, k);
    case ByClause(k) =>
      ClauseSat(s.store.clauses[k], a);
      assert Implied(F, ClausePB(s.store.clauses[k]));
      var x :| x in s.store.clauses[k] && x in a;
      if x != tr[h].lit {
        EarlierFalse(s, J, a, h, x);
      }
    case ByBinary(o) =>
      assert Implied(F, ClausePB([o, tr[h].lit]));
      ClauseSat([o, tr[h].lit], a);
      EarlierFalse(s, J, a, h, o);
  }

  lemma ConstraintMakesTrue(s: Solver, F: iset<PB>, J: set<int>, a: Lits, h: nat, k: nat)
    requires s.Valid() && DatabaseImplied(s, F) && Total(a) && Holds(F, a)
    requires h < |s.model.modelStack| && Justified(s, h, J) && s.model.modelStack[h].reason == ByConstraint(k)
    requires ReasonOk(s.model.modelStack[h], s.model.modelStack[..h], s.constraintsPB, s.store.clauses, s.genWatchList)
    requires forall i :: 0 <= i < h && (Var(s.model.modelStack[i].lit) in J || s.model.modelStack[i].dl == 0)
               ==> s.model.modelStack[i].lit in a
    ensures s.model.modelStack[h].lit in a
  {
    hide ListsOk, Mirrors, ClausesOk, ListsWatch, BinsKnown, ReasonsOk, Justified;
    var tr := s.model.modelStack;
    var c, l, N := s.constraintsPB[k], tr[h].lit, NonFalse(tr[..h]);
    assert Stored(c, s.model.numVars);
    var j :| 0 <= j < |c.lhs| && c.lhs[j].lit == l && Slack(c, N) < c.lhs[j].coef;
    assert Sat(c, a);
    if l !in a {
      forall i | 0 <= i < |c.lhs| && c.lhs[i].lit in a
        ensures c.lhs[i].lit in N - iset{l}
      {
        var y := c.lhs[i].lit;
        if y in FalseLits(tr[..h]) {
          NonFalseShrinks(tr, h);
          EarlierFalse(s, J, a, h, y);
        }
      }
      OpenAtItsPosition(tr, h);
      WeightRemoveLit(c.lhs, j, N);
      WeightMono(c.lhs, a, N - iset{l});
    }
  }

  lemma OpenAtItsPosition(tr: seq<Elem>, h: nat)
    requires OneEach(tr) && h < |tr|
    ensures tr[h].lit in NonFalse(tr[..h])
  {
    forall i | 0 <= i < h
      ensures -tr[..h][i].lit != tr[h].lit
    {
      assert Var(tr[i].lit) != Var(tr[h].lit);
    }
  }

  // ----- every propagated literal has a false literal of its own level in its reason -----

  /** An earlier trail position of the same level, whose literal the reason of h sees as false. */
  ghost predicate SameLevelCause(s: Solver, h: nat, i: nat)
    requires h < |s.model.modelStack|
    reads s, s.model, s.store
  {
    && i < h && s.model.modelStack[i].dl == s.model.modelStack[h].dl
    && ReasonFalse(s, s.model.modelStack[h], -s.model.modelStack[i].lit)
  }

  /** Position of the first element of the level of h. */
  lemma LevelStart(tr: seq<Elem>, h: nat) returns (n: nat)
    requires LevelsGrow(tr) && h < |tr| && tr[h].dl > 0
    ensures n <= h && LevelPrefix(tr, tr[h].dl - 1) == tr[..n]
    ensures forall i :: 0 <= i < n ==> tr[i].dl < tr[h].dl
    ensures forall i :: n <= i <= h ==> tr[i].dl == tr[h].dl
  {
    n := LevelPrefixIsPrefix(tr, tr[h].dl - 1);
  }

  lemma ReasonHolds(s: Solver, h: nat)
    requires Underway(s) && h < |s.model.modelStack| && s.model.modelStack[h].dl > 0
    ensures ReasonOk(s.model.modelStack[h], s.model.modelStack[..h], s.constraintsPB, s.store.clauses, s.genWatchList)
    ensures LevelsGrow(s.model.modelStack) && OneEach(s.model.modelStack)
  {
    hide ListsOk, Mirrors, ClausesOk, ListsWatch, BinsKnown, CountersOk, LowerPropagated, LevelsClosed, LowerClauses,
         StampsOk, Stored;
  }

  lemma CauseOfConstraint(s: Solver, h: nat, k: nat) returns (i: nat)
    requires Underway(s) && h < |s.model.modelStack| && s.model.modelStack[h].dl > 0
    requires s.model.modelStack[h].reason == ByConstraint(k)
    ensures SameLevelCause(s, h, i)
  {
    hide Underway, Solver.Valid, FalseLits, TrueLits, Weight, LevelPrefix;
    var tr := s.model.modelStack;
    i := h;
    ReasonHolds(s, h);
    var c := s.constraintsPB[k];
    var j := ForcedTerm(c, tr[h].lit, tr[..h]);
    var n := LevelStart(tr, h);
    InPrefix(tr, tr[h].lit, n, h);
    if p :| n <= p < h && -tr[p].lit in LitSet(c.lhs) {
      i := p;
      FalseAtPosition(tr, p);
    } else {
      OneLevelEarlier(s, h, k, j, n);
    }
  }

  lemma FalseAtPosition(tr: seq<Elem>, p: nat)
    requires p < |tr|
    ensures -tr[p].lit in FalseLits(tr)
  {
  }

  lemma ForcedTerm(c: PB, l: int, tr: seq<Elem>) returns (j: nat)
    requires Forces(c, l, tr)
    ensures j < |c.lhs| && c.lhs[j].lit == l && Slack(c, NonFalse(tr)) < c.lhs[j].coef
  {
    j :| 0 <= j < |c.lhs| && c.lhs[j].lit == l && Slack(c, NonFalse(tr)) < c.lhs[j].coef;
  }

  /** Without a cause on its own level the literal is assigned one level earlier. */
  lemma OneLevelEarlier(s: Solver, h: nat, k: nat, j: nat, n: nat)
    requires Underway(s) && h < |s.model.modelStack| && s.model.modelStack[h].dl > 0 && k < |s.constraintsPB|
    requires j < |s.constraintsPB[k].lhs| && s.constraintsPB[k].lhs[j].lit == s.model.modelStack[h].lit
    requires Slack(s.constraintsPB[k], NonFalse(s.model.modelStack[..h])) < s.constraintsPB[k].lhs[j].coef
    requires n <= h && LevelPrefix(s.model.modelStack, s.model.modelStack[h].dl - 1) == s.model.modelStack[..n]
    requires forall i :: n <= i < h ==> -s.model.modelStack[i].lit !in LitSet(s.constraintsPB[k].lhs)
    ensures Assigned(s.model.modelStack[h].lit, s.model.modelStack[..n])
  {
    hide ListsOk, Mirrors, ClausesOk, ListsWatch, BinsKnown, BinsOk, WatchesOk, CountersOk, IndicesOk, LowerPropagated,
         ReasonsOk, TrailOk, Assigned;
    var tr, c := s.model.modelStack, s.constraintsPB[k];
    assert LevelsGrow(tr) by {
      assert TrailOk(tr);
      GrowsOfOk(tr);
    }
    SameFalse(tr, n, h, c.lhs);
    WeightAgree(c.lhs, NonFalse(tr[..h]), NonFalse(tr[..n]));
    assert SettledAt(s.constraintsPB, tr[..n]);
    assert Settled(c, Slack(c, NonFalse(tr[..n])), tr[..n]);
  }

  lemma GrowsOfOk(tr: seq<Elem>)
    requires TrailOk(tr)
    ensures LevelsGrow(tr) && OneEach(tr)
  {
  }

  lemma SameFalse(tr: seq<Elem>, n: nat, h: nat, lhs: seq<Term>)
    requires n <= h <= |tr| && forall i :: n <= i < h ==> -tr[i].lit !in LitSet(lhs)
    ensures forall i :: 0 <= i < |lhs| ==> (lhs[i].lit in NonFalse(tr[..h]) <==> lhs[i].lit in NonFalse(tr[..n]))
  {
    forall i | 0 <= i < |lhs|
      ensures lhs[i].lit in FalseLits(tr[..h]) <==> lhs[i].lit in FalseLits(tr[..n])
    {
      assert lhs[i].lit in LitSet(lhs);
      if lhs[i].lit in FalseLits(tr[..h]) {
        var k :| 0 <= k < h && -tr[..h][k].lit == lhs[i].lit;
        assert k < n;
        assert tr[..n][k] == tr[..h][k];
      }
      if lhs[i].lit in FalseLits(tr[..n]) {
        var k :| 0 <= k < n && -tr[..n][k].lit == lhs[i].lit;
        assert tr[..n][k] == tr[..h][k];
      }
    }
  }

  /** Literal t at position h was not true by an earlier level. */
  lemma NotTrueBefore(tr: seq<Elem>, h: nat, d: nat)
    requires OneEach(tr) && h < |tr| && d < tr[h].dl
    ensures !TrueBy(tr, tr[h].lit, d)
  {
    forall i | 0 <= i < |tr| && i != h
      ensures tr[i].lit != tr[h].lit
    {
      assert Var(tr[i].lit) != Var(tr[h].lit);
    }
  }

  lemma CauseOfClause(s: Solver, h: nat, k: nat) returns (i: nat)
    requires Underway(s) && h < |s.model.modelStack| && s.model.modelStack[h].dl > 0
    requires s.model.modelStack[h].reason == ByClause(k)
    ensures SameLevelCause(s, h, i)
  {
    hide ListsOk, Mirrors, ListsWatch, BinsKnown, BinsOk, CountersOk, IndicesOk, LevelsClosed, LevelsStart, WatchesOk;
    var tr := s.model.modelStack;
    assert ReasonOk(tr[h], tr[..h], s.constraintsPB, s.store.clauses, s.genWatchList);
    var cl := s.store.clauses[k];
    assert ClauseOk(cl, s.store.watchIdx[k], s.store.numVars);
    var w := if cl[0] == tr[h].lit then cl[1] else cl[0];
    assert w in cl && w != tr[h].lit;
    i := FalseBefore(tr, h, w);
    AllFalseButOne(tr, h, cl);
    WitnessIsLast(s, tr, h, i, k);
  }

  lemma FalseBefore(tr: seq<Elem>, h: nat, w: int) returns (p: nat)
    requires h <= |tr| && w in FalseLits(tr[..h])
    ensures p < h && -tr[p].lit == w
  {
    p :| 0 <= p < |tr[..h]| && -tr[..h][p].lit == w;
  }

  lemma AllFalseButOne(tr: seq<Elem>, h: nat, cl: seq<int>)
    requires OneEach(tr) && h < |tr| && UnitUnder(cl, tr[h].lit, tr[..h])
    ensures forall x :: x in cl && x in TrueLits(tr) ==> x == tr[h].lit
  {
    forall x | x in cl && x in TrueLits(tr)
      ensures x == tr[h].lit
    {
      if x != tr[h].lit {
        NonFalseShrinks(tr, h);
        var i :| 0 <= i < |tr| && tr[i].lit == x;
        OneValue(tr, x);
        TrueMeansComplementFalse(tr, x);
      }
    }
  }

  /** A watch falsified on a lower level would need a witness there; the only true literal came later. */
  lemma WitnessIsLast(s: Solver, tr: seq<Elem>, h: nat, p: nat, k: nat)
    requires Underway(s) && tr == s.model.modelStack && p < h < |tr| && k < |s.store.clauses|
    requires Watches.Watches(s.store.clauses[k], -tr[p].lit)
    requires forall x :: x in s.store.clauses[k] && x in TrueLits(tr) ==> x == tr[h].lit
    ensures tr[p].dl == tr[h].dl
  {
    hide ListsOk, Mirrors, ListsWatch, BinsKnown, BinsOk, CountersOk, IndicesOk, LevelsClosed, LevelsStart, ReasonsOk;
    if tr[p].dl < tr[h].dl {
      assert tr[h].dl <= LevelOf(tr);
      assert WatchOkAt(tr, p, s.store.clauses);
      var x :| x in s.store.clauses[k] && TrueBy(tr, x, tr[p].dl);
      TrueIsTrue(tr, x, tr[p].dl);
      NotTrueBefore(tr, h, tr[p].dl);
    }
  }

  lemma TrueIsTrue(tr: seq<Elem>, x: int, d: nat)
    requires TrueBy(tr, x, d) && OneEach(tr)
    ensures x in TrueLits(tr) && x != 0
  {
  }

  lemma CauseOfBinary(s: Solver, h: nat, o: int) returns (i: nat)
    requires Underway(s) && h < |s.model.modelStack| && s.model.modelStack[h].dl > 0
    requires s.model.modelStack[h].reason == ByBinary(o)
    ensures SameLevelCause(s, h, i)
  {
    hide ListsOk, Mirrors, ListsWatch, ClausesOk, BinsKnown, CountersOk, IndicesOk, LevelsClosed, WatchesOk, BinsOk,
         LevelsStart, FalseLits;
    var tr := s.model.modelStack;
    assert ReasonOk(tr[h], tr[..h], s.constraintsPB, s.store.clauses, s.genWatchList);
    i := FalseBefore(tr, h, o);
    BinaryIsLast(s, tr, h, i);
  }

  lemma BinaryIsLast(s: Solver, tr: seq<Elem>, h: nat, p: nat)
    requires Underway(s) && tr == s.model.modelStack && p < h < |tr|
    requires -tr[p].lit in s.genWatchList && Bin(tr[h].lit) in s.genWatchList[-tr[p].lit]
    ensures tr[p].dl == tr[h].dl
  {
    hide ListsOk, Mirrors, ListsWatch, ClausesOk, BinsKnown, CountersOk, IndicesOk, LevelsClosed, WatchesOk,
         LevelsStart, FalseLits, ReasonsOk;
    if tr[p].dl < tr[h].dl {
      assert tr[h].dl <= LevelOf(tr);
      assert BinOkAt(tr, p, s.genWatchList);
      var list := s.genWatchList[-tr[p].lit];
      var q :| 0 <= q < |list| && list[q] == Bin(tr[h].lit);
      assert TrueBy(tr, list[q].other, tr[p].dl);
      NotTrueBefore(tr, h, tr[p].dl);
    }
  }

  lemma Cause(s: Solver, h: nat) returns (i: nat)
    requires Underway(s) && h < |s.model.modelStack| && s.model.modelStack[h].dl > 0
    requires s.model.modelStack[h].reason != NoReason
    ensures SameLevelCause(s, h, i)
  {
    hide Underway;
    match s.model.modelStack[h].reason
    case ByConstraint(k) => i := CauseOfConstraint(s, h, k);
    case ByClause(k) => i := CauseOfClause(s, h, k);
    case ByBinary(o) => i := CauseOfBinary(s, h, o);
  }

  /** Following causes from a justified literal ends at a kept variable of the same level. */
  lemma {:induction false} LevelSurvives(s: Solver, J: set<int>, base: set<int>, h: nat) returns (b: nat)
    requires Underway(s) && h < |s.model.modelStack| && s.model.modelStack[h].dl > 0 && Justified(s, h, J)
    requires forall i :: 0 <= i < |s.model.modelStack| && Var(s.model.modelStack[i].lit) in J - base ==>
               Justified(s, i, J)
    ensures b < h && s.model.modelStack[b].dl == s.model.modelStack[h].dl && Var(s.model.modelStack[b].lit) in base
    decreases h
  {
    hide Underway, ReasonFalse;
    var tr := s.model.modelStack;
    var i := Cause(s, h);
    CauseInJ(s, J, h, i);
    if Var(tr[i].lit) in base {
      b := i;
    } else {
      b := LevelSurvives(s, J, base, i);
    }
  }

  lemma CauseInJ(s: Solver, J: set<int>, h: nat, i: nat)
    requires Underway(s) && h < |s.model.modelStack| && s.model.modelStack[h].dl > 0 && Justified(s, h, J)
    requires SameLevelCause(s, h, i)
    ensures Var(s.model.modelStack[i].lit) in J
  {
    hide ListsOk, Mirrors, ListsWatch, ClausesOk, BinsKnown, CountersOk, IndicesOk, LevelsClosed, WatchesOk, BinsOk,
         ReasonsOk;
    var tr := s.model.modelStack;
    forall j | 0 <= j < |tr| && Var(tr[j].lit) == Var(-tr[i].lit)
      ensures tr[j].dl != 0
    {
      assert Var(tr[j].lit) == Var(tr[i].lit);
      assert j == i;
    }
  }

  // ----- the algorithm -----

  function VarSet(lits: seq<int>): set<int> {
    set i | 0 <= i < |lits| :: Var(lits[i])
  }

  lemma VarSetSnoc(lits: seq<int>, l: int)
    ensures VarSet(lits + [l]) == VarSet(lits) + {Var(l)}
  {
    var r := lits + [l];
    assert r[|lits|] == l;
    forall v | v in VarSet(lits)
      ensures v in VarSet(r)
    {
      var i :| 0 <= i < |lits| && Var(lits[i]) == v;
      assert r[i] == lits[i];
    }
  }

  /** Known and assigned. */
  ghost predicate OnTrail(model: Model, l: int)
    requires model.Valid()
    reads model
  {
    model.HasVar(l) && !model.IsUndefLit(l)
  }

  ghost predicate AllOnTrail(model: Model, lits: seq<int>)
    requires model.Valid()
    reads model
  {
    forall i :: 0 <= i < |lits| ==> OnTrail(model, lits[i])
  }

  ghost predicate AboveRoot(model: Model, l: int)
    requires model.Valid() && OnTrail(model, l)
    reads model
  {
    model.LevelOfLit(l) > 0
  }

  ghost predicate AllAboveRoot(model: Model, lits: seq<int>)
    requires model.Valid() && AllOnTrail(model, lits)
    reads model
  {
    forall i :: 0 <= i < |lits| ==> AboveRoot(model, lits[i])
  }

  ghost predicate DistinctLitVars(lits: seq<int>) {
    forall i, j :: 0 <= i < j < |lits| ==> Var(lits[i]) != Var(lits[j])
  }

  ghost predicate JustifiedVars(s: Solver, V: set<int>, J: set<int>)
    reads s, s.model, s.store
  {
    forall i :: 0 <= i < |s.model.modelStack| && Var(s.model.modelStack[i].lit) in V ==> Justified(s, i, J)
  }

  /** The literals the source hands to its marking function for the reason of lit. */
  method ReasonLits(s: Solver, lit: int) returns (r: seq<int>)
    requires s.Valid() && OnTrail(s.model, lit) && AboveRoot(s.model, lit)
    requires s.model.modelStack[s.model.HeightOf(lit)].reason != NoReason
    ensures forall y :: ReasonFalse(s, s.model.modelStack[s.model.HeightOf(lit)], y) ==> y in r
    ensures forall y :: y in r && Var(y) != Var(lit) ==> ReasonFalse(s, s.model.modelStack[s.model.HeightOf(lit)], y)
    ensures AllOnTrail(s.model, r)
  {
    hide ListsOk, Mirrors, ListsWatch, ClausesOk, ReasonsOk, TrailOk, BinsKnown, Stored, TrueLits, FalseLits, Forces,
         UnitUnder, LitSet;
    var h := s.model.HeightOf(lit);
    ghost var tr := s.model.modelStack;
    var e := s.model.modelStack[h];
    ReasonAt(s, h);
    match e.reason {
      case ByBinary(o) =>
        r := [o];
      case ByClause(k) =>
        r := s.store.clauses[k];
      case ByConstraint(k) =>
        var c := s.constraintsPB[k];
        r := [];
        for j := 0 to |c.lhs|
          invariant AllOnTrail(s.model, r)
          invariant forall i :: 0 <= i < j && c.lhs[i].lit in FalseLits(tr) ==> c.lhs[i].lit in r
          invariant forall y :: y in r && Var(y) != Var(lit) ==> y in FalseLits(tr) && y in LitSet(c.lhs)
        {
          LitSetHas(c.lhs, j);
          var l := c.lhs[j].lit;
          StoredVar(s, k, j);
          if s.model.IsFalseLit(l) || Var(l) == Var(lit) {
            SameVarAssigned(s.model, lit, l);
            r := r + [l];
          }
        }
        LitsListed(c.lhs, FalseLits(tr), r);
    }
  }

  lemma LitSetHas(lhs: seq<Term>, j: nat)
    requires j < |lhs|
    ensures lhs[j].lit in LitSet(lhs)
  {
  }

  lemma LitsListed(lhs: seq<Term>, S: set<int>, r: seq<int>)
    requires forall i :: 0 <= i < |lhs| && lhs[i].lit in S ==> lhs[i].lit in r
    ensures forall y :: y in S && y in LitSet(lhs) ==> y in r
  {
  }

  lemma SameVarAssigned(model: Model, lit: int, l: int)
    requires model.Valid() && OnTrail(model, lit) && model.HasVar(l)
    ensures Var(l) == Var(lit) || model.IsFalseLit(l) ==> OnTrail(model, l)
  {
  }

  lemma StoredVar(s: Solver, k: nat, j: nat)
    requires s.Valid() && k < |s.constraintsPB| && j < |s.constraintsPB[k].lhs|
    ensures s.model.HasVar(s.constraintsPB[k].lhs[j].lit)
  {
    assert Stored(s.constraintsPB[k], s.model.numVars);
  }

  /** The reason exists, and all its literals other than PB literals are on the trail. */
  lemma ReasonAt(s: Solver, h: nat)
    requires s.Valid() && h < |s.model.modelStack| && s.model.modelStack[h].dl > 0
    ensures match s.model.modelStack[h].reason
            case NoReason => true
            case ByConstraint(k) => k < |s.constraintsPB|
            case ByClause(k) => k < |s.store.clauses| && AllOnTrail(s.model, s.store.clauses[k])
            case ByBinary(o) => OnTrail(s.model, o)
  {
    hide ListsOk, Mirrors, ListsWatch, BinsKnown, Stored, Forces;
    var tr := s.model.modelStack;
    assert ReasonOk(tr[h], tr[..h], s.constraintsPB, s.store.clauses, s.genWatchList);
    NonFalseShrinks(tr, h);
    match tr[h].reason
    case ByClause(k) =>
      var cl := s.store.clauses[k];
      assert ClauseOk(cl, s.store.watchIdx[k], s.store.numVars);
      forall i | 0 <= i < |cl|
        ensures OnTrail(s.model, cl[i])
      {
        assert cl[i] in cl;
        assert tr[h].lit in TrueLits(tr);
      }
    case ByBinary(o) =>
      FalseIsKnown(s.model, o);
    case _ =>
  }

  lemma FalseIsKnown(model: Model, l: int)
    requires model.Valid() && l in FalseLits(model.modelStack)
    ensures OnTrail(model, l)
  {
    var i :| 0 <= i < |model.modelStack| && -model.modelStack[i].lit == l;
    assert Recorded(model.modelStack[i].lit, i, model.truthValue, model.stackHeight, model.numVars);
  }

  /** lemmaShorteningAuxFunction on each of the literals: mark what is new and not of level 0. */
  method MarkAll(s: Solver, lits: seq<int>, marked: set<int>, extra: seq<int>, ghost base: set<int>)
    returns (marked': set<int>, extra': seq<int>)
    requires s.Valid() && AllOnTrail(s.model, lits) && AllOnTrail(s.model, extra) && AllAboveRoot(s.model, extra)
    requires marked == base + VarSet(extra) && DistinctLitVars(extra) && VarSet(extra) !! base
    ensures AllOnTrail(s.model, extra') && AllAboveRoot(s.model, extra') && extra <= extra'
    ensures marked' == base + VarSet(extra') && DistinctLitVars(extra') && VarSet(extra') !! base
    ensures marked <= marked'
    ensures forall y :: y in lits ==> Var(y) in marked' || RootVar(s.model.modelStack, Var(y))
    ensures forall v :: v in marked' - marked ==> !RootVar(s.model.modelStack, v) && v in VarSet(lits)
  {
    hide ListsOk, Mirrors, ListsWatch, ClausesOk, ReasonsOk, TrailOk, BinsKnown, Stored, TrueLits, FalseLits;
    marked', extra' := marked, extra;
    for i := 0 to |lits|
      invariant AllOnTrail(s.model, extra') && AllAboveRoot(s.model, extra') && extra <= extra' && marked <= marked'
      invariant forall v :: v in marked' - marked ==> !RootVar(s.model.modelStack, v) && v in VarSet(lits)
      invariant marked' == base + VarSet(extra') && DistinctLitVars(extra') && VarSet(extra') !! base
      invariant forall j :: 0 <= j < i ==> Var(lits[j]) in marked' || RootVar(s.model.modelStack, Var(lits[j]))
    {
      var l := lits[i];
      assert OnTrail(s.model, l) && Var(l) in VarSet(lits);
      if Var(l) !in marked' {
        if s.model.LevelOfLit(l) == 0 {
          assert s.model.modelStack[s.model.HeightOf(l)].dl == 0;
        } else {
          NotRootVar(s.model, l);
          VarSetSnoc(extra', l);
          NewVarDistinct(extra', l);
          marked' := marked' + {Var(l)};
          extra' := extra' + [l];
        }
      }
    }
  }

  lemma NotRootVar(model: Model, l: int)
    requires model.Valid() && OnTrail(model, l) && model.LevelOfLit(l) != 0
    ensures !RootVar(model.modelStack, Var(l))
  {
    hide Mirrors, LevelsStart, LevelsGrow;
    var tr, h := model.modelStack, model.HeightOf(l);
    forall i | 0 <= i < |tr| && Var(tr[i].lit) == Var(l)
      ensures i == h
    {
    }
  }

  lemma NewVarDistinct(lits: seq<int>, l: int)
    requires DistinctLitVars(lits) && Var(l) !in VarSet(lits)
    ensures DistinctLitVars(lits + [l])
  {
    forall i | 0 <= i < |lits|
      ensures Var(lits[i]) in VarSet(lits)
    {
    }
  }

  lemma JustifiedMono(s: Solver, h: nat, J: set<int>, J': set<int>)
    requires h < |s.model.modelStack| && Justified(s, h, J) && J <= J'
    ensures Justified(s, h, J')
  {
  }

  lemma JustifiedVarsMono(s: Solver, V: set<int>, J: set<int>, J': set<int>)
    requires JustifiedVars(s, V, J) && J <= J'
    ensures JustifiedVars(s, V, J')
  {
    forall i | 0 <= i < |s.model.modelStack| && Var(s.model.modelStack[i].lit) in V
      ensures Justified(s, i, J')
    {
      JustifiedMono(s, i, J, J');
    }
  }

  lemma JustifiedVarsAdd(s: Solver, V: set<int>, J: set<int>, l: int)
    requires s.Valid() && JustifiedVars(s, V, J) && OnTrail(s.model, l) && Justified(s, s.model.HeightOf(l), J)
    ensures JustifiedVars(s, V + {Var(l)}, J)
  {
    var tr, h := s.model.modelStack, s.model.HeightOf(l);
    forall i | 0 <= i < |tr| && Var(tr[i].lit) == Var(l)
      ensures i == h
    {
    }
  }

  lemma DistinctFit(lits: seq<int>, n: nat)
    requires DistinctLitVars(lits) && forall i :: 0 <= i < |lits| ==> 1 <= Var(lits[i]) <= n
    ensures |lits| <= n
  {
    DistinctFitSet(lits, UpTo(n));
  }

  lemma {:induction false} DistinctFitSet(lits: seq<int>, T: set<int>)
    requires DistinctLitVars(lits) && forall i :: 0 <= i < |lits| ==> Var(lits[i]) in T
    ensures |lits| <= |T|
  {
    if |lits| > 0 {
      DistinctFitSet(lits[..|lits| - 1], T - {Var(lits[|lits| - 1])});
    }
  }

  /** Every newly marked variable is that of a false literal in the reason of e, above level 0. */
  ghost predicate NewFrom(s: Solver, e: Elem, marked: set<int>, marked': set<int>)
    reads s, s.model, s.store
  {
    forall v :: v in marked' - marked ==>
      !RootVar(s.model.modelStack, v) && exists y :: ReasonFalse(s, e, y) && Var(y) == v
  }

  lemma ListedNewFrom(s: Solver, lit: int, lits: seq<int>, marked: set<int>, marked': set<int>)
    requires s.model.Valid() && OnTrail(s.model, lit) && Var(lit) in marked
    requires forall y :: y in lits && Var(y) != Var(lit) ==>
               ReasonFalse(s, s.model.modelStack[s.model.HeightOf(lit)], y)
    requires forall v :: v in marked' - marked ==> !RootVar(s.model.modelStack, v) && v in VarSet(lits)
    ensures NewFrom(s, s.model.modelStack[s.model.HeightOf(lit)], marked, marked')
  {
    hide TrailOk, Mirrors, RootVar, ReasonFalse;
    forall v | v in marked' - marked
      ensures !RootVar(s.model.modelStack, v)
              && exists y :: ReasonFalse(s, s.model.modelStack[s.model.HeightOf(lit)], y) && Var(y) == v
    {
      var k :| 0 <= k < |lits| && Var(lits[k]) == v;
      assert lits[k] in lits;
    }
  }

  /** J shows that the literal is redundant: the false literals in the reasons of the literal and of the variables in J
      are marked, of level 0, or again in J, and J has no decision and nothing below the lowest level. */
  ghost predicate ShowsRedundant(s: Solver, J: set<int>, lit: int, marked: set<int>, lowestDL: nat)
    reads s, s.model, s.store
  {
    && J !! marked && JustifiedVars(s, J + {Var(lit)}, marked + J)
    && forall i :: 0 <= i < |s.model.modelStack| && Var(s.model.modelStack[i].lit) in J ==>
         s.model.modelStack[i].dl >= lowestDL
  }

  /** The search never leaves a set that shows redundancy. */
  lemma StaysInside(s: Solver, J: set<int>, lit: int, marked0: set<int>, lowestDL: nat, h: nat, extra: set<int>,
                    extra': set<int>)
    requires ShowsRedundant(s, J, lit, marked0, lowestDL) && extra <= J && extra' !! marked0
    requires h < |s.model.modelStack| && Var(s.model.modelStack[h].lit) in J + {Var(lit)}
    requires NewFrom(s, s.model.modelStack[h], marked0 + extra, marked0 + extra')
    ensures extra' <= J
  {
    hide ReasonFalse, RootVar;
    assert Justified(s, h, marked0 + J);
    forall v | v in extra'
      ensures v in J
    {
      if v !in extra {
        assert v in (marked0 + extra') - (marked0 + extra);
        var y :| ReasonFalse(s, s.model.modelStack[h], y) && Var(y) == v;
      }
    }
  }

  lemma AllStayInside(s: Solver, lit: int, marked0: set<int>, lowestDL: nat, h: nat, extra: set<int>, extra': set<int>)
    requires extra' !! marked0 && h < |s.model.modelStack|
    requires Var(s.model.modelStack[h].lit) in extra + {Var(lit)}
    requires NewFrom(s, s.model.modelStack[h], marked0 + extra, marked0 + extra')
    requires forall J: set<int> :: ShowsRedundant(s, J, lit, marked0, lowestDL) ==> extra <= J
    ensures forall J: set<int> :: ShowsRedundant(s, J, lit, marked0, lowestDL) ==> extra' <= J
  {
    hide ShowsRedundant, NewFrom;
    forall J: set<int> | ShowsRedundant(s, J, lit, marked0, lowestDL)
      ensures extra' <= J
    {
      StaysInside(s, J, lit, marked0, lowestDL, h, extra, extra');
    }
  }

  lemma NeverShown(s: Solver, J: set<int>, lit: int, marked0: set<int>, lowestDL: nat, l: int)
    requires s.Valid() && OnTrail(s.model, l) && Var(l) in J
    requires s.model.LevelOfLit(l) < lowestDL || s.model.modelStack[s.model.HeightOf(l)].reason == NoReason
    ensures !ShowsRedundant(s, J, lit, marked0, lowestDL)
  {
    hide ListsOk, Mirrors, ListsWatch, ClausesOk, ReasonsOk, BinsKnown, Stored, ReasonFalse, RootVar;
    var h := s.model.HeightOf(l);
    assert Var(s.model.modelStack[h].lit) == Var(l);
    if s.model.modelStack[h].reason == NoReason {
      assert !Justified(s, h, marked0 + J);
    }
  }

  /** One element of the search: its reason literals join the marked ones. */
  method Explore(s: Solver, lit: int, marked: set<int>, extra: seq<int>, ghost base: set<int>, ghost V: set<int>)
    returns (marked': set<int>, extra': seq<int>)
    requires s.Valid() && OnTrail(s.model, lit) && AboveRoot(s.model, lit)
    requires s.model.modelStack[s.model.HeightOf(lit)].reason != NoReason
    requires AllOnTrail(s.model, extra) && AllAboveRoot(s.model, extra)
    requires marked == base + VarSet(extra) && DistinctLitVars(extra) && VarSet(extra) !! base
    requires JustifiedVars(s, V, marked)
    ensures AllOnTrail(s.model, extra') && AllAboveRoot(s.model, extra') && extra <= extra'
    ensures marked' == base + VarSet(extra') && DistinctLitVars(extra') && VarSet(extra') !! base
    ensures JustifiedVars(s, V + {Var(lit)}, marked')
    ensures Var(lit) in marked ==> NewFrom(s, s.model.modelStack[s.model.HeightOf(lit)], marked, marked')
  {
    hide ListsOk, Mirrors, ListsWatch, ClausesOk, ReasonsOk, TrailOk, BinsKnown, Stored, TrueLits, FalseLits,
         ReasonFalse, JustifiedVars, AllOnTrail, AllAboveRoot, DistinctLitVars;
    var lits := ReasonLits(s, lit);
    marked', extra' := MarkAll(s, lits, marked, extra, base);
    if Var(lit) in marked {
      ListedNewFrom(s, lit, lits, marked, marked');
    }
    JustifiedVarsMono(s, V, marked, marked');
    JustifiedVarsAdd(s, V, marked', lit);
  }

  /** The redundancy test of one literal, which is itself marked.  It succeeds exactly when some set of variables shows
      that the literal rests on marked literals and level 0 alone; the explored variables are then such a set. */
  method TestRedundant(s: Solver, lit: int, marked0: set<int>, lowestDL: nat)
    returns (redundant: bool, ghost explored: set<int>)
    requires s.Valid() && OnTrail(s.model, lit) && AboveRoot(s.model, lit) && Var(lit) in marked0
    requires s.model.modelStack[s.model.HeightOf(lit)].reason != NoReason
    ensures explored !! marked0
    ensures redundant ==> JustifiedVars(s, explored + {Var(lit)}, marked0 + explored)
    ensures redundant ==> ShowsRedundant(s, explored, lit, marked0, lowestDL)
    ensures !redundant ==> forall J: set<int> :: !ShowsRedundant(s, J, lit, marked0, lowestDL)
  {
    hide ListsOk, Mirrors, ListsWatch, ClausesOk, ReasonsOk, TrailOk, BinsKnown, Stored, TrueLits, FalseLits,
         ReasonFalse, JustifiedVars, ShowsRedundant, NewFrom;
    redundant := true;
    var marked, extra := marked0, [];
    assert marked0 + VarSet([]) == marked0;
    NothingJustified(s, marked);
    marked, extra := Explore(s, lit, marked, extra, marked0, {});
    assert {} + {Var(lit)} == {Var(lit)};
    assert marked0 + {} == marked0;
    AllStayInside(s, lit, marked0, lowestDL, s.model.HeightOf(lit), {}, VarSet(extra));
    var t: nat := 0;
    assert VarSet(extra[..0]) + {Var(lit)} == {Var(lit)};
    while t < |extra|
      invariant t <= |extra| && AllOnTrail(s.model, extra) && AllAboveRoot(s.model, extra) && redundant
      invariant marked == marked0 + VarSet(extra) && DistinctLitVars(extra) && VarSet(extra) !! marked0
      invariant JustifiedVars(s, VarSet(extra[..t]) + {Var(lit)}, marked)
      invariant forall J: set<int> :: ShowsRedundant(s, J, lit, marked0, lowestDL) ==> VarSet(extra) <= J
      invariant forall i :: 0 <= i < t ==> s.model.LevelOfLit(extra[i]) >= lowestDL
      decreases s.model.numVars - t
    {
      DistinctFit(extra, s.model.numVars);
      var testingLit := extra[t];
      assert OnTrail(s.model, testingLit) && AboveRoot(s.model, testingLit);
      assert Var(testingLit) in VarSet(extra);
      if s.model.LevelOfLit(testingLit) < lowestDL ||
         s.model.modelStack[s.model.HeightOf(testingLit)].reason == NoReason {
        redundant := false;
        forall J: set<int>
          ensures !ShowsRedundant(s, J, lit, marked0, lowestDL)
        {
          if ShowsRedundant(s, J, lit, marked0, lowestDL) {
            NeverShown(s, J, lit, marked0, lowestDL, testingLit);
          }
        }
        break;
      }
      ghost var before := extra;
      ghost var V := VarSet(extra[..t]) + {Var(lit)};
      marked, extra := Explore(s, testingLit, marked, extra, marked0, V);
      AllStayInside(s, lit, marked0, lowestDL, s.model.HeightOf(testingLit), VarSet(before), VarSet(extra));
      assert extra[..t + 1] == before[..t] + [testingLit];
      VarSetSnoc(before[..t], testingLit);
      assert V + {Var(testingLit)} == VarSet(extra[..t + 1]) + {Var(lit)};
      t := t + 1;
    }
    explored := VarSet(extra);
    assert redundant ==> extra[..t] == extra;
    if redundant {
      ExploredShows(s, extra, lit, marked0, lowestDL);
    }
  }

  lemma ExploredShows(s: Solver, extra: seq<int>, lit: int, marked0: set<int>, lowestDL: nat)
    requires s.Valid() && AllOnTrail(s.model, extra) && VarSet(extra) !! marked0
    requires JustifiedVars(s, VarSet(extra) + {Var(lit)}, marked0 + VarSet(extra))
    requires forall i :: 0 <= i < |extra| ==> s.model.LevelOfLit(extra[i]) >= lowestDL
    ensures ShowsRedundant(s, VarSet(extra), lit, marked0, lowestDL)
  {
    hide ListsOk, Mirrors, ListsWatch, ClausesOk, ReasonsOk, BinsKnown, Stored, JustifiedVars, LevelsStart;
    var tr := s.model.modelStack;
    forall i | 0 <= i < |tr| && Var(tr[i].lit) in VarSet(extra)
      ensures tr[i].dl >= lowestDL
    {
      var k :| 0 <= k < |extra| && Var(extra[k]) == Var(tr[i].lit);
      assert OnTrail(s.model, extra[k]);
      assert Var(tr[s.model.HeightOf(extra[k])].lit) == Var(tr[i].lit);
    }
  }

  lemma NothingJustified(s: Solver, J: set<int>)
    ensures JustifiedVars(s, {}, J)
  {
  }

  // ----- sorting by level -----

  ghost predicate LevelsFall(model: Model, lits: seq<int>, from: nat)
    requires model.Valid() && AllOnTrail(model, lits)
    reads model
  {
    forall i, j :: from <= i <= j < |lits| ==> model.LevelOfLit(lits[i]) >= model.LevelOfLit(lits[j])
  }

  ghost predicate SameLits(r: seq<int>, s: seq<int>) {
    |r| == |s| && (forall x :: x in r <==> x in s) && (DistinctLitVars(s) ==> DistinctLitVars(r))
  }

  lemma InsertKeepsLits(s: seq<int>, p: nat, l: int)
    requires p <= |s|
    ensures SameLits(s[..p] + [l] + s[p..], s + [l])
  {
    var q, r := s + [l], s[..p] + [l] + s[p..];
    assert s == s[..p] + s[p..];
    if DistinctLitVars(q) {
      forall i, j | 0 <= i < j < |r|
        ensures Var(r[i]) != Var(r[j])
      {
        var i' := if i < p then i else if i == p then |s| else i - 1;
        var j' := if j < p then j else if j == p then |s| else j - 1;
        assert r[i] == q[i'] && r[j] == q[j'];
        assert i' < j' || j' < i';
      }
    }
  }

  lemma ExtendSameLits(r: seq<int>, s: seq<int>, l: int, q: seq<int>)
    requires SameLits(r, s) && SameLits(q, r + [l])
    ensures SameLits(q, s + [l])
  {
    if DistinctLitVars(s + [l]) {
      assert forall i :: 0 <= i < |s| ==> (s + [l])[i] == s[i];
      assert (s + [l])[|s|] == l;
      forall i | 0 <= i < |r|
        ensures Var(r[i]) != Var(l)
      {
        assert r[i] in r;
        var j :| 0 <= j < |s| && s[j] == r[i];
      }
    }
  }

  lemma FrontSameLits(u: int, r: seq<int>, s: seq<int>)
    requires SameLits(r, s)
    ensures SameLits([u] + r, [u] + s)
  {
    if DistinctLitVars([u] + s) {
      assert forall i :: 0 <= i < |s| ==> ([u] + s)[i + 1] == s[i];
      forall i | 0 <= i < |r|
        ensures Var(r[i]) != Var(u)
      {
        assert r[i] in r;
        var j :| 0 <= j < |s| && s[j] == r[i];
        assert ([u] + s)[0] == u && ([u] + s)[j + 1] == s[j];
      }
    }
  }

  lemma SameNothing()
    ensures SameLits([], [])
  {
  }

  method InsertByLevel(model: Model, s: seq<int>, l: int) returns (r: seq<int>)
    requires model.Valid() && AllOnTrail(model, s) && OnTrail(model, l) && LevelsFall(model, s, 0)
    ensures AllOnTrail(model, r) && LevelsFall(model, r, 0) && SameLits(r, s + [l])
  {
    hide TrailOk, Mirrors;
    var p: nat := |s|;
    while p > 0 && model.LevelOfLit(s[p - 1]) < model.LevelOfLit(l)
      invariant p <= |s|
      invariant forall i :: p <= i < |s| ==> model.LevelOfLit(s[i]) < model.LevelOfLit(l)
    {
      p := p - 1;
    }
    InsertKeepsLits(s, p, l);
    r := s[..p] + [l] + s[p..];
  }

  /** The sort of the literals after the first one, most recent level first. */
  method SortByLevel(model: Model, lits: seq<int>) returns (r: seq<int>)
    requires model.Valid() && AllOnTrail(model, lits) && |lits| > 0
    ensures AllOnTrail(model, r) && LevelsFall(model, r, 1) && SameLits(r, lits) && r[0] == lits[0]
  {
    hide TrailOk, Mirrors, SameLits;
    var t: seq<int> := [];
    SameNothing();
    assert lits[1..1] == [];
    for i := 1 to |lits|
      invariant AllOnTrail(model, t) && LevelsFall(model, t, 0) && SameLits(t, lits[1..i])
    {
      var t' := InsertByLevel(model, t, lits[i]);
      ExtendSameLits(t, lits[1..i], lits[i], t');
      assert lits[1..i + 1] == lits[1..i] + [lits[i]];
      t := t';
    }
    assert lits[1..|lits|] == lits[1..];
    FrontSameLits(lits[0], t, lits[1..]);
    assert [lits[0]] + lits[1..] == lits;
    r := [lits[0]] + t;
  }

  // ----- the main loop -----

  ghost predicate LevelIn(tr: seq<Elem>, d: nat, K: set<int>) {
    exists b :: 0 <= b < |tr| && tr[b].dl == d && Var(tr[b].lit) in K
  }

  /** Every level above 0 with a variable in V has one in K. */
  ghost predicate LevelsKept(tr: seq<Elem>, V: set<int>, K: set<int>) {
    forall h :: 0 <= h < |tr| && Var(tr[h].lit) in V && tr[h].dl > 0 ==> LevelIn(tr, tr[h].dl, K)
  }

  ghost predicate AllFalseLits(lits: seq<int>, tr: seq<Elem>) {
    forall i :: 0 <= i < |lits| ==> lits[i] in FalseLits(tr)
  }

  /** What the search has established when only the variables K are still needed. */
  ghost predicate Reduced(s: Solver, V: set<int>, J: set<int>, K: set<int>)
    reads s, s.model, s.store
  {
    V <= J && K <= V && WellFounded(s, J, K) && LevelsKept(s.model.modelStack, V, K)
  }

  lemma ReducedStart(s: Solver, V: set<int>)
    ensures Reduced(s, V, V, V)
  {
  }

  lemma HeightUnique(s: Solver, l: int, h: nat)
    requires s.Valid() && OnTrail(s.model, l) && h < |s.model.modelStack| && Var(s.model.modelStack[h].lit) == Var(l)
    ensures h == s.model.HeightOf(l)
  {
  }

  /** A literal of level 0 is dropped. */
  lemma DropRoot(s: Solver, V: set<int>, J: set<int>, K: set<int>, l: int)
    requires s.Valid() && Reduced(s, V, J, K) && OnTrail(s.model, l) && s.model.LevelOfLit(l) == 0
    ensures Reduced(s, V, J, K - {Var(l)})
  {
    hide ListsOk, Mirrors, ListsWatch, ClausesOk, ReasonsOk, TrailOk, BinsKnown, Stored, TrueLits, FalseLits, Justified;
    var tr, K' := s.model.modelStack, K - {Var(l)};
    forall h | 0 <= h < |tr| && Var(tr[h].lit) == Var(l)
      ensures tr[h].dl == 0
    {
      HeightUnique(s, l, h);
    }
    forall h | 0 <= h < |tr| && Var(tr[h].lit) in V && tr[h].dl > 0
      ensures LevelIn(tr, tr[h].dl, K')
    {
      assert LevelIn(tr, tr[h].dl, K);
      var b :| 0 <= b < |tr| && tr[b].dl == tr[h].dl && Var(tr[b].lit) in K;
      assert Var(tr[b].lit) in K';
    }
  }

  /** A literal that passed the test is dropped; its level keeps another one. */
  lemma DropRedundant(s: Solver, V: set<int>, J: set<int>, K: set<int>, l: int, explored: set<int>)
    requires Underway(s) && Reduced(s, V, J, K) && OnTrail(s.model, l) && s.model.LevelOfLit(l) > 0 && Var(l) in K
    requires JustifiedVars(s, explored + {Var(l)}, K + explored) && explored !! K
    ensures Reduced(s, V, J + explored, K - {Var(l)})
  {
    hide Underway, Justified, Solver.Valid;
    DropWellFounded(s, J, K, l, explored);
    DropLevels(s, V, K, l, explored);
  }

  lemma DropWellFounded(s: Solver, J: set<int>, K: set<int>, l: int, explored: set<int>)
    requires WellFounded(s, J, K) && K <= J && JustifiedVars(s, explored + {Var(l)}, K + explored)
    ensures WellFounded(s, J + explored, K - {Var(l)})
  {
    hide Justified;
    var tr := s.model.modelStack;
    forall h | 0 <= h < |tr| && Var(tr[h].lit) in J + explored && Var(tr[h].lit) !in K - {Var(l)} && tr[h].dl != 0
      ensures Justified(s, h, J + explored)
    {
      if Var(tr[h].lit) in explored + {Var(l)} {
        JustifiedMono(s, h, K + explored, J + explored);
      } else {
        JustifiedMono(s, h, J, J + explored);
      }
    }
  }

  lemma DropLevels(s: Solver, V: set<int>, K: set<int>, l: int, explored: set<int>)
    requires Underway(s) && OnTrail(s.model, l) && s.model.LevelOfLit(l) > 0
    requires LevelsKept(s.model.modelStack, V, K)
    requires JustifiedVars(s, explored + {Var(l)}, K + explored)
    ensures LevelsKept(s.model.modelStack, V, K - {Var(l)})
  {
    hide Underway, Justified, Solver.Valid, Model.Valid, WellFounded;
    UnderwayIsValid(s);
    var tr, g := s.model.modelStack, s.model.HeightOf(l);
    var c := LevelSurvives(s, K + explored, K - {Var(l)}, g);
    assert LevelIn(tr, tr[g].dl, K - {Var(l)});
    forall h | 0 <= h < |tr| && Var(tr[h].lit) in V && tr[h].dl > 0
      ensures LevelIn(tr, tr[h].dl, K - {Var(l)})
    {
      assert LevelIn(tr, tr[h].dl, K);
      var b :| 0 <= b < |tr| && tr[b].dl == tr[h].dl && Var(tr[b].lit) in K;
      if Var(tr[b].lit) == Var(l) {
        UnderwayHeightUnique(s, l, b);
      }
    }
  }

  lemma UnderwayHeightUnique(s: Solver, l: int, h: nat)
    requires Underway(s) && OnTrail(s.model, l) && h < |s.model.modelStack| && Var(s.model.modelStack[h].lit) == Var(l)
    ensures h == s.model.HeightOf(l)
  {
    HeightUnique(s, l, h);
  }

  /** The result of the shortening. */
  ghost predicate Shortened(s: Solver, lemma0: seq<int>, short: seq<int>)
    requires s.Valid() && AllOnTrail(s.model, lemma0)
    reads s, s.model, s.store
  {
    && |short| > 0 && |lemma0| > 0 && short[0] == lemma0[0] && DistinctLitVars(short)
    && (forall x :: x in short ==> x in lemma0)
    && AllOnTrail(s.model, short) && LevelsFall(s.model, short, 1)
    && LevelsKept(s.model.modelStack, VarSet(lemma0), VarSet(short))
  }

  /** In every model of the formula: if the lemma holds, the shortened lemma does. */
  ghost predicate ImpliesShort(s: Solver, lemma0: seq<int>, short: seq<int>)
    reads s, s.model, s.store
  {
    forall F: iset<PB>, a: Lits :: DatabaseImplied(s, F) && RootsImplied(s.model.modelStack, F) && Total(a)
        && Holds(F, a)
      ==> Sat(ClausePB(lemma0), a) ==> Sat(ClausePB(short), a)
  }

  lemma ReducedImplies(s: Solver, lemma0: seq<int>, short: seq<int>, J: set<int>)
    requires s.Valid() && AllFalseLits(lemma0, s.model.modelStack) && AllFalseLits(short, s.model.modelStack)
    requires Reduced(s, VarSet(lemma0), J, VarSet(short))
    ensures ImpliesShort(s, lemma0, short)
  {
    hide ListsOk, Mirrors, ListsWatch, ClausesOk, ReasonsOk, BinsKnown, Stored, LevelsStart, Justified, WellFounded;
    var tr := s.model.modelStack;
    forall F: iset<PB>, a: Lits | DatabaseImplied(s, F) && RootsImplied(tr, F) && Total(a) && Holds(F, a)
      && Sat(ClausePB(lemma0), a)
      ensures Sat(ClausePB(short), a)
    {
      ClauseSat(short, a);
      ClauseSat(lemma0, a);
      if forall x :: x in short ==> x !in a {
        KeptAreTrue(tr, short, a);
        var y :| y in lemma0 && y in a;
        var i :| 0 <= i < |lemma0| && lemma0[i] == y;
        var h := FalseBefore(tr, |tr|, y) by {
          assert tr[..|tr|] == tr;
        }
        assert Var(tr[h].lit) == Var(y) && Var(y) in VarSet(lemma0);
        JustifiedIsTrue(s, F, J, VarSet(short), a, h);
      }
    }
  }

  /** When a falsifies every literal of the clause, it agrees with the trail on them. */
  lemma KeptAreTrue(tr: seq<Elem>, short: seq<int>, a: Lits)
    requires OneEach(tr) && AllFalseLits(short, tr) && Total(a) && forall x :: x in short ==> x !in a
    ensures forall i :: 0 <= i < |tr| && Var(tr[i].lit) in VarSet(short) ==> tr[i].lit in a
  {
    forall i | 0 <= i < |tr| && Var(tr[i].lit) in VarSet(short)
      ensures tr[i].lit in a
    {
      var k :| 0 <= k < |short| && Var(short[k]) == Var(tr[i].lit);
      AtPosition(tr, short[k], i);
      assert tr[i].lit == -short[k];
      assert short[k] in short;
    }
  }

  lemma VarSetSame(r: seq<int>, s: seq<int>)
    requires SameLits(r, s)
    ensures VarSet(r) == VarSet(s)
  {
    forall i | 0 <= i < |r|
      ensures Var(r[i]) in VarSet(s)
    {
      assert r[i] in r;
      var j :| 0 <= j < |s| && s[j] == r[i];
    }
    forall i | 0 <= i < |s|
      ensures Var(s[i]) in VarSet(r)
    {
      assert s[i] in s;
      var j :| 0 <= j < |r| && r[j] == s[i];
    }
  }

  /** The kept literals stem from increasing positions; with the literals not yet visited they are marked. */
  ghost predicate Progress(lits: seq<int>, kept: seq<int>, from: seq<nat>, i: nat, marked: set<int>) {
    && i <= |lits| && marked == VarSet(kept) + VarSet(lits[i..])
    && |from| == |kept|
    && (forall k :: 0 <= k < |from| ==> from[k] < i && kept[k] == lits[from[k]])
    && (forall k, m :: 0 <= k < m < |from| ==> from[k] < from[m])
    && (i > 0 ==> |from| > 0 && from[0] == 0)
  }

  lemma VarSetFirst(lits: seq<int>, i: nat)
    requires i < |lits|
    ensures VarSet(lits[i..]) == VarSet(lits[i + 1..]) + {Var(lits[i])}
  {
    var u, w := lits[i..], lits[i + 1..];
    assert u[0] == lits[i];
    forall k | 0 <= k < |w|
      ensures Var(w[k]) in VarSet(u)
    {
      assert u[k + 1] == w[k];
    }
    forall k | 0 < k < |u|
      ensures Var(u[k]) in VarSet(w)
    {
      assert w[k - 1] == u[k];
    }
  }

  lemma ProgressNew(lits: seq<int>, kept: seq<int>, from: seq<nat>, i: nat, marked: set<int>)
    requires i < |lits| && DistinctLitVars(lits) && Progress(lits, kept, from, i, marked)
    ensures Var(lits[i]) in marked && Var(lits[i]) !in VarSet(kept) && Var(lits[i]) !in VarSet(lits[i + 1..])
  {
    VarSetFirst(lits, i);
  }

  lemma ProgressKeep(lits: seq<int>, kept: seq<int>, from: seq<nat>, i: nat, marked: set<int>)
    requires i < |lits| && DistinctLitVars(lits) && Progress(lits, kept, from, i, marked)
    ensures Progress(lits, kept + [lits[i]], from + [i], i + 1, marked)
  {
    ProgressNew(lits, kept, from, i, marked);
    VarSetFirst(lits, i);
    VarSetSnoc(kept, lits[i]);
  }

  lemma ProgressDrop(lits: seq<int>, kept: seq<int>, from: seq<nat>, i: nat, marked: set<int>)
    requires 0 < i < |lits| && DistinctLitVars(lits) && Progress(lits, kept, from, i, marked)
    ensures Progress(lits, kept, from, i + 1, marked - {Var(lits[i])})
  {
    ProgressNew(lits, kept, from, i, marked);
    VarSetFirst(lits, i);
  }

  lemma ProgressStart(lits: seq<int>)
    ensures Progress(lits, [], [], 0, VarSet(lits))
  {
    assert lits[0..] == lits;
  }

  /** At the end the kept literals are a subsequence of the sorted lemma that starts with the UIP. */
  lemma ProgressEnd(model: Model, lits: seq<int>, kept: seq<int>, from: seq<nat>, marked: set<int>, tr: seq<Elem>)
    requires model.Valid() && AllOnTrail(model, lits) && LevelsFall(model, lits, 1) && DistinctLitVars(lits)
    requires |lits| > 0 && AllFalseLits(lits, tr)
    requires Progress(lits, kept, from, |lits|, marked)
    ensures marked == VarSet(kept) && |kept| > 0 && kept[0] == lits[0] && DistinctLitVars(kept)
    ensures forall x :: x in kept ==> x in lits
    ensures AllOnTrail(model, kept) && LevelsFall(model, kept, 1) && AllFalseLits(kept, tr)
  {
    hide TrailOk, Mirrors, FalseLits, TrueLits, Model.Valid;
    assert lits[|lits|..] == [];
    forall k, m | 1 <= k <= m < |kept|
      ensures model.LevelOfLit(kept[k]) >= model.LevelOfLit(kept[m])
    {
      assert from[0] < from[k] <= from[m];
    }
  }

  /** The literal cannot be dropped: it is a decision, or no set of variables shows that it is redundant. */
  ghost predicate Needed(s: Solver, l: int, marked: set<int>, lowestDL: nat)
    requires s.model.Valid() && OnTrail(s.model, l)
    reads s, s.model, s.store
  {
    s.model.modelStack[s.model.HeightOf(l)].reason == NoReason
    || forall J: set<int> :: !ShowsRedundant(s, J, l, marked, lowestDL)
  }

  /** Unmarking other literals makes none redundant. */
  lemma FewerMarks(s: Solver, J: set<int>, l: int, marked: set<int>, fewer: set<int>, lowestDL: nat)
    requires fewer <= marked && ShowsRedundant(s, J, l, fewer, lowestDL)
    ensures ShowsRedundant(s, J - marked, l, marked, lowestDL)
  {
    hide ReasonFalse, RootVar;
    forall i | 0 <= i < |s.model.modelStack| && Var(s.model.modelStack[i].lit) in (J - marked) + {Var(l)}
      ensures Justified(s, i, marked + (J - marked))
    {
      assert Justified(s, i, fewer + J);
    }
  }

  lemma StillNeeded(s: Solver, l: int, marked: set<int>, fewer: set<int>, lowestDL: nat)
    requires s.model.Valid() && OnTrail(s.model, l) && fewer <= marked && Needed(s, l, marked, lowestDL)
    ensures Needed(s, l, fewer, lowestDL)
  {
    hide ShowsRedundant, Model.Valid;
    forall J: set<int> | ShowsRedundant(s, J, l, fewer, lowestDL)
      ensures ShowsRedundant(s, J - marked, l, marked, lowestDL)
    {
      FewerMarks(s, J, l, marked, fewer, lowestDL);
    }
  }

  ghost predicate AllNeeded(s: Solver, short: seq<int>, marked: set<int>, lowestDL: nat)
    requires s.model.Valid() && AllOnTrail(s.model, short)
    reads s, s.model, s.store
  {
    forall k :: 1 <= k < |short| ==> Needed(s, short[k], marked, lowestDL)
  }

  lemma AllStillNeeded(s: Solver, short: seq<int>, marked: set<int>, fewer: set<int>, lowestDL: nat)
    requires s.model.Valid() && AllOnTrail(s.model, short) && fewer <= marked && AllNeeded(s, short, marked, lowestDL)
    ensures AllNeeded(s, short, fewer, lowestDL)
  {
    hide Needed, Model.Valid;
    forall k | 1 <= k < |short|
      ensures Needed(s, short[k], fewer, lowestDL)
    {
      StillNeeded(s, short[k], marked, fewer, lowestDL);
    }
  }

  lemma NoneNeeded(s: Solver, marked: set<int>, lowestDL: nat)
    requires s.model.Valid()
    ensures AllNeeded(s, [], marked, lowestDL)
  {
  }

  lemma OneIsNeeded(s: Solver, short: seq<int>)
    requires s.model.Valid() && AllOnTrail(s.model, short)
    ensures |short| <= 1 ==> AllNeeded(s, short, VarSet(short), LowestOf(s.model, short))
  {
  }

  lemma MoreNeeded(s: Solver, short: seq<int>, l: int, marked: set<int>, lowestDL: nat)
    requires s.model.Valid() && AllOnTrail(s.model, short) && OnTrail(s.model, l)
    requires AllNeeded(s, short, marked, lowestDL) && (|short| > 0 ==> Needed(s, l, marked, lowestDL))
    ensures AllOnTrail(s.model, short + [l]) && AllNeeded(s, short + [l], marked, lowestDL)
  {
    hide Needed, Model.Valid;
  }

  /** The lowest level of the literals after the first one. */
  ghost function LowestOf(model: Model, lits: seq<int>): nat
    requires model.Valid() && AllOnTrail(model, lits)
    reads model
  {
    if |lits| < 2 then 0
    else
      var d := model.LevelOfLit(lits[|lits| - 1]);
      if |lits| == 2 then d else Min(d, LowestOf(model, lits[..|lits| - 1]))
  }

  lemma {:induction false} LowestMeans(model: Model, lits: seq<int>)
    requires model.Valid() && AllOnTrail(model, lits) && |lits| >= 2
    ensures forall k :: 1 <= k < |lits| ==> model.LevelOfLit(lits[k]) >= LowestOf(model, lits)
    ensures exists k :: 1 <= k < |lits| && model.LevelOfLit(lits[k]) == LowestOf(model, lits)
  {
    hide Model.Valid;
    var u := lits[..|lits| - 1];
    if |lits| == 2 {
      assert model.LevelOfLit(lits[1]) == LowestOf(model, lits);
    } else {
      LowestMeans(model, u);
      var k :| 1 <= k < |u| && model.LevelOfLit(u[k]) == LowestOf(model, u);
      assert lits[k] == u[k];
      assert forall j :: 0 <= j < |u| ==> lits[j] == u[j];
      assert model.LevelOfLit(lits[|lits| - 1]) >= LowestOf(model, lits);
    }
  }

  lemma LowestIsLast(model: Model, lits: seq<int>, lemma0: seq<int>)
    requires model.Valid() && AllOnTrail(model, lits) && AllOnTrail(model, lemma0) && |lits| >= 2
    requires LevelsFall(model, lits, 1) && SameLits(lits, lemma0) && lits[0] == lemma0[0] && DistinctLitVars(lemma0)
    ensures LowestOf(model, lemma0) == model.LevelOfLit(lits[|lits| - 1])
  {
    hide Model.Valid, LowestOf;
    LowestMeans(model, lemma0);
    var d := LowestOf(model, lemma0);
    var k :| 1 <= k < |lemma0| && model.LevelOfLit(lemma0[k]) == d;
    assert lemma0[k] in lits;
    var m :| 0 <= m < |lits| && lits[m] == lemma0[k];
    assert m > 0;
    assert lits[|lits| - 1] in lemma0;
    var j :| 0 <= j < |lemma0| && lemma0[j] == lits[|lits| - 1];
    assert Var(lits[0]) != Var(lits[|lits| - 1]);
    assert j > 0;
  }

  /** One round of the main loop: keep or drop the literal. */
  method Consider(s: Solver, lits: seq<int>, i: nat, marked: set<int>, lowestDL: nat, ghost V: set<int>,
                  ghost J: set<int>)
    returns (redundant: bool, ghost J': set<int>)
    requires Underway(s) && AllOnTrail(s.model, lits) && i < |lits| && Var(lits[i]) in marked
             && Reduced(s, V, J, marked)
    ensures !redundant ==> Reduced(s, V, J', marked) && (i > 0 ==> Needed(s, lits[i], marked, lowestDL))
    ensures redundant ==> i > 0 && Reduced(s, V, J', marked - {Var(lits[i])})
  {
    hide Underway, Reduced, Justified, JustifiedVars, Solver.Valid, Model.Valid, ShowsRedundant;
    var l := lits[i];
    UnderwayIsValid(s);
    assert OnTrail(s.model, l);
    J' := J;
    if i == 0 || s.model.modelStack[s.model.HeightOf(l)].reason == NoReason {
      return false, J;
    }
    if s.model.LevelOfLit(l) == 0 {
      DropRoot(s, V, J, marked, l);
      return true, J;
    }
    ghost var explored;
    redundant, explored := TestRedundant(s, l, marked, lowestDL);
    if redundant {
      DropRedundant(s, V, J, marked, l, explored);
      J' := J + explored;
    }
  }

  lemma UnderwayIsValid(s: Solver)
    requires Underway(s)
    ensures s.Valid() && s.model.Valid()
    ensures s.model.decisionLevel == LevelOf(s.model.modelStack)
  {
  }

  /** lemmaShortening: the UIP comes first, and of the rest exactly what is needed stays. */
  method Shorten(s: Solver, lemma0: seq<int>) returns (short: seq<int>)
    requires Underway(s) && |lemma0| > 0 && AllOnTrail(s.model, lemma0) && DistinctLitVars(lemma0)
    requires AllFalseLits(lemma0, s.model.modelStack)
    ensures Shortened(s, lemma0, short) && ImpliesShort(s, lemma0, short)
    ensures AllFalseLits(short, s.model.modelStack)
    ensures s.model.decisionLevel > 0 ==>
              AllOnTrail(s.model, short) && AllNeeded(s, short, VarSet(short), LowestOf(s.model, lemma0))
  {
    hide Underway, Reduced, AllFalseLits, Progress, Shortened, ImpliesShort, Solver.Valid, Model.Valid, WellFounded,
         SameLits, Needed, LowestOf, AllNeeded, LevelsFall;
    UnderwayIsValid(s);
    if |lemma0| <= 1 || s.model.decisionLevel == 0 {
      NothingShortened(s, lemma0);
      OneIsNeeded(s, lemma0);
      return lemma0;
    }
    var lits := SortByLevel(s.model, lemma0);
    ghost var V := VarSet(lemma0);
    SortedFalse(lits, lemma0, s.model.modelStack);
    VarSetSame(lits, lemma0);
    var lowestDL := s.model.LevelOfLit(lits[|lits| - 1]);
    LowestIsLast(s.model, lits, lemma0);
    var marked := VarSet(lits);
    short := [];
    NoneNeeded(s, marked, lowestDL);
    ghost var from: seq<nat> := [];
    ghost var J := V;
    ReducedStart(s, V);
    ProgressStart(lits);
    for i := 0 to |lits|
      invariant Progress(lits, short, from, i, marked)
      invariant Reduced(s, V, J, marked)
      invariant (i > 0 ==> |short| > 0) && AllOnTrail(s.model, short) && AllNeeded(s, short, marked, lowestDL)
    {
      ProgressNew(lits, short, from, i, marked);
      ProgressKeep(lits, short, from, i, marked);
      var redundant;
      redundant, J := Consider(s, lits, i, marked, lowestDL, V, J);
      if redundant {
        ProgressDrop(lits, short, from, i, marked);
        AllStillNeeded(s, short, marked, marked - {Var(lits[i])}, lowestDL);
        marked := marked - {Var(lits[i])};
      } else {
        MoreNeeded(s, short, lits[i], marked, lowestDL);
        short := short + [lits[i]];
        from := from + [i];
      }
    }
    ProgressEnd(s.model, lits, short, from, marked, s.model.modelStack);
    ReducedImplies(s, lemma0, short, J);
    EndShortened(s, lemma0, lits, short, J);
  }

  lemma SortedFalse(lits: seq<int>, lemma0: seq<int>, tr: seq<Elem>)
    requires SameLits(lits, lemma0) && AllFalseLits(lemma0, tr)
    ensures AllFalseLits(lits, tr) && |lits| == |lemma0| && (DistinctLitVars(lemma0) ==> DistinctLitVars(lits))
  {
    assert forall i :: 0 <= i < |lits| ==> lits[i] in lits;
  }

  lemma EndShortened(s: Solver, lemma0: seq<int>, lits: seq<int>, short: seq<int>, J: set<int>)
    requires s.Valid() && AllOnTrail(s.model, lemma0) && SameLits(lits, lemma0) && |lemma0| > 0 && lits[0] == lemma0[0]
    requires |short| > 0 && short[0] == lits[0] && DistinctLitVars(short) && forall x :: x in short ==> x in lits
    requires AllOnTrail(s.model, short) && LevelsFall(s.model, short, 1)
    requires Reduced(s, VarSet(lemma0), J, VarSet(short))
    ensures Shortened(s, lemma0, short)
  {
    hide Solver.Valid, WellFounded;
  }

  /** Lemmas of one literal, and those at level 0, are left alone. */
  lemma NothingShortened(s: Solver, lemma0: seq<int>)
    requires s.Valid() && |lemma0| > 0 && AllOnTrail(s.model, lemma0) && DistinctLitVars(lemma0)
    requires |lemma0| == 1 || s.model.decisionLevel == 0
    ensures Shortened(s, lemma0, lemma0) && ImpliesShort(s, lemma0, lemma0)
  {
    hide ListsOk, Mirrors, ListsWatch, ClausesOk, ReasonsOk, BinsKnown, Stored, LevelsStart, FalseLits, TrueLits;
    var tr := s.model.modelStack;
    if s.model.decisionLevel == 0 {
      forall h | 0 <= h < |tr|
        ensures tr[h].dl == 0
      {
        assert tr[h].dl <= LevelOf(tr);
      }
    }
    forall h | 0 <= h < |tr| && Var(tr[h].lit) in VarSet(lemma0)
      ensures LevelIn(tr, tr[h].dl, VarSet(lemma0))
    {
    }
  }
}
