/** Rounding repair: weaken a propagating constraint to a clause of slack 0
    (fixRoundingProblemSAT, ConflictAnalysis.cpp). */
module Repair {
  import opened PBCore
  import opened Trail

  ghost predicate KnownVars(s: seq<Term>, n: nat) {
    forall i :: 0 <= i < |s| ==> 1 <= Var(s[i].lit) <= n
  }

  ghost predicate UnitCoefs(s: seq<Term>) {
    forall i :: 0 <= i < |s| ==> s[i].coef == 1
  }

  ghost predicate IsClause(c: PB) {
    c.rhs == 1 && UnitCoefs(c.lhs)
  }

  function LitSet(s: seq<Term>): set<int> {
    set i | 0 <= i < |s| :: s[i].lit
  }

  ghost function Outside(S: set<int>): Lits {
    iset l: int | l !in S
  }

  lemma {:induction false} OutsideNothing(s: seq<Term>)
    ensures Weight(s, Outside({})) == CoefSum(s)
  {
    if |s| > 0 {
      OutsideNothing(s[..|s| - 1]);
    }
  }

  lemma LitSetSnoc(s: seq<Term>, t: Term)
    ensures LitSet(s + [t]) == LitSet(s) + {t.lit}
  {
    var r := s + [t];
    assert r[|s|] == t;
    forall l | l in LitSet(s)
      ensures l in LitSet(r)
    {
      var i :| 0 <= i < |s| && s[i].lit == l;
      assert r[i] == s[i];
    }
  }

  /** Taking one more false literal into the clause. */
  lemma TakeLiteral(s: seq<Term>, i: nat, S: set<int>)
    requires DistinctVars(s) && i < |s| && s[i].lit !in S
    ensures Weight(s, Outside(S + {s[i].lit})) == Weight(s, Outside(S)) - s[i].coef
  {
    WeightRemoveLit(s, i, Outside(S));
    assert Outside(S + {s[i].lit}) == Outside(S) - iset{s[i].lit};
  }

  /** Once every false literal was taken, the rest weighs less than the right-hand side. */
  lemma AllTaken(c: PB, p: nat, S: set<int>, tr: seq<Elem>)
    requires Positive(c.lhs) && DistinctVars(c.lhs) && p < |c.lhs|
    requires c.lhs[p].lit in NonFalse(tr) && Slack(c, NonFalse(tr)) < c.lhs[p].coef
    requires c.lhs[p].lit in S
    requires forall i :: 0 <= i < |c.lhs| && c.lhs[i].lit in FalseLits(tr) ==> c.lhs[i].lit in S
    ensures Weight(c.lhs, Outside(S)) < c.rhs
  {
    var N := NonFalse(tr) - iset{c.lhs[p].lit};
    WeightRemoveLit(c.lhs, p, NonFalse(tr));
    WeightMono(c.lhs, Outside(S), N);
  }

  /** A clause over S is implied when what is outside S cannot reach the right-hand side. */
  lemma ClauseIsImplied(c: PB, w: PB, L: Lits)
    requires Positive(c.lhs) && IsClause(w) && Weight(c.lhs, Outside(LitSet(w.lhs))) < c.rhs
    requires forall i :: 0 <= i < |w.lhs| ==> w.lhs[i].lit != 0
    requires Sat(c, L)
    ensures Sat(w, L)
  {
    if forall i :: 0 <= i < |w.lhs| ==> w.lhs[i].lit !in L {
      forall l | l in LitSet(w.lhs)
        ensures l !in L
      {
        var i :| 0 <= i < |w.lhs| && w.lhs[i].lit == l;
      }
      WeightMono(c.lhs, L, Outside(LitSet(w.lhs)));
      assert false;
    } else {
      var i :| 0 <= i < |w.lhs| && w.lhs[i].lit in L;
      WeightAtLeastTerm(w.lhs, i, L);
    }
  }

  lemma {:induction false} OnlyOne(s: seq<Term>, L: Lits, q: nat)
    requires UnitCoefs(s) && q < |s| && s[q].lit in L
    requires forall i :: 0 <= i < |s| && i != q ==> s[i].lit !in L
    ensures Weight(s, L) == 1
  {
    WeightSplitAt(s, q, L);
    WeightAgree(s[..q], L, iset{});
    WeightAgree(s[q + 1..], L, iset{});
    EmptyWeight(s[..q]);
    EmptyWeight(s[q + 1..]);
  }

  lemma {:induction false} EmptyWeight(s: seq<Term>)
    ensures Weight(s, iset{}) == 0
  {
    if |s| > 0 {
      EmptyWeight(s[..|s| - 1]);
    }
  }

  /** What the repaired clause promises about the constraint it replaces. */
  ghost predicate Repaired(c: PB, p: nat, w: PB, tr: seq<Elem>)
    requires p < |c.lhs|
  {
    && WellFormed(w) && IsClause(w)
    && (exists q :: 0 <= q < |w.lhs| && w.lhs[q] == Term(1, c.lhs[p].lit))
    && Slack(w, NonFalse(tr)) == 0
    && (forall L: Lits :: Sat(c, L) ==> Sat(w, L))
    && (forall i :: 0 <= i < |w.lhs| ==> w.lhs[i].lit in LitSet(c.lhs))
  }

  /** State of the selection loop before position i: W lists the chosen literals, S adds the pivot. */
  ghost predicate Chosen(c: PB, p: nat, w: seq<Term>, i: nat, sum: int, tr: seq<Elem>)
    requires p < |c.lhs|
  {
    var S := LitSet(w) + {c.lhs[p].lit};
    && i <= |c.lhs|
    && Positive(w) && Ordered(w) && UnitCoefs(w)
    && (forall k, j :: 0 <= k < |w| && i <= j < |c.lhs| ==> Var(w[k].lit) < Var(c.lhs[j].lit))
    && (forall k :: 0 <= k < |w| ==> w[k].lit in LitSet(c.lhs))
    && (forall k :: 0 <= k < |w| && w[k].lit != c.lhs[p].lit ==> w[k].lit in FalseLits(tr))
    && sum == Weight(c.lhs, Outside(S)) - c.rhs
    && (p < i <==> c.lhs[p].lit in LitSet(w))
    && (sum >= 0 ==> forall k :: 0 <= k < i && c.lhs[k].lit in FalseLits(tr) ==> c.lhs[k].lit in S)
  }

  lemma ChosenInBounds(c: PB, p: nat, w: seq<Term>, i: nat, sum: int, tr: seq<Elem>)
    requires WellFormed(c) && p < |c.lhs| && Chosen(c, p, w, i, sum, tr)
    requires c.lhs[p].lit in NonFalse(tr) && Slack(c, NonFalse(tr)) < c.lhs[p].coef
    requires sum >= 0 || i <= p
    ensures i < |c.lhs|
  {
    if i == |c.lhs| {
      OrderedIsDistinct(c.lhs);
      AllTaken(c, p, LitSet(w) + {c.lhs[p].lit}, tr);
      assert false;
    }
  }

  lemma ChosenStep(c: PB, p: nat, w: seq<Term>, i: nat, sum: int, tr: seq<Elem>)
    requires WellFormed(c) && p < |c.lhs| && Chosen(c, p, w, i, sum, tr) && i < |c.lhs|
    requires c.lhs[p].lit in NonFalse(tr)
    ensures i == p ==> Chosen(c, p, w + [Term(1, c.lhs[i].lit)], i + 1, sum, tr)
    ensures i != p && c.lhs[i].lit in FalseLits(tr) && sum >= 0 ==>
              Chosen(c, p, w + [Term(1, c.lhs[i].lit)], i + 1, sum - c.lhs[i].coef, tr)
    ensures i != p && !(c.lhs[i].lit in FalseLits(tr) && sum >= 0) ==> Chosen(c, p, w, i + 1, sum, tr)
  {
    hide Weight, Outside;
    var t := c.lhs[i];
    var w' := w + [Term(1, t.lit)];
    LitSetSnoc(w, Term(1, t.lit));
    assert t.lit !in LitSet(w);
    assert t.lit in LitSet(c.lhs);
    if i == p {
      assert LitSet(w') + {c.lhs[p].lit} == LitSet(w) + {c.lhs[p].lit};
    } else if t.lit in FalseLits(tr) && sum >= 0 {
      OrderedIsDistinct(c.lhs);
      assert t.lit != c.lhs[p].lit;
      TakeLiteral(c.lhs, i, LitSet(w) + {c.lhs[p].lit});
      assert LitSet(w') + {c.lhs[p].lit} == LitSet(w) + {c.lhs[p].lit} + {t.lit};
    }
  }

  lemma ChosenDone(c: PB, p: nat, w: seq<Term>, i: nat, sum: int, tr: seq<Elem>)
    requires WellFormed(c) && p < |c.lhs| && Chosen(c, p, w, i, sum, tr) && sum < 0 && p < i
    requires c.lhs[p].lit in NonFalse(tr)
    ensures Repaired(c, p, PB(w, 1), tr)
  {
    var l := c.lhs[p].lit;
    assert LitSet(w) + {l} == LitSet(w);
    var q :| 0 <= q < |w| && w[q].lit == l;
    assert w[q] == Term(1, l);
    forall k | 0 <= k < |w| && k != q
      ensures w[k].lit !in NonFalse(tr)
    {
      assert Var(w[k].lit) != Var(w[q].lit);
    }
    OnlyOne(w, NonFalse(tr), q);
    forall L: Lits | Sat(c, L)
      ensures Sat(PB(w, 1), L)
    {
      ClauseIsImplied(c, PB(w, 1), L);
    }
  }

  /** fixRoundingProblemSAT: never reads past the end, and returns a clause of slack 0 that c implies. */
  method FixRoundingProblem(model: Model, x: int, c: PB, ghost p: nat) returns (w: PB)
    requires model.Valid() && WellFormed(c) && KnownVars(c.lhs, model.numVars)
    requires p < |c.lhs| && Var(c.lhs[p].lit) == x
    requires c.lhs[p].lit in NonFalse(model.modelStack)
    requires Slack(c, NonFalse(model.modelStack)) < c.lhs[p].coef
    ensures Repaired(c, p, w, model.modelStack)
  {
    var sum, coef := SumWithoutPivot(c, x, p);
    var w2: seq<Term> := [];
    var i := 0;
    var added := false;
    assert LitSet(w2) + {c.lhs[p].lit} == {c.lhs[p].lit};
    while sum >= 0 || !added
      invariant Chosen(c, p, w2, i, sum, model.modelStack)
      invariant added <==> p < i
      decreases |c.lhs| - i
    {
      ChosenInBounds(c, p, w2, i, sum, model.modelStack);
      ChosenStep(c, p, w2, i, sum, model.modelStack);
      var lit := c.lhs[i].lit;
      if Var(lit) != x && sum >= 0 && model.IsFalseLit(lit) {
        w2 := w2 + [Term(1, lit)];
        sum := sum - c.lhs[i].coef;
      } else if Var(lit) == x {
        w2 := w2 + [Term(1, lit)];
        added := true;
      }
      i := i + 1;
    }
    ChosenDone(c, p, w2, i, sum, model.modelStack);
    w := PB(w2, 1);
  }

  /** The first loop: the sum of all coefficients except that of the pivot, minus the right-hand side. */
  method SumWithoutPivot(c: PB, x: int, ghost p: nat) returns (sum: int, coef: int)
    requires WellFormed(c) && p < |c.lhs| && Var(c.lhs[p].lit) == x
    ensures coef == c.lhs[p].coef
    ensures sum == Weight(c.lhs, Outside({c.lhs[p].lit})) - c.rhs
  {
    sum, coef := -c.rhs, 0;
    for i := 0 to |c.lhs|
      invariant sum == CoefSum(c.lhs[..i]) - c.rhs
      invariant coef == if p < i then c.lhs[p].coef else 0
    {
      assert c.lhs[..i + 1][..i] == c.lhs[..i];
      sum := sum + c.lhs[i].coef;
      if Var(c.lhs[i].lit) == x {
        coef := c.lhs[i].coef;
      }
    }
    assert c.lhs[..|c.lhs|] == c.lhs;
    OutsideNothing(c.lhs);
    OrderedIsDistinct(c.lhs);
    TakeLiteral(c.lhs, p, {});
    assert {} + {c.lhs[p].lit} == {c.lhs[p].lit};
    sum := sum - coef;
  }
}
