/** Normalisation of a constraint: gcd division with rounding up, saturation, merging of duplicates
    (Constraint.h, WConstraint.h, and the tail of applyCut). */
module Normalise {
  import opened Arith
  import opened PBCore

  /** Divide by g rounding up, never exceeding the divided right-hand side. */
  function NormCoef(coef: int, K: int, g: int): int
    requires g > 0
  {
    Min(DivUp(coef, g), DivUp(K, g))
  }

  function NormSeq(s: seq<Term>, K: int, g: int): (r: seq<Term>)
    requires g > 0
    ensures |r| == |s|
  {
    seq(|s|, i requires 0 <= i < |s| => Term(NormCoef(s[i].coef, K, g), s[i].lit))
  }

  /** The gcd of the coefficients that are at most bound; 0 when there is none. */
  function GcdUpTo(s: seq<Term>, bound: int): nat {
    if |s| == 0 then 0
    else
      var g := GcdUpTo(s[..|s| - 1], bound);
      var c := s[|s| - 1].coef;
      if 0 <= c <= bound then GCD(g, c) else g
  }

  function DivisorFor(s: seq<Term>, bound: int, K: int): (g: int)
    requires K > 0
    ensures g > 0
  {
    if GcdUpTo(s, bound) == 0 then K else GcdUpTo(s, bound)
  }

  lemma GcdUpToStep(s: seq<Term>, i: nat, bound: int)
    requires i < |s|
    ensures GcdUpTo(s[..i + 1], bound)
         == (if 0 <= s[i].coef <= bound then GCD(GcdUpTo(s[..i], bound), s[i].coef) else GcdUpTo(s[..i], bound))
  {
    assert s[..i + 1][..i] == s[..i];
  }

  lemma {:induction false} GcdUpToDivides(s: seq<Term>, bound: int, i: nat)
    requires i < |s| && 0 < s[i].coef <= bound
    ensures GcdUpTo(s, bound) > 0 && Divides(GcdUpTo(s, bound), s[i].coef)
  {
    var u := s[..|s| - 1];
    var c := s[|s| - 1].coef;
    var g := GcdUpTo(u, bound);
    if 0 <= c <= bound {
      GCDIsGreatest(g, c);
    }
    if i < |s| - 1 {
      GcdUpToDivides(u, bound, i);
      if 0 <= c <= bound {
        DividesTrans(GcdUpTo(s, bound), g, s[i].coef);
      }
    }
  }

  /** Coefficients of L all below K and divisible by g: division loses nothing. */
  lemma {:induction false} NormScales(s: seq<Term>, K: int, g: int, L: Lits)
    requires g > 0
    requires forall i :: 0 <= i < |s| && s[i].lit in L ==> s[i].coef <= K && Divides(g, s[i].coef)
    ensures g * Weight(NormSeq(s, K, g), L) == Weight(s, L)
  {
    if |s| > 0 {
      var u := s[..|s| - 1];
      var t := s[|s| - 1];
      assert NormSeq(s, K, g)[..|s| - 1] == NormSeq(u, K, g);
      NormScales(u, K, g, L);
      if t.lit in L {
        CoefScales(t.coef, K, g);
        Distribute(g, Weight(NormSeq(u, K, g), L), NormCoef(t.coef, K, g));
      }
    }
  }

  lemma CoefScales(c: int, K: int, g: int)
    requires g > 0 && c <= K && Divides(g, c)
    ensures g * NormCoef(c, K, g) == c
  {
    var k :| c == g * k;
    DivUpExact(k, g);
    DivUpMono(c, K, g);
  }

  lemma NormPositive(s: seq<Term>, K: int, g: int)
    requires Positive(s) && K > 0 && g > 0
    ensures Positive(NormSeq(s, K, g)) && DivUp(K, g) >= 1
    ensures Saturated(PB(NormSeq(s, K, g), DivUp(K, g)))
  {
    DivUpPositive(K, g);
    forall i | 0 <= i < |s|
      ensures NormCoef(s[i].coef, K, g) >= 1
    {
      DivUpPositive(s[i].coef, g);
    }
  }

  /** Exact over EVERY set of literals, hence also over the non-false literals of any trail:
      the normalised constraint has the same 0/1 solutions and the same conflicts and propagations. */
  lemma NormExact(s: seq<Term>, K: int, g: int, L: Lits)
    requires Positive(s) && K > 0 && g > 0
    requires forall i :: 0 <= i < |s| && s[i].coef < K ==> Divides(g, s[i].coef)
    ensures Weight(s, L) >= K <==> Weight(NormSeq(s, K, g), L) >= DivUp(K, g)
  {
    var n := NormSeq(s, K, g);
    NormPositive(s, K, g);
    if i :| 0 <= i < |s| && s[i].lit in L && s[i].coef >= K {
      WeightAtLeastTerm(s, i, L);
      DivUpMono(K, s[i].coef, g);
      assert n[i].lit in L && n[i].coef == DivUp(K, g);
      WeightAtLeastTerm(n, i, L);
    } else {
      NormScales(s, K, g, L);
      var w, d := Weight(n, L), DivUp(K, g);
      MulLeq(d, w, g);
      MulLeq(w, d - 1, g);
    }
  }

  /** What simplify computes: gcd of the coefficients below the right-hand side. */
  function Simplified(c: PB): PB
    requires c.rhs >= 1
  {
    var g := DivisorFor(c.lhs, c.rhs - 1, c.rhs);
    PB(NormSeq(c.lhs, c.rhs, g), DivUp(c.rhs, g))
  }

  lemma SimplifiedExact(c: PB, L: Lits)
    requires Positive(c.lhs) && c.rhs >= 1
    ensures Sat(Simplified(c), L) <==> Sat(c, L)
  {
    var g := DivisorFor(c.lhs, c.rhs - 1, c.rhs);
    forall i | 0 <= i < |c.lhs| && c.lhs[i].coef < c.rhs
      ensures Divides(g, c.lhs[i].coef)
    {
      GcdUpToDivides(c.lhs, c.rhs - 1, i);
    }
    NormExact(c.lhs, c.rhs, g, L);
  }

  lemma SimplifiedShape(c: PB)
    requires Positive(c.lhs) && c.rhs >= 1
    ensures Positive(Simplified(c).lhs) && Saturated(Simplified(c)) && Simplified(c).rhs >= 1
    ensures |Simplified(c).lhs| == |c.lhs|
    ensures forall i :: 0 <= i < |c.lhs| ==> Simplified(c).lhs[i].lit == c.lhs[i].lit
  {
    NormPositive(c.lhs, c.rhs, DivisorFor(c.lhs, c.rhs - 1, c.rhs));
  }

  lemma {:induction false} CommonDivisor(s: seq<Term>, bound: int, d: int)
    requires forall i :: 0 <= i < |s| && 0 <= s[i].coef <= bound ==> Divides(d, s[i].coef)
    ensures Divides(d, GcdUpTo(s, bound))
  {
    if |s| == 0 {
      assert 0 == d * 0;
    } else {
      var u := s[..|s| - 1];
      assert forall i :: 0 <= i < |u| ==> u[i] == s[i];
      CommonDivisor(u, bound, d);
      if 0 <= s[|s| - 1].coef <= bound {
        GCDIsGreatest(GcdUpTo(u, bound), s[|s| - 1].coef);
      }
    }
  }

  lemma ScaledDivides(g: int, d: int, c: int, n: int)
    requires c == g * n && Divides(d, n)
    ensures Divides(g * d, c)
  {
    var k :| n == d * k;
    assert c == (g * d) * k;
  }

  lemma ProperMultiple(g: int, d: int)
    requires g > 0 && d > 1
    ensures !Divides(g * d, g)
  {
    forall k: int
      ensures g != (g * d) * k
    {
      if k > 0 {
        MulLeq(1, k, d);
        MulLeq(2, d * k, g);
        assert (g * d) * k == g * (d * k);
      } else {
        MulLeq(k, 0, d);
        MulLeq(d * k, 0, g);
        assert (g * d) * k == g * (d * k);
      }
    }
  }

  /** The division goes as far as it can: no larger number divides all the coefficients up to the bound. */
  lemma NothingLeftToDivide(s: seq<Term>, K: int, bound: int, d: int)
    requires Positive(s) && K >= 1 && bound <= K && d > 1 && exists i :: 0 <= i < |s| && s[i].coef <= bound
    ensures exists i :: 0 <= i < |s| && s[i].coef <= bound
                        && !Divides(d, NormSeq(s, K, DivisorFor(s, bound, K))[i].coef)
  {
    var g := DivisorFor(s, bound, K);
    var n := NormSeq(s, K, g);
    var j :| 0 <= j < |s| && s[j].coef <= bound;
    GcdUpToDivides(s, bound, j);
    if forall i :: 0 <= i < |s| && s[i].coef <= bound ==> Divides(d, n[i].coef) {
      forall i | 0 <= i < |s| && 0 <= s[i].coef <= bound
        ensures Divides(g * d, s[i].coef)
      {
        GcdUpToDivides(s, bound, i);
        CoefScales(s[i].coef, K, g);
        ScaledDivides(g, d, s[i].coef, n[i].coef);
      }
      CommonDivisor(s, bound, g * d);
      ProperMultiple(g, d);
    }
  }

  /** A simplified constraint is a clause, or its coefficients below the right-hand side have no common divisor. */
  lemma SimplifiedIsPrimitive(c: PB, d: int)
    requires Positive(c.lhs) && c.rhs >= 1 && d > 1
    ensures var r := Simplified(c);
            if forall i :: 0 <= i < |c.lhs| ==> c.lhs[i].coef >= c.rhs then
              r.rhs == 1 && forall i :: 0 <= i < |r.lhs| ==> r.lhs[i].coef == 1
            else exists i :: 0 <= i < |r.lhs| && r.lhs[i].coef < r.rhs && !Divides(d, r.lhs[i].coef)
  {
    var g, r := DivisorFor(c.lhs, c.rhs - 1, c.rhs), Simplified(c);
    NormPositive(c.lhs, c.rhs, g);
    if forall i :: 0 <= i < |c.lhs| ==> c.lhs[i].coef >= c.rhs {
      NoSmallCoef(c.lhs, c.rhs - 1);
      assert c.rhs == c.rhs * 1;
      DivUpExact(1, c.rhs);
    } else {
      NothingLeftToDivide(c.lhs, c.rhs, c.rhs - 1, d);
      var i :| 0 <= i < |c.lhs| && c.lhs[i].coef <= c.rhs - 1 && !Divides(d, NormSeq(c.lhs, c.rhs, g)[i].coef);
      GcdUpToDivides(c.lhs, c.rhs - 1, i);
      CoefScales(c.lhs[i].coef, c.rhs, g);
      if r.lhs[i].coef >= r.rhs {
        MulLeq(r.rhs, r.lhs[i].coef, g);
      }
    }
  }

  lemma {:induction false} NoSmallCoef(s: seq<Term>, bound: int)
    requires forall i :: 0 <= i < |s| ==> s[i].coef > bound
    ensures GcdUpTo(s, bound) == 0
  {
    if |s| > 0 {
      NoSmallCoef(s[..|s| - 1], bound);
    }
  }

  /** Non-strict variable order: what removeDuplicates needs of its caller (after the stable sort). */
  ghost predicate SortedByVar(s: seq<Term>) {
    forall i, j :: 0 <= i <= j < |s| ==> Var(s[i].lit) <= Var(s[j].lit)
  }

  /** Same slack over every total assignment. */
  ghost predicate SameSlack(c: PB, d: PB) {
    forall L: Lits :: Total(L) ==> Slack(c, L) == Slack(d, L)
  }

  /** Over total assignments the block s is worth pos when v is true and neg when it is false. */
  ghost predicate BlockWorth(s: seq<Term>, v: int, pos: int, neg: int) {
    forall L: Lits :: Total(L) ==> Weight(s, L) == if v in L then pos else neg
  }

  lemma BlockStep(s: seq<Term>, t: Term, v: int, pos: int, neg: int)
    requires v > 0 && Var(t.lit) == v && BlockWorth(s, v, pos, neg)
    ensures t.lit > 0 ==> BlockWorth(s + [t], v, pos + t.coef, neg)
    ensures t.lit < 0 ==> BlockWorth(s + [t], v, pos, neg + t.coef)
  {
    forall L: Lits | Total(L)
      ensures Weight(s + [t], L) == Weight(s, L) + (if t.lit in L then t.coef else 0)
      ensures (v in L) <==> (-v !in L)
    {
      WeightSnoc(s, t, L);
    }
  }

  /** Flushing a block: only the difference of the two coefficients stays on the left. */
  function FlushLhs(acc: seq<Term>, v: int, pos: int, neg: int): seq<Term> {
    if pos > neg then acc + [Term(pos - neg, v)]
    else if pos < neg then acc + [Term(neg - pos, -v)]
    else acc
  }

  lemma FlushBlock(acc: seq<Term>, accRhs: int, done: seq<Term>, rhs: int, block: seq<Term>, v: int, pos: int, neg: int)
    requires v > 0 && SameSlack(PB(acc, accRhs), PB(done, rhs)) && BlockWorth(block, v, pos, neg)
    ensures SameSlack(PB(FlushLhs(acc, v, pos, neg), accRhs - Min(pos, neg)), PB(done + block, rhs))
  {
    forall L: Lits | Total(L)
      ensures Slack(PB(FlushLhs(acc, v, pos, neg), accRhs - Min(pos, neg)), L) == Slack(PB(done + block, rhs), L)
    {
      assert Slack(PB(acc, accRhs), L) == Slack(PB(done, rhs), L);
      WeightAppend(done, block, L);
      WeightSnoc(acc, Term(pos - neg, v), L);
      WeightSnoc(acc, Term(neg - pos, -v), L);
      assert Weight(block, L) == if v in L then pos else neg;
      assert v in L <==> -v !in L;
    }
  }

  /** Every variable of acc is below those of s from position i on. */
  ghost predicate VarsBelow(acc: seq<Term>, s: seq<Term>, i: nat) {
    forall k, j :: 0 <= k < |acc| && i <= j < |s| ==> Var(acc[k].lit) < Var(s[j].lit)
  }

  lemma FlushShape(acc: seq<Term>, s: seq<Term>, i: nat, j: nat, pos: int, neg: int)
    requires i < j <= |s| && Positive(s) && SortedByVar(s)
    requires Positive(acc) && Ordered(acc) && VarsBelow(acc, s, i)
    requires j < |s| ==> Var(s[j].lit) != Var(s[i].lit)
    ensures Positive(FlushLhs(acc, Var(s[i].lit), pos, neg)) && Ordered(FlushLhs(acc, Var(s[i].lit), pos, neg))
    ensures VarsBelow(FlushLhs(acc, Var(s[i].lit), pos, neg), s, j)
  {
    forall k | j <= k < |s|
      ensures Var(s[i].lit) < Var(s[k].lit)
    {
      assert Var(s[i].lit) <= Var(s[j].lit) <= Var(s[k].lit);
    }
  }

  /** r mentions no variable that s does not. */
  ghost predicate VarsFrom(r: seq<Term>, s: seq<Term>) {
    forall i :: 0 <= i < |r| ==> MentionsVar(s, Var(r[i].lit))
  }

  lemma FlushVars(acc: seq<Term>, s: seq<Term>, i: nat, pos: int, neg: int)
    requires i < |s| && VarsFrom(acc, s)
    ensures VarsFrom(FlushLhs(acc, Var(s[i].lit), pos, neg), s)
  {
    assert MentionsVar(s, Var(s[i].lit));
  }

  class WConstraint {
    var lhs: seq<Term>
    var rhs: int

    constructor (l: seq<Term>, r: int)
      ensures lhs == l && rhs == r
    {
      lhs, rhs := l, r;
    }

    function Value(): PB
      reads this
    {
      PB(lhs, rhs)
    }

    /** The inner loop of removeDuplicates: one block of equal variables. */
    method TakeBlock(start: nat) returns (i: nat, pos: int, neg: int)
      requires start < |lhs| && Positive(lhs)
      ensures start < i <= |lhs|
      ensures forall j :: start <= j < i ==> Var(lhs[j].lit) == Var(lhs[start].lit)
      ensures i < |lhs| ==> Var(lhs[i].lit) != Var(lhs[start].lit)
      ensures BlockWorth(lhs[start..i], Var(lhs[start].lit), pos, neg) && pos >= 0 && neg >= 0
    {
      var v := Var(lhs[start].lit);
      i, pos, neg := start, 0, 0;
      while i < |lhs| && Var(lhs[i].lit) == v
        invariant start <= i <= |lhs|
        invariant forall j :: start <= j < i ==> Var(lhs[j].lit) == v
        invariant BlockWorth(lhs[start..i], v, pos, neg) && pos >= 0 && neg >= 0
      {
        BlockStep(lhs[start..i], lhs[i], v, pos, neg);
        assert lhs[start..i + 1] == lhs[start..i] + [lhs[i]];
        if lhs[i].lit > 0 {
          pos := pos + lhs[i].coef;
        } else {
          neg := neg + lhs[i].coef;
        }
        i := i + 1;
      }
    }

    /** removeDuplicates: opposite literals of a variable cancel; the slack of every 0/1 point is unchanged. */
    method RemoveDuplicates()
      requires Positive(lhs) && SortedByVar(lhs)
      modifies this
      ensures Positive(lhs) && Ordered(lhs) && VarsFrom(lhs, old(lhs))
      ensures SameSlack(Value(), old(Value()))
    {
      var i := 0;
      var newLhs: seq<Term> := [];
      var newRhs := rhs;
      while i < |lhs|
        invariant i <= |lhs|
        invariant Positive(newLhs) && Ordered(newLhs)
        invariant VarsBelow(newLhs, lhs, i) && VarsFrom(newLhs, lhs)
        invariant SameSlack(PB(newLhs, newRhs), PB(lhs[..i], rhs))
        invariant Value() == old(Value())
      {
        var j, pos, neg := TakeBlock(i);
        FlushBlock(newLhs, newRhs, lhs[..i], rhs, lhs[i..j], Var(lhs[i].lit), pos, neg);
        FlushShape(newLhs, lhs, i, j, pos, neg);
        FlushVars(newLhs, lhs, i, pos, neg);
        assert lhs[..i] + lhs[i..j] == lhs[..j];
        newLhs, newRhs := FlushLhs(newLhs, Var(lhs[i].lit), pos, neg), newRhs - Min(pos, neg);
        i := j;
      }
      assert lhs[..i] == lhs;
      lhs := newLhs;
      rhs := newRhs;
    }

    /** simplify: saturate above the right-hand side, divide by the gcd of the rest, rounding up.  The source asks
        for a positive right-hand side only in an assertion; a negative one makes the clause of all literals. */
    method Simplify()
      requires Positive(lhs) && |lhs| > 0 && rhs != 0
      modifies this
      ensures old(rhs) >= 1 ==> Value() == Simplified(old(Value()))
      ensures old(rhs) < 0 ==> Value() == PB(DividedByItself(old(lhs)), 1)
    {
      var c := rhs;
      ghost var s := lhs;
      var g := Saturate();
      NoneBelowNegative(s, c);
      if g == 0 {
        g := c;
      }
      ghost var shaved := lhs;
      Divide(g);
      if c >= 1 {
        ShavedThenDivided(s, shaved, c, g);
        assert lhs == NormSeq(s, c, g);
      } else {
        assert lhs == DividedByItself(s);
      }
    }

    /** The first loop of simplify: saturates, and collects the gcd of the coefficients below the right-hand side. */
    method Saturate() returns (g: nat)
      requires Positive(lhs)
      modifies this
      ensures |lhs| == old(|lhs|) && rhs == old(rhs) && g == GcdUpTo(old(lhs), rhs - 1)
      ensures forall j :: 0 <= j < |lhs| ==> lhs[j] == Term(Min(old(lhs)[j].coef, rhs), old(lhs)[j].lit)
    {
      var c := rhs;
      ghost var s := lhs;
      g := 0;
      for i := 0 to |lhs|
        invariant |lhs| == |s| && rhs == c
        invariant g == GcdUpTo(s[..i], c - 1)
        invariant forall j :: 0 <= j < i ==> lhs[j] == Term(Min(s[j].coef, c), s[j].lit)
        invariant forall j :: i <= j < |s| ==> lhs[j] == s[j]
      {
        GcdUpToStep(s, i, c - 1);
        var coef := lhs[i].coef;
        if coef < c {
          g := GCD(g, coef);
        } else if coef > c {
          lhs := lhs[i := Term(c, lhs[i].lit)];
        }
      }
      assert s[..|s|] == s;
    }

    /** The second loop of simplify. */
    method Divide(g: int)
      requires g != 0
      modifies this
      ensures |lhs| == old(|lhs|) && rhs == DivisionRoundedUp(old(rhs), g)
      ensures forall j :: 0 <= j < |lhs| ==> lhs[j] == Term(DivisionRoundedUp(old(lhs)[j].coef, g), old(lhs)[j].lit)
    {
      hide DivisionRoundedUp;
      rhs := DivisionRoundedUp(rhs, g);
      for i := 0 to |lhs|
        invariant |lhs| == old(|lhs|) && rhs == DivisionRoundedUp(old(rhs), g)
        invariant forall j :: 0 <= j < i ==> lhs[j] == Term(DivisionRoundedUp(old(lhs)[j].coef, g), old(lhs)[j].lit)
        invariant forall j :: i <= j < |lhs| ==> lhs[j] == old(lhs)[j]
      {
        lhs := lhs[i := Term(DivisionRoundedUp(lhs[i].coef, g), lhs[i].lit)];
      }
    }
  }

  /** What a negative right-hand side leads to: every coefficient is divided by itself. */
  function DividedByItself(s: seq<Term>): (r: seq<Term>)
    ensures |r| == |s|
  {
    seq(|s|, i requires 0 <= i < |s| => Term(1, s[i].lit))
  }

  lemma {:induction false} NoneBelowNegative(s: seq<Term>, c: int)
    requires Positive(s)
    ensures c < 0 ==> GcdUpTo(s, c - 1) == 0
  {
    if |s| > 0 {
      NoneBelowNegative(s[..|s| - 1], c);
    }
  }

  lemma ShavedThenDivided(s: seq<Term>, shaved: seq<Term>, c: int, g: int)
    requires Positive(s) && c >= 1 && g > 0 && |shaved| == |s|
    requires forall j :: 0 <= j < |s| ==> shaved[j] == Term(Min(s[j].coef, c), s[j].lit)
    ensures forall j :: 0 <= j < |s| ==> Term(DivisionRoundedUp(shaved[j].coef, g), s[j].lit) == NormSeq(s, c, g)[j]
  {
    forall j | 0 <= j < |s|
      ensures DivisionRoundedUp(shaved[j].coef, g) == NormCoef(s[j].coef, c, g)
    {
      DivUpMono(s[j].coef, c, g);
      DivUpMono(c, Max(c, s[j].coef), g);
    }
  }
}
