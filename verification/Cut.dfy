/** The cut between two constraints that eliminates a variable (applyCut, ConflictAnalysis.cpp). */
module Cut {
  import opened Arith
  import opened PBCore
  import opened Normalise

  const TWO_TO_THE_30 := 0x4000_0000

  /** The sum of two multiplied left-hand sides, and the amount that cancelled between opposite literals. */
  datatype Merged = Merged(lhs: seq<Term>, cancelled: int)

  /** Both constraints mention the variable: the larger product survives, or nothing does. */
  function Combine(m: Merged, p1: int, lit1: int, p2: int, lit2: int): Merged {
    if lit1 == lit2 then Merged(m.lhs + [Term(p2 + p1, lit1)], m.cancelled)
    else if p1 >= p2 then
      Merged(if p1 - p2 != 0 then m.lhs + [Term(p1 - p2, lit1)] else m.lhs, m.cancelled + p2)
    else
      Merged(if p2 - p1 != 0 then m.lhs + [Term(p2 - p1, lit2)] else m.lhs, m.cancelled + p1)
  }

  /** Both left-hand sides are already multiplied; last variables first. */
  function Merge(s1: seq<Term>, s2: seq<Term>): Merged
    decreases |s1| + |s2|
  {
    var n1, n2 := |s1|, |s2|;
    if n1 == 0 && n2 == 0 then Merged([], 0)
    else if n2 == 0 || (n1 > 0 && Var(s1[n1 - 1].lit) > Var(s2[n2 - 1].lit)) then
      var m := Merge(s1[..n1 - 1], s2);
      Merged(m.lhs + [s1[n1 - 1]], m.cancelled)
    else if n1 == 0 || Var(s1[n1 - 1].lit) < Var(s2[n2 - 1].lit) then
      var m := Merge(s1, s2[..n2 - 1]);
      Merged(m.lhs + [s2[n2 - 1]], m.cancelled)
    else
      Combine(Merge(s1[..n1 - 1], s2[..n2 - 1]), s1[n1 - 1].coef, s1[n1 - 1].lit, s2[n2 - 1].coef, s2[n2 - 1].lit)
  }

  function Scale(s: seq<Term>, k: int): (r: seq<Term>)
    ensures |r| == |s|
  {
    seq(|s|, i requires 0 <= i < |s| => Term(k * s[i].coef, s[i].lit))
  }

  lemma {:induction false} ScaleWeight(s: seq<Term>, k: int, L: Lits)
    ensures Weight(Scale(s, k), L) == k * Weight(s, L)
  {
    if |s| > 0 {
      var u, t := s[..|s| - 1], s[|s| - 1];
      assert Scale(s, k)[..|s| - 1] == Scale(u, k);
      ScaleWeight(u, k, L);
      Distribute(k, Weight(u, L), if t.lit in L then t.coef else 0);
    }
  }

  lemma ScaleShape(s: seq<Term>, k: int)
    requires Positive(s) && k > 0
    ensures Positive(Scale(s, k)) && (Ordered(s) ==> Ordered(Scale(s, k)))
  {
    forall i | 0 <= i < |s|
      ensures k * s[i].coef > 0
    {
      Distribute(k, s[i].coef, 0);
      MulLeq(1, s[i].coef, k);
    }
  }

  lemma CombineWeight(m: Merged, p1: int, lit1: int, p2: int, lit2: int, L: Lits)
    requires p1 > 0 && p2 > 0 && lit1 != 0 && Var(lit1) == Var(lit2) && Covering(L)
    ensures var r := Combine(m, p1, lit1, p2, lit2);
            var before := Weight(m.lhs, L) + m.cancelled;
            var added := (if lit1 in L then p1 else 0) + (if lit2 in L then p2 else 0);
            && Weight(r.lhs, L) + r.cancelled <= before + added
            && (Total(L) ==> Weight(r.lhs, L) + r.cancelled == before + added)
  {
    WeightSnoc(m.lhs, Term(p2 + p1, lit1), L);
    WeightSnoc(m.lhs, Term(p1 - p2, lit1), L);
    WeightSnoc(m.lhs, Term(p2 - p1, lit2), L);
    assert lit1 == lit2 || lit2 == -lit1;
    assert lit1 in L || -lit1 in L;
  }

  /** The merged sum never weighs more than the two sums, and over a 0/1 point exactly as much. */
  lemma {:induction false} MergeWeight(s1: seq<Term>, s2: seq<Term>, L: Lits)
    requires Positive(s1) && Positive(s2) && Covering(L)
    ensures var m := Merge(s1, s2);
            && Weight(m.lhs, L) + m.cancelled <= Weight(s1, L) + Weight(s2, L)
            && (Total(L) ==> Weight(m.lhs, L) + m.cancelled == Weight(s1, L) + Weight(s2, L))
    decreases |s1| + |s2|
  {
    var n1, n2 := |s1|, |s2|;
    if n1 == 0 && n2 == 0 {
    } else if n2 == 0 || (n1 > 0 && Var(s1[n1 - 1].lit) > Var(s2[n2 - 1].lit)) {
      MergeWeight(s1[..n1 - 1], s2, L);
      WeightSnoc(Merge(s1[..n1 - 1], s2).lhs, s1[n1 - 1], L);
    } else if n1 == 0 || Var(s1[n1 - 1].lit) < Var(s2[n2 - 1].lit) {
      MergeWeight(s1, s2[..n2 - 1], L);
      WeightSnoc(Merge(s1, s2[..n2 - 1]).lhs, s2[n2 - 1], L);
    } else {
      MergeWeight(s1[..n1 - 1], s2[..n2 - 1], L);
      CombineWeight(Merge(s1[..n1 - 1], s2[..n2 - 1]), s1[n1 - 1].coef, s1[n1 - 1].lit, s2[n2 - 1].coef, s2[n2 - 1].lit,
                    L);
    }
  }

  /** All variables of s are below v. */
  ghost predicate Below(s: seq<Term>, v: int) {
    forall i :: 0 <= i < |s| ==> Var(s[i].lit) < v
  }

  lemma AppendShape(m: seq<Term>, t: Term, v: int)
    requires Positive(m) && Ordered(m) && Below(m, Var(t.lit)) && t.coef > 0 && t.lit != 0 && Var(t.lit) < v
    ensures Positive(m + [t]) && Ordered(m + [t]) && Below(m + [t], v)
  {
  }

  lemma PrefixShape(u: seq<Term>, t: Term)
    requires Positive(u + [t]) && Ordered(u + [t])
    ensures Positive(u) && Ordered(u) && Below(u, Var(t.lit)) && t.coef > 0 && t.lit != 0
  {
    var s := u + [t];
    assert s[|u|] == t;
    assert forall i :: 0 <= i < |u| ==> s[i] == u[i];
  }

  lemma BelowMono(m: seq<Term>, v: int, w: int)
    requires Below(m, v) && v <= w
    ensures Below(m, w)
  {
  }

  /** The merged left-hand side is positive, strictly ordered, and stays below any common bound. */
  lemma {:induction false} MergeShape(s1: seq<Term>, s2: seq<Term>, v: int)
    requires Positive(s1) && Positive(s2) && Ordered(s1) && Ordered(s2)
    requires Below(s1, v) && Below(s2, v)
    ensures Positive(Merge(s1, s2).lhs) && Ordered(Merge(s1, s2).lhs) && Below(Merge(s1, s2).lhs, v)
    decreases |s1| + |s2|
  {
    var n1, n2 := |s1|, |s2|;
    if n1 > 0 && (n2 == 0 || Var(s1[n1 - 1].lit) > Var(s2[n2 - 1].lit)) {
      MergeShape(s1[..n1 - 1], s2, Var(s1[n1 - 1].lit));
      AppendShape(Merge(s1[..n1 - 1], s2).lhs, s1[n1 - 1], v);
    } else if n2 > 0 && (n1 == 0 || Var(s1[n1 - 1].lit) < Var(s2[n2 - 1].lit)) {
      MergeShape(s1, s2[..n2 - 1], Var(s2[n2 - 1].lit));
      AppendShape(Merge(s1, s2[..n2 - 1]).lhs, s2[n2 - 1], v);
    } else if n1 > 0 {
      var t1, t2 := s1[n1 - 1], s2[n2 - 1];
      MergeBothShape(s1[..n1 - 1], s2[..n2 - 1], t1, t2, v);
    }
  }

  lemma MergeBothShape(u1: seq<Term>, u2: seq<Term>, t1: Term, t2: Term, v: int)
    requires Positive(u1 + [t1]) && Positive(u2 + [t2]) && Ordered(u1 + [t1]) && Ordered(u2 + [t2])
    requires Var(t1.lit) == Var(t2.lit) < v
    ensures var r := Combine(Merge(u1, u2), t1.coef, t1.lit, t2.coef, t2.lit).lhs;
            Positive(r) && Ordered(r) && Below(r, v)
    decreases |u1| + |u2| + 1
  {
    var m := Merge(u1, u2).lhs;
    PrefixShape(u1, t1);
    PrefixShape(u2, t2);
    MergeShape(u1, u2, Var(t1.lit));
    BelowMono(m, Var(t1.lit), v);
    var t := Term(if t1.lit == t2.lit then t2.coef + t1.coef else if t1.coef >= t2.coef then t1.coef - t2.coef
                  else t2.coef - t1.coef,
                  if t1.lit == t2.lit || t1.coef >= t2.coef then t1.lit else t2.lit);
    if t.coef != 0 {
      AppendShape(m, t, v);
    }
  }

  /** The three cases of the merge. */
  lemma MergeCases(s1: seq<Term>, s2: seq<Term>)
    requires |s1| + |s2| > 0
    ensures var n1, n2 := |s1|, |s2|;
            if n2 == 0 || (n1 > 0 && Var(s1[n1 - 1].lit) > Var(s2[n2 - 1].lit)) then
              Merge(s1, s2).lhs == Merge(s1[..n1 - 1], s2).lhs + [s1[n1 - 1]]
            else if n1 == 0 || Var(s1[n1 - 1].lit) < Var(s2[n2 - 1].lit) then
              Merge(s1, s2).lhs == Merge(s1, s2[..n2 - 1]).lhs + [s2[n2 - 1]]
            else
              Merge(s1, s2) == Combine(Merge(s1[..n1 - 1], s2[..n2 - 1]), s1[n1 - 1].coef, s1[n1 - 1].lit,
                                       s2[n2 - 1].coef, s2[n2 - 1].lit)
  {
  }

  /** A variable whose two terms are equal and opposite disappears. */
  lemma {:induction false} MergeDropsPivot(s1: seq<Term>, s2: seq<Term>, i1: nat, i2: nat)
    requires Positive(s1) && Positive(s2) && Ordered(s1) && Ordered(s2)
    requires i1 < |s1| && i2 < |s2| && s1[i1].lit == -s2[i2].lit && s1[i1].coef == s2[i2].coef
    ensures !MentionsVar(Merge(s1, s2).lhs, Var(s1[i1].lit))
    decreases |s1| + |s2|
  {
    hide Merge;
    MergeCases(s1, s2);
    var n1, n2 := |s1|, |s2|;
    var v := Var(s1[i1].lit);
    var l1, l2 := Var(s1[n1 - 1].lit), Var(s2[n2 - 1].lit);
    if l1 > l2 {
      assert i1 < n1 - 1;
      MergeDropsPivot(s1[..n1 - 1], s2, i1, i2);
    } else if l1 < l2 {
      assert i2 < n2 - 1;
      MergeDropsPivot(s1, s2[..n2 - 1], i1, i2);
    } else if v < l1 {
      MergeDropsPivot(s1[..n1 - 1], s2[..n2 - 1], i1, i2);
    } else {
      assert i1 == n1 - 1 && i2 == n2 - 1;
      MergeShape(s1[..n1 - 1], s2[..n2 - 1], v);
    }
  }

  ghost predicate CoefsAtMost(s: seq<Term>, b: int) {
    forall i :: 0 <= i < |s| ==> s[i].coef <= b
  }

  lemma {:induction false} MergeBound(s1: seq<Term>, s2: seq<Term>, b1: int, b2: int)
    requires Positive(s1) && Positive(s2) && CoefsAtMost(s1, b1) && CoefsAtMost(s2, b2) && b1 >= 0 && b2 >= 0
    ensures CoefsAtMost(Merge(s1, s2).lhs, b1 + b2)
    decreases |s1| + |s2|
  {
    var n1, n2 := |s1|, |s2|;
    if n1 == 0 && n2 == 0 {
    } else if n2 == 0 || (n1 > 0 && Var(s1[n1 - 1].lit) > Var(s2[n2 - 1].lit)) {
      MergeBound(s1[..n1 - 1], s2, b1, b2);
    } else if n1 == 0 || Var(s1[n1 - 1].lit) < Var(s2[n2 - 1].lit) {
      MergeBound(s1, s2[..n2 - 1], b1, b2);
    } else {
      MergeBound(s1[..n1 - 1], s2[..n2 - 1], b1, b2);
    }
  }

  /** k1*c1 + k2*c2 with the cancelled amount taken off the right-hand side. */
  function RawCut(c1: PB, c2: PB, k1: int, k2: int): PB {
    var m := Merge(Scale(c1.lhs, k1), Scale(c2.lhs, k2));
    PB(m.lhs, k1 * c1.rhs + k2 * c2.rhs - m.cancelled)
  }

  /** 0 >= 1 when nothing is left, else divided by the gcd of the coefficients up to the constant. */
  function NormalisedCut(raw: PB): PB
    requires raw.rhs > 0
  {
    if |raw.lhs| == 0 then PB([], 1)
    else
      var g := DivisorFor(raw.lhs, raw.rhs, raw.rhs);
      PB(NormSeq(raw.lhs, raw.rhs, g), DivUp(raw.rhs, g))
  }

  /** applyCut returns true on a tautology and on a constant that does not fit. */
  predicate CutRefused(raw: PB) {
    raw.rhs <= 0 || NormalisedCut(raw).rhs > TWO_TO_THE_30
  }

  lemma NormalisedCutExact(raw: PB, L: Lits)
    requires raw.rhs > 0 && Positive(raw.lhs)
    ensures Sat(NormalisedCut(raw), L) <==> Sat(raw, L)
  {
    if |raw.lhs| > 0 {
      var g := DivisorFor(raw.lhs, raw.rhs, raw.rhs);
      forall i | 0 <= i < |raw.lhs| && raw.lhs[i].coef < raw.rhs
        ensures Divides(g, raw.lhs[i].coef)
      {
        GcdUpToDivides(raw.lhs, raw.rhs, i);
      }
      NormExact(raw.lhs, raw.rhs, g, L);
    }
  }

  /** The two constraints clash on variable v, with literals at positions i1 and i2. */
  ghost predicate Pivots(c1: PB, c2: PB, i1: nat, i2: nat) {
    && WellFormed(c1) && WellFormed(c2)
    && i1 < |c1.lhs| && i2 < |c2.lhs| && c1.lhs[i1].lit == -c2.lhs[i2].lit
  }

  /** applyCut multiplies the first constraint by a2/g and the second by a1/g. */
  function Factor(a: int, b: int): (k: int)
    requires a > 0 && b > 0
  {
    a / GCD(a, b)
  }

  lemma FactorsBalance(a: int, b: int)
    requires a > 0 && b > 0
    ensures 1 <= Factor(a, b) <= a && 1 <= b / GCD(a, b) <= b
    ensures (b / GCD(a, b)) * a == Factor(a, b) * b
  {
    GCDIsGreatest(a, b);
    var m :| a == GCD(a, b) * m;
    var n :| b == GCD(a, b) * n;
    QuotientBounds(GCD(a, b), m);
    QuotientBounds(GCD(a, b), n);
    SwapFactors(GCD(a, b), m, n);
  }

  lemma SwapFactors(g: int, m: int, n: int)
    ensures n * (g * m) == m * (g * n)
  {
  }

  lemma QuotientBounds(g: int, m: int)
    requires g > 0 && g * m > 0
    ensures (g * m) / g == m && 1 <= m <= g * m
  {
    MulLeq(m, 0, g);
    MulLeq(1, g, m);
    DivUpExact(m, g);
    var q, r := (g * m) / g, (g * m) % g;
    assert g * m == q * g + r;
    MulLeq(q + 1, m, g);
    MulLeq(m + 1, q, g);
  }

  function CutOf(c1: PB, c2: PB, a1: int, a2: int): PB
    requires a1 > 0 && a2 > 0
  {
    RawCut(c1, c2, a2 / GCD(a1, a2), a1 / GCD(a1, a2))
  }

  lemma RawCutSlack(c1: PB, c2: PB, k1: int, k2: int, L: Lits)
    requires Positive(c1.lhs) && Positive(c2.lhs) && k1 > 0 && k2 > 0 && Covering(L)
    ensures Slack(RawCut(c1, c2, k1, k2), L) <= k1 * Slack(c1, L) + k2 * Slack(c2, L)
    ensures Total(L) ==> Slack(RawCut(c1, c2, k1, k2), L) == k1 * Slack(c1, L) + k2 * Slack(c2, L)
  {
    hide Weight, Merge, Scale, Covering, Total, Positive, Ordered;
    ScaleShape(c1.lhs, k1);
    ScaleShape(c2.lhs, k2);
    ScaleWeight(c1.lhs, k1, L);
    ScaleWeight(c2.lhs, k2, L);
    MergeWeight(Scale(c1.lhs, k1), Scale(c2.lhs, k2), L);
    Distribute(k1, Weight(c1.lhs, L), -c1.rhs);
    Distribute(k2, Weight(c2.lhs, L), -c2.rhs);
  }

  /** Soundness: a 0/1 point of both constraints satisfies the cut. */
  lemma CutIsImplied(c1: PB, c2: PB, a1: int, a2: int, L: Lits)
    requires Positive(c1.lhs) && Positive(c2.lhs) && a1 > 0 && a2 > 0 && Total(L) && Sat(c1, L) && Sat(c2, L)
    ensures Sat(CutOf(c1, c2, a1, a2), L)
  {
    FactorsBalance(a1, a2);
    var k1, k2 := a2 / GCD(a1, a2), a1 / GCD(a1, a2);
    RawCutSlack(c1, c2, k1, k2, L);
    MulLeq(0, Slack(c1, L), k1);
    MulLeq(0, Slack(c2, L), k2);
  }

  lemma NotMentioned(s: seq<Term>, l: int, L: Lits)
    requires !MentionsVar(s, Var(l))
    ensures Weight(s, L) == Weight(s, L - iset{l})
  {
    forall i | 0 <= i < |s|
      ensures s[i].lit != l
    {
      assert Var(s[i].lit) != Var(l);
    }
    WeightAgree(s, L, L - iset{l});
  }

  lemma OtherLiteralOnly(s: seq<Term>, i: nat, L: Lits)
    requires Positive(s) && Ordered(s) && i < |s|
    ensures Weight(s, L) == Weight(s, L - iset{-s[i].lit})
  {
    forall j | 0 <= j < |s|
      ensures s[j].lit != -s[i].lit
    {
      assert j != i ==> Var(s[j].lit) != Var(s[i].lit);
    }
    WeightAgree(s, L, L - iset{-s[i].lit});
  }

  lemma CoversWithout(N: Lits, l: int)
    requires Covering(N) && -l in N && l != 0
    ensures Covering(N - iset{l})
  {
  }

  /** The slack of the cut over a trail on which the pivot is unassigned: the least common multiple of the
      pivot coefficients is lost on top of the combined slacks. */
  lemma CutSlack(c1: PB, c2: PB, i1: nat, i2: nat, N: Lits)
    requires Pivots(c1, c2, i1, i2) && Covering(N)
    requires c1.lhs[i1].lit in N && c2.lhs[i2].lit in N
    ensures var a1, a2 := c1.lhs[i1].coef, c2.lhs[i2].coef;
            var k1, k2 := a2 / GCD(a1, a2), a1 / GCD(a1, a2);
            k1 > 0 && k2 > 0 && k1 * a1 == k2 * a2 &&
            Slack(CutOf(c1, c2, a1, a2), N) <= k1 * Slack(c1, N) + k2 * Slack(c2, N) - k1 * a1
  {
    var a1, a2 := c1.lhs[i1].coef, c2.lhs[i2].coef;
    var k1, k2 := a2 / GCD(a1, a2), a1 / GCD(a1, a2);
    hide Weight, Merge, RawCut, MentionsVar, Covering, Ordered, Positive;
    FactorsBalance(a1, a2);
    var M := N - iset{c1.lhs[i1].lit};
    CoversWithout(N, c1.lhs[i1].lit);
    OrderedIsDistinct(c1.lhs);
    WeightRemoveLit(c1.lhs, i1, N);
    OtherLiteralOnly(c2.lhs, i2, N);
    RawCutSlack(c1, c2, k1, k2, M);
    CutShape(c1, c2, i1, i2);
    NotMentioned(CutOf(c1, c2, a1, a2).lhs, c1.lhs[i1].lit, N);
    Distribute(k1, Slack(c1, N), -a1);
  }

  /** Shape of the raw cut: positive, strictly ordered, without the pivot. */
  lemma CutShape(c1: PB, c2: PB, i1: nat, i2: nat)
    requires Pivots(c1, c2, i1, i2)
    ensures var cut := CutOf(c1, c2, c1.lhs[i1].coef, c2.lhs[i2].coef);
            WellFormed(cut) && !MentionsVar(cut.lhs, Var(c1.lhs[i1].lit))
  {
    var a1, a2 := c1.lhs[i1].coef, c2.lhs[i2].coef;
    FactorsBalance(a1, a2);
    var s1, s2 := Scale(c1.lhs, a2 / GCD(a1, a2)), Scale(c2.lhs, a1 / GCD(a1, a2));
    ScaleShape(c1.lhs, a2 / GCD(a1, a2));
    ScaleShape(c2.lhs, a1 / GCD(a1, a2));
    var v := Max(Var(s1[|s1| - 1].lit), Var(s2[|s2| - 1].lit)) + 1;
    MergeShape(s1, s2, v);
    MergeDropsPivot(s1, s2, i1, i2);
  }

  /** Normalising keeps the shape and saturates. */
  lemma NormalisedCutShape(raw: PB, v: int)
    requires WellFormed(raw) && raw.rhs > 0 && !MentionsVar(raw.lhs, v)
    ensures WellFormed(NormalisedCut(raw)) && Saturated(NormalisedCut(raw)) && NormalisedCut(raw).rhs >= 1
    ensures !MentionsVar(NormalisedCut(raw).lhs, v)
  {
    if |raw.lhs| > 0 {
      var g := DivisorFor(raw.lhs, raw.rhs, raw.rhs);
      NormPositive(raw.lhs, raw.rhs, g);
      var n := NormSeq(raw.lhs, raw.rhs, g);
      forall i | 0 <= i < |n|
        ensures Var(n[i].lit) != v
      {
        assert n[i].lit == raw.lhs[i].lit;
      }
    }
  }

  /** An accepted cut, after the division and the shaving: implied by the parents, without the pivot, ready for the next
      cut, and falsified by exactly the trails that falsify the plain sum. */
  lemma AcceptedCutIsImplied(c1: PB, c2: PB, i1: nat, i2: nat)
    requires Pivots(c1, c2, i1, i2) && !CutRefused(CutOf(c1, c2, c1.lhs[i1].coef, c2.lhs[i2].coef))
    ensures var raw := CutOf(c1, c2, c1.lhs[i1].coef, c2.lhs[i2].coef);
            var cut := NormalisedCut(raw);
            && WellFormed(cut) && Saturated(cut) && 1 <= cut.rhs <= TWO_TO_THE_30
            && !MentionsVar(cut.lhs, Var(c1.lhs[i1].lit))
            && (forall a: Lits :: Total(a) && Sat(c1, a) && Sat(c2, a) ==> Sat(cut, a))
            && (forall N: Lits :: Slack(cut, N) < 0 <==> Slack(raw, N) < 0)
  {
    hide Merge, RawCut, NormalisedCut;
    var a1, a2 := c1.lhs[i1].coef, c2.lhs[i2].coef;
    var raw := CutOf(c1, c2, a1, a2);
    CutShape(c1, c2, i1, i2);
    NormalisedCutShape(raw, Var(c1.lhs[i1].lit));
    forall N: Lits
      ensures Slack(NormalisedCut(raw), N) < 0 <==> Slack(raw, N) < 0
    {
      NormalisedCutExact(raw, N);
    }
    forall a: Lits | Total(a) && Sat(c1, a) && Sat(c2, a)
      ensures Sat(NormalisedCut(raw), a)
    {
      CutIsImplied(c1, c2, a1, a2, a);
      NormalisedCutExact(raw, a);
    }
  }

  lemma ScaleBound(s: seq<Term>, k: int, b: int)
    requires CoefsAtMost(s, b) && k > 0
    ensures CoefsAtMost(Scale(s, k), k * b)
  {
    forall i | 0 <= i < |s|
      ensures k * s[i].coef <= k * b
    {
      MulLeq(s[i].coef, b, k);
    }
  }

  /** Whatever the inputs: the coefficients of the cut are bounded by the bounds of the parents, scaled. */
  lemma CutBound(c1: PB, c2: PB, i1: nat, i2: nat, b1: int, b2: int)
    requires Pivots(c1, c2, i1, i2) && CoefsAtMost(c1.lhs, b1) && CoefsAtMost(c2.lhs, b2)
    ensures var a1, a2 := c1.lhs[i1].coef, c2.lhs[i2].coef;
            var k1, k2 := a2 / GCD(a1, a2), a1 / GCD(a1, a2);
            1 <= k1 <= b2 && 1 <= k2 <= b1 && CoefsAtMost(CutOf(c1, c2, a1, a2).lhs, k1 * b1 + k2 * b2)
  {
    var a1, a2 := c1.lhs[i1].coef, c2.lhs[i2].coef;
    FactorsBalance(a1, a2);
    var k1, k2 := a2 / GCD(a1, a2), a1 / GCD(a1, a2);
    ScaleShape(c1.lhs, k1);
    ScaleShape(c2.lhs, k2);
    ScaleBound(c1.lhs, k1, b1);
    ScaleBound(c2.lhs, k2, b2);
    MulLeq(0, b1, k1);
    MulLeq(0, b2, k2);
    Distribute(k1, b1, 0);
    Distribute(k2, b2, 0);
    MergeBound(Scale(c1.lhs, k1), Scale(c2.lhs, k2), k1 * b1, k2 * b2);
  }

  /** The width argument of applyCut: saturated inputs whose constants multiply to less than 2^30 give 31-bit
      coefficients and a 31-bit k1*rhs1 + k2*rhs2; otherwise 63 bits are enough for 31-bit constants. */
  lemma CutWidth(c1: PB, c2: PB, i1: nat, i2: nat)
    requires Pivots(c1, c2, i1, i2) && Saturated(c1) && Saturated(c2)
    requires c1.rhs < 0x8000_0000 && c2.rhs < 0x8000_0000
    ensures var a1, a2 := c1.lhs[i1].coef, c2.lhs[i2].coef;
            var k1, k2 := a2 / GCD(a1, a2), a1 / GCD(a1, a2);
            var limit := if c1.rhs * c2.rhs < TWO_TO_THE_30 then 0x8000_0000 else 0x8000_0000_0000_0000;
            k1 * c1.rhs + k2 * c2.rhs < limit && CoefsAtMost(CutOf(c1, c2, a1, a2).lhs, limit - 1)
  {
    var a1, a2 := c1.lhs[i1].coef, c2.lhs[i2].coef;
    var k1, k2 := a2 / GCD(a1, a2), a1 / GCD(a1, a2);
    CutBound(c1, c2, i1, i2, c1.rhs, c2.rhs);
    MulLeq(k1, c2.rhs, c1.rhs);
    MulLeq(k2, c1.rhs, c2.rhs);
    MulLeq(c1.rhs, 0x7fff_ffff, c2.rhs);
  }

  /** The largest coefficient; 0 when there is none. */
  function LargestCoef(s: seq<Term>): (m: int)
    ensures m >= 0 && CoefsAtMost(s, m)
    ensures m == 0 || exists i :: 0 <= i < |s| && s[i].coef == m
  {
    if |s| == 0 then 0
    else
      var rest := LargestCoef(s[..|s| - 1]);
      assert forall i :: 0 <= i < |s| - 1 ==> s[i] == s[..|s| - 1][i];
      Max(rest, s[|s| - 1].coef)
  }

  lemma ScaleFits(s: seq<Term>, k: int, b: int)
    requires k > 0 && b >= 0
    ensures CoefsAtMost(Scale(s, k), b) <==> k * LargestCoef(s) <= b
  {
    var m := LargestCoef(s);
    if k * m <= b {
      ScaleBound(s, k, m);
    } else if m == 0 {
      MulLeq(0, 0, k);
    } else {
      var i :| 0 <= i < |s| && s[i].coef == m;
      assert Scale(s, k)[i].coef == k * m;
    }
  }

  /** A literal of both constraints gets the sum of its coefficients. */
  ghost predicate SharedFit(s1: seq<Term>, s2: seq<Term>, b: int) {
    forall i, j :: 0 <= i < |s1| && 0 <= j < |s2| && s1[i].lit == s2[j].lit ==> s1[i].coef + s2[j].coef <= b
  }

  lemma SharedFitLast(s1: seq<Term>, s2: seq<Term>, b: int)
    requires Ordered(s1) && Ordered(s2) && |s1| > 0 && |s2| > 0
    ensures var u1, u2, t1, t2 := s1[..|s1| - 1], s2[..|s2| - 1], s1[|s1| - 1], s2[|s2| - 1];
            && (Var(t1.lit) > Var(t2.lit) ==> (SharedFit(s1, s2, b) <==> SharedFit(u1, s2, b)))
            && (Var(t1.lit) < Var(t2.lit) ==> (SharedFit(s1, s2, b) <==> SharedFit(s1, u2, b)))
            && (Var(t1.lit) == Var(t2.lit) ==>
                  (SharedFit(s1, s2, b) <==> SharedFit(u1, u2, b) && (t1.lit == t2.lit ==> t1.coef + t2.coef <= b)))
  {
    var u1, u2 := s1[..|s1| - 1], s2[..|s2| - 1];
    assert forall i :: 0 <= i < |u1| ==> u1[i] == s1[i] && Var(s1[i].lit) < Var(s1[|s1| - 1].lit);
    assert forall j :: 0 <= j < |u2| ==> u2[j] == s2[j] && Var(s2[j].lit) < Var(s2[|s2| - 1].lit);
  }

  lemma AllButLast(s: seq<Term>, b: int)
    requires Positive(s) && Ordered(s) && CoefsAtMost(s, b) && |s| > 0
    ensures var u := s[..|s| - 1];
            Positive(u) && Ordered(u) && CoefsAtMost(u, b) && 0 < s[|s| - 1].coef <= b
  {
  }

  lemma {:induction false} MergeFits(s1: seq<Term>, s2: seq<Term>, b: int)
    requires Positive(s1) && Positive(s2) && Ordered(s1) && Ordered(s2) && CoefsAtMost(s1, b) && CoefsAtMost(s2, b)
    ensures CoefsAtMost(Merge(s1, s2).lhs, b) <==> SharedFit(s1, s2, b)
    decreases |s1| + |s2|
  {
    if |s1| > 0 && |s2| > 0 {
      hide Merge, SharedFit, Positive, Ordered, CoefsAtMost, Combine;
      var u1, u2, t1, t2 := s1[..|s1| - 1], s2[..|s2| - 1], s1[|s1| - 1], s2[|s2| - 1];
      AllButLast(s1, b);
      AllButLast(s2, b);
      MergeCases(s1, s2);
      SharedFitLast(s1, s2, b);
      if Var(t1.lit) > Var(t2.lit) {
        MergeFits(u1, s2, b);
        FitsSnoc(Merge(u1, s2).lhs, t1, b);
      } else if Var(t1.lit) < Var(t2.lit) {
        MergeFits(s1, u2, b);
        FitsSnoc(Merge(s1, u2).lhs, t2, b);
      } else {
        MergeFits(u1, u2, b);
        CombineFits(Merge(u1, u2), t1, t2, b);
      }
    } else {
      OneListFits(s1, s2, b);
    }
  }

  lemma {:induction false} OneListFits(s1: seq<Term>, s2: seq<Term>, b: int)
    requires |s1| == 0 || |s2| == 0
    requires CoefsAtMost(s1, b) && CoefsAtMost(s2, b)
    ensures CoefsAtMost(Merge(s1, s2).lhs, b)
    decreases |s1| + |s2|
  {
    if |s1| > 0 {
      OneListFits(s1[..|s1| - 1], s2, b);
    } else if |s2| > 0 {
      OneListFits(s1, s2[..|s2| - 1], b);
    }
  }

  lemma FitsSnoc(s: seq<Term>, t: Term, b: int)
    ensures CoefsAtMost(s + [t], b) <==> CoefsAtMost(s, b) && t.coef <= b
  {
    assert (s + [t])[|s|] == t;
    assert forall i :: 0 <= i < |s| ==> (s + [t])[i] == s[i];
  }

  lemma CombineFits(m: Merged, t1: Term, t2: Term, b: int)
    requires 0 < t1.coef <= b && 0 < t2.coef <= b
    ensures CoefsAtMost(Combine(m, t1.coef, t1.lit, t2.coef, t2.lit).lhs, b)
        <==> CoefsAtMost(m.lhs, b) && (t1.lit == t2.lit ==> t1.coef + t2.coef <= b)
  {
    FitsSnoc(m.lhs, Term(t2.coef + t1.coef, t1.lit), b);
    FitsSnoc(m.lhs, Term(t1.coef - t2.coef, t1.lit), b);
    FitsSnoc(m.lhs, Term(t2.coef - t1.coef, t2.lit), b);
  }

  /** Every coefficient that the loops of applyCut compute, before and after merging. */
  ghost predicate CoefficientsFit(c1: PB, c2: PB, a1: int, a2: int, limit: int)
    requires a1 > 0 && a2 > 0
  {
    var k1, k2 := a2 / GCD(a1, a2), a1 / GCD(a1, a2);
    && CoefsAtMost(Scale(c1.lhs, k1), limit) && CoefsAtMost(Scale(c2.lhs, k2), limit)
    && CoefsAtMost(CutOf(c1, c2, a1, a2).lhs, limit)
  }

  /** When the arithmetic of applyCut stays within a limit, whatever the inputs: exactly when the largest coefficients
      times their factors do, and no literal of both constraints gets a larger sum. */
  lemma CutFitsExactly(c1: PB, c2: PB, i1: nat, i2: nat, limit: nat)
    requires Pivots(c1, c2, i1, i2)
    ensures var a1, a2 := c1.lhs[i1].coef, c2.lhs[i2].coef;
            var k1, k2 := a2 / GCD(a1, a2), a1 / GCD(a1, a2);
            CoefficientsFit(c1, c2, a1, a2, limit) <==>
              && k1 * LargestCoef(c1.lhs) <= limit && k2 * LargestCoef(c2.lhs) <= limit
              && SharedFit(Scale(c1.lhs, k1), Scale(c2.lhs, k2), limit)
  {
    var a1, a2 := c1.lhs[i1].coef, c2.lhs[i2].coef;
    FactorsBalance(a1, a2);
    var k1, k2 := a2 / GCD(a1, a2), a1 / GCD(a1, a2);
    ScaleShape(c1.lhs, k1);
    ScaleShape(c2.lhs, k2);
    ScaleFits(c1.lhs, k1, limit);
    ScaleFits(c2.lhs, k2, limit);
    if CoefsAtMost(Scale(c1.lhs, k1), limit) && CoefsAtMost(Scale(c2.lhs, k2), limit) {
      MergeFits(Scale(c1.lhs, k1), Scale(c2.lhs, k2), limit);
    }
  }

  /** Saturation is needed.  The first constraint is stored as it is; without its literal x4, true at level 0, it is no
      longer saturated.  The second is stored as it is too.  The constants 1 and 2^20 - 1 choose 32 bits, and the first
      loop computes (2^20 - 1) * 2^20. */
  lemma UnsaturatedOverflows()
    ensures var c0 := PB([Term(0x10_0000, 1), Term(0x10_0000, 2), Term(0x10_0000, 4), Term(1, 6)], 0x10_0001);
            var c1 := PB([Term(0x10_0000, 1), Term(0x10_0000, 2), Term(1, 6)], 1);
            var c2 := PB([Term(0xf_ffff, -1), Term(0xf_ffff, 3), Term(1, 5)], 0xf_ffff);
            && Simplified(c0) == c0 && Simplified(c2) == c2
            && c1.lhs == c0.lhs[..2] + c0.lhs[3..] && c1.rhs == c0.rhs - c0.lhs[2].coef
            && Pivots(c1, c2, 0, 0) && Saturated(c2) && c1.rhs * c2.rhs < TWO_TO_THE_30
            && !CoefficientsFit(c1, c2, 0x10_0000, 0xf_ffff, 0x7fff_ffff)
  {
    var c1 := PB([Term(0x10_0000, 1), Term(0x10_0000, 2), Term(1, 6)], 1);
    StoredAsIs([Term(0x10_0000, 1), Term(0x10_0000, 2), Term(0x10_0000, 4)], 6, 0x10_0001);
    StoredAsIs([Term(0xf_ffff, -1), Term(0xf_ffff, 3)], 5, 0xf_ffff);
    assert GCD(0x10_0000, 0xf_ffff) == GCD(0xf_ffff, 1) == GCD(1, 0) == 1;
    assert Scale(c1.lhs, 0xf_ffff)[1].coef == 0xf_ffff * 0x10_0000;
  }

  /** A last coefficient of 1 leaves simplify nothing to divide by. */
  lemma StoredAsIs(s: seq<Term>, v: int, rhs: int)
    requires v > 0 && rhs > 1 && forall i :: 0 <= i < |s| ==> 0 < s[i].coef <= rhs
    ensures Simplified(PB(s + [Term(1, v)], rhs)) == PB(s + [Term(1, v)], rhs)
  {
    var t := s + [Term(1, v)];
    assert t[..|t| - 1] == s && t[|t| - 1].coef == 1;
    var g := GcdUpTo(t, rhs - 1);
    assert g == GCD(GcdUpTo(s, rhs - 1), 1);
    GCDIsGreatest(GcdUpTo(s, rhs - 1), 1);
    DividesOne(g);
    forall n: int
      ensures DivUp(n, 1) == n
    {
      DivUpUnique(n, 1, n);
    }
    assert NormSeq(t, rhs, 1) == t;
  }

  lemma DividesOne(g: nat)
    requires Divides(g, 1)
    ensures g == 1
  {
    var k: int :| 1 == g * k;
    MulLeq(1, k, g);
    MulLeq(k, 0, g);
  }

  // ----- the algorithm, against the functions above -----

  /** Which of the two prefixes comes next: everything merged so far lies below both remainders. */
  ghost predicate Separated(s1: seq<Term>, s2: seq<Term>, i1: nat, i2: nat) {
    && i1 <= |s1| && i2 <= |s2|
    && (i1 < |s1| && i2 > 0 ==> Var(s2[i2 - 1].lit) < Var(s1[i1].lit))
    && (i2 < |s2| && i1 > 0 ==> Var(s1[i1 - 1].lit) < Var(s2[i2].lit))
  }

  lemma MergeTakeFirst(s1: seq<Term>, s2: seq<Term>, i1: nat, i2: nat)
    requires Ordered(s1) && Separated(s1, s2, i1, i2) && i1 < |s1|
    requires i2 < |s2| ==> Var(s1[i1].lit) < Var(s2[i2].lit)
    ensures Separated(s1, s2, i1 + 1, i2)
    ensures var m := Merge(s1[..i1], s2[..i2]);
            Merge(s1[..i1 + 1], s2[..i2]) == Merged(m.lhs + [s1[i1]], m.cancelled)
  {
    assert s1[..i1 + 1][..i1] == s1[..i1];
  }

  lemma MergeTakeSecond(s1: seq<Term>, s2: seq<Term>, i1: nat, i2: nat)
    requires Ordered(s2) && Separated(s1, s2, i1, i2) && i2 < |s2|
    requires i1 < |s1| ==> Var(s2[i2].lit) < Var(s1[i1].lit)
    ensures Separated(s1, s2, i1, i2 + 1)
    ensures var m := Merge(s1[..i1], s2[..i2]);
            Merge(s1[..i1], s2[..i2 + 1]) == Merged(m.lhs + [s2[i2]], m.cancelled)
  {
    assert s2[..i2 + 1][..i2] == s2[..i2];
  }

  lemma MergeTakeBoth(s1: seq<Term>, s2: seq<Term>, i1: nat, i2: nat)
    requires Ordered(s1) && Ordered(s2) && Separated(s1, s2, i1, i2) && i1 < |s1| && i2 < |s2|
    requires Var(s1[i1].lit) == Var(s2[i2].lit)
    ensures Separated(s1, s2, i1 + 1, i2 + 1)
    ensures Merge(s1[..i1 + 1], s2[..i2 + 1])
         == Combine(Merge(s1[..i1], s2[..i2]), s1[i1].coef, s1[i1].lit, s2[i2].coef, s2[i2].lit)
  {
    assert s1[..i1 + 1][..i1] == s1[..i1];
    assert s2[..i2 + 1][..i2] == s2[..i2];
  }

  /** The two constraints share a variable other than v. */
  ghost predicate Clash(s1: seq<Term>, s2: seq<Term>, v: int) {
    exists i, j :: 0 <= i < |s1| && 0 <= j < |s2| && Var(s1[i].lit) == Var(s2[j].lit) != v
  }

  /** Constraints that share no variable but v: apart from v, the merge weighs what the two lists weigh. */
  lemma {:induction false} MergeApart(s1: seq<Term>, s2: seq<Term>, v: int, L: Lits)
    requires !Clash(s1, s2, v) && v !in L && -v !in L
    ensures Weight(Merge(s1, s2).lhs, L) == Weight(s1, L) + Weight(s2, L)
    decreases |s1| + |s2|
  {
    hide Merge, Clash;
    var n1, n2 := |s1|, |s2|;
    if n1 + n2 > 0 {
      MergeCases(s1, s2);
    }
    if n1 == 0 && n2 == 0 {
      assert s1 == [] && s2 == [];
      MergeNothing();
    } else if n2 == 0 || (n1 > 0 && Var(s1[n1 - 1].lit) > Var(s2[n2 - 1].lit)) {
      ClashPrefix(s1, s2, n1 - 1, n2, v);
      MergeApart(s1[..n1 - 1], s2, v, L);
      WeightSnoc(Merge(s1[..n1 - 1], s2).lhs, s1[n1 - 1], L);
    } else if n1 == 0 || Var(s1[n1 - 1].lit) < Var(s2[n2 - 1].lit) {
      ClashPrefix(s1, s2, n1, n2 - 1, v);
      MergeApart(s1, s2[..n2 - 1], v, L);
      WeightSnoc(Merge(s1, s2[..n2 - 1]).lhs, s2[n2 - 1], L);
    } else {
      SharedIsPivot(s1, s2, v);
      ClashPrefix(s1, s2, n1 - 1, n2 - 1, v);
      MergeApart(s1[..n1 - 1], s2[..n2 - 1], v, L);
      CombineApart(Merge(s1[..n1 - 1], s2[..n2 - 1]), s1[n1 - 1], s2[n2 - 1], v, L);
    }
  }

  lemma MergeNothing()
    ensures Merge([], []).lhs == []
  {
  }

  lemma CombineApart(m: Merged, t1: Term, t2: Term, v: int, L: Lits)
    requires Var(t1.lit) == Var(t2.lit) == v && v !in L && -v !in L
    ensures Weight(Combine(m, t1.coef, t1.lit, t2.coef, t2.lit).lhs, L) == Weight(m.lhs, L)
    ensures t1.lit !in L && t2.lit !in L
  {
    WeightSnoc(m.lhs, Term(t2.coef + t1.coef, t1.lit), L);
    WeightSnoc(m.lhs, Term(t1.coef - t2.coef, t1.lit), L);
    WeightSnoc(m.lhs, Term(t2.coef - t1.coef, t2.lit), L);
  }

  lemma SharedIsPivot(s1: seq<Term>, s2: seq<Term>, v: int)
    requires !Clash(s1, s2, v) && |s1| > 0 && |s2| > 0 && Var(s1[|s1| - 1].lit) == Var(s2[|s2| - 1].lit)
    ensures Var(s1[|s1| - 1].lit) == v
  {
  }

  lemma ClashPrefix(s1: seq<Term>, s2: seq<Term>, n1: nat, n2: nat, v: int)
    requires n1 <= |s1| && n2 <= |s2| && !Clash(s1, s2, v)
    ensures !Clash(s1[..n1], s2[..n2], v)
    ensures s1[..|s1|] == s1 && s2[..|s2|] == s2
  {
    assert forall i :: 0 <= i < n1 ==> s1[..n1][i] == s1[i];
    assert forall j :: 0 <= j < n2 ==> s2[..n2][j] == s2[j];
  }

  /** A total assignment in which l is true. */
  ghost function Assigning(l: int): (T: Lits)
    requires l != 0
    ensures Total(T) && l in T
  {
    iset m: int | Assigns(m, l)
  }

  predicate Assigns(m: int, l: int) {
    m == l || (m > 0 && m != -l)
  }

  lemma WithoutVar(s: seq<Term>, i: nat, L: Lits)
    requires Positive(s) && Ordered(s) && i < |s| && s[i].lit in L
    ensures Weight(s, L - iset{s[i].lit, -s[i].lit}) == Weight(s, L) - s[i].coef
  {
    var l := s[i].lit;
    OrderedIsDistinct(s);
    WeightRemoveLit(s, i, L);
    OtherLiteralOnly(s, i, L - iset{l});
    assert L - iset{l} - iset{-l} == L - iset{l, -l};
  }

  lemma NotMentionedAtAll(s: seq<Term>, l: int, L: Lits)
    requires !MentionsVar(s, Var(l))
    ensures Weight(s, L) == Weight(s, L - iset{l, -l})
  {
    NotMentioned(s, l, L);
    NotMentioned(s, -l, L - iset{l});
    assert L - iset{l} - iset{-l} == L - iset{l, -l};
  }

  /** Two lists that share the pivot and nothing else, with equal coefficients there: what is cancelled. */
  lemma CancelledApart(s1: seq<Term>, s2: seq<Term>, i1: nat, i2: nat)
    requires Positive(s1) && Positive(s2) && Ordered(s1) && Ordered(s2)
    requires i1 < |s1| && i2 < |s2| && s1[i1].lit == -s2[i2].lit && s1[i1].coef == s2[i2].coef
    requires !Clash(s1, s2, Var(s1[i1].lit))
    ensures Merge(s1, s2).cancelled == s1[i1].coef
  {
    hide Merge, Weight, Clash;
    var l := s1[i1].lit;
    var T := Assigning(l);
    TotalIsCovering(T);
    MergeWeight(s1, s2, T);
    MergeDropsPivot(s1, s2, i1, i2);
    NotMentionedAtAll(Merge(s1, s2).lhs, l, T);
    assert T - iset{l, -l} == T - iset{l};
    MergeApart(s1, s2, Var(l), T - iset{l, -l});
    WithoutVar(s1, i1, T);
    OtherLiteralOnly(s2, i2, T);
  }

  /** The exact slack of the plain sum of two constraints that share the pivot and nothing else. */
  lemma CutSlackApart(c1: PB, c2: PB, i1: nat, i2: nat, L: Lits)
    requires Pivots(c1, c2, i1, i2) && !Clash(c1.lhs, c2.lhs, Var(c1.lhs[i1].lit))
    requires c1.lhs[i1].lit in L && c2.lhs[i2].lit in L
    ensures var a1, a2 := c1.lhs[i1].coef, c2.lhs[i2].coef;
            var k1, k2 := a2 / GCD(a1, a2), a1 / GCD(a1, a2);
            k1 > 0 && k2 > 0 && k1 * a1 == k2 * a2 &&
            Slack(CutOf(c1, c2, a1, a2), L) == k1 * Slack(c1, L) + k2 * Slack(c2, L) - k1 * a1
  {
    hide Merge, Weight, Clash, MentionsVar, Scale;
    var a1, a2 := c1.lhs[i1].coef, c2.lhs[i2].coef;
    FactorsBalance(a1, a2);
    var k1, k2 := a2 / GCD(a1, a2), a1 / GCD(a1, a2);
    var s1, s2, l := Scale(c1.lhs, k1), Scale(c2.lhs, k2), c1.lhs[i1].lit;
    ScaledPivots(c1, c2, i1, i2, k1, k2);
    ScaleWeight(c1.lhs, k1, L);
    ScaleWeight(c2.lhs, k2, L);
    CancelledApart(s1, s2, i1, i2);
    MergeDropsPivot(s1, s2, i1, i2);
    NotMentionedAtAll(Merge(s1, s2).lhs, l, L);
    MergeApart(s1, s2, Var(l), L - iset{l, -l});
    WithoutVar(s1, i1, L);
    WithoutVar(s2, i2, L);
    assert iset{s2[i2].lit, -s2[i2].lit} == iset{l, -l};
    Distribute(k1, Weight(c1.lhs, L), -c1.rhs);
    Distribute(k2, Weight(c2.lhs, L), -c2.rhs);
  }

  lemma ScaledPivots(c1: PB, c2: PB, i1: nat, i2: nat, k1: int, k2: int)
    requires Pivots(c1, c2, i1, i2) && k1 > 0 && k2 > 0 && k1 * c1.lhs[i1].coef == k2 * c2.lhs[i2].coef
    requires !Clash(c1.lhs, c2.lhs, Var(c1.lhs[i1].lit))
    ensures var s1, s2 := Scale(c1.lhs, k1), Scale(c2.lhs, k2);
            && |s1| == |c1.lhs| && |s2| == |c2.lhs|
            && Positive(s1) && Positive(s2) && Ordered(s1) && Ordered(s2)
            && s1[i1] == Term(k1 * c1.lhs[i1].coef, c1.lhs[i1].lit)
            && s2[i2] == Term(k2 * c2.lhs[i2].coef, c2.lhs[i2].lit)
            && !Clash(s1, s2, Var(c1.lhs[i1].lit))
  {
    ScaleShape(c1.lhs, k1);
    ScaleShape(c2.lhs, k2);
    ClashScaled(c1.lhs, c2.lhs, k1, k2, Var(c1.lhs[i1].lit));
  }

  lemma ClashGrows(s1: seq<Term>, s2: seq<Term>, i1: nat, i2: nat, v: int)
    requires Ordered(s1) && Ordered(s2) && Separated(s1, s2, i1, i2)
    ensures i1 < |s1| && (i2 < |s2| ==> Var(s1[i1].lit) < Var(s2[i2].lit))
        ==> (Clash(s1[..i1 + 1], s2[..i2], v) <==> Clash(s1[..i1], s2[..i2], v))
    ensures i2 < |s2| && (i1 < |s1| ==> Var(s2[i2].lit) < Var(s1[i1].lit))
        ==> (Clash(s1[..i1], s2[..i2 + 1], v) <==> Clash(s1[..i1], s2[..i2], v))
  {
    if i1 < |s1| {
      ClashAddFirst(s1, s2, i1, i2, v);
    }
    if i2 < |s2| {
      ClashAddFirst(s2, s1, i2, i1, v);
      ClashSym(s1[..i1], s2[..i2 + 1], v);
      ClashSym(s1[..i1], s2[..i2], v);
    }
  }

  lemma ClashSym(s1: seq<Term>, s2: seq<Term>, v: int)
    ensures Clash(s1, s2, v) <==> Clash(s2, s1, v)
  {
  }

  lemma ClashAddFirst(s1: seq<Term>, s2: seq<Term>, i1: nat, i2: nat, v: int)
    requires Ordered(s1) && Ordered(s2) && Separated(s1, s2, i1, i2) && i1 < |s1|
    ensures Clash(s1[..i1 + 1], s2[..i2], v) <==> Clash(s1[..i1], s2[..i2], v)
  {
    if Clash(s1[..i1 + 1], s2[..i2], v) {
      var i, j :| 0 <= i < i1 + 1 && 0 <= j < i2 && Var(s1[..i1 + 1][i].lit) == Var(s2[..i2][j].lit) != v;
      assert Var(s2[j].lit) <= Var(s2[i2 - 1].lit);
      assert i < i1 && s1[..i1][i] == s1[i];
    }
    if Clash(s1[..i1], s2[..i2], v) {
      var i, j :| 0 <= i < i1 && 0 <= j < i2 && Var(s1[..i1][i].lit) == Var(s2[..i2][j].lit) != v;
      assert s1[..i1 + 1][i] == s1[i];
    }
  }

  lemma ClashAddBoth(s1: seq<Term>, s2: seq<Term>, i1: nat, i2: nat, v: int)
    requires Ordered(s1) && Ordered(s2) && Separated(s1, s2, i1, i2) && i1 < |s1| && i2 < |s2|
    requires Var(s1[i1].lit) == Var(s2[i2].lit)
    ensures Clash(s1[..i1 + 1], s2[..i2 + 1], v) <==> Clash(s1[..i1], s2[..i2], v) || Var(s1[i1].lit) != v
  {
    var t1, t2 := s1[..i1 + 1], s2[..i2 + 1];
    assert t1[i1] == s1[i1] && t2[i2] == s2[i2];
    if Clash(t1, t2, v) {
      var i, j :| 0 <= i < |t1| && 0 <= j < |t2| && Var(t1[i].lit) == Var(t2[j].lit) != v;
      if i < i1 && j < i2 {
        assert s1[..i1][i] == s1[i] && s2[..i2][j] == s2[j];
      }
    }
    if Clash(s1[..i1], s2[..i2], v) {
      var i, j :| 0 <= i < i1 && 0 <= j < i2 && Var(s1[..i1][i].lit) == Var(s2[..i2][j].lit) != v;
      assert t1[i] == s1[i] && t2[j] == s2[j];
    }
  }

  /** What the merging loops have computed after i1 terms of the first and i2 of the second constraint. */
  ghost predicate SumState(s1: seq<Term>, s2: seq<Term>, i1: nat, i2: nat, v: int, m: Merged, clash: bool) {
    && Separated(s1, s2, i1, i2)
    && m == Merge(s1[..i1], s2[..i2])
    && (clash <==> Clash(s1[..i1], s2[..i2], v))
  }

  lemma SumFirst(s1: seq<Term>, s2: seq<Term>, i1: nat, i2: nat, v: int, m: Merged, clash: bool)
    requires Ordered(s1) && Ordered(s2) && SumState(s1, s2, i1, i2, v, m, clash) && i1 < |s1|
    requires i2 < |s2| ==> Var(s1[i1].lit) < Var(s2[i2].lit)
    ensures SumState(s1, s2, i1 + 1, i2, v, Merged(m.lhs + [s1[i1]], m.cancelled), clash)
  {
    MergeTakeFirst(s1, s2, i1, i2);
    ClashGrows(s1, s2, i1, i2, v);
  }

  lemma SumSecond(s1: seq<Term>, s2: seq<Term>, i1: nat, i2: nat, v: int, m: Merged, clash: bool)
    requires Ordered(s1) && Ordered(s2) && SumState(s1, s2, i1, i2, v, m, clash) && i2 < |s2|
    requires i1 < |s1| ==> Var(s2[i2].lit) < Var(s1[i1].lit)
    ensures SumState(s1, s2, i1, i2 + 1, v, Merged(m.lhs + [s2[i2]], m.cancelled), clash)
  {
    MergeTakeSecond(s1, s2, i1, i2);
    ClashGrows(s1, s2, i1, i2, v);
  }

  lemma SumBoth(s1: seq<Term>, s2: seq<Term>, i1: nat, i2: nat, v: int, m: Merged, clash: bool)
    requires Ordered(s1) && Ordered(s2) && SumState(s1, s2, i1, i2, v, m, clash) && i1 < |s1| && i2 < |s2|
    requires Var(s1[i1].lit) == Var(s2[i2].lit)
    ensures SumState(s1, s2, i1 + 1, i2 + 1, v,
                     Combine(m, s1[i1].coef, s1[i1].lit, s2[i2].coef, s2[i2].lit), clash || Var(s1[i1].lit) != v)
  {
    MergeTakeBoth(s1, s2, i1, i2);
    ClashAddBoth(s1, s2, i1, i2, v);
  }

  lemma SumDone(c1: PB, c2: PB, k1: int, k2: int, v: int, m: Merged, clash: bool)
    requires SumState(Scale(c1.lhs, k1), Scale(c2.lhs, k2), |c1.lhs|, |c2.lhs|, v, m, clash)
    ensures m == Merge(Scale(c1.lhs, k1), Scale(c2.lhs, k2)) && (clash <==> Clash(c1.lhs, c2.lhs, v))
  {
    var s1, s2 := Scale(c1.lhs, k1), Scale(c2.lhs, k2);
    assert s1[..|s1|] == s1 && s2[..|s2|] == s2;
    ClashScaled(c1.lhs, c2.lhs, k1, k2, v);
  }

  /** The three loops of applyCut: sum the constraints in increasing variable order. */
  method SumTerms(v: int, c1: PB, c2: PB, k1: int, k2: int) returns (terms: seq<Term>, cancelled: int, clash: bool)
    requires WellFormed(c1) && WellFormed(c2) && k1 > 0 && k2 > 0
    ensures Merged(terms, cancelled) == Merge(Scale(c1.lhs, k1), Scale(c2.lhs, k2))
    ensures clash <==> Clash(c1.lhs, c2.lhs, v)
  {
    hide Clash, Merge, Ordered, Positive;
    ghost var s1, s2 := Scale(c1.lhs, k1), Scale(c2.lhs, k2);
    ScaleShape(c1.lhs, k1);
    ScaleShape(c2.lhs, k2);
    var i1, i2;
    terms, cancelled, clash, i1, i2 := SumCommon(v, c1, c2, k1, k2);
    while i1 < |c1.lhs|
      invariant SumState(s1, s2, i1, i2, v, Merged(terms, cancelled), clash)
      invariant i1 == |c1.lhs| || i2 == |c2.lhs|
    {
      SumFirst(s1, s2, i1, i2, v, Merged(terms, cancelled), clash);
      terms := terms + [Term(k1 * c1.lhs[i1].coef, c1.lhs[i1].lit)];
      i1 := i1 + 1;
    }
    while i2 < |c2.lhs|
      invariant SumState(s1, s2, i1, i2, v, Merged(terms, cancelled), clash)
      invariant i1 == |c1.lhs|
    {
      SumSecond(s1, s2, i1, i2, v, Merged(terms, cancelled), clash);
      terms := terms + [Term(k2 * c2.lhs[i2].coef, c2.lhs[i2].lit)];
      i2 := i2 + 1;
    }
    SumDone(c1, c2, k1, k2, v, Merged(terms, cancelled), clash);
  }

  lemma SumInit(s1: seq<Term>, s2: seq<Term>, v: int)
    ensures SumState(s1, s2, 0, 0, v, Merged([], 0), false)
  {
  }

  /** One round of the first loop, on the multiplied terms t1 and t2. */
  method SumRound(ghost s1: seq<Term>, ghost s2: seq<Term>, v: int, t1: Term, t2: Term,
                  terms: seq<Term>, cancelled: int, clash: bool, i1: nat, i2: nat)
    returns (terms': seq<Term>, cancelled': int, clash': bool, j1: nat, j2: nat)
    requires Ordered(s1) && Ordered(s2) && SumState(s1, s2, i1, i2, v, Merged(terms, cancelled), clash)
    requires i1 < |s1| && i2 < |s2| && s1[i1] == t1 && s2[i2] == t2
    ensures SumState(s1, s2, j1, j2, v, Merged(terms', cancelled'), clash')
    ensures j1 + j2 > i1 + i2
  {
    terms', cancelled', clash', j1, j2 := terms, cancelled, clash, i1, i2;
    if Var(t1.lit) < Var(t2.lit) {
      SumFirst(s1, s2, i1, i2, v, Merged(terms, cancelled), clash);
      terms' := terms + [t1];
      j1 := i1 + 1;
    } else if Var(t1.lit) > Var(t2.lit) {
      SumSecond(s1, s2, i1, i2, v, Merged(terms, cancelled), clash);
      terms' := terms + [t2];
      j2 := i2 + 1;
    } else {
      SumBoth(s1, s2, i1, i2, v, Merged(terms, cancelled), clash);
      if Var(t1.lit) != v {
        clash' := true;
      }
      terms', cancelled' := SumClashing(terms, cancelled, t1.coef, t1.lit, t2.coef, t2.lit);
      j1, j2 := i1 + 1, i2 + 1;
    }
  }

  /** The first of the loops: both constraints still have terms. */
  method SumCommon(v: int, c1: PB, c2: PB, k1: int, k2: int)
    returns (terms: seq<Term>, cancelled: int, clash: bool, i1: nat, i2: nat)
    requires WellFormed(c1) && WellFormed(c2) && k1 > 0 && k2 > 0
    ensures SumState(Scale(c1.lhs, k1), Scale(c2.lhs, k2), i1, i2, v, Merged(terms, cancelled), clash)
    ensures i1 == |c1.lhs| || i2 == |c2.lhs|
  {
    hide Clash, Merge, Ordered, Positive;
    ghost var s1, s2 := Scale(c1.lhs, k1), Scale(c2.lhs, k2);
    ScaleShape(c1.lhs, k1);
    ScaleShape(c2.lhs, k2);
    SumInit(s1, s2, v);
    terms, cancelled, clash, i1, i2 := [], 0, false, 0, 0;
    while i1 < |c1.lhs| && i2 < |c2.lhs|
      invariant SumState(s1, s2, i1, i2, v, Merged(terms, cancelled), clash)
      decreases |c1.lhs| + |c2.lhs| - i1 - i2
    {
      var t1, t2 := Term(k1 * c1.lhs[i1].coef, c1.lhs[i1].lit), Term(k2 * c2.lhs[i2].coef, c2.lhs[i2].lit);
      terms, cancelled, clash, i1, i2 := SumRound(s1, s2, v, t1, t2, terms, cancelled, clash, i1, i2);
    }
  }

  lemma ClashScaled(s1: seq<Term>, s2: seq<Term>, k1: int, k2: int, v: int)
    ensures Clash(Scale(s1, k1), Scale(s2, k2), v) <==> Clash(s1, s2, v)
  {
    if Clash(s1, s2, v) {
      var i, j :| 0 <= i < |s1| && 0 <= j < |s2| && Var(s1[i].lit) == Var(s2[j].lit) != v;
      assert Scale(s1, k1)[i].lit == s1[i].lit && Scale(s2, k2)[j].lit == s2[j].lit;
    }
  }

  /** The innermost branch: same variable in both constraints. */
  method SumClashing(terms: seq<Term>, cancelled: int, p1: int, lit1: int, p2: int, lit2: int)
    returns (terms': seq<Term>, cancelled': int)
    ensures Merged(terms', cancelled') == Combine(Merged(terms, cancelled), p1, lit1, p2, lit2)
  {
    terms', cancelled' := terms, cancelled;
    if lit1 != lit2 {
      if p1 >= p2 {
        cancelled' := cancelled' + p2;
        var coef := p1 - p2;
        if coef != 0 {
          terms' := terms' + [Term(coef, lit1)];
        }
      } else {
        cancelled' := cancelled' + p1;
        var coef := p2 - p1;
        if coef != 0 {
          terms' := terms' + [Term(coef, lit2)];
        }
      }
    } else {
      terms' := terms' + [Term(p2 + p1, lit1)];
    }
  }

  /** getCoefficientLiteralBinarySearch: the term of variable v, or (0, 0). */
  method FindTerm(s: seq<Term>, v: int) returns (t: Term)
    requires Ordered(s)
    ensures t != Term(0, 0) ==> t in s && Var(t.lit) == v
    ensures MentionsVar(s, v) ==> t in s && Var(t.lit) == v
  {
    var l, r := 0, |s| - 1;
    while l <= r
      invariant 0 <= l && r < |s| && l <= r + 1
      invariant forall i :: 0 <= i < |s| && Var(s[i].lit) == v ==> l <= i <= r
    {
      var m := (l + r) / 2;
      var a := Var(s[m].lit);
      if a < v {
        l := m + 1;
      } else if a > v {
        r := m - 1;
      } else {
        return s[m];
      }
    }
    return Term(0, 0);
  }

  lemma CutUnique(s: seq<Term>, i: nat, j: nat)
    requires Ordered(s) && i < |s| && j < |s| && Var(s[i].lit) == Var(s[j].lit)
    ensures i == j
  {
  }

  /** The gcd loop of applyCut; -1 stands for "no coefficient is small enough yet". */
  method GcdOfSmall(terms: seq<Term>, constant: int) returns (g: int)
    requires Positive(terms) && constant > 0
    ensures g == DivisorFor(terms, constant, constant)
  {
    g := -1;
    for i := 0 to |terms|
      invariant g == if GcdUpTo(terms[..i], constant) == 0 then -1 else GcdUpTo(terms[..i], constant)
    {
      GcdUpToStep(terms, i, constant);
      if terms[i].coef <= constant {
        if g == -1 {
          g := terms[i].coef;
        } else {
          g := GCD(g, terms[i].coef);
        }
      }
    }
    assert terms[..|terms|] == terms;
    if g == -1 {
      g := constant;
    }
  }

  /** applyCut.  The returned flag covers both refusals: a tautology and a constant above 2^30. */
  method ApplyCut(v: int, c1: PB, c2: PB, ghost i1: nat, ghost i2: nat)
    returns (refused: bool, cut: PB, clash: bool)
    requires Pivots(c1, c2, i1, i2) && Var(c1.lhs[i1].lit) == v
    ensures var raw := CutOf(c1, c2, c1.lhs[i1].coef, c2.lhs[i2].coef);
            (refused <==> CutRefused(raw)) && (!refused ==> cut == NormalisedCut(raw))
    ensures clash <==> Clash(c1.lhs, c2.lhs, v)
  {
    hide Merge, Clash, NormalisedCut, CutRefused, Weight;
    var t1 := FindTerm(c1.lhs, v);
    var t2 := FindTerm(c2.lhs, v);
    ghost var j1 :| 0 <= j1 < |c1.lhs| && c1.lhs[j1] == t1;
    ghost var j2 :| 0 <= j2 < |c2.lhs| && c2.lhs[j2] == t2;
    CutUnique(c1.lhs, i1, j1);
    CutUnique(c2.lhs, i2, j2);
    var a1, a2 := t1.coef, t2.coef;
    var g := GCD(a1, a2);
    FactorsBalance(a1, a2);
    var k1, k2 := a2 / g, a1 / g;
    var terms, cancelled;
    terms, cancelled, clash := SumTerms(v, c1, c2, k1, k2);
    CutShape(c1, c2, i1, i2);
    refused, cut := NormaliseCut(terms, k1 * c1.rhs + k2 * c2.rhs - cancelled);
  }

  /** The tail of applyCut: refuse, detect 0 >= 1, or divide and shave. */
  method NormaliseCut(terms: seq<Term>, constant: int) returns (refused: bool, cut: PB)
    requires Positive(terms)
    ensures refused <==> CutRefused(PB(terms, constant))
    ensures !refused ==> cut == NormalisedCut(PB(terms, constant))
  {
    cut := PB([], 0);
    if constant <= 0 {
      return true, cut;
    }
    if |terms| == 0 {
      return false, PB([], 1);
    }
    var g := GcdOfSmall(terms, constant);
    var rhs := DivUp(constant, g);
    if rhs > TWO_TO_THE_30 {
      return true, cut;
    }
    var lhs: seq<Term> := [];
    for i := 0 to |terms|
      invariant lhs == NormSeq(terms, constant, g)[..i]
    {
      var coef := DivUp(terms[i].coef, g);
      if coef > rhs {
        coef := rhs;
      }
      lhs := lhs + [Term(coef, terms[i].lit)];
    }
    assert lhs == NormSeq(terms, constant, g);
    return false, PB(lhs, rhs);
  }
}
