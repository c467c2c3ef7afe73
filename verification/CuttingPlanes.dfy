/** RoundingSat's ConstrExp as an object: coefficients, the list of used variables, and the degree and right-hand side
    that every operation keeps together (ConstrExp.cpp, ConstrExp.hpp). */
module CuttingPlanes {
  import opened Arith
  import opened PBCore
  import opened ConstrExp
  import opened Cardinality
  import opened Mir

  const INF := 1_000_000_001

  /** The trail is given by its true literals: those that are not false can still count. */
  ghost function NotFalse(trail: set<int>): Lits {
    iset l: int | !IsFalse(l, trail)
  }

  predicate IsFalse(l: int, trail: set<int>) {
    -l in trail
  }

  predicate Consistently(trail: set<int>) {
    forall l :: l in trail ==> -l !in trail
  }

  /** falsified: the literal that variable v stands for in the constraint is false. */
  predicate Falsified(c: int, v: int, trail: set<int>) {
    (c > 0 && -v in trail) || (c < 0 && v in trail)
  }

  /** One variable under weakenNonDivisibleNonFalsified. */
  function Weakened(c: int, v: int, trail: set<int>, div: int, fully: bool, asserting: int): int
    requires div > 0
  {
    if TruncMod(c, div) != 0 && !Falsified(c, v, trail) && v != Var(asserting)
    then (if fully then 0 else c - TruncMod(c, div))
    else c
  }

  /** The literals that can still count, without the asserting literal when there is one (0 stands for none). */
  ghost function LeftOver(trail: set<int>, asserting: int): Lits {
    if asserting == 0 then NotFalse(trail) else NotFalse(trail) - iset{asserting}
  }

  lemma TruncModTwice(c: int, div: int)
    requires div > 0
    ensures TruncMod(c - TruncMod(c, div), div) == 0
  {
    var q := TruncDiv(c, div);
    RoundAwayTrunc(c, div);
    var w := div * q;
    assert w == c - TruncMod(c, div);
    RoundAwayTrunc(w, div);
    var p := TruncDiv(w, div);
    Distribute(div, q, p);
    SmallMultiple(div, q - p);
  }

  lemma SmallMultiple(d: int, x: int)
    requires -d < d * x < d
    ensures x == 0
  {
    MulLeq(1, x, d);
    MulLeq(x, -1, d);
    assert x * d == d * x;
  }

  /** What weakening does to one variable, seen from the literals that are left over. */
  lemma WeakenedAt(c: int, v: int, trail: set<int>, div: int, fully: bool, asserting: int)
    requires div > 0 && v >= 1 && Consistently(trail) && (asserting == 0 || asserting in trail)
    ensures var w := Weakened(c, v, trail, div, fully, asserting);
            && Shrunk(c, w)
            && (w != c ==> (if c > 0 then v else -v) in LeftOver(trail, asserting))
            && (TruncMod(w, div) == 0 || Contr(w, v, LeftOver(trail, asserting)) == 0)
  {
    RoundAwayTrunc(c, div);
    TruncModTwice(c, div);
    RoundAwayTrunc(0, div);
  }

  ghost predicate Sliced(coefs: seq<int>, mid: seq<int>, coefs': seq<int>, trail: set<int>, div: int, fully: bool,
                         asserting: int)
    requires div > 0
  {
    && |coefs| == |mid| == |coefs'|
    && (forall v :: 1 <= v < |coefs| ==> mid[v] == Weakened(coefs[v], v, trail, div, fully, asserting))
    && (forall v :: 1 <= v < |coefs| ==> coefs'[v] == RoundAway(mid[v], div))
  }

  /** Weakening what does not divide and then dividing: implied, and the slack is divided by div. */
  lemma SlicedSlack(coefs: seq<int>, degree: int, mid: seq<int>, coefs': seq<int>, trail: set<int>, div: int,
                    fully: bool, asserting: int)
    requires div > 0 && Sliced(coefs, mid, coefs', trail, div, fully, asserting)
    requires Consistently(trail) && (asserting == 0 || asserting in trail)
    ensures var degree', L := DivUp(degree - Drop(coefs, mid), div), LeftOver(trail, asserting);
            && (forall M: Lits :: SlackOf(coefs, degree, M) >= 0 ==> SlackOf(coefs', degree', M) >= 0)
            && div * SlackOf(coefs', degree', L) <= SlackOf(coefs, degree, L)
  {
    var L := LeftOver(trail, asserting);
    forall v | 1 <= v < |coefs|
      ensures Shrunk(coefs[v], mid[v])
      ensures mid[v] != coefs[v] ==> (if coefs[v] > 0 then v else -v) in L
      ensures TruncMod(mid[v], div) == 0 || Contr(mid[v], v, L) == 0
    {
      WeakenedAt(coefs[v], v, trail, div, fully, asserting);
    }
    hide Weakened, RoundAway, TruncMod, Contr, LeftOver, Shrunk, Consistently, WorthTo, DropTo;
    forall M: Lits | SlackOf(coefs, degree, M) >= 0
      ensures SlackOf(coefs', DivUp(degree - Drop(coefs, mid), div), M) >= 0
    {
      WeakenedWorth(coefs, mid, |coefs|, M);
      DividedSlack(mid, degree - Drop(coefs, mid), coefs', div, M);
    }
    WeakenedWorth(coefs, mid, |coefs|, L);
    DividedSlack(mid, degree - Drop(coefs, mid), coefs', div, L);
  }

  /** Signs: no coefficient appears or changes side, and the asserting literal keeps its own. */
  lemma SlicedSigns(coefs: seq<int>, mid: seq<int>, coefs': seq<int>, trail: set<int>, div: int, fully: bool,
                    asserting: int, l: int)
    requires div > 0 && Sliced(coefs, mid, coefs', trail, div, fully, asserting) && 1 <= Var(l) < |coefs|
    ensures CoefOf(coefs, l) == 0 ==> CoefOf(coefs', l) == 0
    ensures CoefOf(coefs', l) > 0 <==> CoefOf(mid, l) > 0
    ensures Var(l) == Var(asserting) ==> CoefOf(mid, l) == CoefOf(coefs, l)
  {
    RoundAwayBounds(mid[Var(l)], div);
    RoundAwayTrunc(coefs[Var(l)], div);
  }

  /** The constraint is replaced by an implied one that mentions no new variable; if it was falsified over L it still
      is, and then a literal l that it contained remains. */
  ghost predicate Reduces(coefs: seq<int>, degree: int, coefs': seq<int>, degree': int, L: Lits, l: int) {
    && |coefs| == |coefs'|
    && (forall M: Lits :: SlackOf(coefs, degree, M) >= 0 ==> SlackOf(coefs', degree', M) >= 0)
    && KeepsFalsified(coefs, degree, coefs', degree', L)
    && (forall v :: 1 <= v < |coefs| && coefs[v] == 0 ==> coefs'[v] == 0)
    && (1 <= Var(l) < |coefs| && CoefOf(coefs, l) > 0 && SlackOf(coefs, degree, L) < 0 ==> CoefOf(coefs', l) > 0)
  }

  lemma ReducesTrans(c0: seq<int>, d0: int, c1: seq<int>, d1: int, c2: seq<int>, d2: int, L: Lits,
                     l: int)
    requires Reduces(c0, d0, c1, d1, L, l) && Reduces(c1, d1, c2, d2, L, l)
    ensures Reduces(c0, d0, c2, d2, L, l)
  {
    hide SlackOf;
  }

  lemma SlicedReduces(coefs: seq<int>, degree: int, mid: seq<int>, coefs': seq<int>, trail: set<int>, div: int,
                      fully: bool, asserting: int)
    requires div > 0 && Sliced(coefs, mid, coefs', trail, div, fully, asserting)
    requires Consistently(trail) && (asserting == 0 || asserting in trail)
    ensures Reduces(coefs, degree, coefs', DivUp(degree - Drop(coefs, mid), div), LeftOver(trail, asserting),
                    asserting)
  {
    var degree', L := DivUp(degree - Drop(coefs, mid), div), LeftOver(trail, asserting);
    SlicedSlack(coefs, degree, mid, coefs', trail, div, fully, asserting);
    forall v | 1 <= v < |coefs| && coefs[v] == 0
      ensures coefs'[v] == 0
    {
      SlicedSigns(coefs, mid, coefs', trail, div, fully, asserting, v);
      assert CoefOf(coefs', v) == 0;
    }
    if 1 <= Var(asserting) < |coefs| {
      SlicedSigns(coefs, mid, coefs', trail, div, fully, asserting, asserting);
    }
    MulLeq(0, SlackOf(coefs', degree', L), div);
    assert SlackOf(coefs', degree', L) * div == div * SlackOf(coefs', degree', L);
  }

  lemma SaturationReduces(coefs: seq<int>, degree: int, coefs': seq<int>, degree': int, L: Lits, l: int)
    requires SaturatedFrom(coefs, degree, coefs', degree')
    ensures Reduces(coefs, degree, coefs', degree', L, l)
    ensures SlackOf(coefs', degree', L) <= SlackOf(coefs, degree, L)
  {
    forall M: Lits
      ensures SlackOf(coefs', degree', M) >= 0 <==> SlackOf(coefs, degree, M) >= 0
    {
      SaturationExact(coefs, degree, coefs', degree', M);
    }
    SaturationExact(coefs, degree, coefs', degree', L);
    WorthAtLeast(coefs, |coefs|, 0, L);
  }

  lemma SaturationBounds(coefs: seq<int>, degree: int, coefs': seq<int>, degree': int)
    requires SaturatedFrom(coefs, degree, coefs', degree')
    ensures forall v :: 1 <= v < |coefs| ==> Abs(coefs'[v]) <= degree' && Abs(coefs'[v]) <= Abs(coefs[v])
  {
  }

  function Pow2(n: nat): (p: nat)
    ensures p >= 1
  {
    if n == 0 then 1 else 2 * Pow2(n - 1)
  }

  lemma {:induction false} Pow2Mono(m: nat, n: nat)
    requires m <= n
    ensures Pow2(m) <= Pow2(n)
  {
    if m < n {
      Pow2Mono(m, n - 1);
    }
  }

  /** ceil(x / ceil(maxVal / cutoff)) <= cutoff for x <= maxVal. */
  lemma CutoffReached(x: int, maxVal: int, cutoff: int)
    requires 0 <= x <= maxVal && maxVal > 0 && cutoff > 0
    ensures DivUp(maxVal, cutoff) > 0 && DivUp(x, DivUp(maxVal, cutoff)) <= cutoff
  {
    var div := DivUp(maxVal, cutoff);
    DivUpPositive(maxVal, cutoff);
    assert div * cutoff == cutoff * div;
    DivUpExact(cutoff, div);
    DivUpMono(x, cutoff * div, div);
  }

  /** The degree after the division by ceil(maxVal / cutoff). */
  lemma DegreeReached(degree: int, maxVal: int, cutoff: int)
    requires maxVal > 0 && cutoff > 0 && Max(degree, 0) / INF <= maxVal
    ensures DivUp(maxVal, cutoff) > 0 && DivUp(degree, DivUp(maxVal, cutoff)) < (cutoff + 1) * INF
  {
    var div := DivUp(maxVal, cutoff);
    DivUpPositive(maxVal, cutoff);
    var k := cutoff * INF + (INF - 1);
    assert k * div == (cutoff * div) * INF + (INF - 1) * div;
    MulLeq(1, div, INF - 1);
    assert degree <= k * div;
    assert k * div == div * k;
    DivUpExact(k, div);
    DivUpMono(degree, div * k, div);
  }

  lemma SlicedBound(coefs: seq<int>, mid: seq<int>, coefs': seq<int>, trail: set<int>, fully: bool, asserting: int,
                    maxVal: int, cutoff: int)
    requires maxVal > 0 && cutoff > 0 && DivUp(maxVal, cutoff) > 0
    requires Sliced(coefs, mid, coefs', trail, DivUp(maxVal, cutoff), fully, asserting)
    requires forall v :: 1 <= v < |coefs| ==> Abs(coefs[v]) <= maxVal
    ensures forall v :: 1 <= v < |coefs| ==> Abs(coefs'[v]) <= cutoff
  {
    forall v | 1 <= v < |coefs|
      ensures Abs(coefs'[v]) <= cutoff
    {
      var div := DivUp(maxVal, cutoff);
      RoundAwayTrunc(coefs[v], div);
      CutoffReached(Abs(mid[v]), maxVal, cutoff);
      RoundAwayBounds(mid[v], div);
    }
  }

  lemma QuotientBelow(x: int, m: int, p: int)
    requires 0 <= m && x <= m && m / INF < p
    ensures x < p * INF
  {
  }

  lemma DegreeFalls(coefs: seq<int>, mid: seq<int>, degree: int, coefs': seq<int>, trail: set<int>, fully: bool,
                    asserting: int, maxVal: int, cutoff: int)
    requires maxVal > 0 && cutoff > 0 && DivUp(maxVal, cutoff) > 0 && Max(degree, 0) / INF <= maxVal
    requires Sliced(coefs, mid, coefs', trail, DivUp(maxVal, cutoff), fully, asserting)
    ensures DivUp(degree - Drop(coefs, mid), DivUp(maxVal, cutoff)) < (cutoff + 1) * INF
  {
    var div := DivUp(maxVal, cutoff);
    forall v | 1 <= v < |coefs|
      ensures Shrunk(coefs[v], mid[v])
    {
      RoundAwayTrunc(coefs[v], div);
    }
    DropNonNegative(coefs, mid, |coefs|);
    QuotientBelow(degree, Max(degree, 0), maxVal + 1);
    DegreeReached(degree - Drop(coefs, mid), maxVal, cutoff);
  }

  /** weakenDivideRound gives up the literal it resolves on: the divisor is slack + 1, weakening is complete, and the
      divisor does not divide the literal's coefficient. */
  ghost predicate LosesPivot(c: int, slack: int, slackdiv: bool, fully: bool) {
    slackdiv && fully && slack > 0 && TruncMod(c, slack + 1) != 0
  }

  lemma PivotUnderSlice(coefs: seq<int>, degree: int, mid: seq<int>, cut: seq<int>, coefs': seq<int>, degree': int,
                        trail: set<int>, div: int, fully: bool, l: int)
    requires div > 1 && Sliced(coefs, mid, cut, trail, div, fully, 0) && Consistently(trail)
    requires Propagates(coefs, degree, l, NotFalse(trail))
             && CoefOf(coefs, l) >= div > SlackOf(coefs, degree, NotFalse(trail))
    requires SaturatedFrom(cut, DivUp(degree - Drop(coefs, mid), div), coefs', degree')
    ensures SlackOf(coefs', degree', NotFalse(trail)) <= 0
    ensures CoefOf(coefs', l) > 0 <==> !(fully && TruncMod(CoefOf(coefs, l), div) != 0)
  {
    var N, e := NotFalse(trail), DivUp(degree - Drop(coefs, mid), div);
    SlicedSlack(coefs, degree, mid, cut, trail, div, fully, 0);
    MulLeq(1, SlackOf(cut, e, N), div);
    assert div * SlackOf(cut, e, N) == SlackOf(cut, e, N) * div;
    SaturationExact(cut, e, coefs', degree', N);
    SlicedSigns(coefs, mid, cut, trail, div, fully, 0, l);
    WorthAtLeast(cut, |cut|, Var(l), N);
    PivotWeakened(coefs[Var(l)], l, trail, div, fully);
  }

  lemma PivotWeakened(c: int, l: int, trail: set<int>, div: int, fully: bool)
    requires div > 1 && l != 0 && -l !in trail && (if l < 0 then -c else c) >= div
    ensures var w := Weakened(c, Var(l), trail, div, fully, 0);
            (if l < 0 then -w else w) > 0 <==> !(fully && TruncMod(if l < 0 then -c else c, div) != 0)
  {
    var a := Abs(c);
    QuotientRemainder(a, div);
    RoundAwayTrunc(c, div);
    assert TruncMod(-c, div) == -TruncMod(c, div) by {
      assert div * -(a / div) == -(div * (a / div));
    }
  }

  lemma NotFalseAgrees(trail: set<int>, units: set<int>)
    requires Consistently(trail) && units <= trail
    ensures Agrees(NotFalse(trail), units)
  {
  }

  /** A step that keeps the constraint falsified without l keeps it propagating l. */
  lemma ReducesPropagates(c0: seq<int>, d0: int, c1: seq<int>, d1: int, trail: set<int>, l: int)
    requires l != 0 && Reduces(c0, d0, c1, d1, LeftOver(trail, l), l) && Propagates(c0, d0, l, NotFalse(trail))
    ensures Propagates(c1, d1, l, NotFalse(trail))
  {
    hide WorthTo;
    PropagatesFalsifiedWithout(c0, d0, l, NotFalse(trail));
    PropagatesFalsifiedWithout(c1, d1, l, NotFalse(trail));
  }

  lemma ReducesFollows(c0: seq<int>, d0: int, c1: seq<int>, d1: int, L: Lits, l: int, units: set<int>)
    requires Reduces(c0, d0, c1, d1, L, l)
    ensures Follows(c0, d0, c1, d1, units)
  {
  }

  lemma FollowsTrans(c0: seq<int>, d0: int, c1: seq<int>, d1: int, c2: seq<int>, d2: int, units: set<int>)
    requires Follows(c0, d0, c1, d1, units) && Follows(c1, d1, c2, d2, units)
    ensures Follows(c0, d0, c2, d2, units)
  {
    hide SlackOf;
  }

  /** Dropping units and saturating, on a trail that makes the units true. */
  lemma UnitsRemoved(coefs: seq<int>, degree: int, coefs': seq<int>, degree': int, units: set<int>, trail: set<int>,
                     l: int)
    requires SaturatedFrom(WithoutUnits(coefs, units), degree - SatisfiedTo(coefs, units, |coefs|), coefs', degree')
    requires Consistently(trail) && units <= trail && l !in units && -l !in units
    requires Propagates(coefs, degree, l, NotFalse(trail))
    ensures Follows(coefs, degree, coefs', degree', units) && Propagates(coefs', degree', l, NotFalse(trail))
  {
    var mid, d, N := WithoutUnits(coefs, units), degree - SatisfiedTo(coefs, units, |coefs|), NotFalse(trail);
    NotFalseAgrees(trail, units);
    UnitsWorth(coefs, units, |coefs|, N);
    assert CoefOf(mid, l) == CoefOf(coefs, l);
    SaturationReduces(mid, d, coefs', degree', LeftOver(trail, l), l);
    ReducesPropagates(mid, d, coefs', degree', trail, l);
    forall a: Lits | Total(a) && Agrees(a, units) && SlackOf(coefs, degree, a) >= 0
      ensures SlackOf(coefs', degree', a) >= 0
    {
      UnitsWorth(coefs, units, |coefs|, a);
    }
  }

  /** Weakening false literals raises the slack by the drop; everything else stays. */
  lemma NonImplyingWeakened(coefs: seq<int>, degree: int, coefs': seq<int>, trail: set<int>, l: int, units: set<int>)
    requires |coefs| == |coefs'| && Consistently(trail) && 1 <= Var(l) < |coefs| && -l !in trail && CoefOf(coefs, l) > 0
    requires forall v :: 1 <= v < |coefs| ==> coefs'[v] == coefs[v] || (coefs'[v] == 0 && Falsified(coefs[v], v, trail))
    ensures CoefOf(coefs', l) == CoefOf(coefs, l)
    ensures SlackOf(coefs', degree - Drop(coefs, coefs'), NotFalse(trail))
         == SlackOf(coefs, degree, NotFalse(trail)) + Drop(coefs, coefs')
    ensures Follows(coefs, degree, coefs', degree - Drop(coefs, coefs'), units)
  {
    FalseWorthNothing(coefs, coefs', |coefs|, trail);
    forall a: Lits
      ensures SlackOf(coefs', degree - Drop(coefs, coefs'), a) >= SlackOf(coefs, degree, a)
    {
      WeakenedWorth(coefs, coefs', |coefs|, a);
    }
  }

  lemma {:induction false} FalseWorthNothing(coefs: seq<int>, coefs': seq<int>, n: nat, trail: set<int>)
    requires n <= |coefs| == |coefs'| && Consistently(trail)
    requires forall v :: 1 <= v < n ==> coefs'[v] == coefs[v] || (coefs'[v] == 0 && Falsified(coefs[v], v, trail))
    ensures WorthTo(coefs', n, NotFalse(trail)) == WorthTo(coefs, n, NotFalse(trail))
  {
    if n > 1 {
      FalseWorthNothing(coefs, coefs', n - 1, trail);
    }
  }

  lemma ScaledValid(coefs: seq<int>, used: seq<bool>, vars: seq<int>, degree: int, rhs: int, coefs': seq<int>, k: int)
    requires ShapeOf(coefs, used, vars) && Consistent(coefs, degree, rhs) && |coefs'| == |coefs| && k >= 1
    requires forall v :: 1 <= v < |coefs| ==> coefs'[v] == k * coefs[v]
    ensures ShapeOf(coefs', used, vars) && Consistent(coefs', k * degree, k * rhs)
  {
    ScaledWorth(coefs, coefs', |coefs|, k, iset{});
    Distribute(k, rhs, NegTo(coefs, |coefs|));
  }

  lemma CancelZero(c: int)
    ensures Cancel(c, 0) == 0
  {
  }

  /** b holds k times the coefficients of the first i variables. */
  ghost predicate TakenSoFar(b: seq<int>, coefs: seq<int>, vars: seq<int>, i: nat, k: int) {
    && |b| == |coefs| && i <= |vars|
    && forall v :: 1 <= v < |b| ==> b[v] == if v in vars[..i] then k * coefs[v] else 0
  }

  lemma TakeStep(b: seq<int>, coefs: seq<int>, used: seq<bool>, vars: seq<int>, i: nat, k: int)
    requires ShapeOf(coefs, used, vars) && TakenSoFar(b, coefs, vars, i, k) && i < |vars|
    ensures 1 <= vars[i] < |b| && b[vars[i]] == 0
    ensures TakenSoFar(b[vars[i] := k * coefs[vars[i]]], coefs, vars, i + 1, k)
  {
    assert vars[..i + 1] == vars[..i] + [vars[i]] && vars[i] !in vars[..i];
  }

  lemma AllTaken(b: seq<int>, coefs: seq<int>, used: seq<bool>, vars: seq<int>, k: int)
    requires ShapeOf(coefs, used, vars) && TakenSoFar(b, coefs, vars, |vars|, k)
    ensures forall v :: 1 <= v < |b| ==> b[v] == k * coefs[v]
  {
    assert vars[..|vars|] == vars;
    assert forall v :: 1 <= v < |b| && v !in vars ==> coefs[v] == 0;
  }

  lemma {:induction false} CancelAgree(a: seq<int>, b: seq<int>, a': seq<int>, b': seq<int>, n: nat)
    requires n <= |a| == |b| == |a'| == |b'| && forall v :: 1 <= v < n ==> a[v] == a'[v] && b[v] == b'[v]
    ensures CancelTo(a, b, n) == CancelTo(a', b', n)
  {
    if n > 1 {
      CancelAgree(a, b, a', b', n - 1);
    }
  }

  lemma SumConsistent(a: seq<int>, da: int, ra: int, k: int, c: seq<int>, dc: int, rc: int, s: seq<int>)
    requires |a| == |c| == |s| && k >= 0 && Consistent(a, da, ra) && Consistent(c, dc, rc)
    requires forall v :: 1 <= v < |s| ==> s[v] == a[v] + k * c[v]
    ensures Consistent(s, da + k * dc - CancelTo(a, Scale(k, c), |a|), ra + k * rc)
  {
    var b, n, L := Scale(k, c), |a|, iset l: int | Always(l);
    ScaledWorth(c, b, n, k, L);
    SumWorth(a, b, s, n, L);
    Distribute(k, rc, NegTo(c, n));
  }

  predicate Always(l: int) {
    true
  }

  lemma GcdQuotients(r: int, c: int)
    requires r > 0 && c > 0
    ensures GCD(r, c) > 0 && r / GCD(r, c) >= 1 && c / GCD(r, c) >= 1
    ensures (r / GCD(r, c)) * c == (c / GCD(r, c)) * r
  {
    var g := GCD(r, c);
    GCDIsGreatest(r, c);
    var p: int :| r == g * p;
    var q: int :| c == g * q;
    ExactQuotient(g, p);
    ExactQuotient(g, q);
    Rotate(p, g, q);
  }

  lemma Rotate(p: int, g: int, q: int)
    ensures p * (g * q) == q * (g * p)
  {
  }

  lemma ExactQuotient(g: int, p: int)
    requires g > 0 && g * p > 0
    ensures p >= 1 && (g * p) / g == p
  {
    QuotientRemainder(g * p, g);
    Distribute(g, p, (g * p) / g);
    var e := p - (g * p) / g;
    assert 0 <= g * e < g;
    MulLeq(1, e, g);
    MulLeq(e, -1, g);
    MulLeq(p, 0, g);
  }

  lemma SumResolves(c0: seq<int>, d0: int, rc: seq<int>, rd: int, c1: seq<int>, d1: int, l: int, trail: set<int>,
                    k1: int, k2: int)
    requires SumOf(k1, c0, d0, k2, rc, rd, c1, d1) && k1 >= 1 && k2 >= 1 && 1 <= Var(l) < |c0| && Consistently(trail)
    requires k1 * CoefOf(c0, -l) == k2 * CoefOf(rc, l)
    requires SlackOf(c0, d0, NotFalse(trail)) < 0 && SlackOf(rc, rd, NotFalse(trail)) <= 0
    ensures c1[Var(l)] == 0 && SlackOf(c1, d1, NotFalse(trail)) < 0
    ensures forall a: Lits :: Total(a) && SlackOf(c0, d0, a) >= 0 && SlackOf(rc, rd, a) >= 0 ==> SlackOf(c1, d1, a) >= 0
  {
    var N := NotFalse(trail);
    PivotCancels(k1, c0[Var(l)], k2, rc[Var(l)]);
    assert Covering(N);
    hide *;
    SumSlack(k1, c0, d0, k2, rc, rd, c1, d1, N);
    Scaled(k1, SlackOf(c0, d0, N));
    Scaled(k2, SlackOf(rc, rd, N));
    forall a: Lits | Total(a) && SlackOf(c0, d0, a) >= 0 && SlackOf(rc, rd, a) >= 0
      ensures SlackOf(c1, d1, a) >= 0
    {
      TotalIsCovering(a);
      SumSlack(k1, c0, d0, k2, rc, rd, c1, d1, a);
      Scaled(k1, SlackOf(c0, d0, a));
      Scaled(k2, SlackOf(rc, rd, a));
    }
  }

  lemma PivotCancels(k1: int, x: int, k2: int, y: int)
    ensures k1 * -x == k2 * y ==> k1 * x + k2 * y == 0
    ensures k1 * x == k2 * -y ==> k1 * x + k2 * y == 0
  {
  }

  lemma Scaled(k: int, x: int)
    requires k >= 1
    ensures x < 0 ==> k * x < 0
    ensures x <= 0 ==> k * x <= 0
    ensures x >= 0 ==> k * x >= 0
  {
  }

  lemma ResolventReduced(c1: seq<int>, d1: int, c2: seq<int>, d2: int, trail: set<int>, l: int)
    requires Reduces(c1, d1, c2, d2, LeftOver(trail, 0), 0) && 1 <= Var(l) < |c1|
    requires c1[Var(l)] == 0 && SlackOf(c1, d1, NotFalse(trail)) < 0
    ensures c2[Var(l)] == 0 && SlackOf(c2, d2, NotFalse(trail)) < 0
    ensures forall a: Lits :: SlackOf(c1, d1, a) >= 0 ==> SlackOf(c2, d2, a) >= 0
  {
  }

  lemma FollowsAt(c0: seq<int>, d0: int, c1: seq<int>, d1: int, units: set<int>)
    requires Follows(c0, d0, c1, d1, units)
    ensures forall a: Lits :: Total(a) && Agrees(a, units) && SlackOf(c0, d0, a) >= 0 ==> SlackOf(c1, d1, a) >= 0
  {
  }

  /** applyMIR on one variable. */
  function Rounded(c: int, v: int, d: int, r: int, flipped: set<int>): int
    requires d > 0
  {
    if v in flipped then -(r * FloorDivSafe(-c, d) + Min(ModSafe(-c, d), r))
    else r * FloorDivSafe(c, d) + Min(ModSafe(c, d), r)
  }

  lemma RoundedIsMir(c: int, v: int, d: int, r: int, flipped: set<int>)
    requires d > 0 && 0 <= r < d
    ensures Rounded(c, v, d, r, flipped) == if v in flipped then -MirFunction(-c, d, r) else MirFunction(c, d, r)
    ensures c == 0 ==> Rounded(c, v, d, r, flipped) == 0
  {
    SafeDivision(c, d);
    SafeDivision(-c, d);
    MirRounds(d, r);
  }

  lemma AllRounded(coefs: seq<int>, used: seq<bool>, vars: seq<int>, d: int, r: int, flipped: set<int>,
                   coefs': seq<int>, done: seq<int>)
    requires ShapeOf(coefs, used, vars) && d > 0 && 0 <= r < d && |coefs'| == |coefs| == |done|
    requires forall v :: 1 <= v < |coefs| ==> coefs'[v] == if v in vars then Rounded(coefs[v], v, d, r, flipped)
             else coefs[v]
    requires forall v :: 1 <= v < |coefs| ==> done[v] == if v in vars then coefs'[v] else 0
    ensures ShapeOf(coefs', used, vars) && RoundedBy((x: int) => MirFunction(x, d, r), coefs, coefs', flipped)
    ensures FlippedTo(done, flipped, |coefs|) == FlippedTo(coefs', flipped, |coefs|)
  {
    forall v | 1 <= v < |coefs|
      ensures v !in vars ==> coefs[v] == 0
      ensures coefs'[v] == if v in flipped then -MirFunction(-coefs[v], d, r) else MirFunction(coefs[v], d, r)
    {
      RoundedIsMir(coefs[v], v, d, r, flipped);
    }
    FlippedAgree(done, coefs', flipped, |coefs|);
  }

  lemma {:induction false} FlippedAgree(a: seq<int>, b: seq<int>, flipped: set<int>, n: nat)
    requires n <= |a| == |b| && forall v :: 1 <= v < n ==> a[v] == b[v]
    ensures FlippedTo(a, flipped, n) == FlippedTo(b, flipped, n)
  {
    if n > 1 {
      FlippedAgree(a, b, flipped, n - 1);
    }
  }

  /** The second constraint counts literals and is implied by the first, no larger degree would be, and in the exact
      case it implies the first. */
  ghost predicate CardinalityOf(coefs: seq<int>, degree: int, coefs': seq<int>, degree': int, exact: bool) {
    && |coefs'| == |coefs|
    && (forall v :: 1 <= v < |coefs'| ==> -1 <= coefs'[v] <= 1)
    && (forall L: Lits :: SlackOf(coefs, degree, L) >= 0 ==> SlackOf(coefs', degree', L) >= 0)
    && (exact ==> forall L: Lits :: SlackOf(coefs', degree', L) >= 0 ==> SlackOf(coefs, degree, L) >= 0)
    && ((exists L: Lits :: SlackOf(coefs, degree, L) >= 0 && SlackOf(coefs', degree', L) == 0)
        || forall L: Lits :: SlackOf(coefs, degree, L) < 0)
  }

  lemma CountedResult(coefs: seq<int>, degree: int, s: seq<Term>, k: nat, m: nat, coefs': seq<int>, degree': int,
                      exact: bool)
    requires Decreasing(s) && Positive(s) && DistinctVars(s) && Needed(s, degree, k)
    requires if exact then m == |s| && Tail(s, |s| - k) >= degree else Skippable(s, degree, k, m)
    requires 0 <= m <= |s| && forall L: Lits :: Worth(coefs, L) == Weight(s, L)
    requires forall L: Lits :: SlackOf(coefs', degree', L) == Count(s[..m], L) - k
    requires |coefs'| == |coefs| && forall v :: 1 <= v < |coefs'| ==> -1 <= coefs'[v] <= 1
    ensures CardinalityOf(coefs, degree, coefs', degree', exact)
  {
    hide Worth, Skippable, Needed, Decreasing, Tail, Weight, Count, Positive, DistinctVars;
    Replaced(s, degree, k, m);
    var L: Lits :| Weight(s, L) >= degree && Count(s[..m], L) == k;
    assert SlackOf(coefs, degree, L) >= 0 && SlackOf(coefs', degree', L) == 0;
  }

  /** At least bound of the literals is not the same as reaching the degree. */
  ghost predicate Differs(s: seq<Term>, degree: int, bound: int) {
    exists L: Lits :: !(Weight(s, L) >= degree <==> Count(s, L) >= bound)
  }

  ghost predicate NotCardinality(s: seq<Term>, degree: int) {
    forall bound: int :: Differs(s, degree, bound)
  }

  lemma RemovedShape(coefs: seq<int>, used: seq<bool>, vars: seq<int>, m: nat, coefs': seq<int>, used': seq<bool>)
    requires ShapeOf(coefs, used, vars) && m <= |vars| && |coefs'| == |coefs| == |used'|
    requires forall v :: 1 <= v < |coefs| ==> coefs'[v] == if v in vars[m..] then 0 else coefs[v]
    requires forall v :: 1 <= v < |coefs| ==> used'[v] == (used[v] && v !in vars[m..])
    ensures ShapeOf(coefs', used', vars[..m])
  {
    assert vars == vars[..m] + vars[m..];
  }

  lemma SameShape(coefs: seq<int>, used: seq<bool>, vars: seq<int>, coefs': seq<int>)
    requires ShapeOf(coefs, used, vars) && |coefs'| == |coefs|
    requires forall v :: 1 <= v < |coefs| && v !in vars ==> coefs'[v] == coefs[v]
    ensures ShapeOf(coefs', used, vars)
  {
  }

  /** The first i variables have coefficient 1 or -1, and done holds just these. */
  ghost predicate SignsSet(before: seq<int>, coefs: seq<int>, done: seq<int>, vars: seq<int>, i: nat) {
    && |before| == |coefs| == |done| && i <= |vars|
    && (forall v :: 1 <= v < |coefs| ==>
          coefs[v] == if v !in vars[..i] then before[v] else if before[v] < 0 then -1 else 1)
    && (forall v :: 1 <= v < |coefs| ==> done[v] == if v in vars[..i] then coefs[v] else 0)
  }

  lemma SignStep(before: seq<int>, used: seq<bool>, coefs: seq<int>, done: seq<int>, vars: seq<int>, i: nat)
    requires ShapeOf(before, used, vars) && SignsSet(before, coefs, done, vars, i) && i < |vars|
    ensures 1 <= vars[i] < |coefs| && coefs[vars[i]] == before[vars[i]] && done[vars[i]] == 0
    ensures var c := if coefs[vars[i]] < 0 then -1 else 1;
            SignsSet(before, coefs[vars[i] := c], done[vars[i] := c], vars, i + 1)
  {
    assert vars[..i + 1] == vars[..i] + [vars[i]] && vars[i] !in vars[..i];
  }

  lemma AllSigns(before: seq<int>, used: seq<bool>, vars: seq<int>, coefs: seq<int>, done: seq<int>)
    requires ShapeOf(before, used, vars) && SignsSet(before, coefs, done, vars, |vars|)
    ensures |coefs| == |before| && ShapeOf(coefs, used, vars) && NegTo(done, |done|) == NegTo(coefs, |coefs|)
    ensures forall v :: 1 <= v < |coefs| ==> coefs[v] == if v !in vars then 0 else if before[v] < 0 then -1 else 1
  {
    assert vars[..|vars|] == vars;
    assert forall v :: 1 <= v < |coefs| && v !in vars ==> before[v] == 0;
    NegAgree(done, coefs, |coefs|);
    SameShape(before, used, vars, coefs);
  }

  /** The kept variables get coefficient 1 or -1, the others 0. */
  ghost predicate UnitSigns(vars: seq<int>, coefs: seq<int>, m: nat, coefs': seq<int>) {
    && m <= |vars| && |coefs'| == |coefs|
    && forall v :: 1 <= v < |coefs| ==> coefs'[v] == if v !in vars[..m] then 0 else if coefs[v] < 0 then -1 else 1
  }

  lemma UnitTerms(vars: seq<int>, coefs: seq<int>, m: nat, coefs': seq<int>)
    requires (forall i :: 0 <= i < |vars| ==> 1 <= vars[i] < |coefs| && coefs[vars[i]] != 0)
             && UnitSigns(vars, coefs, m, coefs')
    ensures forall i :: 0 <= i < m ==> TermsOf(vars[..m], coefs')[i] == Term(1, TermsOf(vars, coefs)[..m][i].lit)
  {
    forall i | 0 <= i < m
      ensures coefs'[vars[i]] == if coefs[vars[i]] < 0 then -1 else 1
    {
      assert vars[..m][i] in vars[..m];
    }
  }

  /** The new constraint counts the literals of the kept terms. */
  lemma UnitSignsCount(vars: seq<int>, used: seq<bool>, coefs: seq<int>, m: nat, coefs': seq<int>, L: Lits)
    requires ShapeOf(coefs, used, vars) && UnitSigns(vars, coefs, m, coefs')
    requires forall i :: 0 <= i < |vars| ==> coefs[vars[i]] != 0
    ensures Worth(coefs', L) == Count(TermsOf(vars, coefs)[..m], L)
  {
    ListedWorth(vars[..m], coefs', L);
    UnitTerms(vars, coefs, m, coefs');
    hide UnitSigns, ShapeOf, Worth;
    UnitWeight(TermsOf(vars, coefs)[..m], TermsOf(vars[..m], coefs'), L);
  }

  datatype AssertionStatus = NONASSERTING | ASSERTING | FALSIFIED

  /** The largest coefficient of an unassigned variable of the list. */
  ghost predicate LargestUnknown(vs: seq<int>, coefs: seq<int>, trail: set<int>, largest: int) {
    && largest >= 0
    && (forall v :: v in vs && 1 <= v < |coefs| && v !in trail && -v !in trail ==> Abs(coefs[v]) <= largest)
    && (largest == 0
        || exists v :: v in vs && 1 <= v < |coefs| && v !in trail && -v !in trail && Abs(coefs[v]) == largest)
  }

  /** isAssertingBefore on one variable: only the coefficient of an unassigned literal can become the largest. */
  function LargerUnknown(c: int, v: int, trail: set<int>, largest: int): int {
    if Falsified(c, v, trail) || (if c < 0 then -v in trail else v in trail) then largest else Max(largest, Abs(c))
  }

  lemma LargestStep(vs: seq<int>, coefs: seq<int>, trail: set<int>, largest: int, v: int)
    requires LargestUnknown(vs, coefs, trail, largest) && 1 <= v < |coefs| && Consistently(trail)
    ensures LargestUnknown(vs + [v], coefs, trail, LargerUnknown(coefs[v], v, trail, largest))
  {
    var next := LargerUnknown(coefs[v], v, trail, largest);
    assert v in vs + [v];
    assert forall u :: u in vs ==> u in vs + [v];
    if next == largest && largest != 0 {
      var u :| u in vs && 1 <= u < |coefs| && u !in trail && -u !in trail && Abs(coefs[u]) == largest;
      assert u in vs + [v];
    }
  }

  /** left holds the coefficients of the variables not visited yet. */
  ghost predicate Remaining(left: seq<int>, coefs: seq<int>, vars: seq<int>, i: nat) {
    && |left| == |coefs| && i <= |vars|
    && forall v :: 1 <= v < |coefs| ==> left[v] == if v in vars[..i] then 0 else coefs[v]
  }

  lemma RemainingStep(left: seq<int>, coefs: seq<int>, used: seq<bool>, vars: seq<int>, i: nat)
    requires ShapeOf(coefs, used, vars) && Remaining(left, coefs, vars, i) && i < |vars|
    ensures 1 <= vars[i] < |left| == |coefs| && left[vars[i]] == coefs[vars[i]]
    ensures vars[..i + 1] == vars[..i] + [vars[i]] && Remaining(left[vars[i] := 0], coefs, vars, i + 1)
  {
    assert vars[i] !in vars[..i];
  }

  lemma NothingRemains(left: seq<int>, coefs: seq<int>, used: seq<bool>, vars: seq<int>, L: Lits)
    requires ShapeOf(coefs, used, vars) && Remaining(left, coefs, vars, |vars|)
    ensures Worth(left, L) == 0 && vars[..|vars|] == vars
  {
    assert vars[..|vars|] == vars;
    assert forall v :: 1 <= v < |coefs| && v !in vars ==> coefs[v] == 0;
    AllZero(left, |left|, L);
  }

  ghost method WithoutCounted(left: seq<int>, v: int, trail: set<int>) returns (rest: seq<int>)
    requires 1 <= v < |left| && Consistently(trail)
    ensures rest == left[v := 0]
    ensures Worth(rest, NotFalse(trail))
         == Worth(left, NotFalse(trail)) - if Falsified(left[v], v, trail) then 0 else Abs(left[v])
  {
    rest := left[v := 0];
    WorthUpdate(left, v, 0, NotFalse(trail));
    FalsifiedContr(left[v], v, trail);
  }

  lemma FalsifiedContr(c: int, v: int, trail: set<int>)
    requires v >= 1 && Consistently(trail)
    ensures Contr(c, v, NotFalse(trail)) == if Falsified(c, v, trail) then 0 else Abs(c)
  {
  }

  /** The literal of variable v is unassigned and its coefficient exceeds the slack. */
  predicate ForcedAt(c: int, v: int, trail: set<int>, slack: int) {
    v !in trail && -v !in trail && Abs(c) > slack
  }

  lemma LhsAdded(coefs: seq<int>, degree: int, c: int, l: int, a: Lits)
    requires 1 <= Var(l) < |coefs| && Total(a)
    ensures var v, m := Var(l), if l < 0 then -c else c;
            SlackOf(coefs[v := coefs[v] + m], degree + Max(0, -c) - Cancel(coefs[v], m), a)
            == SlackOf(coefs, degree, a) + if l in a then c else 0
  {
    var v, m := Var(l), if l < 0 then -c else c;
    WorthUpdate(coefs, v, coefs[v] + m, a);
  }

  /** The options conflict analysis reads. */
  datatype Options = Options(weakenNonImplying: bool, weakenFull: bool, slackdiv: bool, bitsOverflow: nat,
                             bitsReduced: nat)

  /** The elements of vs with a non-zero coefficient, in their order. */
  ghost function NonZero(vs: seq<int>, coefs: seq<int>): (r: seq<int>)
    requires forall i :: 0 <= i < |vs| ==> 0 <= vs[i] < |coefs|
    ensures forall i :: 0 <= i < |r| ==> r[i] in vs
  {
    if |vs| == 0 then []
    else NonZero(vs[..|vs| - 1], coefs) + (if coefs[vs[|vs| - 1]] == 0 then [] else [vs[|vs| - 1]])
  }

  /** A compaction in place after i elements: the first j places hold the kept ones, the rest is untouched. */
  ghost predicate Compacting(vs: seq<int>, coefs: seq<int>, i: nat, list: seq<int>, j: nat) {
    && (forall k :: 0 <= k < |vs| ==> 0 <= vs[k] < |coefs|)
    && j <= i <= |vs| == |list|
    && (forall k :: i <= k < |vs| ==> list[k] == vs[k])
    && list[..j] == NonZero(vs[..i], coefs)
  }

  lemma CompactingStep(vs: seq<int>, coefs: seq<int>, i: nat, list: seq<int>, j: nat)
    requires Compacting(vs, coefs, i, list, j) && i < |vs|
    ensures j < |list| && list[i] == vs[i] && 0 <= vs[i] < |coefs|
    ensures coefs[vs[i]] == 0 ==> Compacting(vs, coefs, i + 1, list, j)
    ensures coefs[vs[i]] != 0 ==> Compacting(vs, coefs, i + 1, list[j := vs[i]], j + 1)
  {
    NonZeroStep(vs, coefs, i);
    UpdatePrefix(list, j, vs[i]);
  }

  lemma CompactingDone(vs: seq<int>, coefs: seq<int>, list: seq<int>, j: nat)
    requires Compacting(vs, coefs, |vs|, list, j)
    ensures j <= |list| && (forall k :: 0 <= k < |vs| ==> 0 <= vs[k] < |coefs|) && list[..j] == NonZero(vs, coefs)
  {
    assert vs[..|vs|] == vs;
  }

  lemma NonZeroStep(vs: seq<int>, coefs: seq<int>, i: nat)
    requires i < |vs| && forall k :: 0 <= k < |vs| ==> 0 <= vs[k] < |coefs|
    ensures NonZero(vs[..i + 1], coefs) == NonZero(vs[..i], coefs) + if coefs[vs[i]] == 0 then [] else [vs[i]]
  {
    assert vs[..i + 1][..i] == vs[..i];
  }

  lemma UpdatePrefix(list: seq<int>, j: nat, v: int)
    requires j < |list|
    ensures list[j := v][..j + 1] == list[..j] + [v]
  {
  }

  lemma {:induction false} NonZeroElements(vs: seq<int>, coefs: seq<int>)
    requires forall i :: 0 <= i < |vs| ==> 0 <= vs[i] < |coefs|
    requires forall i, j :: 0 <= i < j < |vs| ==> vs[i] != vs[j]
    ensures forall v :: v in NonZero(vs, coefs) <==> v in vs && coefs[v] != 0
    ensures forall i, j :: 0 <= i < j < |NonZero(vs, coefs)| ==> NonZero(vs, coefs)[i] != NonZero(vs, coefs)[j]
  {
    if |vs| > 0 {
      var rest := vs[..|vs| - 1];
      NonZeroElements(rest, coefs);
      assert vs == rest + [vs[|vs| - 1]];
    }
  }

  /** The variables with a used flag are exactly the listed ones, without repetition; any other coefficient is 0. */
  ghost predicate ShapeOf(coefs: seq<int>, used: seq<bool>, vars: seq<int>) {
    && |coefs| == |used| && |coefs| >= 1
    && (forall i :: 0 <= i < |vars| ==> 1 <= vars[i] < |coefs|)
    && (forall i, j :: 0 <= i < j < |vars| ==> vars[i] != vars[j])
    && (forall v :: 1 <= v < |coefs| ==> (used[v] <==> v in vars))
    && (forall v :: 1 <= v < |coefs| && !used[v] ==> coefs[v] == 0)
  }

  lemma CompactedShape(coefs: seq<int>, used: seq<bool>, vars: seq<int>, used': seq<bool>)
    requires ShapeOf(coefs, used, vars) && |used'| == |used|
    requires forall v :: 1 <= v < |coefs| ==> used'[v] == (used[v] && !(v in vars && coefs[v] == 0))
    ensures ShapeOf(coefs, used', NonZero(vars, coefs))
    ensures forall v :: 1 <= v < |coefs| ==> (used'[v] <==> coefs[v] != 0)
  {
    var vs := NonZero(vars, coefs);
    NonZeroElements(vars, coefs);
    forall k | 0 <= k < |vs|
      ensures 1 <= vs[k] < |coefs|
    {
      assert vs[k] in vs;
    }
  }

  /** The seen variables have their target coefficient, and are unused when that is 0. */
  ghost predicate Halfway(coefs: seq<int>, used: seq<bool>, vars: seq<int>, i: nat, target: seq<int>, coefs': seq<int>,
                          used': seq<bool>) {
    && i <= |vars|
    && |coefs| == |used| == |target| == |coefs'| == |used'| && |coefs| >= 1
    && coefs'[0] == target[0]
    && (forall v :: 1 <= v < |coefs| ==> used'[v] == (used[v] && !(v in vars[..i] && target[v] == 0)))
    && (forall v :: 1 <= v < |coefs| ==> coefs'[v] == if v in vars[..i] then target[v] else coefs[v])
  }

  lemma ZeroesRemoved(coefs: seq<int>, used: seq<bool>, vars: seq<int>, used': seq<bool>)
    requires ShapeOf(coefs, used, vars) && Halfway(coefs, used, vars, |vars|, coefs, coefs, used')
    ensures forall i :: 0 <= i < |vars| ==> 0 <= vars[i] < |coefs|
    ensures ShapeOf(coefs, used', NonZero(vars, coefs)) && forall v :: 1 <= v < |coefs| ==>
              (used'[v] <==> coefs[v] != 0)
  {
    assert vars[..|vars|] == vars;
    CompactedShape(coefs, used, vars, used');
  }

  lemma NothingSeen(coefs: seq<int>, used: seq<bool>, vars: seq<int>, target: seq<int>)
    requires ShapeOf(coefs, used, vars) && |target| == |coefs| && target[0] == coefs[0]
    ensures Halfway(coefs, used, vars, 0, target, coefs, used) && Compacting(vars, target, 0, vars, 0)
  {
  }

  ghost predicate UnitsDropped(coefs: seq<int>, target: seq<int>, units: set<int>) {
    |coefs| == |target| && forall v :: 1 <= v < |coefs| ==> target[v] == UnitDropped(coefs[v], v, units)
  }

  function UnitDropped(c: int, v: int, units: set<int>): int {
    if v in units || -v in units then 0 else c
  }

  lemma TargetSatisfied(coefs: seq<int>, target: seq<int>, units: set<int>)
    requires |coefs| >= 1 && target == WithoutUnits(coefs, units)[0 := coefs[0]]
    ensures UnitsDropped(coefs, target, units)
    ensures SatisfiedTo(target, units, |target|) == 0
  {
    SatisfiedNothing(target, units, |target|);
  }

  lemma HalfwayStep(coefs: seq<int>, used: seq<bool>, vars: seq<int>, i: nat, target: seq<int>, coefs': seq<int>,
                    used': seq<bool>)
    requires Halfway(coefs, used, vars, i, target, coefs', used') && i < |vars| && ShapeOf(coefs, used, vars)
    ensures 1 <= vars[i] < |coefs'| == |used'| == |coefs| == |target| && coefs'[vars[i]] == coefs[vars[i]]
    ensures target[vars[i]] == 0 ==> Halfway(coefs, used, vars, i + 1, target, coefs'[vars[i] := 0],
                                             used'[vars[i] := false])
    ensures target[vars[i]] != 0 && target[vars[i]] == coefs[vars[i]] ==>
              Halfway(coefs, used, vars, i + 1, target, coefs', used')
  {
    assert vars[..i + 1] == vars[..i] + [vars[i]] && vars[i] !in vars[..i];
    assert used[vars[i]] by {
      assert vars[i] in vars;
    }
  }

  /** What the compaction loop of removeUnitsAndZeroes leaves behind. */
  lemma AllListed(coefs: seq<int>, used: seq<bool>, vars: seq<int>, target: seq<int>, coefs': seq<int>,
                  used': seq<bool>)
    requires ShapeOf(coefs, used, vars) && Halfway(coefs, used, vars, |vars|, target, coefs', used')
    requires forall v :: 1 <= v < |coefs| && coefs[v] == 0 ==> target[v] == 0
    ensures coefs' == target && ShapeOf(target, used', NonZero(vars, target))
  {
    assert vars[..|vars|] == vars;
    forall v | 0 <= v < |target|
      ensures coefs'[v] == target[v]
    {
      if v >= 1 && v !in vars {
        assert !used[v];
      }
    }
    CompactedShape(target, used, vars, used');
  }

  lemma {:induction false} NonZeroAgree(vs: seq<int>, a: seq<int>, b: seq<int>)
    requires |a| == |b| && forall i :: 0 <= i < |vs| ==> 0 <= vs[i] < |a| && (a[vs[i]] == 0 <==> b[vs[i]] == 0)
    ensures NonZero(vs, a) == NonZero(vs, b)
    ensures (forall i :: 0 <= i < |vs| ==> a[vs[i]] == 0) ==> NonZero(vs, a) == []
  {
    if |vs| > 0 {
      NonZeroAgree(vs[..|vs| - 1], a, b);
    }
  }

  // ----- what the refinement of a reason computes, step by step -----

  /** A constraint as a value. */
  datatype Line = Line(coefs: seq<int>, degree: int)

  /** Index 0 stands for no variable. */
  function LineOf(coefs: seq<int>, degree: int): Line
    requires |coefs| >= 1
  {
    Line(coefs[0 := 0], degree)
  }

  ghost function LineSlack(c: Line, L: Lits): int {
    SlackOf(c.coefs, c.degree, L)
  }

  lemma SameSlackLine(coefs: seq<int>, degree: int, L: Lits)
    requires |coefs| >= 1
    ensures LineSlack(LineOf(coefs, degree), L) == SlackOf(coefs, degree, L)
  {
    PrefixUpdate(coefs, |coefs|, 0, 0, L);
  }

  /** saturate. */
  function SaturatedLine(c: Line): (r: Line)
    ensures |r.coefs| == |c.coefs|
  {
    Line(seq(|c.coefs|, v requires 0 <= v < |c.coefs| => if v == 0 || c.degree <= 0 then 0
             else Capped(c.coefs[v], c.degree)),
         Max(0, c.degree))
  }

  lemma SaturatedIsLine(coefs: seq<int>, degree: int, coefs': seq<int>, degree': int)
    requires SaturatedFrom(coefs, degree, coefs', degree') && |coefs| >= 1
    ensures LineOf(coefs', degree') == SaturatedLine(LineOf(coefs, degree)) == SaturatedLine(Line(coefs, degree))
  {
    hide Capped;
    var s, t := SaturatedLine(LineOf(coefs, degree)), SaturatedLine(Line(coefs, degree));
    assert LineOf(coefs', degree').coefs == s.coefs && s.coefs == t.coefs;
  }

  /** removeUnitsAndZeroes. */
  ghost function UnitlessLine(c: Line, units: set<int>): (r: Line)
    ensures |r.coefs| == |c.coefs|
  {
    SaturatedLine(Line(WithoutUnits(c.coefs, units), c.degree - SatisfiedTo(c.coefs, units, |c.coefs|)))
  }

  lemma SameSaturated(coefs: seq<int>, units: set<int>, mid: seq<int>, d: int, coefs': seq<int>, degree': int)
    requires |coefs| >= 1 && mid == WithoutUnits(coefs, units)[0 := coefs[0]] && SaturatedFrom(mid, d, coefs', degree')
    ensures SaturatedFrom(WithoutUnits(coefs, units), d, coefs', degree')
  {
    hide Capped, WithoutUnits;
    assert forall v :: 1 <= v < |coefs| ==> mid[v] == WithoutUnits(coefs, units)[v];
  }

  lemma UnitlessIsLine(coefs: seq<int>, degree: int, coefs': seq<int>, degree': int, units: set<int>)
    requires |coefs| >= 1
    requires SaturatedFrom(WithoutUnits(coefs, units), degree - SatisfiedTo(coefs, units, |coefs|), coefs', degree')
    ensures LineOf(coefs', degree') == UnitlessLine(LineOf(coefs, degree), units)
  {
    hide Capped;
    SatisfiedUpdate(coefs, units, |coefs|, 0);
    assert LineOf(coefs', degree').coefs == UnitlessLine(LineOf(coefs, degree), units).coefs;
  }

  ghost predicate Within(vs: seq<int>, n: nat) {
    forall i :: 0 <= i < |vs| ==> 1 <= vs[i] < n
  }

  /** weakenNonImplying over the list vs of variables, last one first. */
  ghost function NonImplyingLine(c: Line, vs: seq<int>, trail: set<int>, propCoef: int, slack: int): (r: Line)
    requires Within(vs, |c.coefs|)
    ensures |r.coefs| == |c.coefs|
    decreases |vs|
  {
    if |vs| == 0 then c
    else
      var v, rest := vs[|vs| - 1], vs[..|vs| - 1];
      var a := Abs(c.coefs[v]);
      if slack + a >= propCoef then c
      else if Falsified(c.coefs[v], v, trail) then
        NonImplyingLine(Line(c.coefs[v := 0], c.degree - a), rest, trail, propCoef, slack + a)
      else NonImplyingLine(c, rest, trail, propCoef, slack)
  }

  lemma NonImplyingStep(c: Line, vs: seq<int>, i: nat, trail: set<int>, propCoef: int, slack: int)
    requires i < |vs| && Within(vs, |c.coefs|)
    requires slack + Abs(c.coefs[vs[i]]) < propCoef
    ensures var a := Abs(c.coefs[vs[i]]);
            NonImplyingLine(c, vs[..i + 1], trail, propCoef, slack) ==
            if Falsified(c.coefs[vs[i]], vs[i], trail)
            then NonImplyingLine(Line(c.coefs[vs[i] := 0], c.degree - a), vs[..i], trail, propCoef, slack + a)
            else NonImplyingLine(c, vs[..i], trail, propCoef, slack)
  {
    assert vs[..i + 1][..i] == vs[..i];
  }

  lemma NonImplyingEnd(c: Line, vs: seq<int>, trail: set<int>, propCoef: int, slack: int)
    requires Within(vs, |c.coefs|)
    requires |vs| == 0 || slack + Abs(c.coefs[vs[|vs| - 1]]) >= propCoef
    ensures NonImplyingLine(c, vs, trail, propCoef, slack) == c
  {
  }

  lemma {:induction false} DropFirst(coefs: seq<int>, coefs': seq<int>, n: nat, v: nat, c: int)
    requires n <= |coefs| == |coefs'| && v < |coefs|
    ensures DropTo(coefs[v := c], coefs', n)
         == DropTo(coefs, coefs', n) + (if 1 <= v < n then Abs(c) - Abs(coefs[v]) else 0)
  {
    if n > 1 {
      DropFirst(coefs, coefs', n - 1, v, c);
    }
  }

  /** Only false literals go, the degree falls with them, and the slack stays under propCoef. */
  lemma {:induction false} NonImplyingFacts(c: Line, vs: seq<int>, trail: set<int>, propCoef: int, slack: int)
    requires Within(vs, |c.coefs|)
    ensures var r := NonImplyingLine(c, vs, trail, propCoef, slack);
            && r.degree == c.degree - Drop(c.coefs, r.coefs)
            && (forall v :: 1 <= v < |c.coefs| ==>
                  r.coefs[v] == c.coefs[v] || (r.coefs[v] == 0 && Falsified(c.coefs[v], v, trail)))
            && (r.degree == c.degree || slack + Drop(c.coefs, r.coefs) < propCoef)
    decreases |vs|
  {
    DropSame(c.coefs, |c.coefs|);
    if |vs| > 0 {
      var v, rest := vs[|vs| - 1], vs[..|vs| - 1];
      var a := Abs(c.coefs[v]);
      if slack + a < propCoef {
        if Falsified(c.coefs[v], v, trail) {
          var d := Line(c.coefs[v := 0], c.degree - a);
          NonImplyingFacts(d, rest, trail, propCoef, slack + a);
          DropFirst(c.coefs, NonImplyingLine(d, rest, trail, propCoef, slack + a).coefs, |c.coefs|, v, 0);
        } else {
          NonImplyingFacts(c, rest, trail, propCoef, slack);
        }
      }
    }
  }

  /** Distinct variables, largest coefficient first. */
  ghost predicate LargestFirst(coefs: seq<int>, vs: seq<int>)
    requires Within(vs, |coefs|)
  {
    forall i, j :: 0 <= i < j < |vs| ==> vs[i] != vs[j] && Abs(coefs[vs[i]]) >= Abs(coefs[vs[j]])
  }

  /** With the largest coefficient first in the list nothing is missed: for every false literal that stays there is no
      room left below propCoef. */
  lemma {:induction false} NonImplyingMissesNone(c: Line, vs: seq<int>, trail: set<int>, propCoef: int, slack: int,
                                                 i: nat)
    requires Within(vs, |c.coefs|) && LargestFirst(c.coefs, vs) && i < |vs| && Falsified(c.coefs[vs[i]], vs[i], trail)
    ensures var r := NonImplyingLine(c, vs, trail, propCoef, slack);
            r.coefs[vs[i]] == 0 || slack + Drop(c.coefs, r.coefs) + Abs(c.coefs[vs[i]]) >= propCoef
    decreases |vs|
  {
    DropSame(c.coefs, |c.coefs|);
    var v, rest := vs[|vs| - 1], vs[..|vs| - 1];
    var a := Abs(c.coefs[v]);
    if slack + a < propCoef {
      if Falsified(c.coefs[v], v, trail) {
        var d := Line(c.coefs[v := 0], c.degree - a);
        NonImplyingFacts(d, rest, trail, propCoef, slack + a);
        DropFirst(c.coefs, NonImplyingLine(d, rest, trail, propCoef, slack + a).coefs, |c.coefs|, v, 0);
        if i < |rest| {
          NonImplyingMissesNone(d, rest, trail, propCoef, slack + a, i);
        }
      } else {
        NonImplyingMissesNone(c, rest, trail, propCoef, slack, i);
      }
    } else {
      assert i < |vs| - 1 ==> Abs(c.coefs[vs[i]]) >= Abs(c.coefs[vs[|vs| - 1]]);
    }
  }

  lemma {:induction false} NonImplyingIsLine(c: Line, vs: seq<int>, trail: set<int>, propCoef: int, slack: int)
    requires |c.coefs| >= 1 && Within(vs, |c.coefs|)
    ensures var r := NonImplyingLine(c, vs, trail, propCoef, slack);
            NonImplyingLine(LineOf(c.coefs, c.degree), vs, trail, propCoef, slack) == LineOf(r.coefs, r.degree)
    decreases |vs|
  {
    if |vs| > 0 {
      var v, rest := vs[|vs| - 1], vs[..|vs| - 1];
      var a := Abs(c.coefs[v]);
      assert c.coefs[v := 0][0 := 0] == c.coefs[0 := 0][v := 0];
      NonImplyingIsLine(Line(c.coefs[v := 0], c.degree - a), rest, trail, propCoef, slack + a);
      NonImplyingIsLine(c, rest, trail, propCoef, slack);
    }
  }

  /** getLargestCoef. */
  function LargestTo(coefs: seq<int>, n: nat): (m: int)
    requires n <= |coefs|
    ensures m >= 0
  {
    if n <= 1 then 0 else Max(LargestTo(coefs, n - 1), Abs(coefs[n - 1]))
  }

  lemma {:induction false} LargestBounds(coefs: seq<int>, n: nat)
    requires n <= |coefs|
    ensures forall v :: 1 <= v < n ==> Abs(coefs[v]) <= LargestTo(coefs, n)
    ensures LargestTo(coefs, n) == 0 || exists v :: 1 <= v < n && Abs(coefs[v]) == LargestTo(coefs, n)
  {
    if n > 1 {
      LargestBounds(coefs, n - 1);
      assert Abs(coefs[n - 1]) <= LargestTo(coefs, n);
    }
  }

  lemma LargestIs(coefs: seq<int>, m: int)
    requires m >= 0 && forall v :: 1 <= v < |coefs| ==> Abs(coefs[v]) <= m
    requires m == 0 || exists v :: 1 <= v < |coefs| && Abs(coefs[v]) == m
    ensures m == LargestTo(coefs, |coefs|)
  {
    LargestBounds(coefs, |coefs|);
  }

  function WeakenedCoefs(coefs: seq<int>, trail: set<int>, div: int, fully: bool, asserting: int): (r: seq<int>)
    requires div > 0
    ensures |r| == |coefs|
  {
    seq(|coefs|, v requires 0 <= v < |coefs| => if v == 0 then 0
        else Weakened(coefs[v], v, trail, div, fully, asserting))
  }

  function DividedCoefs(coefs: seq<int>, div: int): (r: seq<int>)
    requires div > 0
    ensures |r| == |coefs|
  {
    seq(|coefs|, v requires 0 <= v < |coefs| => RoundAway(coefs[v], div))
  }

  /** Weaken what does not divide, divide, saturate. */
  ghost function SlicedLine(c: Line, trail: set<int>, div: int, fully: bool, asserting: int): (r: Line)
    requires div > 0
    ensures |r.coefs| == |c.coefs|
  {
    var mid := WeakenedCoefs(c.coefs, trail, div, fully, asserting);
    SaturatedLine(Line(DividedCoefs(mid, div), DivUp(c.degree - Drop(c.coefs, mid), div)))
  }

  lemma {:induction false} DropAgree(a: seq<int>, a': seq<int>, b: seq<int>, b': seq<int>, n: nat)
    requires n <= |a| == |a'| == |b| == |b'| && forall v :: 1 <= v < n ==> a[v] == b[v] && a'[v] == b'[v]
    ensures DropTo(a, a', n) == DropTo(b, b', n)
  {
    if n > 1 {
      DropAgree(a, a', b, b', n - 1);
    }
  }

  lemma SlicedIsLine(coefs: seq<int>, degree: int, mid: seq<int>, cut: seq<int>, coefs': seq<int>, degree': int,
                     trail: set<int>, div: int, fully: bool, asserting: int)
    requires |coefs| >= 1 && div > 0 && Sliced(coefs, mid, cut, trail, div, fully, asserting)
    requires SaturatedFrom(cut, DivUp(degree - Drop(coefs, mid), div), coefs', degree')
    ensures LineOf(coefs', degree') == SlicedLine(LineOf(coefs, degree), trail, div, fully, asserting)
  {
    hide Capped, Weakened, RoundAway, DropTo;
    var c := LineOf(coefs, degree);
    var m := WeakenedCoefs(c.coefs, trail, div, fully, asserting);
    DropAgree(coefs, mid, c.coefs, m, |coefs|);
    assert LineOf(coefs', degree').coefs == SlicedLine(c, trail, div, fully, asserting).coefs;
  }

  /** getCutoffVal. */
  ghost function CutoffVal(c: Line): int {
    Max(LargestTo(c.coefs, |c.coefs|), Max(c.degree, Abs(c.degree + NegTo(c.coefs, |c.coefs|))) / INF)
  }

  lemma CutoffIs(coefs: seq<int>, degree: int, rhs: int, largest: int)
    requires |coefs| >= 1 && Consistent(coefs, degree, rhs) && largest == LargestTo(coefs, |coefs|)
    ensures CutoffVal(LineOf(coefs, degree)) == Max(largest, Max(degree, Abs(rhs)) / INF)
  {
    LargestBounds(coefs, |coefs|);
    if largest != 0 {
      var v :| 1 <= v < |coefs| && Abs(coefs[v]) == largest;
      assert Abs(coefs[0 := 0][v]) == largest;
    }
    LargestIs(coefs[0 := 0], largest);
    NegAgree(coefs[0 := 0], coefs, |coefs|);
  }

  /** What saturateAndFixOverflow divides by, when the numbers are too large. */
  function OverflowDivisor(maxVal: int, bitReduce: nat): (div: int)
    requires bitReduce > 0 && maxVal > 0
    ensures div > 0
  {
    assert Pow2(bitReduce) == 2 * Pow2(bitReduce - 1);
    DivUpPositive(maxVal, Pow2(bitReduce) - 1);
    DivUp(maxVal, Pow2(bitReduce) - 1)
  }

  /** saturateAndFixOverflow. */
  ghost function ReducedLine(c: Line, trail: set<int>, fully: bool, bitOverflow: nat, bitReduce: nat,
                             asserting: int): (r: Line)
    requires bitOverflow > 0 ==> bitReduce > 0
    ensures |r.coefs| == |c.coefs|
  {
    var s := SaturatedLine(c);
    var maxVal := CutoffVal(s);
    if bitOverflow > 0 && maxVal > 0 && maxVal >= Pow2(bitOverflow)
    then SlicedLine(s, trail, OverflowDivisor(maxVal, bitReduce), fully, asserting)
    else s
  }

  /** weakenDivideRound. */
  ghost function DividedLine(c: Line, l: int, trail: set<int>, slackdiv: bool, fully: bool): (r: Line)
    requires 1 <= Var(l) < |c.coefs|
    ensures |r.coefs| == |c.coefs|
  {
    var div := if slackdiv then LineSlack(c, NotFalse(trail)) + 1 else CoefOf(c.coefs, l);
    if div <= 1 then c else SlicedLine(c, trail, div, fully, 0)
  }

  /** The reason as it reaches the last division of its refinement. */
  ghost function BeforeDivision(c: Line, vars: seq<int>, l: int, trail: set<int>, units: set<int>,
                                options: Options): (r: Line)
    requires 1 <= Var(l) < |c.coefs| && (options.bitsOverflow > 0 ==> options.bitsReduced > 0)
    requires Within(vars, |c.coefs|)
    ensures |r.coefs| == |c.coefs|
  {
    var c1 := UnitlessLine(c, units);
    var c2 := if options.weakenNonImplying
              then NonImplyingLine(c1, NonZero(vars, c1.coefs), trail, CoefOf(c1.coefs, l),
                                   LineSlack(c1, NotFalse(trail)))
              else c1;
    ReducedLine(c2, trail, options.weakenFull, options.bitsOverflow, options.bitsReduced, l)
  }

  /** refineConstrToNegativeSlackResolvent as a function. */
  ghost function RefinedLine(c: Line, vars: seq<int>, l: int, trail: set<int>, units: set<int>,
                             options: Options): (r: Line)
    requires 1 <= Var(l) < |c.coefs| && (options.bitsOverflow > 0 ==> options.bitsReduced > 0)
    requires Within(vars, |c.coefs|)
    ensures |r.coefs| == |c.coefs|
  {
    DividedLine(BeforeDivision(c, vars, l, trail, units, options), l, trail, options.slackdiv, options.weakenFull)
  }

  /** The refinement gives up the literal l. */
  ghost predicate GivesUp(c: Line, vars: seq<int>, l: int, trail: set<int>, units: set<int>, options: Options)
    requires 1 <= Var(l) < |c.coefs| && (options.bitsOverflow > 0 ==> options.bitsReduced > 0)
    requires Within(vars, |c.coefs|)
  {
    var b := BeforeDivision(c, vars, l, trail, units, options);
    LosesPivot(CoefOf(b.coefs, l), LineSlack(b, NotFalse(trail)), options.slackdiv, options.weakenFull)
  }

  lemma SaturatedTwice(c: Line)
    ensures SaturatedLine(SaturatedLine(c)) == SaturatedLine(c)
  {
    assert SaturatedLine(SaturatedLine(c)).coefs == SaturatedLine(c).coefs;
  }

  /** Without the optional weakening and the overflow reduction, the pivot is lost exactly when both options are on and
      slack + 1, taken after dropping units and saturating, does not divide its coefficient. */
  lemma GivesUpPlainly(c: Line, vars: seq<int>, l: int, trail: set<int>, units: set<int>, options: Options)
    requires 1 <= Var(l) < |c.coefs| && !options.weakenNonImplying && options.bitsOverflow == 0
    requires Within(vars, |c.coefs|)
    ensures var b := UnitlessLine(c, units);
            GivesUp(c, vars, l, trail, units, options) <==>
              LosesPivot(CoefOf(b.coefs, l), LineSlack(b, NotFalse(trail)), options.slackdiv, options.weakenFull)
  {
    SaturatedTwice(Line(WithoutUnits(c.coefs, units), c.degree - SatisfiedTo(c.coefs, units, |c.coefs|)));
  }

  lemma CancelNegative(c: int, m: int)
    ensures Min(0, c + m) - Min(0, c) == Min(0, m) + Cancel(c, m)
    ensures c == 0 ==> Cancel(c, m) == 0
  {
  }

  class Expr {
    var coefs: seq<int>
    var used: seq<bool>
    var vars: seq<int>
    var degree: int
    var rhs: int

    /** testConstraint, the part about the variables. */
    ghost predicate Shape()
      reads this`coefs, this`used, this`vars
    {
      ShapeOf(coefs, used, vars)
    }

    /** testConstraint. */
    ghost predicate Valid()
      reads this
    {
      Shape() && Consistent(coefs, degree, rhs)
    }

    ghost function Slack(L: Lits): int
      reads this`coefs, this`degree
    {
      SlackOf(coefs, degree, L)
    }

    constructor (n: nat)
      ensures Valid() && degree == 0 && vars == [] && |coefs| == n + 1
      ensures forall L: Lits :: Slack(L) == 0
    {
      coefs, used := seq(n + 1, _ => 0), seq(n + 1, _ => false);
      vars, degree, rhs := [], 0, 0;
      new;
      forall L: Lits
        ensures Slack(L) == 0 && NegTo(coefs, n + 1) == 0
      {
        AllZero(coefs, n + 1, L);
      }
      assert Slack(iset{}) == 0;
    }

    /** The loop of calcRhs and calcDegree over the used variables. */
    method SumOfNegatives() returns (r: int)
      requires Shape()
      ensures r == NegTo(coefs, |coefs|)
    {
      r := 0;
      var i := 0;
      ghost var left := coefs;
      while i < |vars|
        invariant 0 <= i <= |vars|
        invariant |left| == |coefs|
        invariant forall v :: 1 <= v < |coefs| ==> left[v] == if v in vars[..i] then 0 else coefs[v]
        invariant r + NegTo(left, |coefs|) == NegTo(coefs, |coefs|)
      {
        assert vars[..i + 1] == vars[..i] + [vars[i]];
        WorthUpdate(left, vars[i], 0, iset{});
        left := left[vars[i] := 0];
        r := r + Min(0, coefs[vars[i]]);
        i := i + 1;
      }
      AllZero(left, |coefs|, iset{});
    }

    method CalcRhs() returns (r: int)
      requires Shape()
      ensures Consistent(coefs, degree, r)
    {
      var n := SumOfNegatives();
      r := degree + n;
    }

    method CalcDegree() returns (d: int)
      requires Shape()
      ensures Consistent(coefs, d, rhs)
    {
      var n := SumOfNegatives();
      d := rhs - n;
    }

    /** getSlack(level), computed from rhs and the signed coefficients. */
    method GetSlack(trail: set<int>) returns (slack: int)
      requires Valid() && Consistently(trail)
      ensures slack == Slack(NotFalse(trail))
    {
      slack := -rhs;
      var i := 0;
      ghost var left, N := coefs, NotFalse(trail);
      while i < |vars|
        invariant 0 <= i <= |vars|
        invariant |left| == |coefs|
        invariant forall v :: 1 <= v < |coefs| ==> left[v] == if v in vars[..i] then 0 else coefs[v]
        invariant slack == Slack(N) - Worth(left, N) - NegTo(left, |coefs|)
      {
        var v := vars[i];
        assert vars[..i + 1] == vars[..i] + [v];
        WorthUpdate(left, v, 0, N);
        left := left[v := 0];
        if v in trail || (-v !in trail && coefs[v] > 0) {
          slack := slack + coefs[v];
        }
        i := i + 1;
      }
      AllZero(left, |coefs|, N);
    }

    method GetLargestCoef() returns (m: int)
      requires Shape()
      ensures m >= 0 && forall v :: 1 <= v < |coefs| ==> Abs(coefs[v]) <= m
      ensures m == 0 || exists v :: 1 <= v < |coefs| && Abs(coefs[v]) == m
    {
      m := 0;
      var i := 0;
      while i < |vars|
        invariant 0 <= i <= |vars| && m >= 0
        invariant forall j :: 0 <= j < i ==> Abs(coefs[vars[j]]) <= m
        invariant m == 0 || exists v :: 1 <= v < |coefs| && Abs(coefs[v]) == m
      {
        m := Max(m, Abs(coefs[vars[i]]));
        i := i + 1;
      }
      forall v | 1 <= v < |coefs|
        ensures Abs(coefs[v]) <= m
      {
        if used[v] {
          assert v in vars;
        }
      }
    }

    /** The step that addLhs, weakenNoLog and addUp share: add m to the coefficient of v. */
    method AddCoef(m: int, v: int)
      requires Shape() && 1 <= v < |coefs|
      modifies this`coefs, this`used, this`vars, this`degree
      ensures Shape() && coefs == old(coefs)[v := old(coefs)[v] + m] && degree == old(degree) - Cancel(old(coefs)[v], m)
      ensures old(used)[v] ==> vars == old(vars) && used == old(used)
      ensures NegTo(coefs, |coefs|) == old(NegTo(coefs, |coefs|)) + Min(0, m) + Cancel(old(coefs)[v], m)
    {
      hide NegTo, Cancel, Min;
      WorthUpdate(coefs, v, coefs[v] + m, iset{});
      CancelNegative(coefs[v], m);
      degree := degree - CancelledBy(m, v);
      if !used[v] {
        vars := vars + [v];
        coefs := coefs[v := m];
        used := used[v := true];
      } else {
        coefs := coefs[v := coefs[v] + m];
      }
    }

    /** What the degree loses; nothing for a variable that was not used. */
    function CancelledBy(m: int, v: int): (d: int)
      requires Shape() && 1 <= v < |coefs|
      reads this`coefs, this`used, this`vars
      ensures d == Cancel(coefs[v], m)
    {
      if used[v] && (coefs[v] < 0) != (m < 0) then Min(Abs(m), Abs(coefs[v])) else 0
    }

    lemma InRange()
      requires Shape()
      ensures |coefs| == |used| >= 1 && Within(vars, |coefs|)
      ensures forall i, j :: 0 <= i < j < |vars| ==> vars[i] != vars[j]
    {
    }

    lemma Unlisted()
      requires Shape()
      ensures forall v :: 1 <= v < |coefs| && v !in vars ==> coefs[v] == 0
    {
    }

    /** addLhs: add the term c * l to the left-hand side. */
    method AddLhs(c: int, l: int)
      requires Valid() && 1 <= Var(l) < |coefs|
      modifies this
      ensures Valid() && |coefs| == old(|coefs|)
      ensures forall a: Lits :: Total(a) ==> Slack(a) == old(Slack(a)) + if l in a then c else 0
      ensures degree == old(degree) + Max(0, -c) - Cancel(old(coefs)[Var(l)], if l < 0 then -c else c)
    {
      CancelZero(old(coefs)[Var(l)]);
      if c == 0 {
        return;
      }
      hide ShapeOf, Cancel, WorthTo, NegTo;
      var m, v := c, l;
      if m < 0 {
        degree := degree - m;
      }
      if l < 0 {
        rhs := rhs - m;
        m, v := -m, -l;
      }
      AddCoef(m, v);
      hide *;
      forall a: Lits | Total(a)
        ensures Slack(a) == old(Slack(a)) + if l in a then c else 0
      {
        LhsAdded(old(coefs), old(degree), c, l, a);
        assert Slack(a) == SlackOf(coefs, degree, a);
      }
    }

    /** weakenNoLog: add m * v >= 0, or for a negative m the trivial bound on the complement. */
    method WeakenNoLog(m: int, v: int)
      requires Valid() && 1 <= v < |coefs|
      modifies this
      ensures Valid() && coefs == old(coefs)[v := old(coefs)[v] + m] && degree == old(degree) - Cancel(old(coefs)[v], m)
      ensures old(used)[v] ==> vars == old(vars) && used == old(used)
    {
      if m == 0 {
        return;
      }
      if m < 0 {
        rhs := rhs + m;
      }
      AddCoef(m, v);
    }

    /** removeZeroes: compacts the variable list in place. */
    method RemoveZeroes()
      requires Valid()
      modifies this`used, this`vars
      ensures Valid()
      ensures forall i :: 0 <= i < |old(vars)| ==> 0 <= old(vars)[i] < |coefs|
      ensures vars == NonZero(old(vars), coefs)
      ensures forall v :: 1 <= v < |coefs| ==> (used[v] <==> coefs[v] != 0)
    {
      NothingSeen(coefs, used, vars, coefs);
      var j := KeepAllNonZero();
      CompactingDone(old(vars), coefs, vars, j);
      hide ShapeOf, Consistent, Halfway, Compacting, NonZero;
      vars := vars[..j];
      ZeroesRemoved(coefs, old(used), old(vars), used);
    }

    method KeepAllNonZero() returns (j: nat)
      requires Shape() && Halfway(coefs, used, vars, 0, coefs, coefs, used) && Compacting(vars, coefs, 0, vars, 0)
      modifies this`used, this`vars
      ensures |vars| == |old(vars)| && Compacting(old(vars), coefs, |vars|, vars, j)
      ensures Halfway(coefs, old(used), old(vars), |vars|, coefs, coefs, used)
    {
      hide ShapeOf, Halfway, Compacting;
      var i := 0;
      j := 0;
      while i < |vars|
        invariant 0 <= j <= i <= |vars| == |old(vars)|
        invariant Compacting(old(vars), coefs, i, vars, j)
        invariant Halfway(coefs, old(used), old(vars), i, coefs, coefs, used)
      {
        j := KeepNonZero(i, j, old(used), old(vars));
        i := i + 1;
      }
    }

    /** The body of removeZeroes' loop. */
    method KeepNonZero(i: nat, j: nat, ghost used0: seq<bool>, ghost vars0: seq<int>) returns (k: nat)
      requires ShapeOf(coefs, used0, vars0) && j <= i < |vars| == |vars0|
      requires Compacting(vars0, coefs, i, vars, j) && Halfway(coefs, used0, vars0, i, coefs, coefs, used)
      modifies this`used, this`vars
      ensures |vars| == |vars0| && k <= i + 1
      ensures Compacting(vars0, coefs, i + 1, vars, k) && Halfway(coefs, used0, vars0, i + 1, coefs, coefs, used)
    {
      hide ShapeOf, Halfway, Compacting;
      k := j;
      CompactingStep(vars0, coefs, i, vars, j);
      HalfwayStep(coefs, used0, vars0, i, coefs, coefs, used);
      var v := vars[i];
      assert v == vars0[i] && (coefs[v] == 0 ==> coefs[v := 0] == coefs);
      if coefs[v] == 0 {
        used := used[v := false];
      } else {
        vars := vars[j := v];
        k := j + 1;
      }
    }

    /** saturate: caps the coefficients at the degree; a trivial constraint is emptied. */
    method Saturate(check: bool)
      requires Valid()
      modifies this
      ensures Valid() && SaturatedFrom(old(coefs), old(degree), coefs, degree)
      ensures || (vars == old(vars) && forall v :: 1 <= v < |coefs| ==> (coefs[v] == 0 <==> old(coefs)[v] == 0))
              || (vars == [] && forall v :: 1 <= v < |coefs| ==> coefs[v] == 0)
    {
      var largest := GetLargestCoef();
      if check && largest <= degree {
        return;
      }
      if degree <= 0 {
        Clear();
        return;
      }
      Unlisted();
      CapAll();
    }

    /** saturate's loop. */
    method CapAll()
      requires Valid() && degree > 0
      modifies this`coefs, this`rhs
      ensures Valid() && |coefs| == |old(coefs)|
      ensures forall v :: 1 <= v < |coefs| ==>
                            coefs[v] == if v in vars then Capped(old(coefs)[v], degree) else old(coefs)[v]
    {
      hide ShapeOf, Consistent, Capped;
      var i := 0;
      while i < |vars|
        invariant 0 <= i <= |vars| && Valid() && |coefs| == |old(coefs)|
        invariant forall v :: 1 <= v < |coefs| ==>
                                coefs[v] == if v in vars[..i] then Capped(old(coefs)[v], degree) else old(coefs)[v]
      {
        CapAt(i);
        i := i + 1;
      }
      assert vars[..i] == vars;
    }

    method CapAt(i: nat)
      requires Valid() && degree > 0 && i < |vars|
      modifies this`coefs, this`rhs
      ensures Valid() && 1 <= vars[i] < |old(coefs)| && coefs
              == old(coefs)[vars[i] := Capped(old(coefs)[vars[i]], degree)]
      ensures vars[..i + 1] == vars[..i] + [vars[i]] && vars[i] !in vars[..i]
    {
      var v := vars[i];
      WorthUpdate(coefs, v, Capped(coefs[v], degree), iset{});
      if coefs[v] < -degree {
        rhs := rhs - (coefs[v] + degree);
        coefs := coefs[v := -degree];
      } else {
        coefs := coefs[v := Min(coefs[v], degree)];
      }
    }

    /** remove on every variable, as reset and saturate do. */
    method Clear()
      requires Shape()
      modifies this
      ensures Valid() && vars == [] && degree == 0 && |coefs| == |old(coefs)|
      ensures forall v :: 1 <= v < |coefs| ==> coefs[v] == 0
    {
      var i := 0;
      while i < |vars|
        invariant 0 <= i <= |vars| && vars == old(vars) && |coefs| == |old(coefs)| == |used|
        invariant forall v :: 1 <= v < |coefs| ==> (if v in vars[..i] then coefs[v] == 0 && !used[v]
                                                    else coefs[v] == old(coefs)[v] && used[v] == old(used)[v])
      {
        assert vars[..i + 1] == vars[..i] + [vars[i]];
        coefs := coefs[vars[i] := 0];
        used := used[vars[i] := false];
        i := i + 1;
      }
      assert forall v :: 1 <= v < |coefs| && v !in vars ==> !old(used)[v];
      vars, rhs, degree := [], 0, 0;
      AllZero(coefs, |coefs|, iset{});
    }

    /** divideRoundUp: coefficients away from zero, the degree up, the right-hand side recomputed. */
    method DivideRoundUp(d: int)
      requires Valid() && d > 0
      modifies this
      ensures Valid() && |coefs| == |old(coefs)| && degree == DivUp(old(degree), d)
      ensures forall v :: 1 <= v < |coefs| ==> coefs[v] == RoundAway(old(coefs)[v], d)
    {
      if d == 1 {
        forall c: int
          ensures DivUp(c, 1) == c
        {
          DivUpUnique(c, 1, c);
        }
        return;
      }
      var i := 0;
      while i < |vars|
        invariant 0 <= i <= |vars| && vars == old(vars) && used == old(used) && degree == old(degree)
        invariant Shape() && |coefs| == |old(coefs)|
        invariant forall v :: 1 <= v < |coefs| ==>
                                coefs[v] == if v in vars[..i] then RoundAway(old(coefs)[v], d) else old(coefs)[v]
      {
        DivideAt(i, d);
        i := i + 1;
      }
      DivUpExact(0, d);
      assert forall v :: 1 <= v < |coefs| && v !in vars ==> !old(used)[v];
      degree := DivUp(degree, d);
      rhs := CalcRhs();
    }

    /** The body of divideRoundUp's loop. */
    method DivideAt(i: nat, d: int)
      requires Shape() && d > 0 && i < |vars|
      modifies this`coefs
      ensures Shape() && coefs == old(coefs)[vars[i] := RoundAway(old(coefs)[vars[i]], d)]
      ensures vars[..i + 1] == vars[..i] + [vars[i]] && vars[i] !in vars[..i]
    {
      var v := vars[i];
      RoundAwayTrunc(coefs[v], d);
      if coefs[v] == 0 {
        DivUpExact(0, d);
      } else if TruncMod(coefs[v], d) == 0 {
        coefs := coefs[v := TruncDiv(coefs[v], d)];
      } else {
        coefs := coefs[v := (if coefs[v] > 0 then 1 else -1) + TruncDiv(coefs[v], d)];
      }
    }

    /** weakenNonDivisibleNonFalsified. */
    method WeakenNonDivisibleNonFalsified(trail: set<int>, div: int, fully: bool, asserting: int)
      requires Valid() && div > 0
      modifies this
      ensures Valid() && vars == old(vars) && |coefs| == |old(coefs)|
      ensures forall v :: 1 <= v < |coefs| ==> coefs[v] == Weakened(old(coefs)[v], v, trail, div, fully, asserting)
      ensures degree == old(degree) - Drop(old(coefs), coefs)
    {
      DropSame(coefs, |coefs|);
      if div == 1 {
        return;
      }
      Unlisted();
      hide ShapeOf, Consistent, DropTo, TruncMod, Falsified;
      var i := 0;
      while i < |vars|
        invariant 0 <= i <= |vars| && vars == old(vars) && Valid() && |coefs| == |old(coefs)|
        invariant forall v :: 1 <= v < |coefs| ==>
                                coefs[v] == if v in vars[..i]
                                    then Weakened(old(coefs)[v], v, trail, div, fully, asserting)
                                            else old(coefs)[v]
        invariant degree == old(degree) - Drop(old(coefs), coefs)
      {
        WeakenAt(i, old(coefs), trail, div, fully, asserting);
        i := i + 1;
      }
      assert vars[..i] == vars;
      ZeroStays(trail, div, fully, asserting);
    }

    static lemma ZeroStays(trail: set<int>, div: int, fully: bool, asserting: int)
      requires div > 0
      ensures forall v :: Weakened(0, v, trail, div, fully, asserting) == 0
    {
      RoundAwayTrunc(0, div);
    }

    /** The body of weakenNonDivisibleNonFalsified's loops. */
    method WeakenAt(i: nat, ghost before: seq<int>, trail: set<int>, div: int, fully: bool, asserting: int)
      requires Valid() && div > 0 && i < |vars| && |before| == |coefs|
      modifies this
      ensures Valid() && vars == old(vars) && 1 <= vars[i] < |old(coefs)|
      ensures coefs == old(coefs)[vars[i] := Weakened(old(coefs)[vars[i]], vars[i], trail, div, fully, asserting)]
      ensures degree + Drop(before, coefs) == old(degree) + Drop(before, old(coefs))
      ensures vars[..i + 1] == vars[..i] + [vars[i]] && vars[i] !in vars[..i]
    {
      var v := vars[i];
      RoundAwayTrunc(coefs[v], div);
      DropUpdateTo(before, coefs, |coefs|, v, Weakened(coefs[v], v, trail, div, fully, asserting));
      if TruncMod(coefs[v], div) != 0 && !Falsified(coefs[v], v, trail) && v != Var(asserting) {
        if fully {
          WeakenNoLog(-coefs[v], v);
        } else {
          WeakenNoLog(-TruncMod(coefs[v], div), v);
        }
      }
    }

    /** removeUnitsAndZeroes: drops the variables assigned at level 0, then saturates. */
    method RemoveUnitsAndZeroes(units: set<int>)
      requires Valid() && Consistently(units)
      modifies this
      ensures Valid() && |coefs| == |old(coefs)|
      ensures SaturatedFrom(WithoutUnits(old(coefs), units), old(degree) - SatisfiedTo(old(coefs), units, |old(coefs)|),
                            coefs, degree)
      ensures Within(old(vars), |coefs|) && vars == NonZero(old(vars), coefs)
    {
      InRange();
      hide ShapeOf, Consistent, SaturatedFrom, SatisfiedTo, NonZero, WithoutUnits;
      DropUnits(units);
      ghost var mid, d := coefs, degree;
      Saturate(true);
      SameSaturated(old(coefs), units, mid, d, coefs, degree);
      NonZeroAgree(old(vars), coefs, if vars == [] then coefs else mid);
    }

    /** The loop of removeUnitsAndZeroes: compacts the variable list in place. */
    method DropUnits(units: set<int>)
      requires Valid() && Consistently(units)
      modifies this
      ensures Valid() && coefs == WithoutUnits(old(coefs), units)[0 := old(coefs)[0]]
      ensures degree == old(degree) - SatisfiedTo(old(coefs), units, |old(coefs)|)
      ensures Within(old(vars), |coefs|) && vars == NonZero(old(vars), coefs)
    {
      ghost var target := WithoutUnits(coefs, units)[0 := coefs[0]];
      NothingSeen(coefs, used, vars, target);
      TargetSatisfied(coefs, target, units);
      hide ShapeOf, Consistent, SatisfiedTo, Consistently, Halfway;
      hide Compacting, NonZero, WithoutUnits, SatisfiedAt;
      var j := KeepOrDropAll(units, target);
      CompactingDone(old(vars), target, vars, j);
      vars := vars[..j];
      AllListed(old(coefs), old(used), old(vars), target, coefs, used);
    }

    method KeepOrDropAll(units: set<int>, ghost target: seq<int>) returns (j: nat)
      requires Shape() && Consistent(coefs, degree, rhs) && Consistently(units)
      requires Halfway(coefs, used, vars, 0, target, coefs, used) && Compacting(vars, target, 0, vars, 0)
      requires UnitsDropped(coefs, target, units)
      modifies this
      ensures |vars| == |old(vars)| && |coefs| == |old(coefs)| && Consistent(coefs, degree, rhs)
      ensures Compacting(old(vars), target, |vars|, vars, j)
      ensures Halfway(old(coefs), old(used), old(vars), |vars|, target, coefs, used)
      ensures degree == old(degree) - SatisfiedTo(old(coefs), units, |coefs|) + SatisfiedTo(coefs, units, |coefs|)
    {
      hide ShapeOf, Consistent, SatisfiedTo, Consistently, Halfway, Compacting, UnitsDropped;
      var i := 0;
      j := 0;
      while i < |vars|
        invariant 0 <= i <= |vars| == |old(vars)| && |coefs| == |old(coefs)|
        invariant Compacting(old(vars), target, i, vars, j)
        invariant Halfway(old(coefs), old(used), old(vars), i, target, coefs, used)
        invariant Consistent(coefs, degree, rhs)
        invariant degree == old(degree) - SatisfiedTo(old(coefs), units, |coefs|) + SatisfiedTo(coefs, units, |coefs|)
      {
        j := KeepOrDrop(i, j, units, old(coefs), old(used), old(vars), target);
        i := i + 1;
      }
    }

    /** The body of that loop. */
    method KeepOrDrop(i: nat, j: nat, units: set<int>, ghost coefs0: seq<int>, ghost used0: seq<bool>,
                      ghost vars0: seq<int>, ghost target: seq<int>)
      returns (k: nat)
      requires ShapeOf(coefs0, used0, vars0) && i < |vars| == |vars0| && Consistently(units)
      requires Compacting(vars0, target, i, vars, j) && Halfway(coefs0, used0, vars0, i, target, coefs, used)
      requires Consistent(coefs, degree, rhs)
      requires |coefs| == |coefs0|
      requires UnitsDropped(coefs0, target, units)
      modifies this
      ensures |vars| == |vars0| && |coefs| == |coefs0|
      ensures Compacting(vars0, target, i + 1, vars, k) && Halfway(coefs0, used0, vars0, i + 1, target, coefs, used)
      ensures Consistent(coefs, degree, rhs)
      ensures degree == old(degree) - SatisfiedTo(old(coefs), units, |coefs|) + SatisfiedTo(coefs, units, |coefs|)
    {
      hide ShapeOf, Consistent, SatisfiedTo, Consistently, Halfway, Compacting;
      k := j;
      var v := vars[i];
      CompactingStep(vars0, target, i, vars, j);
      HalfwayStep(coefs0, used0, vars0, i, target, coefs, used);
      assert v == vars0[i] && target[v] == UnitDropped(coefs[v], v, units);
      if coefs[v] == 0 || v in units || -v in units {
        DropVar(v, units);
      } else {
        vars := vars[j := v];
        k := j + 1;
      }
    }

    /** remove, after moving a unit literal's coefficient to the degree and the right-hand side. */
    method DropVar(v: int, units: set<int>)
      requires Consistent(coefs, degree, rhs) && 1 <= v < |coefs| == |used| && Consistently(units)
      requires coefs[v] == 0 || v in units || -v in units
      modifies this`coefs, this`used, this`degree, this`rhs
      ensures Consistent(coefs, degree, rhs) && coefs == old(coefs)[v := 0] && used == old(used)[v := false]
      ensures degree == old(degree) - SatisfiedTo(old(coefs), units, |coefs|) + SatisfiedTo(coefs, units, |coefs|)
    {
      WorthUpdate(coefs, v, 0, iset{});
      SatisfiedUpdate(coefs, units, |coefs|, v);
      if coefs[v] == 0 {
      } else if v in units {
        rhs := rhs - coefs[v];
        if coefs[v] > 0 {
          degree := degree - coefs[v];
        }
      } else if coefs[v] < 0 {
        degree := degree + coefs[v];
      }
      coefs := coefs[v := 0];
      used := used[v := false];
    }

    /** weakenNonImplying: weakens false literals, smallest coefficient first, while the slack stays under propCoef. */
    method WeakenNonImplying(trail: set<int>, propCoef: int, slack: int)
      requires Valid()
      modifies this
      ensures Valid() && |coefs| == |old(coefs)| && degree == old(degree) - Drop(old(coefs), coefs)
      ensures forall v :: 1 <= v < |coefs| ==>
                coefs[v] == old(coefs)[v] || (coefs[v] == 0 && Falsified(old(coefs)[v], v, trail))
      ensures degree == old(degree) || slack + Drop(old(coefs), coefs) < propCoef
      ensures Within(old(vars), |old(coefs)|)
      ensures Line(coefs, degree) == NonImplyingLine(Line(old(coefs), old(degree)), old(vars), trail, propCoef, slack)
    {
      ghost var c, vs := Line(coefs, degree), vars;
      WeakenFalsified(trail, propCoef, slack);
      hide *;
      NonImplyingFacts(c, vs, trail, propCoef, slack);
    }

    /** The loop of weakenNonImplying. */
    method WeakenFalsified(trail: set<int>, propCoef: int, slack: int)
      requires Valid()
      modifies this
      ensures Valid() && |coefs| == |old(coefs)|
      ensures Within(old(vars), |old(coefs)|)
      ensures Line(coefs, degree) == NonImplyingLine(Line(old(coefs), old(degree)), old(vars), trail, propCoef, slack)
    {
      InRange();
      assert vars[..|vars|] == vars;
      hide ShapeOf, Consistent, DropTo, Falsified, NonImplyingLine, Within;
      var slk := slack;
      var i := |vars| - 1;
      while i >= 0 && slk + Abs(coefs[vars[i]]) < propCoef
        invariant -1 <= i < |vars| && vars == old(vars) && Valid() && |coefs| == |old(coefs)|
        invariant Within(vars, |coefs|)
        invariant NonImplyingLine(Line(old(coefs), old(degree)), old(vars), trail, propCoef, slack)
               == NonImplyingLine(Line(coefs, degree), vars[..i + 1], trail, propCoef, slk)
      {
        slk := WeakenIfFalsified(i, trail, propCoef, slk);
        i := i - 1;
      }
      NonImplyingEnd(Line(coefs, degree), vars[..i + 1], trail, propCoef, slk);
    }

    /** The body of that loop. */
    method WeakenIfFalsified(i: nat, trail: set<int>, ghost propCoef: int, slk: int) returns (slk': int)
      requires Valid() && i < |vars| && Within(vars, |coefs|)
      requires slk + Abs(coefs[vars[i]]) < propCoef
      modifies this
      ensures Valid() && |coefs| == |old(coefs)| && vars == old(vars)
      ensures NonImplyingLine(Line(old(coefs), old(degree)), vars[..i + 1], trail, propCoef, slk)
           == NonImplyingLine(Line(coefs, degree), vars[..i], trail, propCoef, slk')
    {
      hide ShapeOf, Consistent, Falsified, NonImplyingLine;
      NonImplyingStep(Line(coefs, degree), vars, i, trail, propCoef, slk);
      slk' := slk;
      if Falsified(coefs[vars[i]], vars[i], trail) {
        slk' := slk + Abs(coefs[vars[i]]);
        WeakenListed(i);
      }
    }

    /** weaken(v): the whole coefficient of a listed variable. */
    method WeakenListed(i: int)
      requires Valid() && 0 <= i < |vars|
      modifies this
      ensures Valid() && vars == old(vars) && 1 <= vars[i] < |old(coefs)| && coefs == old(coefs)[vars[i] := 0]
      ensures degree == old(degree) - Abs(old(coefs)[vars[i]])
    {
      WeakenNoLog(-coefs[vars[i]], vars[i]);
    }

    /** Weaken what does not divide, divide, saturate: the core of both overflow reduction and reason reduction. */
    method Slice(trail: set<int>, div: int, fully: bool, asserting: int)
      returns (ghost mid: seq<int>, ghost cut: seq<int>)
      requires Valid() && div > 0 && Consistently(trail) && (asserting == 0 || asserting in trail)
      modifies this
      ensures Valid() && Sliced(old(coefs), mid, cut, trail, div, fully, asserting)
      ensures SaturatedFrom(cut, DivUp(old(degree) - Drop(old(coefs), mid), div), coefs, degree)
      ensures Reduces(old(coefs), old(degree), coefs, degree, LeftOver(trail, asserting), asserting)
    {
      hide ShapeOf, Consistent, Reduces, Weakened, RoundAway, SaturatedFrom, DropTo;
      WeakenNonDivisibleNonFalsified(trail, div, fully, asserting);
      mid := coefs;
      DivideRoundUp(div);
      cut := coefs;
      ghost var d, L := degree, LeftOver(trail, asserting);
      SlicedReduces(old(coefs), old(degree), mid, cut, trail, div, fully, asserting);
      Saturate(true);
      SaturationReduces(cut, d, coefs, degree, L, asserting);
      ReducesTrans(old(coefs), old(degree), cut, d, coefs, degree, L, asserting);
    }

    /** saturateAndFixOverflow: the constraint stays implied, stays falsified over what is left besides the asserting
        literal, keeps that literal, and its numbers fit in bitOverflow bits. */
    method SaturateAndFixOverflow(trail: set<int>, fully: bool, bitOverflow: nat, bitReduce: nat, asserting: int)
      requires Valid() && Consistently(trail)
               && (asserting == 0 || (asserting in trail && 1 <= Var(asserting) < |coefs|))
      requires bitOverflow > 0 ==> bitOverflow >= bitReduce > 0
      modifies this
      ensures Valid() && |coefs| == |old(coefs)|
      ensures Reduces(old(coefs), old(degree), coefs, degree, LeftOver(trail, asserting), asserting)
      ensures forall v :: 1 <= v < |coefs| ==> Abs(coefs[v]) <= degree
      ensures bitOverflow > 0 ==> degree < Pow2(bitOverflow) * INF
      ensures bitOverflow > 0 ==> forall v :: 1 <= v < |coefs| ==> Abs(coefs[v]) < Pow2(bitOverflow)
      ensures |coefs| >= 1
      ensures LineOf(coefs, degree)
           == ReducedLine(LineOf(old(coefs), old(degree)), trail, fully, bitOverflow, bitReduce, asserting)
    {
      ghost var L := LeftOver(trail, asserting);
      InRange();
      var largest := SaturateIfNeeded();
      SaturatedIsLine(old(coefs), old(degree), coefs, degree);
      CutoffIs(coefs, degree, rhs, largest);
      SaturationReduces(old(coefs), old(degree), coefs, degree, L, asserting);
      SaturationBounds(old(coefs), old(degree), coefs, degree);
      hide ShapeOf, Consistent, Reduces, SaturatedFrom, LeftOver, Consistently, SaturatedLine, SlicedLine, CutoffVal,
           LargestTo;
      if bitOverflow == 0 {
        return;
      }
      var maxVal := Max(largest, Max(degree, Abs(rhs)) / INF);
      if maxVal > 0 && maxVal >= Pow2(bitOverflow) {
        ghost var c0, d0 := coefs, degree;
        FixOverflow(trail, fully, bitReduce, asserting, maxVal);
        ReducesTrans(old(coefs), old(degree), c0, d0, coefs, degree, L, asserting);
        Pow2Mono(bitReduce, bitOverflow);
      } else {
        QuotientBelow(degree, Max(degree, Abs(rhs)), Pow2(bitOverflow));
      }
    }

    /** The saturation that starts saturateAndFixOverflow. */
    method SaturateIfNeeded() returns (largest: int)
      requires Valid()
      modifies this
      ensures Valid() && SaturatedFrom(old(coefs), old(degree), coefs, degree)
      ensures forall v :: 1 <= v < |coefs| ==> Abs(coefs[v]) <= largest
      ensures largest == LargestTo(coefs, |coefs|)
    {
      hide ShapeOf, Consistent;
      RemoveZeroes();
      largest := GetLargestCoef();
      if largest > degree {
        Saturate(false);
        largest := degree;
      }
      LargestIs(coefs, largest);
    }

    /** The overflow branch: divide by the smallest number that brings every coefficient below 2^bitReduce. */
    method FixOverflow(trail: set<int>, fully: bool, bitReduce: nat, asserting: int, maxVal: int)
      requires Valid() && Consistently(trail)
               && (asserting == 0 || (asserting in trail && 1 <= Var(asserting) < |coefs|))
      requires bitReduce > 0 && maxVal > 0 && Max(degree, 0) / INF <= maxVal
      requires forall v :: 1 <= v < |coefs| ==> Abs(coefs[v]) <= maxVal
      modifies this
      ensures Valid() && |coefs| == |old(coefs)|
      ensures Reduces(old(coefs), old(degree), coefs, degree, LeftOver(trail, asserting), asserting)
      ensures forall v :: 1 <= v < |coefs| ==> Abs(coefs[v]) <= degree && Abs(coefs[v]) < Pow2(bitReduce)
      ensures degree < Pow2(bitReduce) * INF
      ensures |coefs| >= 1 && LineOf(coefs, degree)
           == SlicedLine(LineOf(old(coefs), old(degree)), trail, OverflowDivisor(maxVal, bitReduce), fully, asserting)
    {
      InRange();
      var cutoff := Pow2(bitReduce) - 1;
      var div := DivUp(maxVal, cutoff);
      CutoffReached(maxVal, maxVal, cutoff);
      DegreeReached(degree, maxVal, cutoff);
      hide ShapeOf, Consistent, Reduces, SaturatedFrom, LeftOver, Consistently, Sliced, DropTo;
      ghost var mid, cut := Slice(trail, div, fully, asserting);
      SlicedIsLine(old(coefs), old(degree), mid, cut, coefs, degree, trail, div, fully, asserting);
      SlicedBound(old(coefs), mid, cut, trail, fully, asserting, maxVal, cutoff);
      ghost var d := DivUp(old(degree) - Drop(old(coefs), mid), div);
      SaturationBounds(cut, d, coefs, degree);
      DegreeFalls(old(coefs), mid, old(degree), cut, trail, fully, asserting, maxVal, cutoff);
    }

    /** weakenDivideRound: the reason's slack becomes at most 0, and the propagated literal survives exactly unless
        both slackdiv and full weakening are on and slack + 1 does not divide its coefficient. */
    method WeakenDivideRound(trail: set<int>, l: int, slackdiv: bool, fully: bool)
      requires Valid() && Consistently(trail) && Propagates(coefs, degree, l, NotFalse(trail))
      modifies this
      ensures Valid() && |coefs| == |old(coefs)|
      ensures Reduces(old(coefs), old(degree), coefs, degree, NotFalse(trail), 0)
      ensures Slack(NotFalse(trail)) <= 0
      ensures CoefOf(coefs, l) > 0 <==> !LosesPivot(old(CoefOf(coefs, l)), old(Slack(NotFalse(trail))), slackdiv, fully)
      ensures LineOf(coefs, degree) == DividedLine(LineOf(old(coefs), old(degree)), l, trail, slackdiv, fully)
    {
      var slack := GetSlack(trail);
      var div := if slackdiv then slack + 1 else CoefOf(coefs, l);
      DivisorIs(l, trail, slackdiv, div);
      if div <= 1 {
        return;
      }
      if !slackdiv {
        QuotientRemainder(div, div);
      }
      hide ShapeOf, Consistent, Reduces, WorthTo, SlicedLine, LineOf;
      DivideBy(trail, l, div, fully);
    }

    lemma DivisorIs(l: int, trail: set<int>, slackdiv: bool, div: int)
      requires Shape() && 1 <= Var(l) < |coefs|
      requires div == if slackdiv then Slack(NotFalse(trail)) + 1 else CoefOf(coefs, l)
      ensures forall fully: bool ::
                DividedLine(LineOf(coefs, degree), l, trail, slackdiv, fully)
                == if div <= 1 then LineOf(coefs, degree) else SlicedLine(LineOf(coefs, degree), trail, div, fully, 0)
    {
      SameSlackLine(coefs, degree, NotFalse(trail));
    }

    /** Weakening and dividing by a number above 1, above the slack and at most the coefficient of l. */
    method DivideBy(trail: set<int>, l: int, div: int, fully: bool)
      requires Valid() && Consistently(trail) && Propagates(coefs, degree, l, NotFalse(trail))
      requires div > 1 && CoefOf(coefs, l) >= div > Slack(NotFalse(trail))
      modifies this
      ensures Valid() && |coefs| == |old(coefs)| >= 1
      ensures Reduces(old(coefs), old(degree), coefs, degree, NotFalse(trail), 0)
      ensures Slack(NotFalse(trail)) <= 0
      ensures CoefOf(coefs, l) > 0 <==> !(fully && TruncMod(old(CoefOf(coefs, l)), div) != 0)
      ensures LineOf(coefs, degree) == SlicedLine(LineOf(old(coefs), old(degree)), trail, div, fully, 0)
    {
      InRange();
      hide ShapeOf, Consistent, Reduces, SaturatedFrom, Sliced, DropTo, WorthTo, SlicedLine, LineOf;
      ghost var mid, cut := Slice(trail, div, fully, 0);
      SlicedIsLine(old(coefs), old(degree), mid, cut, coefs, degree, trail, div, fully, 0);
      PivotUnderSlice(old(coefs), old(degree), mid, cut, coefs, degree, trail, div, fully, l);
    }

    /** refineConstrToNegativeSlackResolvent.  The literal l survives exactly unless the constraint that reaches the
        last step, a function of the reason, the trail and the options, makes that step give it up. */
    method Refine(l: int, trail: set<int>, units: set<int>, options: Options)
      requires Valid() && Consistently(trail) && units <= trail && l in trail && l !in units && -l !in units
      requires Propagates(coefs, degree, l, NotFalse(trail))
      requires options.bitsOverflow > 0 ==> options.bitsOverflow >= options.bitsReduced > 0
      modifies this
      ensures Valid() && |coefs| == |old(coefs)| && Follows(old(coefs), old(degree), coefs, degree, units)
      ensures Slack(NotFalse(trail)) <= 0
      ensures 1 <= Var(l) < |coefs| && Within(old(vars), |coefs|)
      ensures CoefOf(coefs, l) > 0 <==> !GivesUp(LineOf(old(coefs), old(degree)), old(vars), l, trail, units, options)
      ensures LineOf(coefs, degree) == RefinedLine(LineOf(old(coefs), old(degree)), old(vars), l, trail, units, options)
    {
      hide ShapeOf, Consistent, Reduces, WorthTo, Follows, Propagates, BeforeDivision, DividedLine, LosesPivot, LineOf;
      PrepareReason(l, trail, units, options);
      ghost var c, d := coefs, degree;
      PropagatesMeans(l, trail);
      WeakenDivideRound(trail, l, options.slackdiv, options.weakenFull);
      ReducesFollows(c, d, coefs, degree, NotFalse(trail), 0, units);
      FollowsTrans(old(coefs), old(degree), c, d, coefs, degree, units);
    }

    lemma PropagatesMeans(l: int, trail: set<int>)
      requires Propagates(coefs, degree, l, NotFalse(trail))
      ensures 1 <= Var(l) < |coefs| && CoefOf(LineOf(coefs, degree).coefs, l) == CoefOf(coefs, l)
      ensures LineSlack(LineOf(coefs, degree), NotFalse(trail)) == Slack(NotFalse(trail))
    {
      SameSlackLine(coefs, degree, NotFalse(trail));
    }

    /** The steps of the refinement before the division. */
    method PrepareReason(l: int, trail: set<int>, units: set<int>, options: Options)
      requires Valid() && Consistently(trail) && units <= trail && l in trail && l !in units && -l !in units
      requires Propagates(coefs, degree, l, NotFalse(trail))
      requires options.bitsOverflow > 0 ==> options.bitsOverflow >= options.bitsReduced > 0
      modifies this
      ensures Valid() && |coefs| == |old(coefs)| && Follows(old(coefs), old(degree), coefs, degree, units)
      ensures Propagates(coefs, degree, l, NotFalse(trail))
      ensures 1 <= Var(l) < |coefs| && Within(old(vars), |coefs|)
      ensures LineOf(coefs, degree)
           == BeforeDivision(LineOf(old(coefs), old(degree)), old(vars), l, trail, units, options)
    {
      InRange();
      PropagatesMeans(l, trail);
      hide ShapeOf, Consistent, Reduces, SaturatedFrom, WorthTo, SatisfiedTo, Follows, Propagates, SlackOf, NonZero;
      hide UnitlessLine, NonImplyingLine, ReducedLine, LineOf;
      DropLevelZero(l, trail, units);
      ghost var c1, d1 := coefs, degree;
      PropagatesMeans(l, trail);
      if options.weakenNonImplying {
        WeakenUnneeded(l, trail, units);
        FollowsTrans(old(coefs), old(degree), c1, d1, coefs, degree, units);
      }
      ghost var c2, d2 := coefs, degree;
      SaturateAndFixOverflow(trail, options.weakenFull, options.bitsOverflow, options.bitsReduced, l);
      ReducesPropagates(c2, d2, coefs, degree, trail, l);
      ReducesFollows(c2, d2, coefs, degree, LeftOver(trail, l), l, units);
      FollowsTrans(old(coefs), old(degree), c2, d2, coefs, degree, units);
    }

    /** removeUnitsAndZeroes on a reason. */
    method DropLevelZero(l: int, trail: set<int>, units: set<int>)
      requires Valid() && Consistently(trail) && units <= trail && l !in units && -l !in units
      requires Propagates(coefs, degree, l, NotFalse(trail))
      modifies this
      ensures Valid() && |coefs| == |old(coefs)| >= 1 && Follows(old(coefs), old(degree), coefs, degree, units)
      ensures Propagates(coefs, degree, l, NotFalse(trail))
      ensures LineOf(coefs, degree) == UnitlessLine(LineOf(old(coefs), old(degree)), units)
      ensures (forall i :: 0 <= i < |old(vars)| ==> 0 <= old(vars)[i] < |coefs|)
              && vars == NonZero(old(vars), LineOf(coefs, degree).coefs)
    {
      FewerConsistent(units, trail);
      hide ShapeOf, Consistent, Propagates, SaturatedFrom, Follows, SatisfiedTo, WithoutUnits, NonZero, UnitlessLine,
           LineOf, Consistently;
      InRange();
      ghost var c, d, vs := coefs, degree, vars;
      RemoveUnitsAndZeroes(units);
      hide *;
      UnitlessIsLine(c, d, coefs, degree, units);
      UnitsRemoved(c, d, coefs, degree, units, trail, l);
      ListAgrees(vs);
    }

    lemma FewerConsistent(units: set<int>, trail: set<int>)
      requires Consistently(trail) && units <= trail
      ensures Consistently(units)
    {
    }

    lemma ListAgrees(vs: seq<int>)
      requires Shape() && (forall i :: 0 <= i < |vs| ==> 0 <= vs[i] < |coefs|) && vars == NonZero(vs, coefs)
      requires forall i :: 0 <= i < |vs| ==> 1 <= vs[i]
      ensures |coefs| >= 1 && vars == NonZero(vs, LineOf(coefs, degree).coefs)
    {
      NonZeroAgree(vs, coefs, coefs[0 := 0]);
    }

    lemma NonImplyingLineOfThis(l: int, trail: set<int>)
      requires Shape() && 1 <= Var(l) < |coefs|
      ensures Within(vars, |coefs|)
      ensures var r := NonImplyingLine(Line(coefs, degree), vars, trail, CoefOf(coefs, l), Slack(NotFalse(trail)));
              LineOf(r.coefs, r.degree) == NonImplyingLine(LineOf(coefs, degree), vars, trail, CoefOf(coefs, l),
                                                           Slack(NotFalse(trail)))
    {
      NonImplyingIsLine(Line(coefs, degree), vars, trail, CoefOf(coefs, l), Slack(NotFalse(trail)));
    }

    /** The weakening of false literals in between keeps the constraint propagating. */
    method WeakenUnneeded(l: int, trail: set<int>, units: set<int>)
      requires Valid() && Consistently(trail) && Propagates(coefs, degree, l, NotFalse(trail))
      modifies this
      ensures Valid() && |coefs| == |old(coefs)| && Follows(old(coefs), old(degree), coefs, degree, units)
      ensures Propagates(coefs, degree, l, NotFalse(trail))
      ensures Within(old(vars), |old(coefs)|)
      ensures LineOf(coefs, degree) == NonImplyingLine(LineOf(old(coefs), old(degree)), old(vars), trail,
                                                       CoefOf(old(coefs), l), old(Slack(NotFalse(trail))))
    {
      NonImplyingLineOfThis(l, trail);
      var slack := GetSlack(trail);
      hide ShapeOf, Consistent, WorthTo, Follows, DropTo, Falsified;
      WeakenNonImplying(trail, CoefOf(coefs, l), slack);
      NonImplyingWeakened(old(coefs), old(degree), coefs, trail, l, units);
    }

    /** The loop of addUp (and of multiply) that scales this constraint. */
    method ScaleBy(k: int)
      requires Valid() && k >= 1
      modifies this
      ensures Valid() && vars == old(vars) && used == old(used) && |coefs| == |old(coefs)|
      ensures degree == k * old(degree) && rhs == k * old(rhs)
      ensures forall v :: 1 <= v < |coefs| ==> coefs[v] == k * old(coefs)[v]
    {
      degree, rhs := k * degree, k * rhs;
      Unlisted();
      InRange();
      hide ShapeOf;
      var i := 0;
      while i < |vars|
        invariant 0 <= i <= |vars| && vars == old(vars) && used == old(used) && |coefs| == |old(coefs)|
        invariant degree == k * old(degree) && rhs == k * old(rhs)
        invariant forall v :: 1 <= v < |coefs| ==> coefs[v] == if v in vars[..i] then k * old(coefs)[v]
                  else old(coefs)[v]
      {
        var v := vars[i];
        assert vars[..i + 1] == vars[..i] + [v] && v !in vars[..i];
        coefs := coefs[v := k * coefs[v]];
        i := i + 1;
      }
      assert vars[..i] == vars;
      assert forall v :: 1 <= v < |coefs| && v !in vars ==> k * old(coefs)[v] == 0;
      ScaledValid(old(coefs), old(used), old(vars), old(degree), old(rhs), coefs, k);
    }

    /** invert: the negated left-hand side against the negated right-hand side. */
    method Invert()
      requires Valid()
      modifies this
      ensures Valid() && |coefs| == |old(coefs)| && vars == old(vars)
      ensures forall v :: 1 <= v < |coefs| ==> coefs[v] == -old(coefs)[v]
      ensures degree == NormTo(old(coefs), |coefs|) - old(degree)
    {
      rhs := -rhs;
      NegateAll();
      degree := CalcDegree();
      NegatedWorth(old(coefs), coefs, |coefs|, AllTrue());
    }

    method NegateAll()
      requires Shape()
      modifies this`coefs
      ensures Shape() && |coefs| == |old(coefs)|
      ensures forall v :: 1 <= v < |coefs| ==> coefs[v] == -old(coefs)[v]
    {
      InRange();
      Unlisted();
      hide ShapeOf;
      var i := 0;
      while i < |vars|
        invariant 0 <= i <= |vars| && |coefs| == |old(coefs)|
        invariant forall v :: 1 <= v < |coefs| ==> coefs[v] == if v in vars[..i] then -old(coefs)[v] else old(coefs)[v]
      {
        assert vars[..i + 1] == vars[..i] + [vars[i]] && vars[i] !in vars[..i];
        coefs := coefs[vars[i] := -coefs[vars[i]]];
        i := i + 1;
      }
      assert vars[..i] == vars;
      SameShape(old(coefs), used, vars, coefs);
    }

    /** addUp: thismult times this constraint plus cmult times c. */
    method AddUp(c: Expr, cmult: int, thismult: int)
      requires c != this && Valid() && c.Valid() && |c.coefs| == |coefs| && cmult >= 1 && thismult >= 1
      modifies this
      ensures Valid() && SumOf(thismult, old(coefs), old(degree), cmult, c.coefs, c.degree, coefs, degree)
    {
      if thismult > 1 {
        ScaleBy(thismult);
      }
      rhs := rhs + cmult * c.rhs;
      degree := degree + cmult * c.degree;
      ghost var a, d := coefs, degree;
      AddAll(c, cmult);
      SumConsistent(a, d - cmult * c.degree, rhs - cmult * c.rhs, cmult, c.coefs, c.degree, c.rhs, coefs);
      CancelAgree(a, Scale(cmult, c.coefs), Scale(thismult, old(coefs)), Scale(cmult, c.coefs), |coefs|);
    }

    /** The loop of addUp over c's variables. */
    method AddAll(c: Expr, cmult: int)
      requires c != this && Shape() && c.Shape() && |c.coefs| == |coefs|
      modifies this`coefs, this`used, this`vars, this`degree
      ensures Shape() && |coefs| == |old(coefs)|
      ensures forall v :: 1 <= v < |coefs| ==> coefs[v] == old(coefs)[v] + cmult * c.coefs[v]
      ensures degree == old(degree) - CancelTo(old(coefs), Scale(cmult, c.coefs), |coefs|)
    {
      ghost var b: seq<int> := seq(|coefs|, _ => 0);
      CancelNothing(coefs, b, |coefs|);
      assert TakenSoFar(b, c.coefs, c.vars, 0, cmult);
      hide ShapeOf, Cancel, CancelTo, TakenSoFar;
      var i := 0;
      while i < |c.vars|
        invariant 0 <= i <= |c.vars| && Shape() && |coefs| == |old(coefs)| == |b|
        invariant forall v :: 1 <= v < |coefs| ==> coefs[v] == old(coefs)[v] + b[v]
        invariant TakenSoFar(b, c.coefs, c.vars, i, cmult)
        invariant degree == old(degree) - CancelTo(old(coefs), b, |coefs|)
      {
        TakeStep(b, c.coefs, c.used, c.vars, i, cmult);
        AddTerm(cmult * c.coefs[c.vars[i]], c.vars[i], old(coefs), b);
        b := b[c.vars[i] := cmult * c.coefs[c.vars[i]]];
        i := i + 1;
      }
      AllTaken(b, c.coefs, c.used, c.vars, cmult);
      CancelAgree(old(coefs), b, old(coefs), Scale(cmult, c.coefs), |coefs|);
    }

    /** generalizedResolution: the smallest multiples that make the two coefficients of l cancel. */
    method GeneralizedResolution(reason: Expr, l: int, trail: set<int>)
      requires reason != this && Valid() && reason.Valid() && |reason.coefs| == |coefs| && 1 <= Var(l) < |coefs|
      requires Consistently(trail) && CoefOf(reason.coefs, l) > 0 && CoefOf(coefs, -l) > 0
      requires Slack(NotFalse(trail)) < 0 && reason.Slack(NotFalse(trail)) <= 0
      modifies this
      ensures Valid() && |coefs| == |old(coefs)| && coefs[Var(l)] == 0 && Slack(NotFalse(trail)) < 0
      ensures forall a: Lits :: Total(a) && old(Slack(a)) >= 0 && reason.Slack(a) >= 0 ==> Slack(a) >= 0
    {
      var r, c := CoefOf(reason.coefs, l), CoefOf(coefs, -l);
      var g := GCD(r, c);
      GcdQuotients(r, c);
      hide Consistent, ShapeOf, WorthTo, SumOf;
      AddUp(reason, c / g, r / g);
      SumResolves(old(coefs), old(degree), reason.coefs, reason.degree, coefs, degree, l, trail, r / g, c / g);
    }

    /** One step of that loop: coefs is a plus the part b of the other constraint, and v is not in b yet. */
    method AddTerm(m: int, v: int, ghost a: seq<int>, ghost b: seq<int>)
      requires Shape() && |coefs| == |a| == |b| && 1 <= v < |coefs| && b[v] == 0
      requires forall u :: 1 <= u < |coefs| ==> coefs[u] == a[u] + b[u]
      modifies this`coefs, this`used, this`vars, this`degree
      ensures Shape() && |coefs| == |a|
      ensures forall u :: 1 <= u < |coefs| ==> coefs[u] == a[u] + b[v := m][u]
      ensures degree + CancelTo(a, b[v := m], |a|) == old(degree) + CancelTo(a, b, |a|)
    {
      CancelUpdate(a, b, |coefs|, v, m);
      CancelZero(a[v]);
      AddCoef(m, v);
    }

    /** genericResolve: conflict analysis resolves this falsified constraint with the reason that propagated l.  What it
        leaves follows from both, mentions l no more, and is still falsified.  When the refined reason has given up l,
        there is nothing to resolve on: the source stops at its assertion. */
    method GenericResolve(reason: Expr, l: int, trail: set<int>, units: set<int>, options: Options)
      returns (resolved: bool)
      requires reason != this && Valid() && reason.Valid() && |reason.coefs| == |coefs|
      requires Consistently(trail) && units <= trail && l in trail && l !in units && -l !in units && l != 0
      requires Propagates(reason.coefs, reason.degree, l, NotFalse(trail))
      requires CoefOf(coefs, -l) > 0 && Slack(NotFalse(trail)) < 0
      requires options.bitsOverflow > 0 ==> options.bitsOverflow >= options.bitsReduced > 0
      modifies this, reason
      ensures Valid() && reason.Valid() && |coefs| == |old(coefs)| == |reason.coefs| && 1 <= Var(l) < |coefs|
      ensures Within(old(reason.vars), |coefs|)
      ensures resolved <==>
                !GivesUp(LineOf(old(reason.coefs), old(reason.degree)), old(reason.vars), l, trail, units, options)
      ensures LineOf(reason.coefs, reason.degree)
           == RefinedLine(LineOf(old(reason.coefs), old(reason.degree)), old(reason.vars), l, trail, units, options)
      ensures resolved ==> coefs[Var(l)] == 0 && Slack(NotFalse(trail)) < 0
      ensures resolved ==>
                forall a: Lits :: Total(a) && Agrees(a, units) && old(Slack(a)) >= 0 && old(reason.Slack(a)) >= 0 ==>
                                    Slack(a) >= 0
      ensures resolved ==> forall v :: 1 <= v < |coefs| ==> Abs(coefs[v]) <= degree
      ensures resolved && options.bitsOverflow > 0 ==>
                forall v :: 1 <= v < |coefs| ==> Abs(coefs[v]) < Pow2(options.bitsOverflow)
      ensures !resolved ==> coefs == old(coefs) && degree == old(degree)
    {
      hide Consistent, ShapeOf, WorthTo, Reduces, Follows, GivesUp, RefinedLine, LineOf;
      reason.Refine(l, trail, units, options);
      resolved := CoefOf(reason.coefs, l) > 0;
      if !resolved {
        return;
      }
      GeneralizedResolution(reason, l, trail);
      ghost var c1, d1 := coefs, degree;
      SaturateAndFixOverflow(trail, options.weakenFull, options.bitsOverflow, options.bitsReduced, 0);
      ResolventReduced(c1, d1, coefs, degree, trail, l);
      FollowsAt(old(reason.coefs), old(reason.degree), reason.coefs, reason.degree, units);
    }

    /** The right-hand side once the flipped variables are complemented. */
    method FlippedRhs(flipped: set<int>) returns (b: int)
      requires Shape()
      ensures b == rhs - FlippedTo(coefs, flipped, |coefs|)
    {
      b := rhs;
      InRange();
      Unlisted();
      hide ShapeOf;
      var i := 0;
      ghost var left := coefs;
      while i < |vars|
        invariant 0 <= i <= |vars| && |left| == |coefs|
        invariant forall v :: 1 <= v < |coefs| ==> left[v] == if v in vars[..i] then 0 else coefs[v]
        invariant b == rhs - FlippedTo(coefs, flipped, |coefs|) + FlippedTo(left, flipped, |coefs|)
      {
        var v := vars[i];
        assert vars[..i + 1] == vars[..i] + [v] && v !in vars[..i];
        FlippedUpdate(left, flipped, |left|, v, 0);
        left := left[v := 0];
        if v in flipped {
          b := b - coefs[v];
        }
        i := i + 1;
      }
      assert vars[..i] == vars;
      FlippedNothing(left, flipped, |left|);
    }

    /** applyMIR, with the variables v for which toLit(v) < 0 in flipped. */
    method ApplyMIR(d: int, flipped: set<int>)
      requires Valid() && d > 0
      modifies this
      ensures Valid()
      ensures var b := old(rhs - FlippedTo(coefs, flipped, |coefs|));
              && RoundedBy((x: int) => MirFunction(x, d, b % d), old(coefs), coefs, flipped)
              && rhs == (b % d) * DivUp(b, d) + FlippedTo(coefs, flipped, |coefs|)
      ensures forall a: Lits :: Total(a) && old(Slack(a)) >= 0 ==> Slack(a) >= 0
    {
      hide ShapeOf, Consistent, MirFunction, FlippedTo, RoundedBy, ModSafe, CeilDivSafe, DivUp;
      var b := FlippedRhs(flipped);
      SafeDivision(b, d);
      var bmodd := ModSafe(b, d);
      rhs := bmodd * CeilDivSafe(b, d);
      RoundAll(d, bmodd, flipped);
      degree := CalcDegree();
      hide *;
      forall a: Lits | Total(a)
        ensures old(Slack(a)) >= 0 ==> Slack(a) >= 0
      {
        MirSound(old(coefs), old(degree), old(rhs), coefs, degree, rhs, d, flipped, a);
      }
    }

    /** applyMIR's loop over the variables. */
    method RoundAll(d: int, r: int, flipped: set<int>)
      requires Shape() && d > 0 && 0 <= r < d
      modifies this`coefs, this`rhs
      ensures Shape() && |coefs| == |old(coefs)|
      ensures RoundedBy((x: int) => MirFunction(x, d, r), old(coefs), coefs, flipped)
      ensures rhs == old(rhs) + FlippedTo(coefs, flipped, |coefs|)
    {
      InRange();
      hide ShapeOf, Rounded;
      var i := 0;
      ghost var done := seq(|coefs|, _ => 0);
      FlippedNothing(done, flipped, |done|);
      while i < |vars|
        invariant 0 <= i <= |vars| && |coefs| == |old(coefs)| == |done|
        invariant forall v :: 1 <= v < |coefs| ==>
                                coefs[v] == if v in vars[..i] then Rounded(old(coefs)[v], v, d, r, flipped)
                                    else old(coefs)[v]
        invariant forall v :: 1 <= v < |coefs| ==> done[v] == if v in vars[..i] then coefs[v] else 0
        invariant rhs == old(rhs) + FlippedTo(done, flipped, |coefs|)
      {
        var v := vars[i];
        assert vars[..i + 1] == vars[..i] + [v] && v !in vars[..i];
        coefs := coefs[v := Rounded(coefs[v], v, d, r, flipped)];
        if v in flipped {
          rhs := rhs + coefs[v];
        }
        FlippedUpdate(done, flipped, |done|, v, coefs[v]);
        done := done[v := coefs[v]];
        i := i + 1;
      }
      assert vars[..i] == vars;
      AllRounded(old(coefs), old(used), vars, d, r, flipped, coefs, done);
    }

    // ----- simplifyToCardinality -----

    ghost function Terms(): (s: seq<Term>)
      requires Shape()
      reads this`coefs, this`used, this`vars
      ensures |s| == |vars|
    {
      TermsOf(vars, coefs)
    }

    /** The i-th listed variable's coefficient without its sign. */
    function AbsCoef(i: int): (c: int)
      requires Shape() && 0 <= i < |vars|
      reads this`coefs, this`used, this`vars
      ensures c >= 0 && c == Terms()[i].coef
    {
      Abs(coefs[vars[i]])
    }

    /** hasNoZeroes and isSortedInDecreasingCoefOrder. */
    ghost predicate SortedNoZeroes()
      requires Shape()
      reads this`coefs, this`used, this`vars
    {
      (forall i :: 0 <= i < |vars| ==> coefs[vars[i]] != 0) && Decreasing(Terms())
    }

    lemma TermsFacts()
      requires Shape() && SortedNoZeroes()
      ensures Decreasing(Terms()) && Positive(Terms()) && DistinctVars(Terms())
      ensures forall L: Lits :: Worth(coefs, L) == Weight(Terms(), L)
    {
      forall L: Lits
        ensures Worth(coefs, L) == Weight(Terms(), L)
      {
        ListedWorth(vars, coefs, L);
      }
    }

    /** The loop that adds up the largest coefficients until they reach the degree. */
    method CountLargest() returns (k: nat, sum: int)
      requires Valid() && SortedNoZeroes() && degree > 0
      ensures k <= |vars| && sum == Head(Terms(), k)
      ensures if sum < degree then k == |vars| else Needed(Terms(), degree, k)
    {
      hide ShapeOf, Consistent, Tail, TermsOf, Decreasing;
      k, sum := 0, 0;
      while k < |vars| && sum < degree
        invariant 0 <= k <= |vars| && sum == Head(Terms(), k)
        invariant k > 0 ==> Head(Terms(), k - 1) < degree
      {
        PrefixSum(Terms(), k);
        sum := sum + AbsCoef(k);
        k := k + 1;
      }
    }

    /** The sum of the k smallest coefficients. */
    method SmallestSum(k: nat) returns (sum: int)
      requires Valid() && k <= |vars|
      ensures sum == Tail(Terms(), |vars| - k)
    {
      ghost var s := Terms();
      NoSuffix(s);
      hide *;
      sum := 0;
      var i := 1;
      while i <= k
        invariant 1 <= i <= k + 1 && sum == Tail(s, |vars| - (i - 1))
      {
        SuffixStep(s, |vars| - i);
        sum := sum + AbsCoef(|vars| - i);
        i := i + 1;
      }
    }

    /** How many of the largest terms remain when as many small ones as possible are skipped. */
    method CountSkippable(k: nat, sum: int) returns (m: int)
      requires Valid() && SortedNoZeroes() && Needed(Terms(), degree, k) && sum == Head(Terms(), k)
      ensures Skippable(Terms(), degree, k, m)
    {
      TermsFacts();
      WiggleStart(Terms(), degree, k, sum);
      m := SkipSmall(k, degree - sum + AbsCoef(k - 1));
    }

    /** The loop that skips the smallest terms while they fit into the wiggle room. */
    method SkipSmall(ghost k: nat, room: int) returns (m: int)
      requires Shape() && Wiggle(Terms(), degree, k, |vars|, room)
      ensures Skippable(Terms(), degree, k, m)
    {
      ghost var s := Terms();
      WiggleRange(s, degree, k, |vars|, room);
      hide *;
      m := |vars|;
      var wiggleroom := room;
      while m > 0 && wiggleroom > AbsCoef(m - 1)
        invariant 1 <= k <= m <= |vars| && Wiggle(s, degree, k, m, wiggleroom)
      {
        WiggleStep(s, degree, k, m, wiggleroom);
        m := m - 1;
        wiggleroom := wiggleroom - AbsCoef(m);
      }
      WiggleDone(s, degree, k, m, wiggleroom);
    }

    /** Weakening every variable leaves the degree that cannot be reached. */
    method WeakenAll()
      requires Valid()
      modifies this
      ensures Valid() && vars == old(vars) && |coefs| == |old(coefs)|
      ensures degree == old(degree) - CoefSum(old(Terms()))
      ensures forall v :: 1 <= v < |coefs| ==> coefs[v] == 0
    {
      ghost var s := Terms();
      Unlisted();
      hide ShapeOf, Consistent, TermsOf, CoefSum;
      var i := 0;
      while i < |vars|
        invariant 0 <= i <= |vars| && vars == old(vars) && Valid() && |coefs| == |old(coefs)|
        invariant forall v :: 1 <= v < |coefs| ==> coefs[v] == if v in vars[..i] then 0 else old(coefs)[v]
        invariant degree == old(degree) - Head(s, i)
      {
        WeakenNext(i, s, old(coefs));
        i := i + 1;
      }
      assert vars[..i] == vars && s[..i] == s;
    }

    method WeakenNext(i: nat, ghost s: seq<Term>, ghost before: seq<int>)
      requires Valid() && i < |vars| == |s| && |before| == |coefs|
      requires forall j :: 0 <= j < |vars| ==> 1 <= vars[j] < |before| && s[j].coef == Abs(before[vars[j]])
      requires forall v :: 1 <= v < |coefs| && v !in vars[..i] ==> coefs[v] == before[v]
      modifies this
      ensures Valid() && vars == old(vars) && 1 <= vars[i] < |old(coefs)| && coefs == old(coefs)[vars[i] := 0]
      ensures degree + Head(s, i + 1) == old(degree) + Head(s, i) && vars[..i + 1] == vars[..i] + [vars[i]]
    {
      WeakenListed(i);
      PrefixSum(s, i);
    }

    /** The end of simplifyToCardinality: keep the first m variables with coefficient 1 or -1 and degree k. */
    method MakeCardinality(k: int, m: nat)
      requires Valid() && m <= |vars| && forall i :: 0 <= i < |vars| ==> coefs[vars[i]] != 0
      modifies this
      ensures Valid() && vars == old(vars)[..m] && degree == k && UnitSigns(old(vars), old(coefs), m, coefs)
    {
      rhs := k;
      degree := k;
      RemoveFrom(m);
      SetSigns();
    }

    method RemoveFrom(m: nat)
      requires Shape() && m <= |vars|
      modifies this`coefs, this`used, this`vars
      ensures Shape() && |coefs| == |old(coefs)| && vars == old(vars)[..m]
      ensures forall v :: 1 <= v < |coefs| ==> coefs[v] == if v in old(vars)[m..] then 0 else old(coefs)[v]
    {
      InRange();
      hide ShapeOf;
      var i := m;
      while i < |vars|
        invariant m <= i <= |vars| && vars == old(vars) && |coefs| == |old(coefs)| == |used|
        invariant forall v :: 1 <= v < |coefs| ==> coefs[v] == if v in vars[m..i] then 0 else old(coefs)[v]
        invariant forall v :: 1 <= v < |coefs| ==> used[v] == (old(used)[v] && v !in vars[m..i])
      {
        assert vars[m..i + 1] == vars[m..i] + [vars[i]];
        coefs := coefs[vars[i] := 0];
        used := used[vars[i] := false];
        i := i + 1;
      }
      assert vars[m..i] == vars[m..];
      vars := vars[..m];
      RemovedShape(old(coefs), old(used), old(vars), m, coefs, used);
    }

    method SetSigns()
      requires Shape() && rhs == degree && forall i :: 0 <= i < |vars| ==> coefs[vars[i]] != 0
      modifies this`coefs, this`rhs
      ensures Valid() && |coefs| == |old(coefs)|
      ensures forall v :: 1 <= v < |coefs| ==> coefs[v] == if v !in vars then 0 else if old(coefs)[v] < 0 then -1 else 1
    {
      ghost var done := seq(|coefs|, _ => 0);
      AllZero(done, |done|, iset{});
      assert SignsSet(coefs, coefs, done, vars, 0);
      hide ShapeOf, SignsSet;
      var i := 0;
      while i < |vars|
        invariant 0 <= i <= |vars| && |coefs| == |old(coefs)| == |done|
        invariant SignsSet(old(coefs), coefs, done, vars, i) && rhs == degree + NegTo(done, |done|)
      {
        done := SetSign(i, old(coefs), done);
        i := i + 1;
      }
      AllSigns(old(coefs), used, vars, coefs, done);
    }

    method SetSign(i: nat, ghost before: seq<int>, ghost done: seq<int>) returns (ghost next: seq<int>)
      requires ShapeOf(before, used, vars) && i < |vars| && SignsSet(before, coefs, done, vars, i)
      requires |coefs| == |before| == |done| && rhs == degree + NegTo(done, |done|)
      modifies this`coefs, this`rhs
      ensures |coefs| == |before| == |next| && SignsSet(before, coefs, next, vars, i + 1)
              && rhs == degree + NegTo(next, |next|)
    {
      SignStep(before, used, coefs, done, vars, i);
      hide ShapeOf, SignsSet;
      var v := vars[i];
      if coefs[v] < 0 {
        coefs := coefs[v := -1];
        rhs := rhs - 1;
      } else {
        coefs := coefs[v := 1];
      }
      WorthUpdate(done, v, coefs[v], iset{});
      next := done[v := coefs[v]];
    }

    /** simplifyToCardinality.  What is left counts literals and is implied; the equivalence-preserving mode keeps
        exactly the same points; and no larger degree would be implied.  The equivalence-preserving mode leaves a
        constraint with a larger coefficient alone only when no bound on the number of its literals is equivalent. */
    method SimplifyToCardinality(equivalencePreserving: bool) returns (changed: bool)
      requires Valid() && SortedNoZeroes()
      modifies this
      ensures Valid()
      ensures changed ==> CardinalityOf(old(coefs), old(degree), coefs, degree, equivalencePreserving)
      ensures !changed ==> coefs == old(coefs) && degree == old(degree) && vars == old(vars)
      ensures !changed && degree > 0 && |vars| > 0 && AbsCoef(0) != 1 ==>
                equivalencePreserving && NotCardinality(Terms(), degree)
    {
      changed := false;
      if |vars| == 0 || AbsCoef(0) == 1 || degree <= 0 {
        return;
      }
      hide *;
      var k, sum := CountLargest();
      if sum < degree {
        DegreeOutOfReach();
        WeakenAll();
        NothingLeft(old(coefs), old(degree), coefs, degree, equivalencePreserving);
        return true;
      }
      var m := KeptTerms(k, sum, equivalencePreserving);
      if m == 0 {
        return;
      }
      ReplaceByCount(k, m, equivalencePreserving);
      changed := true;
    }

    /** How many terms the cardinality constraint keeps; 0 when it would not be equivalent although it has to be. */
    method KeptTerms(k: nat, sum: int, equivalencePreserving: bool) returns (m: nat)
      requires Valid() && SortedNoZeroes() && Needed(Terms(), degree, k) && sum == Head(Terms(), k)
      ensures m == 0 ==> equivalencePreserving && NotCardinality(Terms(), degree)
      ensures m > 0 ==> if equivalencePreserving then m == |vars| && Tail(Terms(), |vars| - k) >= degree
                        else Skippable(Terms(), degree, k, m)
    {
      m := |vars|;
      if equivalencePreserving {
        var smallCoefSum := SmallestSum(k);
        if smallCoefSum < degree {
          NoBound(k);
          m := 0;
        }
      } else {
        m := CountSkippable(k, sum);
      }
    }

    /** The constraint becomes "at least k of its first m literals". */
    method ReplaceByCount(k: nat, m: nat, ghost exact: bool)
      requires Valid() && SortedNoZeroes() && Needed(Terms(), degree, k)
      requires if exact then m == |vars| && Tail(Terms(), |vars| - k) >= degree else Skippable(Terms(), degree, k, m)
      modifies this
      ensures Valid()
      ensures CardinalityOf(old(coefs), old(degree), coefs, degree, exact)
    {
      ghost var s := Terms();
      TermsFacts();
      MakeCardinality(k, m);
      CountsKept(old(vars), old(used), old(coefs), m);
      hide *;
      CountedResult(old(coefs), old(degree), s, k, m, coefs, degree, exact);
    }

    lemma DegreeOutOfReach()
      requires Valid() && SortedNoZeroes() && Head(Terms(), |vars|) < degree
      ensures CoefSum(Terms()) < degree && forall L: Lits :: SlackOf(coefs, degree, L) < 0
    {
      TermsFacts();
      forall L: Lits
        ensures Weight(Terms(), L) < degree && CoefSum(Terms()) < degree
      {
        OutOfReach(Terms(), degree, L);
      }
      assert Weight(Terms(), iset{}) < degree;
    }

    static lemma NothingLeft(coefs: seq<int>, degree: int, coefs': seq<int>, degree': int, exact: bool)
      requires |coefs| == |coefs'| && degree' > 0 && forall v :: 1 <= v < |coefs| ==> coefs'[v] == 0
      requires forall L: Lits :: SlackOf(coefs, degree, L) < 0
      ensures CardinalityOf(coefs, degree, coefs', degree', exact)
    {
      forall L: Lits
        ensures SlackOf(coefs', degree', L) == -degree'
      {
        AllZero(coefs', |coefs'|, L);
      }
    }

    lemma NoBound(k: nat)
      requires Valid() && SortedNoZeroes() && Needed(Terms(), degree, k) && Tail(Terms(), |vars| - k) < degree
      ensures NotCardinality(Terms(), degree)
    {
      TermsFacts();
      hide Tail, Needed, Differs, Head;
      forall bound: int
        ensures Differs(Terms(), degree, bound)
      {
        NoCardinality(Terms(), degree, k, bound);
      }
    }

    lemma CountsKept(vars0: seq<int>, used0: seq<bool>, coefs0: seq<int>, m: nat)
      requires ShapeOf(coefs0, used0, vars0) && UnitSigns(vars0, coefs0, m, coefs)
      requires forall i :: 0 <= i < |vars0| ==> coefs0[vars0[i]] != 0
      ensures forall L: Lits :: Slack(L) == Count(TermsOf(vars0, coefs0)[..m], L) - degree
    {
      forall L: Lits
        ensures Worth(coefs, L) == Count(TermsOf(vars0, coefs0)[..m], L)
      {
        UnitSignsCount(vars0, used0, coefs0, m, coefs, L);
      }
    }

    /** isAssertingBefore, where trail holds the literals assigned below the given level.  On a saturated constraint the
        early exit is right: the slack only grows, and no coefficient exceeds the degree. */
    method IsAssertingBefore(trail: set<int>) returns (status: AssertionStatus)
      requires Valid() && Consistently(trail)
      requires forall v :: 1 <= v < |coefs| ==> Abs(coefs[v]) <= degree
      ensures status == FALSIFIED <==> Slack(NotFalse(trail)) < 0
      ensures status == ASSERTING <==> Slack(NotFalse(trail)) >= 0
                                       && exists v :: 1 <= v < |coefs|
                                            && ForcedAt(coefs[v], v, trail, Slack(NotFalse(trail)))
    {
      var slack, largestCoef, early := SlackAndLargest(trail);
      if early {
        return NONASSERTING;
      }
      NoneForced(slack, trail, largestCoef);
      return if slack >= largestCoef then NONASSERTING else if slack >= 0 then ASSERTING else FALSIFIED;
    }

    /** The loop of isAssertingBefore, which stops once the slack has reached the degree. */
    method SlackAndLargest(trail: set<int>) returns (slack: int, largestCoef: int, early: bool)
      requires Valid() && Consistently(trail)
      ensures early ==> degree <= slack <= Slack(NotFalse(trail))
      ensures !early ==> slack == Slack(NotFalse(trail)) && LargestUnknown(vars, coefs, trail, largestCoef)
    {
      largestCoef, slack := 0, -degree;
      ghost var left, N := coefs, NotFalse(trail);
      assert LargestUnknown(vars[..0], coefs, trail, 0) && Remaining(left, coefs, vars, 0);
      hide ShapeOf, Remaining, Consistent, WorthTo, LargestUnknown, LargerUnknown, Falsified, Consistently, Contr;
      var i := 0;
      while i < |vars|
        invariant 0 <= i <= |vars| && Remaining(left, coefs, vars, i)
        invariant slack == Slack(N) - Worth(left, N)
        invariant LargestUnknown(vars[..i], coefs, trail, largestCoef)
      {
        var v := vars[i];
        RemainingStep(left, coefs, used, vars, i);
        left := WithoutCounted(left, v, trail);
        LargestStep(vars[..i], coefs, trail, largestCoef, v);
        largestCoef := LargerUnknown(coefs[v], v, trail, largestCoef);
        if !Falsified(coefs[v], v, trail) {
          slack := slack + Abs(coefs[v]);
          if slack >= degree {
            WorthAtLeast(left, |left|, 0, N);
            early := true;
            return;
          }
        }
        i := i + 1;
      }
      NothingRemains(left, coefs, used, vars, N);
      early := false;
    }

    lemma NoneForced(slack: int, trail: set<int>, largest: int)
      requires Shape() && LargestUnknown(vars, coefs, trail, largest)
      ensures largest >= 0
      ensures slack >= 0 ==> (slack < largest <==> exists v :: 1 <= v < |coefs| && ForcedAt(coefs[v], v, trail, slack))
    {
      forall v | 1 <= v < |coefs| && slack >= 0 && ForcedAt(coefs[v], v, trail, slack)
        ensures slack < largest
      {
        assert v in vars;
      }
    }
  }

  // ----- a reason that gives up its literal -----

  const EXAMPLE := Line([0, 3, 2, 2], 4)

  lemma ExampleSlack(N: Lits)
    requires 1 in N && 2 in N && 3 !in N
    ensures LineSlack(EXAMPLE, N) == 1
  {
    var c := EXAMPLE.coefs;
    assert WorthTo(c, 1, N) == 0;
    assert WorthTo(c, 2, N) == 3;
    assert WorthTo(c, 3, N) == 5;
    assert WorthTo(c, 4, N) == 5;
  }

  lemma ExampleConflict(N: Lits)
    requires 3 !in N && -1 !in N
    ensures SlackOf([0, -1, 0, 1], 1, N) == -1
  {
    var c := [0, -1, 0, 1];
    assert WorthTo(c, 1, N) == 0;
    assert WorthTo(c, 2, N) == 0;
    assert WorthTo(c, 3, N) == 0;
  }

  lemma ExampleSaturated()
    ensures SaturatedLine(EXAMPLE) == EXAMPLE && UnitlessLine(EXAMPLE, {}) == EXAMPLE
  {
    SatisfiedNothing(EXAMPLE.coefs, {}, 4);
    assert WithoutUnits(EXAMPLE.coefs, {}) == EXAMPLE.coefs;
    assert SaturatedLine(EXAMPLE).coefs == EXAMPLE.coefs;
  }

  lemma ExampleCutoff()
    ensures CutoffVal(EXAMPLE) == 3
  {
    var c := EXAMPLE.coefs;
    assert Abs(c[1]) == 3;
    LargestIs(c, 3);
    assert NegTo(c, 1) == 0 && NegTo(c, 2) == 0 && NegTo(c, 3) == 0 && NegTo(c, 4) == 0;
  }

  /** Nothing changes before the division, whatever the order of the variables and the optional steps. */
  lemma ExampleBefore(vars: seq<int>, options: Options)
    requires Within(vars, 4) && options.bitsOverflow != 1 && (options.bitsOverflow > 0 ==> options.bitsReduced > 0)
    ensures BeforeDivision(EXAMPLE, vars, 1, {1, -3}, {}, options) == EXAMPLE
  {
    var c, N := EXAMPLE, NotFalse({1, -3});
    ExampleSaturated();
    ExampleSlack(N);
    ExampleCutoff();
    if options.bitsOverflow > 1 {
      Pow2Mono(2, options.bitsOverflow);
      assert Pow2(2) == 2 * Pow2(1) && Pow2(1) == 2 * Pow2(0);
    }
    var vs := NonZero(vars, c.coefs);
    NonImplyingEnd(c, vs, {1, -3}, 3, 1);
  }

  /** The division by 2 weakens x1 away and leaves x2 + x3 >= 1. */
  lemma ExampleDivided()
    ensures DividedLine(EXAMPLE, 1, {1, -3}, true, true) == Line([0, 0, 1, 1], 1)
  {
    var c, trail := EXAMPLE, {1, -3};
    ExampleSlack(NotFalse(trail));
    assert TruncMod(3, 2) == 1 && TruncMod(2, 2) == 0;
    var mid := WeakenedCoefs(c.coefs, trail, 2, true, 0);
    assert mid == [0, 0, 2, 2];
    assert DropTo(c.coefs, mid, 1) == 0;
    assert DropTo(c.coefs, mid, 2) == 3;
    assert DropTo(c.coefs, mid, 3) == 3;
    assert DropTo(c.coefs, mid, 4) == 3;
    assert DividedCoefs(mid, 2) == [0, 0, 1, 1];
    assert SaturatedLine(Line([0, 0, 1, 1], 1)).coefs == [0, 0, 1, 1];
  }

  /** Conflict analysis after the decision not-x3: 3 x1 + 2 x2 + 2 x3 >= 4 has propagated x1 with slack 1, and
      not-x1 + x3 >= 1 is falsified.  With slackdiv and weakenFull on, the refined reason is x2 + x3 >= 1, and there is
      nothing to resolve on. */
  method PivotLost(confl: Expr, reason: Expr, options: Options) returns (resolved: bool)
    requires confl != reason && confl.Valid() && confl.coefs == [0, -1, 0, 1] && confl.degree == 1
    requires reason.Valid() && reason.coefs == [0, 3, 2, 2] && reason.degree == 4
    requires options.slackdiv && options.weakenFull && options.bitsOverflow != 1
    requires options.bitsOverflow > 0 ==> options.bitsOverflow >= options.bitsReduced > 0
    modifies confl, reason
    ensures !resolved && |reason.coefs| == 4 && LineOf(reason.coefs, reason.degree) == Line([0, 0, 1, 1], 1)
  {
    var trail := {1, -3};
    ghost var vars := reason.vars;
    assert LineOf(reason.coefs, reason.degree) == EXAMPLE;
    ExampleSlack(NotFalse(trail));
    ExampleConflict(NotFalse(trail));
    reason.InRange();
    ExampleBefore(vars, options);
    ExampleDivided();
    assert TruncMod(3, 2) == 1;
    resolved := confl.GenericResolve(reason, 1, trail, {}, options);
  }
}
