/** Constraint expressions of RoundingSat (ConstrExp.hpp, ConstrExp.cpp) as values: a signed coefficient per variable
    and the degree.  The weight is taken over a set of literals: over a total assignment it evaluates the constraint,
    over the literals that are not false it gives the slack. */
module ConstrExp {
  import opened Arith
  import opened PBCore

  /** What variable v with signed coefficient c is worth when exactly the literals of L count. */
  ghost function Contr(c: int, v: int, L: Lits): int {
    if c > 0 then (if v in L then c else 0) else if -v in L then -c else 0
  }

  ghost function WorthTo(coefs: seq<int>, n: nat, L: Lits): int
    requires n <= |coefs|
  {
    if n <= 1 then 0 else WorthTo(coefs, n - 1, L) + Contr(coefs[n - 1], n - 1, L)
  }

  ghost function Worth(coefs: seq<int>, L: Lits): int {
    WorthTo(coefs, |coefs|, L)
  }

  ghost function SlackOf(coefs: seq<int>, degree: int, L: Lits): int {
    Worth(coefs, L) - degree
  }

  ghost function NegTo(coefs: seq<int>, n: nat): int
    requires n <= |coefs|
  {
    if n <= 1 then 0 else NegTo(coefs, n - 1) + Min(0, coefs[n - 1])
  }

  /** calcDegree and calcRhs: degree and rhs differ by the negative coefficients. */
  ghost predicate Consistent(coefs: seq<int>, degree: int, rhs: int) {
    degree == rhs - NegTo(coefs, |coefs|)
  }

  /** getCoef: the coefficient of a literal. */
  function CoefOf(coefs: seq<int>, l: int): int
    requires Var(l) < |coefs|
  {
    if l < 0 then -coefs[-l] else coefs[l]
  }

  // ----- one coefficient changes -----

  lemma {:induction false} PrefixUpdate(coefs: seq<int>, n: nat, v: nat, c: int, L: Lits)
    requires n <= |coefs| && v < |coefs|
    ensures WorthTo(coefs[v := c], n, L)
         == WorthTo(coefs, n, L) + (if 1 <= v < n then Contr(c, v, L) - Contr(coefs[v], v, L) else 0)
    ensures NegTo(coefs[v := c], n) == NegTo(coefs, n) + (if 1 <= v < n then Min(0, c) - Min(0, coefs[v]) else 0)
  {
    if n > 1 {
      PrefixUpdate(coefs, n - 1, v, c, L);
    }
  }

  lemma WorthUpdate(coefs: seq<int>, v: nat, c: int, L: Lits)
    requires 1 <= v < |coefs|
    ensures Worth(coefs[v := c], L) == Worth(coefs, L) + Contr(c, v, L) - Contr(coefs[v], v, L)
    ensures NegTo(coefs[v := c], |coefs|) == NegTo(coefs, |coefs|) + Min(0, c) - Min(0, coefs[v])
  {
    PrefixUpdate(coefs, |coefs|, v, c, L);
  }

  /** A literal that counts contributes its coefficient; nothing is negative. */
  lemma {:induction false} WorthAtLeast(coefs: seq<int>, n: nat, v: nat, L: Lits)
    requires n <= |coefs|
    ensures WorthTo(coefs, n, L) >= 0
    ensures 1 <= v < n ==> WorthTo(coefs, n, L) >= Contr(coefs[v], v, L)
  {
    if n > 1 {
      WorthAtLeast(coefs, n - 1, v, L);
    }
  }

  lemma {:induction false} AllZero(coefs: seq<int>, n: nat, L: Lits)
    requires n <= |coefs|
    requires forall v :: 1 <= v < n ==> coefs[v] == 0
    ensures WorthTo(coefs, n, L) == 0 && NegTo(coefs, n) == 0
  {
    if n > 1 {
      AllZero(coefs, n - 1, L);
    }
  }

  lemma {:induction false} NegAgree(a: seq<int>, b: seq<int>, n: nat)
    requires n <= |a| == |b| && forall v :: 1 <= v < n ==> a[v] == b[v]
    ensures NegTo(a, n) == NegTo(b, n)
  {
    if n > 1 {
      NegAgree(a, b, n - 1);
    }
  }

  // ----- what a step does to the constraint -----

  /** Level-0 literals: true in every assignment that matters. */
  ghost predicate Agrees(L: Lits, units: set<int>) {
    forall u :: u in units ==> u in L && -u !in L
  }

  /** Every 0/1 point with the given units that satisfies the first constraint satisfies the second. */
  ghost predicate Follows(coefs: seq<int>, degree: int, coefs': seq<int>, degree': int, units: set<int>) {
    forall a: Lits :: Total(a) && Agrees(a, units) && SlackOf(coefs, degree, a) >= 0 ==>
          SlackOf(coefs', degree', a) >= 0
  }

  /** If the first constraint is falsified when only L can still count, so is the second. */
  ghost predicate KeepsFalsified(coefs: seq<int>, degree: int, coefs': seq<int>, degree': int, L: Lits) {
    SlackOf(coefs, degree, L) < 0 ==> SlackOf(coefs', degree', L) < 0
  }

  /** l is not false and its coefficient exceeds the slack. */
  ghost predicate Propagates(coefs: seq<int>, degree: int, l: int, N: Lits) {
    && 1 <= Var(l) < |coefs| && l in N && CoefOf(coefs, l) > 0
    && SlackOf(coefs, degree, N) < CoefOf(coefs, l)
  }

  /** Propagating l means falsified as soon as l no longer counts. */
  lemma PropagatesFalsifiedWithout(coefs: seq<int>, degree: int, l: int, N: Lits)
    requires 1 <= Var(l) < |coefs| && l in N && CoefOf(coefs, l) > 0
    ensures Propagates(coefs, degree, l, N) <==> SlackOf(coefs, degree, N - iset{l}) < 0
  {
    var v, M := Var(l), N - iset{l};
    var without := coefs[v := 0];
    WorthUpdate(coefs, v, 0, N);
    WorthUpdate(coefs, v, 0, M);
    SameContributions(without, |coefs|, N, M);
  }

  lemma {:induction false} SameContributions(coefs: seq<int>, n: nat, L: Lits, M: Lits)
    requires n <= |coefs|
    requires forall v :: 1 <= v < n ==> Contr(coefs[v], v, L) == Contr(coefs[v], v, M)
    ensures WorthTo(coefs, n, L) == WorthTo(coefs, n, M)
  {
    if n > 1 {
      SameContributions(coefs, n - 1, L, M);
    }
  }

  // ----- weakening -----

  /** The coefficient moved towards zero. */
  predicate Shrunk(c: int, d: int) {
    0 <= d <= c || c <= d <= 0
  }

  ghost function DropTo(coefs: seq<int>, coefs': seq<int>, n: nat): int
    requires n <= |coefs| == |coefs'|
  {
    if n <= 1 then 0 else DropTo(coefs, coefs', n - 1) + Abs(coefs[n - 1]) - Abs(coefs'[n - 1])
  }

  ghost function Drop(coefs: seq<int>, coefs': seq<int>): int
    requires |coefs| == |coefs'|
  {
    DropTo(coefs, coefs', |coefs|)
  }

  lemma {:induction false} DropSame(coefs: seq<int>, n: nat)
    requires n <= |coefs|
    ensures DropTo(coefs, coefs, n) == 0
  {
    if n > 1 {
      DropSame(coefs, n - 1);
    }
  }

  lemma {:induction false} DropUpdateTo(coefs: seq<int>, coefs': seq<int>, n: nat, v: nat, c: int)
    requires n <= |coefs| == |coefs'| && v < |coefs|
    ensures DropTo(coefs, coefs'[v := c], n)
         == DropTo(coefs, coefs', n) + (if 1 <= v < n then Abs(coefs'[v]) - Abs(c) else 0)
  {
    if n > 1 {
      DropUpdateTo(coefs, coefs', n - 1, v, c);
    }
  }

  lemma {:induction false} DropNonNegative(coefs: seq<int>, coefs': seq<int>, n: nat)
    requires n <= |coefs| == |coefs'|
    requires forall v :: 1 <= v < n ==> Shrunk(coefs[v], coefs'[v])
    ensures DropTo(coefs, coefs', n) >= 0
  {
    if n > 1 {
      DropNonNegative(coefs, coefs', n - 1);
    }
  }

  /** Weakening lowers the weight by at most the drop in degree, and by exactly that where the weakened literals
      count. */
  lemma {:induction false} WeakenedWorth(coefs: seq<int>, coefs': seq<int>, n: nat, L: Lits)
    requires n <= |coefs| == |coefs'|
    requires forall v :: 1 <= v < n ==> Shrunk(coefs[v], coefs'[v])
    ensures WorthTo(coefs', n, L) >= WorthTo(coefs, n, L) - DropTo(coefs, coefs', n)
    ensures (forall v :: 1 <= v < n && coefs'[v] != coefs[v] ==> (if coefs[v] > 0 then v else -v) in L)
              ==> WorthTo(coefs', n, L) == WorthTo(coefs, n, L) - DropTo(coefs, coefs', n)
  {
    if n > 1 {
      WeakenedWorth(coefs, coefs', n - 1, L);
    }
  }

  // ----- division rounding away from zero -----

  /** divideRoundUp on one coefficient. */
  function RoundAway(c: int, d: int): int
    requires d > 0
  {
    if c >= 0 then DivUp(c, d) else -DivUp(-c, d)
  }

  /** C++ integer division truncates towards zero. */
  function TruncMod(c: int, d: int): int
    requires d > 0
  {
    c - d * TruncDiv(c, d)
  }

  lemma QuotientRemainder(a: nat, d: int)
    requires d > 0
    ensures a - d * (a / d) == a % d && 0 <= a % d < d && a % d <= a
    ensures a % d == 0 ==> DivUp(a, d) == a / d
    ensures a % d != 0 ==> DivUp(a, d) == a / d + 1
  {
    var q := a / d;
    assert d * q == q * d && (q + 1) * d == q * d + d;
    MulLeq(0, q, d);
    if a % d == 0 {
      DivUpUnique(a, d, q);
    } else {
      DivUpUnique(a, d, q + 1);
    }
  }

  lemma RoundAwayTrunc(c: int, d: int)
    requires d > 0
    ensures TruncMod(c, d) == 0 ==> RoundAway(c, d) == TruncDiv(c, d)
    ensures TruncMod(c, d) != 0 ==> RoundAway(c, d) == TruncDiv(c, d) + (if c > 0 then 1 else -1)
    ensures c >= 0 ==> 0 <= TruncMod(c, d) < d && TruncMod(c, d) <= c
    ensures c <= 0 ==> -d < TruncMod(c, d) <= 0 && c <= TruncMod(c, d)
    ensures c == d * TruncDiv(c, d) + TruncMod(c, d)
  {
    QuotientRemainder(Abs(c), d);
    assert d * -(Abs(c) / d) == -(d * (Abs(c) / d));
  }

  /** A coefficient without remainder is divided exactly; any other one is rounded away from zero. */
  lemma RoundAwayBounds(c: int, d: int)
    requires d > 0
    ensures Abs(d * RoundAway(c, d)) >= Abs(c)
    ensures TruncMod(c, d) == 0 ==> d * RoundAway(c, d) == c
    ensures (c > 0 <==> RoundAway(c, d) > 0) && (c < 0 <==> RoundAway(c, d) < 0)
  {
    var a := Abs(c);
    RoundAwayTrunc(c, d);
    assert RoundAway(c, d) == (if c >= 0 then DivUp(a, d) else -DivUp(a, d));
    assert d * -DivUp(a, d) == -(d * DivUp(a, d));
    if c != 0 {
      DivUpPositive(a, d);
    } else {
      DivUpExact(0, d);
    }
  }

  lemma DividedContr(c: int, v: int, d: int, L: Lits)
    requires d > 0
    ensures d * Contr(RoundAway(c, d), v, L) >= Contr(c, v, L)
    ensures TruncMod(c, d) == 0 || Contr(c, v, L) == 0 ==> d * Contr(RoundAway(c, d), v, L) == Contr(c, v, L)
  {
    RoundAwayBounds(c, d);
    assert d * -RoundAway(c, d) == -(d * RoundAway(c, d));
    assert d * 0 == 0;
  }

  lemma {:induction false} DividedWorth(coefs: seq<int>, coefs': seq<int>, n: nat, d: int, L: Lits)
    requires n <= |coefs| == |coefs'| && d > 0
    requires forall v :: 1 <= v < n ==> coefs'[v] == RoundAway(coefs[v], d)
    ensures d * WorthTo(coefs', n, L) >= WorthTo(coefs, n, L)
    ensures (forall v :: 1 <= v < n ==> TruncMod(coefs[v], d) == 0 || Contr(coefs[v], v, L) == 0)
              ==> d * WorthTo(coefs', n, L) == WorthTo(coefs, n, L)
  {
    if n > 1 {
      hide RoundAway, Contr, TruncMod;
      DividedWorth(coefs, coefs', n - 1, d, L);
      DividedContr(coefs[n - 1], n - 1, d, L);
      Distribute(d, WorthTo(coefs', n - 1, L), Contr(coefs'[n - 1], n - 1, L));
    }
  }

  /** The degree is rounded up too: a satisfied constraint stays satisfied, and the slack is divided where every literal
      that counts was divisible. */
  lemma DividedSlack(coefs: seq<int>, degree: int, coefs': seq<int>, d: int, L: Lits)
    requires |coefs| == |coefs'| && d > 0
    requires forall v :: 1 <= v < |coefs| ==> coefs'[v] == RoundAway(coefs[v], d)
    ensures SlackOf(coefs, degree, L) >= 0 ==> SlackOf(coefs', DivUp(degree, d), L) >= 0
    ensures (forall v :: 1 <= v < |coefs| ==> TruncMod(coefs[v], d) == 0 || Contr(coefs[v], v, L) == 0)
              ==> d * SlackOf(coefs', DivUp(degree, d), L) <= SlackOf(coefs, degree, L)
  {
    hide RoundAway, Contr, TruncMod, WorthTo;
    DividedWorth(coefs, coefs', |coefs|, d, L);
    var w, e := Worth(coefs', L), DivUp(degree, d);
    assert d * (w - e) == d * w - e * d;
    MulLeq(w, e - 1, d);
    assert w * d == d * w;
  }

  // ----- saturation -----

  function Capped(c: int, degree: int): int {
    if c > degree then degree else if c < -degree then -degree else c
  }

  lemma {:induction false} CappedWorth(coefs: seq<int>, coefs': seq<int>, n: nat, degree: int, L: Lits)
    requires n <= |coefs| == |coefs'| && degree > 0
    requires forall v :: 1 <= v < n ==> coefs'[v] == Capped(coefs[v], degree)
    ensures 0 <= WorthTo(coefs', n, L) <= WorthTo(coefs, n, L)
    ensures WorthTo(coefs', n, L) < degree ==> WorthTo(coefs', n, L) == WorthTo(coefs, n, L)
  {
    if n > 1 {
      CappedWorth(coefs, coefs', n - 1, degree, L);
    }
  }

  /** What saturate leaves: a constraint with degree at most 0 becomes the empty one. */
  ghost predicate SaturatedFrom(coefs: seq<int>, degree: int, coefs': seq<int>, degree': int) {
    && |coefs| == |coefs'|
    && degree' == Max(0, degree)
    && forall v :: 1 <= v < |coefs| ==> coefs'[v] == (if degree <= 0 then 0 else Capped(coefs[v], degree))
  }

  /** Saturation changes for no set of literals whether the constraint holds, and never raises the slack. */
  lemma SaturationExact(coefs: seq<int>, degree: int, coefs': seq<int>, degree': int, L: Lits)
    requires SaturatedFrom(coefs, degree, coefs', degree')
    ensures SlackOf(coefs', degree', L) >= 0 <==> SlackOf(coefs, degree, L) >= 0
    ensures SlackOf(coefs', degree', L) <= SlackOf(coefs, degree, L)
  {
    if degree <= 0 {
      AllZero(coefs', |coefs|, L);
      WorthAtLeast(coefs, |coefs|, 0, L);
    } else {
      CappedWorth(coefs, coefs', |coefs|, degree, L);
    }
  }

  // ----- addition -----

  /** What cancels when c and m are added. */
  function Cancel(c: int, m: int): int {
    if (c < 0) != (m < 0) then Min(Abs(c), Abs(m)) else 0
  }

  ghost function CancelTo(a: seq<int>, b: seq<int>, n: nat): int
    requires n <= |a| == |b|
  {
    if n <= 1 then 0 else CancelTo(a, b, n - 1) + Cancel(a[n - 1], b[n - 1])
  }

  lemma {:induction false} CancelUpdate(a: seq<int>, b: seq<int>, n: nat, v: nat, c: int)
    requires n <= |a| == |b| && v < |a|
    ensures CancelTo(a, b[v := c], n)
         == CancelTo(a, b, n) + (if 1 <= v < n then Cancel(a[v], c) - Cancel(a[v], b[v]) else 0)
  {
    if n > 1 {
      CancelUpdate(a, b, n - 1, v, c);
    }
  }

  lemma {:induction false} CancelNothing(a: seq<int>, b: seq<int>, n: nat)
    requires n <= |a| == |b| && forall v :: 1 <= v < n ==> b[v] == 0
    ensures CancelTo(a, b, n) == 0
  {
    if n > 1 {
      CancelNothing(a, b, n - 1);
    }
  }

  /** The slack of a sum is at most the sum of the slacks, with equality on total assignments. */
  lemma {:induction false} SumWorth(a: seq<int>, b: seq<int>, s: seq<int>, n: nat, L: Lits)
    requires n <= |a| == |b| == |s| && Covering(L)
    requires forall v :: 1 <= v < n ==> s[v] == a[v] + b[v]
    ensures WorthTo(s, n, L) + CancelTo(a, b, n) <= WorthTo(a, n, L) + WorthTo(b, n, L)
    ensures Total(L) ==> WorthTo(s, n, L) + CancelTo(a, b, n) == WorthTo(a, n, L) + WorthTo(b, n, L)
    ensures NegTo(s, n) == NegTo(a, n) + NegTo(b, n) + CancelTo(a, b, n)
  {
    if n > 1 {
      SumWorth(a, b, s, n - 1, L);
    }
  }

  lemma {:induction false} ScaledWorth(a: seq<int>, s: seq<int>, n: nat, k: int, L: Lits)
    requires n <= |a| == |s| && k >= 0
    requires forall v :: 1 <= v < n ==> s[v] == k * a[v]
    ensures WorthTo(s, n, L) == k * WorthTo(a, n, L)
    ensures NegTo(s, n) == k * NegTo(a, n)
  {
    if n > 1 {
      hide Contr, Min;
      ScaledWorth(a, s, n - 1, k, L);
      ScaledAt(a[n - 1], k, n - 1, L);
      Distribute(k, WorthTo(a, n - 1, L), Contr(a[n - 1], n - 1, L));
      Distribute(k, NegTo(a, n - 1), Min(0, a[n - 1]));
    }
  }

  lemma ScaledAt(c: int, k: int, v: int, L: Lits)
    requires k >= 0
    ensures Contr(k * c, v, L) == k * Contr(c, v, L) && Min(0, k * c) == k * Min(0, c)
  {
    MulLeq(0, c, k);
    MulLeq(c, 0, k);
    assert k * c == c * k && k * -c == -(c * k);
    if k == 0 {
    } else if c > 0 {
      MulLeq(1, c, k);
    }
  }

  /** k1 times the first constraint plus k2 times the second. */
  ghost predicate SumOf(k1: int, a: seq<int>, da: int, k2: int, b: seq<int>, db: int, s: seq<int>, ds: int) {
    && |a| == |b| == |s|
    && (forall v :: 1 <= v < |s| ==> s[v] == k1 * a[v] + k2 * b[v])
    && ds == k1 * da + k2 * db - CancelTo(Scale(k1, a), Scale(k2, b), |a|)
  }

  ghost function Scale(k: int, a: seq<int>): (s: seq<int>)
    ensures |s| == |a|
  {
    seq(|a|, i requires 0 <= i < |a| => k * a[i])
  }

  lemma SumSlack(k1: int, a: seq<int>, da: int, k2: int, b: seq<int>, db: int, s: seq<int>, ds: int, L: Lits)
    requires SumOf(k1, a, da, k2, b, db, s, ds) && k1 >= 0 && k2 >= 0 && Covering(L)
    ensures SlackOf(s, ds, L) <= k1 * SlackOf(a, da, L) + k2 * SlackOf(b, db, L)
    ensures Total(L) ==> SlackOf(s, ds, L) == k1 * SlackOf(a, da, L) + k2 * SlackOf(b, db, L)
  {
    var n, x, y := |a|, Scale(k1, a), Scale(k2, b);
    assert forall v :: 1 <= v < n ==> x[v] == k1 * a[v] && y[v] == k2 * b[v];
    hide Scale, Covering, Total, WorthTo, CancelTo, NegTo;
    ScaledWorth(a, x, n, k1, L);
    ScaledWorth(b, y, n, k2, L);
    SumWorth(x, y, s, n, L);
    Distribute(k1, Worth(a, L), da);
    Distribute(k2, Worth(b, L), db);
  }

  // ----- level-0 literals -----

  function WithoutUnits(coefs: seq<int>, units: set<int>): (r: seq<int>)
    ensures |r| == |coefs|
  {
    seq(|coefs|, v requires 0 <= v < |coefs| => if v in units || -v in units then 0 else coefs[v])
  }

  /** The coefficients of the unit literals that are true. */
  ghost function SatisfiedTo(coefs: seq<int>, units: set<int>, n: nat): int
    requires n <= |coefs|
  {
    if n <= 1 then 0
    else SatisfiedTo(coefs, units, n - 1) + SatisfiedAt(coefs[n - 1], n - 1, units)
  }

  function SatisfiedAt(c: int, v: int, units: set<int>): int {
    if v in units then Max(0, c) else if -v in units then Max(0, -c) else 0
  }

  /** Where the units are true, dropping them and lowering the degree by the satisfied ones changes no slack. */
  lemma {:induction false} UnitsWorth(coefs: seq<int>, units: set<int>, n: nat, L: Lits)
    requires n <= |coefs| && Agrees(L, units)
    ensures WorthTo(WithoutUnits(coefs, units), n, L) == WorthTo(coefs, n, L) - SatisfiedTo(coefs, units, n)
  {
    if n > 1 {
      UnitsWorth(coefs, units, n - 1, L);
      var v := n - 1;
      if -v in units {
        assert v == -(-v);
      }
    }
  }

  lemma {:induction false} SatisfiedUpdate(coefs: seq<int>, units: set<int>, n: nat, v: nat)
    requires n <= |coefs| && v < |coefs|
    ensures SatisfiedTo(coefs[v := 0], units, n)
         == SatisfiedTo(coefs, units, n) - (if 1 <= v < n then SatisfiedAt(coefs[v], v, units) else 0)
  {
    if n > 1 {
      SatisfiedUpdate(coefs, units, n - 1, v);
    }
  }

  lemma {:induction false} SatisfiedNothing(coefs: seq<int>, units: set<int>, n: nat)
    requires n <= |coefs|
    requires forall v :: 1 <= v < n ==> SatisfiedAt(coefs[v], v, units) == 0
    ensures SatisfiedTo(coefs, units, n) == 0
  {
    if n > 1 {
      SatisfiedNothing(coefs, units, n - 1);
    }
  }

  // ----- negation -----

  predicate IsPositive(l: int) {
    l > 0
  }

  /** The assignment that makes every variable true. */
  ghost function AllTrue(): (a: Lits)
    ensures Total(a)
  {
    iset l: int | IsPositive(l)
  }

  /** The sum of all coefficients without their signs. */
  ghost function NormTo(coefs: seq<int>, n: nat): int
    requires n <= |coefs|
  {
    if n <= 1 then 0 else NormTo(coefs, n - 1) + Abs(coefs[n - 1])
  }

  lemma {:induction false} NegatedWorth(coefs: seq<int>, coefs': seq<int>, n: nat, a: Lits)
    requires n <= |coefs| == |coefs'| && Total(a) && forall v :: 1 <= v < n ==> coefs'[v] == -coefs[v]
    ensures WorthTo(coefs', n, a) + WorthTo(coefs, n, a) == NormTo(coefs, n) == NormTo(coefs', n)
    ensures NegTo(coefs', n) + NegTo(coefs, n) == -NormTo(coefs, n)
  {
    if n > 1 {
      NegatedWorth(coefs, coefs', n - 1, a);
    }
  }

  /** Adding a constraint whose coefficients only cancel part of the other's. */
  lemma {:induction false} CancelAll(a: seq<int>, b: seq<int>, n: nat)
    requires n <= |a| == |b|
    requires forall v :: 1 <= v < n ==> Abs(b[v]) <= Abs(a[v]) && (b[v] > 0 ==> a[v] < 0) && (b[v] < 0 ==> a[v] > 0)
    ensures CancelTo(a, b, n) == NormTo(b, n)
  {
    if n > 1 {
      CancelAll(a, b, n - 1);
    }
  }

  lemma {:induction false} ScaledNorm(a: seq<int>, s: seq<int>, n: nat, k: int)
    requires n <= |a| == |s| && k >= 0 && forall v :: 1 <= v < n ==> s[v] == k * a[v]
    ensures NormTo(s, n) == k * NormTo(a, n)
  {
    if n > 1 {
      ScaledNorm(a, s, n - 1, k);
      ScaledAbs(k, a[n - 1]);
      hide Abs;
      Distribute(k, NormTo(a, n - 1), Abs(a[n - 1]));
    }
  }

  lemma ScaledAbs(k: int, c: int)
    requires k >= 0
    ensures Abs(k * c) == k * Abs(c)
  {
    MulLeq(0, c, k);
    MulLeq(c, 0, k);
    assert k * c == c * k && k * -c == -(c * k);
  }
}
