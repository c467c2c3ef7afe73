/** Rounding a pseudo-Boolean constraint coefficient by coefficient: mixed-integer rounding and division after
    complementing any set of variables (ConstrExp.cpp, applyMIR and applyDivCustomNormalization; the helpers are from
    auxmath.hpp). */
module Mir {
  import opened Arith
  import opened PBCore
  import opened ConstrExp

  // ----- auxmath.hpp, where / and % truncate towards zero -----

  function CeilDiv(p: int, q: int): int
    requires p >= 0 && q > 0
  {
    (p + q - 1) / q
  }

  function CeilDivSafe(p: int, q: int): int
    requires q > 0
  {
    if p < 0 then -((-p) / q) else CeilDiv(p, q)
  }

  function FloorDivSafe(p: int, q: int): int
    requires q > 0
  {
    if p < 0 then -CeilDiv(-p, q) else p / q
  }

  function ModSafe(p: int, q: int): int
    requires q > 0
  {
    var r := TruncMod(p, q);
    if r >= 0 then r else q + r
  }

  lemma CeilDivIsDivUp(p: int, q: int)
    requires p >= 0 && q > 0
    ensures CeilDiv(p, q) == DivUp(p, q)
  {
    var e := (p + q - 1) / q;
    assert p + q - 1 == e * q + (p + q - 1) % q;
    assert (e - 1) * q == e * q - q;
    DivUpUnique(p, q, e);
  }

  lemma FloorUnique(p: int, q: int, f: int, m: int)
    requires q > 0 && p == f * q + m && 0 <= m < q
    ensures f == p / q && m == p % q
  {
    var g := p / q;
    Distribute(q, f, g);
    assert q * f == f * q && q * g == g * q;
    MulLeq(1, f - g, q);
    MulLeq(f - g, -1, q);
    assert (f - g) * q == q * (f - g);
  }

  /** The truncating helpers compute floor, remainder and ceiling. */
  lemma SafeDivision(p: int, q: int)
    requires q > 0
    ensures CeilDivSafe(p, q) == DivUp(p, q)
    ensures FloorDivSafe(p, q) == p / q && ModSafe(p, q) == p % q
    ensures p == (p / q) * q + p % q && 0 <= p % q < q
    ensures DivUp(p, q) == if p % q == 0 then p / q else p / q + 1
  {
    if p >= 0 {
      CeilDivIsDivUp(p, q);
      QuotientRemainder(p, q);
    } else {
      var a := -p;
      CeilDivIsDivUp(a, q);
      QuotientRemainder(a, q);
      var c, f, m := DivUp(a, q), a / q, a % q;
      assert a == q * f + m && q * f == f * q && q * -f == -(q * f);
      assert (-f) * q == -(f * q) && (-f - 1) * q == -(f * q) - q && (-f + 1) * q == -(f * q) + q;
      DivUpUnique(p, q, -f);
      if m == 0 {
        FloorUnique(p, q, -f, 0);
      } else {
        FloorUnique(p, q, -f - 1, q - m);
      }
    }
  }

  // ----- rounding functions -----

  ghost predicate Subadditive(f: int -> int) {
    forall x, y :: f(x + y) <= f(x) + f(y)
  }

  ghost predicate Monotone(f: int -> int) {
    forall x, y :: x <= y ==> f(x) <= f(y)
  }

  /** Coefficients after rounding by f with the variables in flipped complemented. */
  ghost predicate RoundedBy(f: int -> int, coefs: seq<int>, coefs': seq<int>, flipped: set<int>) {
    && |coefs| == |coefs'|
    && forall v :: 1 <= v < |coefs| ==> coefs'[v] == if v in flipped then -f(-coefs[v]) else f(coefs[v])
  }

  ghost function FlippedTo(coefs: seq<int>, flipped: set<int>, n: nat): int
    requires n <= |coefs|
  {
    if n <= 1 then 0 else FlippedTo(coefs, flipped, n - 1) + if n - 1 in flipped then coefs[n - 1] else 0
  }

  /** The left-hand side over a, written with the complemented literals. */
  ghost function Shifted(coefs: seq<int>, flipped: set<int>, n: nat, a: Lits): int
    requires n <= |coefs|
  {
    WorthTo(coefs, n, a) + NegTo(coefs, n) - FlippedTo(coefs, flipped, n)
  }

  lemma {:induction false} RoundedShift(f: int -> int, coefs: seq<int>, coefs': seq<int>, flipped: set<int>, n: nat,
                                        a: Lits)
    requires n <= |coefs| && RoundedBy(f, coefs, coefs', flipped) && Total(a) && Subadditive(f) && f(0) == 0
    ensures f(Shifted(coefs, flipped, n, a)) <= Shifted(coefs', flipped, n, a)
  {
    if n > 1 {
      RoundedShift(f, coefs, coefs', flipped, n - 1, a);
      var v := n - 1;
      var x := Shifted(coefs, flipped, n, a) - Shifted(coefs, flipped, v, a);
      var y := Shifted(coefs', flipped, n, a) - Shifted(coefs', flipped, v, a);
      ShiftStep(coefs[v], v, flipped, a);
      ShiftStep(coefs'[v], v, flipped, a);
      assert f(Shifted(coefs, flipped, v, a) + x) <= f(Shifted(coefs, flipped, v, a)) + f(x);
    }
  }

  lemma ShiftStep(c: int, v: int, flipped: set<int>, a: Lits)
    requires v >= 1 && Total(a)
    ensures Contr(c, v, a) + Min(0, c) - (if v in flipped then c else 0)
         == if v in flipped then (if v in a then 0 else -c) else (if v in a then c else 0)
  {
  }

  /** Rounding with a monotone subadditive function is sound, whichever variables are complemented. */
  lemma RoundingSound(f: int -> int, coefs: seq<int>, degree: int, rhs: int, coefs': seq<int>, degree': int, rhs': int,
                      flipped: set<int>, a: Lits)
    requires RoundedBy(f, coefs, coefs', flipped) && Total(a) && Subadditive(f) && Monotone(f) && f(0) == 0
    requires Consistent(coefs, degree, rhs) && Consistent(coefs', degree', rhs')
    requires rhs' == f(rhs - FlippedTo(coefs, flipped, |coefs|)) + FlippedTo(coefs', flipped, |coefs|)
    ensures SlackOf(coefs, degree, a) >= 0 ==> SlackOf(coefs', degree', a) >= 0
  {
    RoundedShift(f, coefs, coefs', flipped, |coefs|, a);
  }

  // ----- mixed-integer rounding -----

  /** The coefficient function of applyMIR for divisor d and remainder r of the right-hand side. */
  function MirFunction(x: int, d: int, r: int): int
    requires d > 0
  {
    r * (x / d) + Min(x % d, r)
  }

  lemma MirSubadditive(x: int, y: int, d: int, r: int)
    requires 0 <= r < d
    ensures MirFunction(x + y, d, r) <= MirFunction(x, d, r) + MirFunction(y, d, r)
  {
    var q, s, p, t := x / d, x % d, y / d, y % d;
    assert (q + p) * d == q * d + p * d && (q + p + 1) * d == q * d + p * d + d;
    if s + t < d {
      FloorUnique(x + y, d, q + p, s + t);
    } else {
      FloorUnique(x + y, d, q + p + 1, s + t - d);
    }
    Distribute(r, q, p);
    Distribute(r, q + p, 1);
  }

  lemma MirMonotone(x: int, y: int, d: int, r: int)
    requires 0 <= r < d && x <= y
    ensures MirFunction(x, d, r) <= MirFunction(y, d, r)
  {
    var q, p := x / d, y / d;
    assert x == q * d + x % d && y == p * d + y % d;
    MulLeq(p + 1, q, d);
    assert (p + 1) * d == p * d + d;
    if q < p {
      MulLeq(q + 1, p, r);
      assert (q + 1) * r == r * q + r && p * r == r * p;
    } else {
      assert q == p;
    }
  }

  lemma MirRounds(d: int, r: int)
    requires 0 <= r < d
    ensures Subadditive((x: int) => MirFunction(x, d, r)) && Monotone((x: int) => MirFunction(x, d, r))
    ensures MirFunction(0, d, r) == 0
  {
    var f := (x: int) => MirFunction(x, d, r);
    forall x, y
      ensures f(x + y) <= f(x) + f(y)
    {
      MirSubadditive(x, y, d, r);
    }
    forall x, y | x <= y
      ensures f(x) <= f(y)
    {
      MirMonotone(x, y, d, r);
    }
    FloorUnique(0, d, 0, 0);
  }

  /** On the right-hand side itself the function gives r times the rounded-up quotient. */
  lemma MirAtRhs(b: int, d: int)
    requires d > 0
    ensures MirFunction(b, d, b % d) == (b % d) * DivUp(b, d)
  {
    SafeDivision(b, d);
    Distribute(b % d, b / d, 1);
  }

  lemma DivUpRounds(d: int)
    requires d > 0
    ensures Subadditive((x: int) => DivUp(x, d)) && Monotone((x: int) => DivUp(x, d)) && DivUp(0, d) == 0
  {
    var f := (x: int) => DivUp(x, d);
    forall x, y
      ensures f(x + y) <= f(x) + f(y)
    {
      DivUpMono(x + y, d * (DivUp(x, d) + DivUp(y, d)), d);
      Distribute(d, DivUp(x, d), DivUp(y, d));
      DivUpExact(DivUp(x, d) + DivUp(y, d), d);
    }
    forall x, y | x <= y
      ensures f(x) <= f(y)
    {
      DivUpMono(x, y, d);
    }
    DivUpExact(0, d);
  }

  /** The rounded constraint of applyMIR is implied by the old one. */
  lemma MirSound(coefs: seq<int>, degree: int, rhs: int, coefs': seq<int>, degree': int, rhs': int, d: int,
                 flipped: set<int>, a: Lits)
    requires d > 0 && Total(a) && Consistent(coefs, degree, rhs) && Consistent(coefs', degree', rhs')
    requires var b := rhs - FlippedTo(coefs, flipped, |coefs|);
             && RoundedBy((x: int) => MirFunction(x, d, b % d), coefs, coefs', flipped)
             && rhs' == (b % d) * DivUp(b, d) + FlippedTo(coefs', flipped, |coefs|)
    ensures SlackOf(coefs, degree, a) >= 0 ==> SlackOf(coefs', degree', a) >= 0
  {
    var b := rhs - FlippedTo(coefs, flipped, |coefs|);
    var f := (x: int) => MirFunction(x, d, b % d);
    MirRounds(d, b % d);
    MirAtRhs(b, d);
    RoundingSound(f, coefs, degree, rhs, coefs', degree', rhs', flipped, a);
  }

  lemma DivisionSound(coefs: seq<int>, degree: int, rhs: int, coefs': seq<int>, degree': int, rhs': int, d: int,
                      flipped: set<int>, a: Lits)
    requires d > 0 && Total(a) && Consistent(coefs, degree, rhs) && Consistent(coefs', degree', rhs')
    requires RoundedBy((x: int) => DivUp(x, d), coefs, coefs', flipped)
    requires rhs' == DivUp(rhs - FlippedTo(coefs, flipped, |coefs|), d) + FlippedTo(coefs', flipped, |coefs|)
    ensures SlackOf(coefs, degree, a) >= 0 ==> SlackOf(coefs', degree', a) >= 0
  {
    var f := (x: int) => DivUp(x, d);
    DivUpRounds(d);
    RoundingSound(f, coefs, degree, rhs, coefs', degree', rhs', flipped, a);
  }

  lemma MirBelow(x: int, d: int, r: int)
    requires 0 <= r < d
    ensures MirFunction(x, d, r) <= r * DivUp(x, d)
  {
    SafeDivision(x, d);
    Distribute(r, x / d, 1);
  }

  /** On every 0/1 point the left-hand side of mixed-integer rounding is at most r times that of division. */
  lemma {:induction false} MirBelowDivision(coefs: seq<int>, mir: seq<int>, divided: seq<int>, d: int, r: int,
                                            flipped: set<int>, n: nat, a: Lits)
    requires 0 <= r < d && n <= |coefs| && Total(a)
    requires RoundedBy((x: int) => MirFunction(x, d, r), coefs, mir, flipped)
    requires RoundedBy((x: int) => DivUp(x, d), coefs, divided, flipped)
    ensures Shifted(mir, flipped, n, a) <= r * Shifted(divided, flipped, n, a)
  {
    if n > 1 {
      MirBelowDivision(coefs, mir, divided, d, r, flipped, n - 1, a);
      var v := n - 1;
      ShiftStep(mir[v], v, flipped, a);
      ShiftStep(divided[v], v, flipped, a);
      MirBelow(coefs[v], d, r);
      MirBelow(-coefs[v], d, r);
      Distribute(r, Shifted(divided, flipped, v, a), Shifted(divided, flipped, n, a) - Shifted(divided, flipped, v, a));
    }
  }

  /** Unless d divides the right-hand side, every 0/1 point that satisfies the constraint applyMIR leaves satisfies the
      one that division with the same complemented variables leaves: the right-hand sides are r * ceil(b / d) and ceil(b
      / d). */
  lemma MirImpliesDivision(coefs: seq<int>, mir: seq<int>, divided: seq<int>, d: int, b: int, flipped: set<int>,
                           a: Lits)
    requires d > 0 && Total(a) && b % d != 0
    requires RoundedBy((x: int) => MirFunction(x, d, b % d), coefs, mir, flipped)
    requires RoundedBy((x: int) => DivUp(x, d), coefs, divided, flipped)
    ensures Shifted(mir, flipped, |coefs|, a) >= (b % d) * DivUp(b, d) ==>
              Shifted(divided, flipped, |coefs|, a) >= DivUp(b, d)
  {
    hide Shifted;
    MirBelowDivision(coefs, mir, divided, d, b % d, flipped, |coefs|, a);
    ScaledAtLeast(b % d, Shifted(divided, flipped, |coefs|, a), DivUp(b, d));
  }

  lemma ScaledAtLeast(r: int, w: int, c: int)
    requires r > 0
    ensures r * w >= r * c ==> w >= c
  {
    MulLeq(w, c - 1, r);
    Distribute(r, c, 1);
    assert w * r == r * w && (c - 1) * r == r * (c - 1);
  }

  lemma {:induction false} FlippedUpdate(coefs: seq<int>, flipped: set<int>, n: nat, v: nat, c: int)
    requires n <= |coefs| && v < |coefs|
    ensures FlippedTo(coefs[v := c], flipped, n)
         == FlippedTo(coefs, flipped, n) + (if 1 <= v < n && v in flipped then c - coefs[v] else 0)
  {
    if n > 1 {
      FlippedUpdate(coefs, flipped, n - 1, v, c);
    }
  }

  lemma {:induction false} FlippedNothing(coefs: seq<int>, flipped: set<int>, n: nat)
    requires n <= |coefs| && forall v :: 1 <= v < n ==> coefs[v] == 0
    ensures FlippedTo(coefs, flipped, n) == 0
  {
    if n > 1 {
      FlippedNothing(coefs, flipped, n - 1);
    }
  }
}
