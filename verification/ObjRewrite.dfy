/** The rewriting of the objective by a core (objrewrite.cpp): ObjRewrite, LazyVar and EagerVar as objects. */
module ObjRewrite {
  import opened Arith
  import opened PBCore
  import opened ConstrExp
  import opened Cardinality
  import opened CuttingPlanes
  import opened CoreRewriting

  /** A cardinality constraint: at least degree of its literals. */
  ghost predicate IsCore(core: Expr)
    reads core
  {
    && core.Valid()
    && (forall v :: 1 <= v < |core.coefs| ==> -1 <= core.coefs[v] <= 1)
    && forall i :: 0 <= i < |core.vars| ==> core.coefs[core.vars[i]] != 0
  }

  /** The core's terms in literal normal form, and their size. */
  lemma CoreTerms(core: Expr)
    requires IsCore(core)
    ensures CoreOk(core.Terms())
    ensures forall a: Lits :: Size(core.Terms(), a) == Worth(core.coefs, a)
  {
    forall a: Lits
      ensures Size(core.Terms(), a) == Worth(core.coefs, a)
    {
      ListedWorth(core.vars, core.coefs, a);
    }
  }

  /** How addVar turns the constraints of the last variable into those of the next one. */
  lemma NextReified(core: seq<Term>, k: int, u: int, ys: seq<int>, v: int)
    requires |ys| > 0
    ensures var c, m := AtLeastReified(core, k, ys), |core|;
            |c.lhs| == m + 1
            && AtLeastReified(core, k, ys + [v]) == c.(lhs := c.lhs[m := Term(c.lhs[m].coef - 1, v)])
    ensures var c, m := AtMostReified(core, k, u, ys), |core|;
            |c.lhs| == m + 1
            && AtMostReified(core, k, u, ys + [v]) == PB(c.lhs[m := Term(u - k - |ys|, v)], c.rhs - 1)
  {
  }

  lemma NextSum(core: seq<Term>, k: int, u: int, ys: seq<int>, v: int)
    requires |ys| > 0
    ensures var c := AtLeastSum(core, k, ys); AtLeastSum(core, k, ys + [v]) == c.(lhs := c.lhs + [Term(-1, v)])
    ensures var c, m := AtMostSum(core, k, u, ys), |core| + |ys| - 1;
            |c.lhs| == m + 1
            && AtMostSum(core, k, u, ys + [v]) == c.(lhs := c.lhs[m := Term(1, c.lhs[m].lit)] + [Term(u - k - |ys|, v)])
  {
    assert Times(-1, ys + [v]) == Times(-1, ys) + [Term(-1, v)];
    assert (ys + [v])[..|ys|] == ys;
    assert Times(1, ys) == Times(1, ys[..|ys| - 1]) + [Term(1, ys[|ys| - 1])];
  }

  /** One core that is not yet fully expanded. */
  class LazyVar {
    const core: seq<Term>
    const k: int
    const upperBound: int
    const reified: bool
    var coveredVars: int
    var currentVar: int
    var lastVar: int
    var atLeast: PB
    var atMost: PB
    /** What addAtLeast, addAtMost and addSymBreaking have put into the solver and nothing drops any more. */
    var kept: seq<PB>
    ghost var ys: seq<int>

    ghost predicate Valid()
      reads this
    {
      && |ys| > 0 && CoreOk(core) && Fresh(core, ys)
      && coveredVars == k + |ys| && currentVar == ys[|ys| - 1]
      && atLeast == AtLeast(reified, core, k, ys) && atMost == AtMost(reified, core, k, upperBound, ys)
      && kept == Kept(reified, core, k, upperBound, ys)
    }

    constructor (terms: seq<Term>, degree: int, u: int, r: bool, startVar: int)
      requires CoreOk(terms) && Fresh(terms, [startVar])
      ensures Valid() && ys == [startVar] && core == terms && k == degree && upperBound == u && reified == r
    {
      core, k, upperBound, reified, ys := terms, degree, u, r, [startVar];
      coveredVars := degree + 1;
      currentVar, lastVar, kept := startVar, 0, [];
      atLeast := PB(terms + [Term(-1, startVar)], degree);
      atMost := PB(Negated(terms) + [Term(u - degree, startVar)], -degree);
      new;
      assert Times(-1, [startVar]) == [Term(-1, startVar)];
      assert Negated(terms) + Times(1, [startVar][..0]) + [Term(u - degree, startVar)]
          == Negated(terms) + [Term(u - degree, startVar)];
    }

    function RemainingVars(): int
      reads this
    {
      upperBound - coveredVars
    }

    /** addVar: edits the terms of both constraints in place. */
    method AddVar(v: int)
      requires Valid() && Fresh(core, ys + [v])
      modifies this`currentVar, this`coveredVars, this`atLeast, this`atMost, this`ys
      ensures ys == old(ys) + [v] && currentVar == v && coveredVars == old(coveredVars) + 1
      ensures atLeast == AtLeast(reified, core, k, ys) && atMost == AtMost(reified, core, k, upperBound, ys)
    {
      hide AtLeastSum, AtMostSum, AtLeastReified, AtMostReified, Fresh, CoreOk, Kept;
      currentVar := v;
      if reified {
        EditReified(v);
      } else {
        EditSum(v);
      }
      coveredVars := coveredVars + 1;
      ys := ys + [v];
    }

    method EditReified(v: int)
      requires |ys| > 0 && coveredVars == k + |ys| && reified
      requires atLeast == AtLeast(reified, core, k, ys) && atMost == AtMost(reified, core, k, upperBound, ys)
      modifies this`atLeast, this`atMost
      ensures atLeast == AtLeast(reified, core, k, ys + [v]) && atMost == AtMost(reified, core, k, upperBound, ys + [v])
    {
      NextReified(core, k, upperBound, ys, v);
      var m, n := |atLeast.lhs| - 1, |atMost.lhs| - 1;
      atLeast := atLeast.(lhs := atLeast.lhs[m := Term(atLeast.lhs[m].coef - 1, v)]);
      atMost := PB(atMost.lhs[n := Term(RemainingVars(), v)], atMost.rhs - 1);
    }

    method EditSum(v: int)
      requires |ys| > 0 && coveredVars == k + |ys| && !reified
      requires atLeast == AtLeast(reified, core, k, ys) && atMost == AtMost(reified, core, k, upperBound, ys)
      modifies this`atLeast, this`atMost
      ensures atLeast == AtLeast(reified, core, k, ys + [v]) && atMost == AtMost(reified, core, k, upperBound, ys + [v])
    {
      NextSum(core, k, upperBound, ys, v);
      var n := |atMost.lhs| - 1;
      atLeast := atLeast.(lhs := atLeast.lhs + [Term(-1, v)]);
      atMost := atMost.(lhs := atMost.lhs[n := Term(1, atMost.lhs[n].lit)] + [Term(RemainingVars(), v)]);
    }

    /** expand: one more variable, its constraints, and its place in the objective.  The sum encoding replaces the two
        latest constraints, the reified one keeps them. */
    method Expand(v: int, reformObj: Expr, cost: int)
      requires Valid() && Fresh(core, ys + [v]) && reformObj.Valid() && v < |reformObj.coefs|
      modifies this, reformObj
      ensures Valid() && ys == old(ys) + [v] && reformObj.Valid() && |reformObj.coefs| == old(|reformObj.coefs|)
      ensures forall a: Lits :: Total(a) ==> reformObj.Slack(a) == old(reformObj.Slack(a)) + if v in a then cost else 0
    {
      AddConstraints(v);
      hide *;
      reformObj.AddLhs(cost, v);
    }

    /** The part of expand that concerns this core: addVar, addAtMost, addAtLeast and addSymBreaking. */
    method AddConstraints(v: int)
      requires Valid() && Fresh(core, ys + [v])
      modifies this
      ensures Valid() && ys == old(ys) + [v]
    {
      hide Kept, AtMost, AtLeast, Order, CoreOk, Fresh;
      lastVar := currentVar;
      var before := [atMost, atLeast];
      AddVar(v);
      KeptNext(reified, core, k, upperBound, old(ys), v);
      if reified {
        kept := kept + before;
      }
      kept := kept + [Order(lastVar, currentVar)];
    }
  }

  lemma KeptNext(reified: bool, core: seq<Term>, k: int, u: int, ys: seq<int>, y: int)
    requires |ys| > 0
    ensures Kept(reified, core, k, u, ys + [y])
         == Kept(reified, core, k, u, ys)
            + (if reified then [AtMost(reified, core, k, u, ys), AtLeast(reified, core, k, ys)] else [])
            + [Order(ys[|ys| - 1], y)]
  {
    assert (ys + [y])[..|ys|] == ys;
  }

  // ----- the objective -----

  /** Turning cost * X into cost * k in the objective: adding cost times the inverted core. */
  lemma CoreTraded(obj: seq<int>, degree: int, core: seq<int>, k: int, inverted: seq<int>, obj': seq<int>, degree': int,
                   cost: int, a: Lits)
    requires |obj| == |core| == |inverted| && cost >= 1 && Total(a)
    requires forall v :: 1 <= v < |core| ==> inverted[v] == -core[v]
    requires SumOf(1, obj, degree, cost, inverted, NormTo(core, |core|) - k, obj', degree')
    ensures SlackOf(obj', degree', a) == SlackOf(obj, degree, a) - cost * (Worth(core, a) - k)
  {
    NegatedWorth(core, inverted, |core|, a);
    TotalIsCovering(a);
    hide SumOf, WorthTo, NormTo;
    SumSlack(1, obj, degree, cost, inverted, NormTo(core, |core|) - k, obj', degree', a);
    assert cost * -(Worth(core, a) - k) == -(cost * (Worth(core, a) - k));
  }

  /** When every core literal has at least this cost, the lower bound (minus the degree) rises by exactly cost * k. */
  lemma BoundRises(obj: seq<int>, degree: int, core: seq<int>, k: int, inverted: seq<int>, obj': seq<int>, degree': int,
                   cost: int)
    requires |obj| == |core| == |inverted| && cost >= 1
    requires forall v :: 1 <= v < |core| ==> inverted[v] == -core[v]
    requires forall v :: 1 <= v < |core| ==> CostsAtLeast(obj[v], core[v], cost)
    requires SumOf(1, obj, degree, cost, inverted, NormTo(core, |core|) - k, obj', degree')
    ensures degree' == degree - cost * k
  {
    var n, x, y := |obj|, Scale(1, obj), Scale(cost, inverted);
    forall v | 1 <= v < n
      ensures Abs(y[v]) <= Abs(x[v]) && (y[v] > 0 ==> x[v] < 0) && (y[v] < 0 ==> x[v] > 0)
    {
      assert x[v] == obj[v] && y[v] == cost * inverted[v];
      if core[v] == 0 {
      } else if core[v] > 0 {
        assert y[v] == -cost;
      } else {
        assert y[v] == cost;
      }
    }
    CancelAll(x, y, n);
    ScaledNorm(inverted, y, n, cost);
    NegatedWorth(core, inverted, n, AllTrue());
    Distribute(cost, NormTo(core, n), k);
  }

  /** The objective contains this literal of the core, with at least the given cost. */
  predicate CostsAtLeast(c: int, coreCoef: int, cost: int) {
    && -1 <= coreCoef <= 1
    && (coreCoef > 0 ==> c >= cost) && (coreCoef < 0 ==> c <= -cost)
  }

  /** minCoeff: the smallest objective coefficient of a core variable. */
  method MinCoeff(obj: Expr, core: Expr) returns (mult: int)
    requires obj.Valid() && core.Valid() && |core.coefs| == |obj.coefs| && |core.vars| > 0
    requires forall i :: 0 <= i < |core.vars| ==> obj.coefs[core.vars[i]] != 0
    ensures mult > 0 && forall i :: 0 <= i < |core.vars| ==> mult <= Abs(obj.coefs[core.vars[i]])
    ensures mult == 1 || exists i :: 0 <= i < |core.vars| && mult == Abs(obj.coefs[core.vars[i]])
  {
    mult := 0;
    var i := 0;
    while i < |core.vars| && mult != 1
      invariant 0 <= i <= |core.vars| && (mult > 0 <==> i > 0) && mult >= 0
      invariant forall j :: 0 <= j < i ==> mult <= Abs(obj.coefs[core.vars[j]])
      invariant i > 0 ==> exists j :: 0 <= j < i && mult == Abs(obj.coefs[core.vars[j]])
    {
      var c := Abs(obj.coefs[core.vars[i]]);
      mult := if mult == 0 then c else Min(mult, c);
      i := i + 1;
    }
  }

  /** Every core literal costs at least cost: the objective is at least cost times the size of the core. */
  lemma {:induction false} ObjectiveAtLeast(obj: seq<int>, core: seq<int>, n: nat, cost: int, a: Lits)
    requires n <= |obj| == |core| && cost >= 1
    requires forall v :: 1 <= v < n ==> CostsAtLeast(obj[v], core[v], cost)
    ensures WorthTo(obj, n, a) >= cost * WorthTo(core, n, a)
  {
    if n > 1 {
      ObjectiveAtLeast(obj, core, n - 1, cost, a);
      CostAt(obj[n - 1], core[n - 1], cost, n - 1, a);
      Distribute(cost, WorthTo(core, n - 1, a), Contr(core[n - 1], n - 1, a));
    }
  }

  lemma CostAt(c: int, x: int, cost: int, v: int, a: Lits)
    requires cost >= 1 && CostsAtLeast(c, x, cost)
    ensures Contr(c, v, a) >= cost * Contr(x, v, a)
  {
  }

  /** The bound on the core's size that rewrite derives from the best known objective value. */
  function CoreUpperBound(size: int, upperBound: int, lowerBound: int, cost: int): int
    requires cost > 0
  {
    Min(size, TruncDiv(upperBound - lowerBound, cost))
  }

  /** No assignment that reaches the best known value makes more core literals true. */
  lemma UpperBoundHolds(obj: seq<int>, degree: int, core: seq<int>, size: int, upperBound: int, cost: int, a: Lits)
    requires |obj| == |core| && cost >= 1 && Worth(core, a) <= size
    requires forall v :: 1 <= v < |obj| ==> CostsAtLeast(obj[v], core[v], cost)
    requires SlackOf(obj, degree, a) <= upperBound
    ensures Worth(core, a) <= CoreUpperBound(size, upperBound, -degree, cost)
  {
    ObjectiveAtLeast(obj, core, |obj|, cost, a);
    WorthAtLeast(core, |core|, 0, a);
    var x, d := Worth(core, a), upperBound + degree;
    AtMostQuotient(x, d, cost);
  }

  lemma AtMostQuotient(x: int, d: int, cost: int)
    requires cost >= 1 && x >= 0 && cost * x <= d
    ensures x <= TruncDiv(d, cost)
  {
    MulLeq(0, x, cost);
    assert x * cost == cost * x;
    QuotientRemainder(d, cost);
    var q := d / cost;
    MulLeq(q + 1, x, cost);
    assert (q + 1) * cost == q * cost + cost && cost * q == q * cost;
  }

  /** In the objective cost * X became cost * k, plus cost for the new variable y when there is one. */
  ghost predicate Traded(obj: seq<int>, degree: int, core: seq<int>, k: int, cost: int, y: int, obj': seq<int>,
                         degree': int) {
    forall a: Lits :: Total(a) ==> SlackOf(obj', degree', a)
                                   == SlackOf(obj, degree, a) - cost * (Worth(core, a) - k) + if y != 0 && y in a
                                       then cost else 0
  }

  lemma AllTraded(obj: seq<int>, degree: int, core: seq<int>, k: int, inverted: seq<int>, obj': seq<int>, degree': int,
                  cost: int)
    requires |obj| == |core| == |inverted| && cost >= 1
    requires forall v :: 1 <= v < |core| ==> inverted[v] == -core[v]
    requires SumOf(1, obj, degree, cost, inverted, NormTo(core, |core|) - k, obj', degree')
    ensures Traded(obj, degree, core, k, cost, 0, obj', degree')
    ensures forall v :: 1 <= v < |core| && core[v] == 0 ==> obj'[v] == obj[v]
  {
    hide SlackOf, Worth;
    forall a: Lits | Total(a)
      ensures SlackOf(obj', degree', a) == SlackOf(obj, degree, a) - cost * (Worth(core, a) - k)
    {
      CoreTraded(obj, degree, core, k, inverted, obj', degree', cost, a);
    }
  }

  lemma TradedThenAdded(obj: seq<int>, degree: int, core: seq<int>, k: int, cost: int, y: int, mid: seq<int>, dm: int,
                        obj': seq<int>, degree': int)
    requires Traded(obj, degree, core, k, cost, 0, mid, dm) && y != 0
    requires forall a: Lits :: Total(a) ==> SlackOf(obj', degree', a) == SlackOf(mid, dm, a) + if y in a then cost
             else 0
    ensures Traded(obj, degree, core, k, cost, y, obj', degree')
  {
    hide SlackOf, Worth;
  }

  lemma FreshFor(core: Expr, v: int)
    requires IsCore(core) && 1 <= v < |core.coefs| && core.coefs[v] == 0
    ensures Fresh(core.Terms(), [v])
  {
  }

  /** invert, addUp and invert again: cost times the core moves from the objective's terms to its bound. */
  method TradeCore(reformObj: Expr, cardCore: Expr, cost: int)
    requires reformObj != cardCore && IsCore(cardCore) && reformObj.Valid() && |reformObj.coefs| == |cardCore.coefs|
    requires cost >= 1
    requires forall v :: 1 <= v < |cardCore.coefs| ==> CostsAtLeast(reformObj.coefs[v], cardCore.coefs[v], cost)
    modifies reformObj, cardCore
    ensures reformObj.Valid() && cardCore.Valid() && |reformObj.coefs| == old(|reformObj.coefs|)
    ensures cardCore.degree == old(cardCore.degree)
    ensures forall v :: 1 <= v < |reformObj.coefs| && old(cardCore.coefs)[v] == 0 ==>
              reformObj.coefs[v] == old(reformObj.coefs)[v]
    ensures Traded(old(reformObj.coefs), old(reformObj.degree), old(cardCore.coefs), old(cardCore.degree), cost, 0,
                   reformObj.coefs, reformObj.degree)
    ensures reformObj.degree == old(reformObj.degree) - cost * old(cardCore.degree)
  {
    ghost var obj, d, core, k := reformObj.coefs, reformObj.degree, cardCore.coefs, cardCore.degree;
    cardCore.Invert();
    ghost var inverted := cardCore.coefs;
    hide ShapeOf, Consistent, NormTo, CancelTo, Scale, WorthTo, Traded;
    reformObj.AddUp(cardCore, cost, 1);
    BoundRises(obj, d, core, k, inverted, reformObj.coefs, reformObj.degree, cost);
    AllTraded(obj, d, core, k, inverted, reformObj.coefs, reformObj.degree, cost);
    NegatedWorth(core, inverted, |core|, AllTrue());
    cardCore.Invert();
  }

  /** rewriteLazy: the core leaves the objective, the first new variable enters it. */
  method RewriteLazy(reformObj: Expr, cardCore: Expr, cost: int, upperBound: int, reified: bool, newN: int)
    returns (lv: LazyVar)
    requires reformObj != cardCore && IsCore(cardCore) && reformObj.Valid() && |reformObj.coefs| == |cardCore.coefs|
    requires cost >= 1 && 1 <= newN < |cardCore.coefs| && cardCore.coefs[newN] == 0 && reformObj.coefs[newN] == 0
    requires forall v :: 1 <= v < |cardCore.coefs| ==> CostsAtLeast(reformObj.coefs[v], cardCore.coefs[v], cost)
    modifies reformObj, cardCore
    ensures lv.Valid() && lv.ys == [newN] && lv.core == old(cardCore.Terms()) && lv.k == old(cardCore.degree)
    ensures reformObj.Valid() && cardCore.Valid() && cardCore.degree == old(cardCore.degree)
    ensures Traded(old(reformObj.coefs), old(reformObj.degree), old(cardCore.coefs), lv.k, cost, newN,
                   reformObj.coefs, reformObj.degree)
    ensures forall a: Lits :: Size(lv.core, a) == Worth(old(cardCore.coefs), a)
    ensures reformObj.degree == old(reformObj.degree) - cost * lv.k
  {
    CoreTerms(cardCore);
    FreshFor(cardCore, newN);
    lv := new LazyVar(TermsOf(cardCore.vars, cardCore.coefs), cardCore.degree, upperBound, reified, newN);
    hide Worth, Size, Traded, CostsAtLeast, ShapeOf, Consistent, SlackOf, Fresh, CoreOk;
    TradeCore(reformObj, cardCore, cost);
    ghost var mid, dm := reformObj.coefs, reformObj.degree;
    reformObj.AddLhs(cost, newN);
    TradedThenAdded(old(reformObj.coefs), old(reformObj.degree), old(cardCore.coefs), lv.k, cost, newN, mid, dm,
                    reformObj.coefs, reformObj.degree);
  }

  // ----- all new variables at once -----

  /** oldN + 1, ..., oldN + m */
  function Iota(oldN: nat, m: nat): (ys: seq<int>)
    ensures |ys| == m && forall j :: 0 <= j < m ==> ys[j] == oldN + 1 + j
  {
    seq(m, j => oldN + 1 + j)
  }

  /** What EagerVar leaves: X <= k + y1 + ... + ym and X >= k + y1 + ... + ym. */
  datatype Row = Row(coefs: seq<int>, degree: int)

  ghost predicate Encodes(core: seq<int>, k: int, ys: seq<int>, atMost: Row, atLeast: Row) {
    forall a: Lits :: Total(a) ==>
      && SlackOf(atMost.coefs, atMost.degree, a) == k + Ones(ys, a) - Worth(core, a)
      && SlackOf(atLeast.coefs, atLeast.degree, a) == Worth(core, a) - k - Ones(ys, a)
  }

  /** Together they say X = k + y1 + ... + ym, so the rewritten objective is the old one. */
  lemma EagerExact(core: seq<int>, k: int, ys: seq<int>, atMost: Row, atLeast: Row, a: Lits)
    requires Encodes(core, k, ys, atMost, atLeast) && Total(a)
    ensures SlackOf(atMost.coefs, atMost.degree, a) >= 0 && SlackOf(atLeast.coefs, atLeast.degree, a) >= 0
        <==> Worth(core, a) == k + Ones(ys, a)
  {
  }

  /** And every assignment within the bounds of the core extends, with the new variables in order. */
  lemma EagerConservative(terms: seq<Term>, core: seq<int>, k: int, u: int, ys: seq<int>, atMost: Row, atLeast: Row,
                          a: Lits)
    requires CoreOk(terms) && Fresh(terms, ys) && (forall b: Lits :: Size(terms, b) == Worth(core, b))
    requires Encodes(core, k, ys, atMost, atLeast) && Total(a) && k <= Size(terms, a) <= u == k + |ys|
    ensures var b := Extended(terms, k, ys, a);
            && Total(b) && SlackOf(atMost.coefs, atMost.degree, b) >= 0
                 && SlackOf(atLeast.coefs, atLeast.degree, b) >= 0
            && Sorted(ys, b) && forall l :: !NewLit(l, ys) ==> (l in b <==> l in a)
  {
    var b := Extended(terms, k, ys, a);
    ExtensionCounts(terms, k, ys, a);
    CountsOnes(terms, k, ys, b);
    EagerExact(core, k, ys, atMost, atLeast, b);
  }

  /** The loop of EagerVar::rewrite that adds the new variables to the core with coefficient -1. */
  method AddNewVars(cardCore: Expr, ys: seq<int>)
    requires cardCore.Valid() && forall j :: 0 <= j < |ys| ==> 1 <= ys[j] < |cardCore.coefs|
    modifies cardCore
    ensures cardCore.Valid() && |cardCore.coefs| == old(|cardCore.coefs|)
    ensures forall a: Lits :: Total(a) ==> cardCore.Slack(a) == old(cardCore.Slack(a)) - Ones(ys, a)
  {
    hide ShapeOf, Consistent, SlackOf;
    var i := 0;
    while i < |ys|
      invariant 0 <= i <= |ys| && cardCore.Valid() && |cardCore.coefs| == old(|cardCore.coefs|)
      invariant forall a: Lits :: Total(a) ==> cardCore.Slack(a) == old(cardCore.Slack(a)) - Ones(ys[..i], a)
    {
      assert ys[..i + 1][..i] == ys[..i];
      cardCore.AddLhs(-1, ys[i]);
      forall a: Lits
        ensures Ones(ys[..i + 1], a) == Ones(ys[..i], a) + if ys[i] in a then 1 else 0
      {
        OnesSnoc(ys[..i + 1], a);
      }
      i := i + 1;
    }
    assert ys[..i] == ys;
  }

  lemma InvertedSlack(coefs: seq<int>, degree: int, coefs': seq<int>, a: Lits)
    requires |coefs| == |coefs'| && Total(a) && forall v :: 1 <= v < |coefs| ==> coefs'[v] == -coefs[v]
    ensures SlackOf(coefs', NormTo(coefs, |coefs|) - degree, a) == -SlackOf(coefs, degree, a)
  {
    NegatedWorth(coefs, coefs', |coefs|, a);
  }

  /** invert, seen on total assignments. */
  method InvertRow(e: Expr) returns (row: Row)
    requires e.Valid()
    modifies e
    ensures e.Valid() && |e.coefs| == old(|e.coefs|) && row == Row(e.coefs, e.degree)
    ensures forall a: Lits :: Total(a) ==> SlackOf(row.coefs, row.degree, a) == -old(e.Slack(a))
  {
    hide ShapeOf, Consistent;
    e.Invert();
    row := Row(e.coefs, e.degree);
    forall a: Lits | Total(a)
      ensures SlackOf(row.coefs, row.degree, a) == -old(e.Slack(a))
    {
      InvertedSlack(old(e.coefs), old(e.degree), e.coefs, a);
    }
  }

  /** The two constraints: the core with the new variables, inverted and inverted back. */
  method BuildRows(cardCore: Expr, newVars: seq<int>) returns (atMost: Row, atLeast: Row)
    requires cardCore.Valid() && forall j :: 0 <= j < |newVars| ==> 1 <= newVars[j] < |cardCore.coefs|
    modifies cardCore
    ensures cardCore.Valid() && |cardCore.coefs| == old(|cardCore.coefs|)
    ensures Encodes(old(cardCore.coefs), old(cardCore.degree), newVars, atMost, atLeast)
    ensures forall a: Lits :: Total(a) ==> cardCore.Slack(a) == SlackOf(atMost.coefs, atMost.degree, a)
  {
    AddNewVars(cardCore, newVars);
    hide ShapeOf, Consistent, Worth;
    atMost := InvertRow(cardCore);
    atLeast := InvertRow(cardCore);
    var last := InvertRow(cardCore);
  }

  /** reformObj->addUp(cardCore, cost). */
  method AddTimes(reformObj: Expr, c: Expr, cost: int)
    requires reformObj != c && c.Valid() && reformObj.Valid() && |reformObj.coefs| == |c.coefs| && cost >= 1
    modifies reformObj
    ensures reformObj.Valid()
    ensures forall a: Lits :: Total(a) ==> reformObj.Slack(a) == old(reformObj.Slack(a)) + cost * c.Slack(a)
  {
    hide ShapeOf, Consistent, SlackOf;
    reformObj.AddUp(c, cost, 1);
    forall a: Lits | Total(a)
      ensures reformObj.Slack(a) == old(reformObj.Slack(a)) + cost * c.Slack(a)
    {
      TotalIsCovering(a);
      SumSlack(1, old(reformObj.coefs), old(reformObj.degree), cost, c.coefs, c.degree, reformObj.coefs,
               reformObj.degree, a);
    }
  }

  /** EagerVar::rewrite, up to handing the constraints to the solver: none when the gap has closed. */
  method RewriteEager(reformObj: Expr, cardCore: Expr, cost: int, upperBound: int, oldN: nat)
    returns (closed: bool, newVars: seq<int>, atMost: Row, atLeast: Row, order: seq<PB>)
    requires reformObj != cardCore && cardCore.Valid() && reformObj.Valid() && |reformObj.coefs| == |cardCore.coefs|
    requires cost >= 1 && oldN + Max(0, upperBound - cardCore.degree) < |cardCore.coefs|
    modifies reformObj, cardCore
    ensures closed <==> upperBound < old(cardCore.degree)
    ensures !closed ==> newVars == Iota(oldN, upperBound - old(cardCore.degree))
    ensures !closed ==> Encodes(old(cardCore.coefs), old(cardCore.degree), newVars, atMost, atLeast)
    ensures !closed ==> |order| == Max(0, |newVars| - 1)
                        && forall j :: 0 <= j < |order| ==> order[j] == Order(newVars[j], newVars[j + 1])
    ensures !closed ==> reformObj.Valid()
    ensures !closed ==> forall a: Lits :: Total(a) ==>
                                            reformObj.Slack(a) == old(reformObj.Slack(a))
                                                + cost * SlackOf(atMost.coefs, atMost.degree, a)
  {
    closed, newVars, atMost, atLeast, order := false, [], Row([], 0), Row([], 0), [];
    var numAux := upperBound - cardCore.degree;
    if numAux < 0 {
      closed := true;
      return;
    }
    newVars := Iota(oldN, numAux);
    hide ShapeOf, Consistent, SlackOf, Encodes;
    atMost, atLeast := BuildRows(cardCore, newVars);
    order := OrderAll(newVars);
    AddTimes(reformObj, cardCore, cost);
  }

  method OrderAll(ys: seq<int>) returns (order: seq<PB>)
    ensures |order| == Max(0, |ys| - 1) && forall j :: 0 <= j < |order| ==> order[j] == Order(ys[j], ys[j + 1])
  {
    order := [];
    if |ys| <= 1 {
      return;
    }
    var j := 0;
    while j < |ys| - 1
      invariant 0 <= j <= |ys| - 1 && |order| == j
      invariant forall i :: 0 <= i < j ==> order[i] == Order(ys[i], ys[i + 1])
    {
      order := order + [Order(ys[j], ys[j + 1])];
      j := j + 1;
    }
  }
}
