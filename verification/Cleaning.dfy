/** What a cleanup makes of one constraint or clause: the literals assigned at level 0 go, the rest is simplified
    and classified (cleanupPBConstraints and cleanupClauses, Cleanup.cpp). */
module Cleaning {
  import opened PBCore
  import opened Normalise
  import opened Trail
  import opened Watches
  import opened Engine
  import opened Repair
  import opened BackjumpLevel
  import opened Closure
  import opened LemmaShortening
  import opened Database
  import opened Units

  /** Where a cleaned constraint goes. */
  datatype Kept = KeptPB(c: PB) | KeptClause(lits: seq<int>) | KeptBin(l1: int, l2: int)

  function Meaning(k: Kept): PB {
    match k
    case KeptPB(c) => c
    case KeptClause(lits) => ClausePB(lits)
    case KeptBin(l1, l2) => ClausePB([l1, l2])
  }

  ghost predicate Open(lits: seq<int>, tr: seq<Elem>) {
    forall i :: 0 <= i < |lits| ==> !Assigned(lits[i], tr)
  }

  /** Fit for the rebuilt database: nothing of it is left to propagate. */
  ghost predicate KeptOk(k: Kept, tr: seq<Elem>, n: nat) {
    match k
    case KeptPB(c) => Stored(c, n) && Settled(c, Slack(c, NonFalse(tr)), tr)
    case KeptClause(lits) => ClauseOk(lits, 2, n) && Open(lits, tr)
    case KeptBin(l1, l2) => 1 <= Var(l1) <= n && 1 <= Var(l2) <= n && l1 != l2 && Open([l1, l2], tr)
  }

  /** Same truth value wherever level 0 is respected. */
  ghost predicate SameUnder(k: Kept, c: PB, tr: seq<Elem>) {
    forall a: Lits :: RootAgree(tr, a) ==> (Sat(Meaning(k), a) <==> Sat(c, a))
  }

  ghost function TrueSet(tr: seq<Elem>): Lits {
    iset l | l in TrueLits(tr)
  }

  /** Only level 0 is left. */
  ghost predicate AtRoot(tr: seq<Elem>) {
    forall i :: 0 <= i < |tr| ==> tr[i].dl == 0
  }

  lemma RootVarMeans(tr: seq<Elem>, l: int)
    requires AtRoot(tr) && l != 0
    ensures RootVar(tr, Var(l)) <==> Assigned(l, tr)
  {
    if RootVar(tr, Var(l)) {
      var i :| 0 <= i < |tr| && Var(tr[i].lit) == Var(l) && tr[i].dl == 0;
      assert tr[i].lit in TrueLits(tr) && -tr[i].lit in FalseLits(tr);
    }
    if l in TrueLits(tr) {
      var i :| 0 <= i < |tr| && tr[i].lit == l;
    }
    if l in FalseLits(tr) {
      var i :| 0 <= i < |tr| && -tr[i].lit == l;
      assert Var(tr[i].lit) == Var(l);
    }
  }

  // ----- PB constraints -----

  /** The terms of s that are left, in their order. */
  ghost predicate OpenPart(s: seq<Term>, r: seq<Term>, tr: seq<Elem>, n: nat) {
    && Positive(r) && DistinctVars(r) && DecreasingCoefs(r) && KnownVars(r, n)
    && forall j :: 0 <= j < |r| ==> r[j] in s && !Assigned(r[j].lit, tr)
  }

  lemma OpenPartStep(s: seq<Term>, i: nat, r: seq<Term>, tr: seq<Elem>, n: nat)
    requires i < |s| && Positive(s) && DistinctVars(s) && DecreasingCoefs(s) && KnownVars(s, n)
    requires OpenPart(s[..i], r, tr, n)
    ensures OpenPart(s[..i + 1], r, tr, n)
    ensures !Assigned(s[i].lit, tr) ==> OpenPart(s[..i + 1], r + [s[i]], tr, n)
  {
    assert s[..i + 1] == s[..i] + [s[i]];
    forall j | 0 <= j < |r|
      ensures r[j] in s[..i + 1] && Var(r[j].lit) != Var(s[i].lit) && r[j].coef >= s[i].coef
    {
      var m :| 0 <= m < i && s[..i][m] == r[j];
    }
  }

  /** The loop of cleanupPBConstraints over one constraint. */
  method RemoveAssigned(model: Model, c: PB) returns (r: PB)
    requires model.Valid() && AtRoot(model.modelStack) && Stored(c, model.numVars)
    ensures OpenPart(c.lhs, r.lhs, model.modelStack, model.numVars)
    ensures WithoutUnits(c.lhs, c.rhs, r.lhs, r.rhs, model.modelStack)
    ensures r.rhs == c.rhs - Weight(c.lhs, TrueSet(model.modelStack))
  {
    hide TrailOk, Mirrors, FalseLits, TrueLits, WithoutUnits, Weight, OpenPart, AtRoot, DecreasingCoefs, Assigned;
    ghost var tr := model.modelStack;
    var wc: seq<Term> := [];
    var constant := c.rhs;
    WithoutNothing(c.rhs, tr);
    NothingOpen(tr, model.numVars);
    assert c.lhs[..0] == [];
    TrailIsOneEach(model);
    for i := 0 to |c.lhs|
      invariant WithoutUnits(c.lhs[..i], c.rhs, wc, constant, tr)
      invariant OpenPart(c.lhs[..i], wc, tr, model.numVars)
      invariant constant == c.rhs - Weight(c.lhs[..i], TrueSet(tr))
    {
      var t := c.lhs[i];
      StoredTerm(c, i, model.numVars);
      UnitsStep(c.lhs[..i], c.rhs, wc, constant, tr, t);
      RootVarMeans(tr, t.lit);
      WeightStep(c.lhs, i, TrueSet(tr));
      OpenPartStep(c.lhs, i, wc, tr, model.numVars);
      assert c.lhs[..i + 1] == c.lhs[..i] + [t];
      UndefMeans(model, t.lit);
      if model.IsUndefLit(t.lit) {
        wc := wc + [t];
      } else if model.IsTrueLit(t.lit) {
        constant := constant - t.coef;
      }
    }
    assert c.lhs[..|c.lhs|] == c.lhs;
    r := PB(wc, constant);
  }

  lemma StoredTerm(c: PB, i: nat, n: nat)
    requires Stored(c, n) && i < |c.lhs|
    ensures c.lhs[i].lit != 0 && 1 <= Var(c.lhs[i].lit) <= n && Positive(c.lhs) && DistinctVars(c.lhs)
    ensures DecreasingCoefs(c.lhs) && KnownVars(c.lhs, n)
  {
  }

  lemma UndefMeans(model: Model, l: int)
    requires model.Valid() && model.HasVar(l)
    ensures model.IsUndefLit(l) <==> !Assigned(l, model.modelStack)
    ensures model.IsTrueLit(l) <==> l in TrueSet(model.modelStack)
  {
  }

  lemma NothingOpen(tr: seq<Elem>, n: nat)
    ensures OpenPart([], [], tr, n) && Weight([], TrueSet(tr)) == 0
  {
  }

  lemma RootPrefix(tr: seq<Elem>)
    requires AtRoot(tr)
    ensures LevelPrefix(tr, 0) == tr
  {
  }

  /** The two assertions of the source: the rest is no tautology, and has at least two literals. */
  lemma OpenRestHolds(c: PB, r: PB, tr: seq<Elem>, n: nat)
    requires TrailOk(tr) && AtRoot(tr) && Stored(c, n) && Settled(c, Slack(c, NonFalse(tr)), tr)
    requires OpenPart(c.lhs, r.lhs, tr, n) && WithoutUnits(c.lhs, c.rhs, r.lhs, r.rhs, tr) && r.rhs >= 1
    ensures |r.lhs| >= 2 && Settled(r, Slack(r, NonFalse(tr)), tr)
  {
    hide NonFalse, TrailOk, Weight, LevelPrefix;
    var N := NonFalse(tr);
    PrefixesAgree(tr, 0);
    RootPrefix(tr);
    assert Weight(r.lhs, N) - r.rhs == Weight(c.lhs, N) - c.rhs;
    forall j | 0 <= j < |r.lhs|
      ensures r.lhs[j].coef <= Slack(r, N)
    {
      var i :| 0 <= i < |c.lhs| && c.lhs[i] == r.lhs[j];
    }
    if |r.lhs| < 2 {
      ShortWeight(r.lhs, N);
    }
  }

  lemma ShortWeight(s: seq<Term>, L: Lits)
    requires |s| < 2 && Positive(s)
    ensures Weight(s, L) <= if |s| == 0 then 0 else s[0].coef
  {
    if |s| == 1 {
      assert s[..0] == [];
      assert Weight(s[..0], L) == 0;
    }
  }

  lemma SimplifiedSettled(c: PB, tr: seq<Elem>)
    requires Positive(c.lhs) && DistinctVars(c.lhs) && c.rhs >= 1 && Settled(c, Slack(c, NonFalse(tr)), tr)
    ensures Settled(Simplified(c), Slack(Simplified(c), NonFalse(tr)), tr)
  {
    hide Simplified, NonFalse, Weight, Settled, ConflictsOrPropagates;
    SimplifiedShape(c);
    SettledMeans(c, tr);
    SettledMeans(Simplified(c), tr);
    SimplifyKeepsPropagation(c, tr);
  }

  /** A saturated constraint with right-hand side 1 is a clause over its literals. */
  lemma SaturatedClause(c: PB, lits: seq<int>)
    requires Positive(c.lhs) && Saturated(c) && c.rhs == 1
    requires |lits| == |c.lhs| && forall i :: 0 <= i < |lits| ==> lits[i] == c.lhs[i].lit
    ensures c == ClausePB(lits)
  {
    assert c.lhs == ClausePB(lits).lhs;
  }

  /** simplify, then the classification by the right-hand side. */
  method Classify(r: PB, ghost tr: seq<Elem>, ghost n: nat) returns (k: Kept)
    requires OpenPart(r.lhs, r.lhs, tr, n) && r.rhs >= 1 && |r.lhs| >= 2 && Settled(r, Slack(r, NonFalse(tr)), tr)
    ensures KeptOk(k, tr, n) && forall a: Lits :: Sat(Meaning(k), a) <==> Sat(r, a)
  {
    hide NonFalse, Weight, Settled, NormSeq, DivisorFor;
    var wc := new WConstraint(r.lhs, r.rhs);
    wc.Simplify();
    ghost var c := Simplified(r);
    SimplifiedShape(r);
    SimplifiedDecreasing(r);
    SimplifiedSettled(r, tr);
    forall a: Lits
      ensures Sat(c, a) <==> Sat(r, a)
    {
      SimplifiedExact(r, a);
    }
    if wc.rhs == 1 {
      var lits := seq(|wc.lhs|, i requires 0 <= i < |wc.lhs| reads wc => wc.lhs[i].lit);
      OpenLits(r, lits, tr, n);
      SaturatedClause(c, lits);
      if |lits| > 2 {
        k := KeptClause(lits);
      } else {
        assert lits == [lits[0], lits[1]];
        k := KeptBin(lits[0], lits[1]);
        if Var(lits[0]) > Var(lits[1]) {
          SwapClause(lits[0], lits[1]);
          k := KeptBin(lits[1], lits[0]);
        }
      }
    } else {
      k := KeptPB(wc.Value());
    }
  }

  lemma OpenLits(r: PB, lits: seq<int>, tr: seq<Elem>, n: nat)
    requires OpenPart(r.lhs, r.lhs, tr, n) && |lits| == |r.lhs| && forall i :: 0 <= i < |lits| ==>
               lits[i] == r.lhs[i].lit
    ensures Open(lits, tr) && NoDup(lits) && DistinctLitVars(lits)
    ensures forall i :: 0 <= i < |lits| ==> 1 <= Var(lits[i]) <= n
  {
  }

  lemma SwapClause(l1: int, l2: int)
    ensures forall a: Lits :: Sat(ClausePB([l2, l1]), a) <==> Sat(ClausePB([l1, l2]), a)
  {
    forall a: Lits
      ensures Sat(ClausePB([l2, l1]), a) <==> Sat(ClausePB([l1, l2]), a)
    {
      ClauseSat([l1, l2], a);
      ClauseSat([l2, l1], a);
      assert forall x :: x in [l1, l2] <==> x in [l2, l1];
    }
  }

  /** One constraint that stays. */
  method CleanPB(model: Model, c: PB) returns (k: Kept)
    requires model.Valid() && AtRoot(model.modelStack) && Stored(c, model.numVars)
    requires Settled(c, Slack(c, NonFalse(model.modelStack)), model.modelStack)
    requires Weight(c.lhs, TrueSet(model.modelStack)) < c.rhs
    ensures KeptOk(k, model.modelStack, model.numVars) && SameUnder(k, c, model.modelStack)
  {
    hide NonFalse, Weight, Settled, TrueSet, KeptOk, OpenPart, WithoutUnits, Stored, Model.Valid;
    TrailIsOneEach(model);
    var r := RemoveAssigned(model, c);
    OpenRestHolds(c, r, model.modelStack, model.numVars);
    OpenPartSelf(c.lhs, r.lhs, model.modelStack, model.numVars);
    k := Classify(r, model.modelStack, model.numVars);
    RestSame(c, r, k, model.modelStack);
  }

  lemma OpenPartSelf(s: seq<Term>, r: seq<Term>, tr: seq<Elem>, n: nat)
    requires OpenPart(s, r, tr, n)
    ensures OpenPart(r, r, tr, n)
  {
  }

  lemma RestSame(c: PB, r: PB, k: Kept, tr: seq<Elem>)
    requires WithoutUnits(c.lhs, c.rhs, r.lhs, r.rhs, tr) && forall a: Lits :: Sat(Meaning(k), a) <==> Sat(r, a)
    ensures SameUnder(k, c, tr)
  {
    forall a: Lits | RootAgree(tr, a)
      ensures Sat(Meaning(k), a) <==> Sat(c, a)
    {
      assert Weight(r.lhs, a) - r.rhs == Weight(c.lhs, a) - c.rhs;
    }
  }

  // ----- clauses -----

  /** No literal of the clause is true, and r holds the unassigned ones in their order. */
  ghost predicate OpenLiterals(cl: seq<int>, r: seq<int>, tr: seq<Elem>) {
    && NoDup(r) && Open(r, tr)
    && (forall x :: x in r ==> x in cl)
    && forall x :: x in cl && !Assigned(x, tr) ==> x in r
  }

  method OpenOf(model: Model, cl: seq<int>) returns (r: seq<int>)
    requires model.Valid() && NoDup(cl) && forall i :: 0 <= i < |cl| ==> 1 <= Var(cl[i]) <= model.numVars
    ensures OpenLiterals(cl, r, model.modelStack)
  {
    hide TrailOk, Mirrors, FalseLits, TrueLits, Assigned;
    r := [];
    for i := 0 to |cl|
      invariant OpenLiterals(cl[..i], r, model.modelStack)
    {
      UndefMeans(model, cl[i]);
      OpenLiteralsStep(cl, i, r, model.modelStack);
      if model.IsUndefLit(cl[i]) {
        r := r + [cl[i]];
      }
    }
    assert cl[..|cl|] == cl;
  }

  lemma OpenLiteralsStep(cl: seq<int>, i: nat, r: seq<int>, tr: seq<Elem>)
    requires NoDup(cl) && i < |cl| && OpenLiterals(cl[..i], r, tr)
    ensures if Assigned(cl[i], tr) then OpenLiterals(cl[..i + 1], r, tr) else OpenLiterals(cl[..i + 1], r + [cl[i]], tr)
  {
    hide Assigned;
    assert cl[..i + 1] == cl[..i] + [cl[i]];
    forall j | 0 <= j < |r|
      ensures r[j] != cl[i]
    {
      assert r[j] in cl[..i];
    }
  }

  /** Two different unassigned literals stay. */
  lemma TwoOpen(cl: seq<int>, r: seq<int>, tr: seq<Elem>, x: int, y: int)
    requires OpenLiterals(cl, r, tr) && x in cl && y in cl && x != y && !Assigned(x, tr) && !Assigned(y, tr)
    ensures |r| >= 2
  {
    assert x in r && y in r;
  }

  /** One clause that stays: no literal is true, both watches are unassigned. */
  method CleanClause(model: Model, cl: seq<int>) returns (k: Kept)
    requires model.Valid() && AtRoot(model.modelStack) && ClauseOk(cl, 2, model.numVars)
    requires forall x :: x in cl ==> x !in TrueLits(model.modelStack)
    requires !Assigned(cl[0], model.modelStack) && !Assigned(cl[1], model.modelStack)
    ensures KeptOk(k, model.modelStack, model.numVars) && SameUnder(k, ClausePB(cl), model.modelStack)
    ensures !k.KeptPB?
  {
    hide NonFalse, Weight, Settled, TrailOk, Mirrors, OpenLiterals, ClausePB;
    ghost var tr := model.modelStack;
    TrailIsOneEach(model);
    var r := OpenOf(model, cl);
    TwoOpen(cl, r, tr, cl[0], cl[1]);
    OpenClauseSame(cl, r, tr);
    KnownOpen(cl, r, tr, model.numVars);
    if |r| == 2 {
      assert r == [r[0], r[1]];
      k := KeptBin(r[0], r[1]);
      if Var(r[0]) > Var(r[1]) {
        SwapClause(r[0], r[1]);
        k := KeptBin(r[1], r[0]);
      }
    } else {
      k := KeptClause(r);
    }
  }

  lemma KnownOpen(cl: seq<int>, r: seq<int>, tr: seq<Elem>, n: nat)
    requires OpenLiterals(cl, r, tr) && forall i :: 0 <= i < |cl| ==> 1 <= Var(cl[i]) <= n
    ensures NoDup(r) && Open(r, tr) && forall i :: 0 <= i < |r| ==> 1 <= Var(r[i]) <= n
  {
    assert forall i :: 0 <= i < |r| ==> r[i] in cl;
  }

  lemma FalseIsOut(tr: seq<Elem>, a: Lits, x: int)
    requires AtRoot(tr) && RootAgree(tr, a) && x in FalseLits(tr)
    ensures x !in a
  {
    var i :| 0 <= i < |tr| && -tr[i].lit == x;
    assert tr[i].dl == 0;
  }

  /** The literals that go are false at level 0. */
  lemma OpenClauseSame(cl: seq<int>, r: seq<int>, tr: seq<Elem>)
    requires OneEach(tr) && AtRoot(tr) && OpenLiterals(cl, r, tr) && forall x :: x in cl ==> x !in TrueLits(tr)
    ensures SameUnder(KeptClause(r), ClausePB(cl), tr)
  {
    forall a: Lits | RootAgree(tr, a)
      ensures Sat(ClausePB(r), a) <==> Sat(ClausePB(cl), a)
    {
      ClauseSat(r, a);
      ClauseSat(cl, a);
      if x :| x in cl && x in a {
        if x in FalseLits(tr) {
          FalseIsOut(tr, a, x);
        }
        assert x in r;
      }
    }
  }
}
