/** Adding constraints to the running solver and tightening the objective
    (DBAddition.cpp, addAndPropagatePBConstraint and the objective update of solve, Solver.cpp). */
module Database {
  import opened Arith
  import opened PBCore
  import opened Normalise
  import opened Trail
  import opened Watches
  import opened Engine
  import opened Repair
  import opened BackjumpLevel
  import opened Closure
  import opened Propagation
  import opened PropagateLoop

  // ----- a constraint conflicts or propagates depending on its solutions only -----

  lemma ConflictsOrPropagatesBySolutions(c: PB, tr: seq<Elem>)
    requires Positive(c.lhs) && DistinctVars(c.lhs)
    ensures ConflictsOrPropagates(c, tr) <==>
            !Sat(c, NonFalse(tr))
            || exists i :: 0 <= i < |c.lhs| && !Assigned(c.lhs[i].lit, tr) && !Sat(c, NonFalse(tr) - iset{c.lhs[i].lit})
  {
    ConflictsOrPropagatesMeans(c, tr);
    forall i | 0 <= i < |c.lhs| && !Assigned(c.lhs[i].lit, tr)
      ensures Slack(c, NonFalse(tr) - iset{c.lhs[i].lit}) == Slack(c, NonFalse(tr)) - c.lhs[i].coef
    {
      WeightRemoveLit(c.lhs, i, NonFalse(tr));
    }
  }

  /** simplify changes neither conflicts nor propagations, under any trail. */
  lemma SimplifyKeepsPropagation(c: PB, tr: seq<Elem>)
    requires Positive(c.lhs) && DistinctVars(c.lhs) && c.rhs >= 1
    ensures ConflictsOrPropagates(Simplified(c), tr) <==> ConflictsOrPropagates(c, tr)
  {
    hide NormSeq, DivisorFor;
    var d := Simplified(c);
    SimplifiedShape(c);
    ConflictsOrPropagatesBySolutions(c, tr);
    ConflictsOrPropagatesBySolutions(d, tr);
    SimplifiedExact(c, NonFalse(tr));
    forall i | 0 <= i < |c.lhs|
      ensures Sat(d, NonFalse(tr) - iset{c.lhs[i].lit}) <==> Sat(c, NonFalse(tr) - iset{c.lhs[i].lit})
    {
      SimplifiedExact(c, NonFalse(tr) - iset{c.lhs[i].lit});
    }
  }

  // ----- sorting -----

  function InsertByCoef(t: Term, s: seq<Term>): (r: seq<Term>)
    ensures |r| == |s| + 1
  {
    if |s| == 0 || s[|s| - 1].coef >= t.coef then s + [t] else InsertByCoef(t, s[..|s| - 1]) + [s[|s| - 1]]
  }

  /** sortByDecreasingCoefficient. */
  function SortByCoef(s: seq<Term>): (r: seq<Term>)
    ensures |r| == |s|
  {
    if |s| == 0 then [] else InsertByCoef(s[|s| - 1], SortByCoef(s[..|s| - 1]))
  }

  function InsertByVar(t: Term, s: seq<Term>): (r: seq<Term>)
    ensures |r| == |s| + 1
  {
    if |s| == 0 || Var(s[|s| - 1].lit) <= Var(t.lit) then s + [t] else InsertByVar(t, s[..|s| - 1]) + [s[|s| - 1]]
  }

  /** sortByIncreasingVariable. */
  function SortByVar(s: seq<Term>): (r: seq<Term>)
    ensures |r| == |s|
  {
    if |s| == 0 then [] else InsertByVar(s[|s| - 1], SortByVar(s[..|s| - 1]))
  }

  /** Same terms, so the same constraint. */
  ghost predicate Rearranged(s: seq<Term>, r: seq<Term>) {
    && |r| == |s|
    && (forall t :: t in r <==> t in s)
    && (DistinctVars(s) ==> DistinctVars(r))
    && forall L: Lits :: Weight(r, L) == Weight(s, L)
  }

  function InsertAt(s: seq<Term>, p: nat, t: Term): seq<Term>
    requires p <= |s|
  {
    s[..p] + [t] + s[p..]
  }

  lemma InsertAtKeeps(s: seq<Term>, p: nat, t: Term)
    requires p <= |s|
    ensures Rearranged(s + [t], InsertAt(s, p, t))
  {
    var r := InsertAt(s, p, t);
    forall L: Lits
      ensures Weight(r, L) == Weight(s + [t], L)
    {
      WeightAppend(s[..p] + [t], s[p..], L);
      WeightSnoc(s[..p], t, L);
      WeightAppend(s[..p], s[p..], L);
      assert s[..p] + s[p..] == s;
      WeightSnoc(s, t, L);
    }
    InsertAtMembers(s, p, t);
    if DistinctVars(s + [t]) {
      InsertAtDistinct(s, p, t);
    }
  }

  lemma InsertAtMembers(s: seq<Term>, p: nat, t: Term)
    requires p <= |s|
    ensures forall x :: x in InsertAt(s, p, t) <==> x in s + [t]
  {
    assert s == s[..p] + s[p..];
  }

  lemma InsertAtDistinct(s: seq<Term>, p: nat, t: Term)
    requires p <= |s| && DistinctVars(s + [t])
    ensures DistinctVars(InsertAt(s, p, t))
  {
    var q, r := s + [t], InsertAt(s, p, t);
    forall i, j | 0 <= i < j < |r|
      ensures Var(r[i].lit) != Var(r[j].lit)
    {
      var i' := if i < p then i else if i == p then |s| else i - 1;
      var j' := if j < p then j else if j == p then |s| else j - 1;
      assert r[i] == q[i'] && r[j] == q[j'] && i' != j';
      assert i' < j' || j' < i';
    }
  }

  lemma {:induction false} InsertByCoefAt(t: Term, s: seq<Term>) returns (p: nat)
    ensures p <= |s| && InsertByCoef(t, s) == InsertAt(s, p, t)
  {
    if |s| == 0 || s[|s| - 1].coef >= t.coef {
      p := |s|;
    } else {
      p := InsertByCoefAt(t, s[..|s| - 1]);
    }
  }

  lemma {:induction false} InsertByVarAt(t: Term, s: seq<Term>) returns (p: nat)
    ensures p <= |s| && InsertByVar(t, s) == InsertAt(s, p, t)
  {
    if |s| == 0 || Var(s[|s| - 1].lit) <= Var(t.lit) {
      p := |s|;
    } else {
      p := InsertByVarAt(t, s[..|s| - 1]);
    }
  }

  lemma ExtendRearranged(s: seq<Term>, r: seq<Term>, t: Term, q: seq<Term>)
    requires Rearranged(s, r) && Rearranged(r + [t], q)
    ensures Rearranged(s + [t], q)
  {
    forall L: Lits
      ensures Weight(q, L) == Weight(s + [t], L)
    {
      WeightSnoc(r, t, L);
      WeightSnoc(s, t, L);
    }
    if DistinctVars(s + [t]) {
      DistinctSnoc(s, r, t);
    }
  }

  lemma DistinctSnoc(s: seq<Term>, r: seq<Term>, t: Term)
    requires Rearranged(s, r) && DistinctVars(s + [t])
    ensures DistinctVars(r + [t])
  {
    assert forall i :: 0 <= i < |s| ==> (s + [t])[i] == s[i];
    assert (s + [t])[|s|] == t;
    forall i | 0 <= i < |r|
      ensures Var(r[i].lit) != Var(t.lit)
    {
      assert r[i] in s;
      var j :| 0 <= j < |s| && s[j] == r[i];
    }
  }

  lemma RearrangedShape(s: seq<Term>, r: seq<Term>, n: nat)
    requires Rearranged(s, r)
    ensures Positive(s) ==> Positive(r)
    ensures KnownVars(s, n) ==> KnownVars(r, n)
  {
    assert forall i :: 0 <= i < |r| ==> r[i] in s;
  }

  lemma {:induction false} SortByCoefKeeps(s: seq<Term>)
    ensures Rearranged(s, SortByCoef(s))
  {
    if |s| > 0 {
      var u, t := s[..|s| - 1], s[|s| - 1];
      SortByCoefKeeps(u);
      var p := InsertByCoefAt(t, SortByCoef(u));
      InsertAtKeeps(SortByCoef(u), p, t);
      ExtendRearranged(u, SortByCoef(u), t, SortByCoef(s));
      assert u + [t] == s;
    }
  }

  lemma {:induction false} SortByVarKeeps(s: seq<Term>)
    ensures Rearranged(s, SortByVar(s))
  {
    if |s| > 0 {
      var u, t := s[..|s| - 1], s[|s| - 1];
      SortByVarKeeps(u);
      var p := InsertByVarAt(t, SortByVar(u));
      InsertAtKeeps(SortByVar(u), p, t);
      ExtendRearranged(u, SortByVar(u), t, SortByVar(s));
      assert u + [t] == s;
    }
  }

  lemma {:induction false} InsertByCoefOrders(t: Term, s: seq<Term>, lo: int)
    requires DecreasingCoefs(s) && t.coef >= lo && forall i :: 0 <= i < |s| ==> s[i].coef >= lo
    ensures DecreasingCoefs(InsertByCoef(t, s))
    ensures forall i :: 0 <= i < |s| + 1 ==> InsertByCoef(t, s)[i].coef >= lo
  {
    if |s| > 0 && s[|s| - 1].coef < t.coef {
      InsertByCoefOrders(t, s[..|s| - 1], s[|s| - 1].coef);
    }
  }

  lemma {:induction false} SortByCoefOrders(s: seq<Term>)
    requires Positive(s)
    ensures DecreasingCoefs(SortByCoef(s)) && forall i :: 0 <= i < |s| ==> SortByCoef(s)[i].coef >= 0
  {
    if |s| > 0 {
      SortByCoefOrders(s[..|s| - 1]);
      InsertByCoefOrders(s[|s| - 1], SortByCoef(s[..|s| - 1]), 0);
    }
  }

  lemma {:induction false} InsertByVarOrders(t: Term, s: seq<Term>, hi: int)
    requires SortedByVar(s) && Var(t.lit) <= hi && forall i :: 0 <= i < |s| ==> Var(s[i].lit) <= hi
    ensures SortedByVar(InsertByVar(t, s))
    ensures forall i :: 0 <= i < |s| + 1 ==> Var(InsertByVar(t, s)[i].lit) <= hi
  {
    if |s| > 0 && Var(s[|s| - 1].lit) > Var(t.lit) {
      InsertByVarOrders(t, s[..|s| - 1], Var(s[|s| - 1].lit));
    }
  }

  lemma {:induction false} SortByVarOrders(s: seq<Term>, hi: int)
    requires forall i :: 0 <= i < |s| ==> Var(s[i].lit) <= hi
    ensures SortedByVar(SortByVar(s)) && forall i :: 0 <= i < |s| ==> Var(SortByVar(s)[i].lit) <= hi
  {
    if |s| > 0 {
      SortByVarOrders(s[..|s| - 1], hi);
      InsertByVarOrders(s[|s| - 1], SortByVar(s[..|s| - 1]), hi);
    }
  }

  /** Sorted by variable with distinct variables is strictly ordered. */
  lemma SortByVarOrdered(s: seq<Term>, hi: int)
    requires DistinctVars(s) && forall i :: 0 <= i < |s| ==> Var(s[i].lit) <= hi
    ensures Ordered(SortByVar(s)) && Rearranged(s, SortByVar(s))
  {
    SortByVarOrders(s, hi);
    SortByVarKeeps(s);
  }

  lemma SimplifiedDecreasing(c: PB)
    requires Positive(c.lhs) && c.rhs >= 1 && DecreasingCoefs(c.lhs)
    ensures DecreasingCoefs(Simplified(c).lhs)
  {
    var g := DivisorFor(c.lhs, c.rhs - 1, c.rhs);
    forall i, j | 0 <= i <= j < |c.lhs|
      ensures NormCoef(c.lhs[i].coef, c.rhs, g) >= NormCoef(c.lhs[j].coef, c.rhs, g)
    {
      DivUpMono(c.lhs[j].coef, c.lhs[i].coef, g);
    }
  }

  // ----- adding a PB constraint -----

  /** The lists while the terms of a new constraint are being entered. */
  ghost predicate Entering(pbs: seq<PB>, c: PB, i: nat, occ: map<int, seq<Occ>>, gen: map<int, seq<GenElem>>, n: nat)
    requires i <= |c.lhs|
  {
    && ListsOk(pbs + [PB(c.lhs[..i], c.rhs)], occ, gen, n)
    && BinsKnown(gen, n)
  }

  lemma EnterNothing(pbs: seq<PB>, c: PB, l: int, o: seq<Occ>, g: seq<GenElem>)
    requires ListOk(pbs, l, o, g)
    ensures ListOk(pbs + [PB([], c.rhs)], l, o, g)
  {
    var qs := pbs + [PB([], c.rhs)];
    NoSums(o, g, |pbs|);
    forall k | 0 <= k < |qs|
      ensures OccSum(o, k) == Weight(qs[k].lhs, iset{l}) && GenSum(g, k) == Weight(qs[k].lhs, iset{l})
    {
      assert k < |pbs| ==> qs[k] == pbs[k];
    }
  }

  lemma {:induction false} NoSums(o: seq<Occ>, g: seq<GenElem>, k: nat)
    requires forall i :: 0 <= i < |o| ==> o[i].ctr < k
    requires forall i :: 0 <= i < |g| && g[i].Counter? ==> g[i].ctr < k
    ensures OccSum(o, k) == 0 && GenSum(g, k) == 0
    decreases |o| + |g|
  {
    if |o| > 0 {
      NoSums(o[..|o| - 1], g, k);
    }
    if |g| > 0 {
      NoSums(o, g[..|g| - 1], k);
    }
  }

  lemma EnterTerm(pbs: seq<PB>, c: PB, i: nat, l: int, o: seq<Occ>, g: seq<GenElem>)
    requires i < |c.lhs| && ListOk(pbs + [PB(c.lhs[..i], c.rhs)], l, o, g) && c.lhs[i].coef > 0
    ensures var t, id := c.lhs[i], |pbs|;
            var qs := pbs + [PB(c.lhs[..i + 1], c.rhs)];
            if t.lit == l then ListOk(qs, l, o + [Occ(id, t.coef)], g + [Counter(id, t.coef)])
            else ListOk(qs, l, o, g)
  {
    var t, id := c.lhs[i], |pbs|;
    var ps, qs := pbs + [PB(c.lhs[..i], c.rhs)], pbs + [PB(c.lhs[..i + 1], c.rhs)];
    WeightStep(c.lhs, i, iset{l});
    assert (o + [Occ(id, t.coef)])[..|o|] == o && (g + [Counter(id, t.coef)])[..|g|] == g;
    forall k | 0 <= k < |qs|
      ensures OccSum(o, k) == Weight(ps[k].lhs, iset{l}) && GenSum(g, k) == Weight(ps[k].lhs, iset{l})
      ensures Weight(qs[k].lhs, iset{l}) == Weight(ps[k].lhs, iset{l}) + (if k == id && t.lit == l then t.coef else 0)
    {
      assert k < |pbs| ==> qs[k] == pbs[k] && ps[k] == pbs[k];
    }
  }

  lemma EnterTermLists(pbs: seq<PB>, c: PB, i: nat, occ: map<int, seq<Occ>>, gen: map<int, seq<GenElem>>, n: nat)
    requires i < |c.lhs| && Entering(pbs, c, i, occ, gen, n) && c.lhs[i].coef > 0 && 1 <= Var(c.lhs[i].lit) <= n
    ensures var t := c.lhs[i];
            t.lit in occ && t.lit in gen &&
            Entering(pbs, c, i + 1, occ[t.lit := occ[t.lit] + [Occ(|pbs|, t.coef)]],
                     gen[t.lit := gen[t.lit] + [Counter(|pbs|, t.coef)]], n)
  {
    hide ListOk;
    var t := c.lhs[i];
    var occ' := occ[t.lit := occ[t.lit] + [Occ(|pbs|, t.coef)]];
    var gen' := gen[t.lit := gen[t.lit] + [Counter(|pbs|, t.coef)]];
    forall l: int | 1 <= Var(l) <= n
      ensures l in occ' && l in gen' && ListOk(pbs + [PB(c.lhs[..i + 1], c.rhs)], l, occ'[l], gen'[l])
      ensures BinLitsKnown(gen'[l], n) && Bin(l) !in gen'[l]
    {
      assert ListOk(pbs + [PB(c.lhs[..i], c.rhs)], l, occ[l], gen[l]);
      assert BinLitsKnown(gen[l], n) && Bin(l) !in gen[l];
      EnterTerm(pbs, c, i, l, occ[l], gen[l]);
    }
  }

  /** A literal counts unless it is both false and propagated. */
  lemma CountsWhenPending(model: Model, l: int)
    requires model.Valid() && model.HasVar(l)
    ensures l in Pending(model.modelStack, model.lastPropagated)
       <==> (!model.IsFalseLit(l) || !model.IsLitPropagated(l))
  {
    var tr, n := model.modelStack, model.lastPropagated + 1;
    if model.IsFalseLit(l) {
      FalseIsAssigned(model, l);
      InPrefix(tr, l, n, model.HeightOf(l));
    } else {
      NonFalseShrinks(tr, n);
    }
  }

  /** The loop of addPBConstraintCounter. */
  method EnterTerms(s: Solver, c: PB) returns (sum: int)
    requires s.Valid() && Stored(c, s.model.numVars)
    modifies s`occurLists, s`genWatchList
    ensures Entering(s.constraintsPB, c, |c.lhs|, s.occurLists, s.genWatchList, s.model.numVars)
    ensures sum == Slack(c, s.PendingLits()) - c.lhs[0].coef
    ensures GenGrows(old(s.genWatchList), s.genWatchList)
  {
    hide ReasonsOk, TrailOk, Mirrors, ClausesOk, ListsWatch, Pending, ListOk, BinLitsKnown, NonFalse, FalseLits,
         TrueLits;
    sum := -c.rhs - c.lhs[0].coef;
    ghost var N := s.PendingLits();
    EnterStart(s.constraintsPB, c, s.occurLists, s.genWatchList, s.model.numVars);
    for i := 0 to |c.lhs|
      invariant Entering(s.constraintsPB, c, i, s.occurLists, s.genWatchList, s.model.numVars)
      invariant sum == Weight(c.lhs[..i], N) - c.rhs - c.lhs[0].coef
      invariant GenGrows(old(s.genWatchList), s.genWatchList)
    {
      var t := c.lhs[i];
      CountsWhenPending(s.model, t.lit);
      WeightStep(c.lhs, i, N);
      EnterTermLists(s.constraintsPB, c, i, s.occurLists, s.genWatchList, s.model.numVars);
      if !s.model.IsFalseLit(t.lit) || !s.model.IsLitPropagated(t.lit) {
        sum := sum + t.coef;
      }
      s.occurLists := s.occurLists[t.lit := s.occurLists[t.lit] + [Occ(|s.constraintsPB|, t.coef)]];
      s.genWatchList := s.genWatchList[t.lit := s.genWatchList[t.lit] + [Counter(|s.constraintsPB|, t.coef)]];
    }
    assert c.lhs[..|c.lhs|] == c.lhs;
  }

  lemma EnterStart(pbs: seq<PB>, c: PB, occ: map<int, seq<Occ>>, gen: map<int, seq<GenElem>>, n: nat)
    requires ListsOk(pbs, occ, gen, n) && BinsKnown(gen, n)
    ensures Entering(pbs, c, 0, occ, gen, n)
  {
    forall l: int | 1 <= Var(l) <= n
      ensures ListOk(pbs + [PB(c.lhs[..0], c.rhs)], l, occ[l], gen[l])
    {
      EnterNothing(pbs, c, l, occ[l], gen[l]);
    }
  }

  ghost predicate ListGrows(list: seq<GenElem>, list': seq<GenElem>) {
    list <= list' && forall j :: |list| <= j < |list'| ==> !list'[j].Bin?
  }

  /** Watch lists only gain entries, and no binary clause. */
  ghost predicate GenGrows(gen: map<int, seq<GenElem>>, gen': map<int, seq<GenElem>>) {
    gen'.Keys == gen.Keys && forall l :: l in gen ==> ListGrows(gen[l], gen'[l])
  }

  lemma ReasonsGrow(tr: seq<Elem>, cleaned: nat, pbs: seq<PB>, cs: seq<seq<int>>, gen: map<int, seq<GenElem>>,
                    pbs': seq<PB>, cs': seq<seq<int>>, gen': map<int, seq<GenElem>>)
    requires ReasonsOk(tr, cleaned, pbs, cs, gen) && pbs <= pbs' && cs <= cs' && BinsGrow(gen, gen')
    ensures ReasonsOk(tr, cleaned, pbs', cs', gen')
  {
    forall i | cleaned <= i < |tr|
      ensures ReasonOk(tr[i], tr[..i], pbs', cs', gen')
    {
      assert ReasonOk(tr[i], tr[..i], pbs, cs, gen);
    }
  }

  /** Every binary clause that was there still is. */
  ghost predicate BinsGrow(gen: map<int, seq<GenElem>>, gen': map<int, seq<GenElem>>) {
    forall l, o :: l in gen && Bin(o) in gen[l] ==> l in gen' && Bin(o) in gen'[l]
  }

  /** The constraint database as a value. */
  datatype Db = Db(pbs: seq<PB>, clauses: seq<seq<int>>, gen: map<int, seq<GenElem>>,
                   learnedPB: set<nat>, learnedClauses: set<nat>)

  function DbOf(s: Solver): Db
    reads s`constraintsPB, s`genWatchList, s`learnedPB, s`learnedClauses, s.store`clauses
  {
    Db(s.constraintsPB, s.store.clauses, s.genWatchList, s.learnedPB, s.learnedClauses)
  }

  /** None of the first n constraints has become a learned one. */
  ghost predicate InitialKept(learned: set<nat>, learned': set<nat>, n: nat) {
    forall k :: k in learned' && k < n ==> k in learned
  }

  /** The database only grows, and what is initial stays initial. */
  ghost predicate DatabaseGrew(s: Solver, d: Db)
    reads s`constraintsPB, s`genWatchList, s`learnedPB, s`learnedClauses, s.store`clauses
  {
    && d.pbs <= s.constraintsPB && d.clauses <= s.store.clauses && BinsGrow(d.gen, s.genWatchList)
    && InitialKept(d.learnedPB, s.learnedPB, |d.pbs|)
    && InitialKept(d.learnedClauses, s.learnedClauses, |d.clauses|)
  }

  /** Lists that gain no binary clause stay paired. */
  lemma PairedGrows(gen: map<int, seq<GenElem>>, gen': map<int, seq<GenElem>>)
    requires BinsPaired(gen) && GenGrows(gen, gen')
    ensures BinsPaired(gen')
  {
    forall l, o | l in gen' && Bin(o) in gen'[l]
      ensures o in gen' && Bin(l) in gen'[o]
    {
      var j :| 0 <= j < |gen'[l]| && gen'[l][j] == Bin(o);
      assert ListGrows(gen[l], gen'[l]);
      assert j < |gen[l]| && gen'[l][..|gen[l]|][j] == gen[l][j];
      assert Bin(l) in gen[o] && ListGrows(gen[o], gen'[o]);
      var i :| 0 <= i < |gen[o]| && gen[o][i] == Bin(l);
      assert gen'[o][..|gen[o]|][i] == gen'[o][i];
    }
  }

  lemma GenGrowsBins(gen: map<int, seq<GenElem>>, gen': map<int, seq<GenElem>>)
    requires GenGrows(gen, gen')
    ensures BinsGrow(gen, gen')
  {
    forall l, o | l in gen && Bin(o) in gen[l]
      ensures l in gen' && Bin(o) in gen'[l]
    {
      var j :| 0 <= j < |gen[l]| && gen[l][j] == Bin(o);
      assert gen'[l][..|gen[l]|][j] == gen'[l][j];
    }
  }

  lemma BinsOkGrow(tr: seq<Elem>, p: nat, gen: map<int, seq<GenElem>>, gen': map<int, seq<GenElem>>)
    requires p <= |tr| && BinsOk(tr, p, gen) && GenGrows(gen, gen')
    ensures BinsOk(tr, p, gen')
  {
    forall i | 0 <= i < p
      ensures BinOkAt(tr, i, gen')
    {
      assert BinOkAt(tr, i, gen);
      var l := -tr[i].lit;
      forall j | 0 <= j < |gen'[l]| && gen'[l][j].Bin?
        ensures TrueBy(tr, gen'[l][j].other, tr[i].dl)
      {
        assert j < |gen[l]| ==> gen'[l][..|gen[l]|][j] == gen[l][j];
      }
    }
  }

  lemma IndicesAdd(pbs: seq<PB>, maxWIdx: seq<nat>, stamp: seq<nat>, now: nat, tr: seq<Elem>, c: PB)
    requires IndicesOk(pbs, maxWIdx, stamp, now, tr)
    ensures IndicesOk(pbs + [c], maxWIdx + [0], stamp + [0], now, tr)
  {
    var ps, ms, ts := pbs + [c], maxWIdx + [0], stamp + [0];
    forall k | 0 <= k < |ps|
      ensures SavedIndexOk(ps[k], ms[k], ts[k], now, tr)
    {
      assert k < |pbs| ==> SavedIndexOk(pbs[k], maxWIdx[k], stamp[k], now, tr);
    }
  }

  lemma CountersAdd(pbs: seq<PB>, sums: seq<int>, N: Lits, c: PB, sum: int)
    requires CountersOk(pbs, sums, N) && |c.lhs| > 0 && sum == Slack(c, N) - c.lhs[0].coef
    ensures CountersOk(pbs + [c], sums + [sum], N)
  {
    forall k | 0 <= k < |pbs + [c]|
      ensures CounterOk((pbs + [c])[k], (sums + [sum])[k], N)
    {
      assert k < |pbs| ==> CounterOk(pbs[k], sums[k], N);
    }
  }

  /** A constraint that neither conflicts nor propagates at any lower level may join the others. */
  lemma LevelsClosedAdd(pbs: seq<PB>, tr: seq<Elem>, c: PB)
    requires LevelsClosed(pbs, tr) && Positive(c.lhs) && NoneBelow(c, tr, LevelOf(tr))
    ensures LevelsClosed(pbs + [c], tr)
  {
    forall d: nat | d < LevelOf(tr)
      ensures SettledAt(pbs + [c], LevelPrefix(tr, d))
    {
      SettledMeans(c, LevelPrefix(tr, d));
      assert SettledAt(pbs, LevelPrefix(tr, d));
    }
  }

  /** Replacing constraint k. */
  lemma LevelsClosedReplace(pbs: seq<PB>, tr: seq<Elem>, k: nat, c: PB)
    requires LevelsClosed(pbs, tr) && k < |pbs| && Positive(c.lhs) && NoneBelow(c, tr, LevelOf(tr))
    ensures LevelsClosed(pbs[k := c], tr)
  {
    forall d: nat | d < LevelOf(tr)
      ensures SettledAt(pbs[k := c], LevelPrefix(tr, d))
    {
      SettledMeans(c, LevelPrefix(tr, d));
      assert SettledAt(pbs, LevelPrefix(tr, d));
    }
  }

  /** addPBConstraintCounter. */
  method AddPBConstraintCounter(s: Solver, c: PB)
    requires Sound(s) && Stored(c, s.model.numVars) && NoneBelow(c, s.model.modelStack, s.model.decisionLevel)
    modifies s`occurLists, s`genWatchList, s`sumOfWatches, s`constraintsPB, s`maxWIdx, s`stamp
    ensures Sound(s) && s.constraintsPB == old(s.constraintsPB) + [c]
    ensures BinsGrow(old(s.genWatchList), s.genWatchList) && GenGrows(old(s.genWatchList), s.genWatchList)
  {
    hide ReasonsOk, TrailOk, Mirrors, ClausesOk, ListsWatch, Pending, ListOk, BinLitsKnown, LevelsClosed,
         LowerPropagated, BinsOk, WatchesOk, CountersOk, IndicesOk, NoneBelow, GenGrows, BinsGrow, BinsPaired;
    ghost var gen, pbs := s.genWatchList, s.constraintsPB;
    var sum := EnterTerms(s, c);
    EnteredAll(pbs, c, s.occurLists, s.genWatchList, s.model.numVars);
    GenGrowsBins(gen, s.genWatchList);
    PairedGrows(gen, s.genWatchList);
    ReasonsGrow(s.model.modelStack, s.cleaned, pbs, s.store.clauses, gen, pbs + [c], s.store.clauses, s.genWatchList);
    BinsOkGrow(s.model.modelStack, s.model.lastPropagated + 1, gen, s.genWatchList);
    IndicesAdd(pbs, s.maxWIdx, s.stamp, s.numOfBackjump, s.model.modelStack, c);
    CountersAdd(pbs, s.sumOfWatches, s.PendingLits(), c, sum);
    LevelsClosedAdd(pbs, s.model.modelStack, c);
    s.sumOfWatches := s.sumOfWatches + [sum];
    s.constraintsPB := s.constraintsPB + [c];
    s.maxWIdx := s.maxWIdx + [0];
    s.stamp := s.stamp + [0];
  }

  lemma EnteredAll(pbs: seq<PB>, c: PB, occ: map<int, seq<Occ>>, gen: map<int, seq<GenElem>>, n: nat)
    requires Entering(pbs, c, |c.lhs|, occ, gen, n)
    ensures ListsOk(pbs + [c], occ, gen, n) && BinsKnown(gen, n)
  {
    assert c.lhs[..|c.lhs|] == c.lhs;
  }

  /** propagateInitialConstraintCounter and checkObjectiveIsConflictingOrPropagating, on constraint k:
      every other constraint is settled already. */
  method SettleConstraint(s: Solver, k: nat)
    requires Sound(s) && s.conflict == NoConflict && k < |s.constraintsPB|
    requires SettledBut(s.constraintsPB, k, s.PendingLits(), s.model.modelStack)
    modifies s`maxWIdx, s`stamp, s`conflict, s.model
    ensures Sound(s) && Extends(old(s.model.modelStack), s.model.modelStack)
    ensures s.conflict == NoConflict ==> Ready(s)
    ensures s.conflict != NoConflict ==> ConflictIsReal(s)
    ensures s.conflict != NoConflict <==> Slack(s.constraintsPB[k], old(s.PendingLits())) < 0
    ensures s.model.lastPropagated == old(s.model.lastPropagated)
  {
    hide ReasonsOk, TrailOk, Mirrors, ClausesOk, ListsWatch, ListsOk, BinsKnown, LevelsClosed, SettledBut, AllSettled,
         LowerPropagated, BinsOk, WatchesOk, IndicesOk, Pending, NonFalse, Extends, Settled;
    ghost var tr, lp := s.model.modelStack, s.model.lastPropagated;
    ghost var N := Pending(tr, lp);
    assert CounterOk(s.constraintsPB[k], s.sumOfWatches[k], N);
    assert Stored(s.constraintsPB[k], s.model.numVars);
    SlackAtMostPending(s.constraintsPB[k], tr, lp);
    var clash := VisitEntry(s, k);
    ghost var tr' := s.model.modelStack;
    PendingExtends(tr, tr', lp);
    BinsExtend(tr, tr', lp + 1, s.genWatchList);
    WatchesExtend(tr, tr', lp + 1, s.store.clauses);
    LowerExtends(tr, tr', lp);
    LevelsClosedExtends(s.constraintsPB, tr, tr');
    if clash {
      s.conflict := PBConflict(k);
      SlackExtends(s.constraintsPB[k], tr, tr');
    } else {
      SettleRest(s.constraintsPB, k, N, tr, tr');
    }
  }

  ghost predicate SettledBut(pbs: seq<PB>, k: nat, N: Lits, tr: seq<Elem>) {
    forall j :: 0 <= j < |pbs| && j != k ==> Settled(pbs[j], Slack(pbs[j], N), tr)
  }

  lemma SettleRest(pbs: seq<PB>, k: nat, N: Lits, tr: seq<Elem>, tr': seq<Elem>)
    requires SettledBut(pbs, k, N, tr) && k < |pbs| && Settled(pbs[k], Slack(pbs[k], N), tr') && Extends(tr, tr')
    ensures AllSettled(pbs, N, tr')
  {
    forall j | 0 <= j < |pbs|
      ensures Settled(pbs[j], Slack(pbs[j], N), tr')
    {
      if j != k {
        SettledExtends(pbs[j], Slack(pbs[j], N), tr, tr');
      }
    }
  }

  lemma PendingExtends(tr: seq<Elem>, tr': seq<Elem>, lp: int)
    requires Extends(tr, tr') && -1 <= lp < |tr|
    ensures Pending(tr', lp) == Pending(tr, lp) && lp < |tr'|
  {
    assert tr'[..lp + 1] == tr'[..|tr|][..lp + 1];
  }

  /** addAndPropagatePBConstraint, after the simplification. */
  method AddAndPropagate(s: Solver, c: PB)
    requires Ready(s) && Stored(c, s.model.numVars) && NoneBelow(c, s.model.modelStack, s.model.decisionLevel)
    modifies s`occurLists, s`genWatchList, s`sumOfWatches, s`constraintsPB, s`maxWIdx, s`stamp, s`conflict, s.model
    ensures Sound(s) && s.constraintsPB == old(s.constraintsPB) + [c]
    ensures GenGrows(old(s.genWatchList), s.genWatchList)
    ensures Extends(old(s.model.modelStack), s.model.modelStack)
    ensures s.conflict == NoConflict ==> Ready(s)
    ensures s.conflict != NoConflict ==> ConflictIsReal(s)
    ensures s.conflict != NoConflict <==> Slack(c, old(s.PendingLits())) < 0
    ensures s.model.lastPropagated == old(s.model.lastPropagated)
  {
    hide ReasonsOk, TrailOk, Mirrors, ClausesOk, ListsWatch, ListsOk, BinsKnown, LevelsClosed,
         LowerPropagated, BinsOk, WatchesOk, IndicesOk, Pending, NonFalse, Extends, Settled, CountersOk, Stored,
         NoneBelow, GenGrows, BinsGrow;
    ghost var pbs := s.constraintsPB;
    ghost var N, tr := s.PendingLits(), s.model.modelStack;
    AddPBConstraintCounter(s, c);
    assert SettledBut(s.constraintsPB, |pbs|, N, tr);
    SettleConstraint(s, |s.constraintsPB| - 1);
  }

  // ----- objective tightening -----

  lemma TightenLists(pbs: seq<PB>, k: nat, c: PB, l: int, o: seq<Occ>, g: seq<GenElem>)
    requires ListOk(pbs, l, o, g) && k < |pbs| && c.lhs == pbs[k].lhs
    ensures ListOk(pbs[k := c], l, o, g)
  {
  }

  lemma TightenReasons(tr: seq<Elem>, cleaned: nat, pbs: seq<PB>, cs: seq<seq<int>>, gen: map<int, seq<GenElem>>,
                       k: nat, c: PB)
    requires ReasonsOk(tr, cleaned, pbs, cs, gen) && k < |pbs| && c.lhs == pbs[k].lhs && c.rhs >= pbs[k].rhs
    ensures ReasonsOk(tr, cleaned, pbs[k := c], cs, gen)
  {
    forall i | cleaned <= i < |tr|
      ensures ReasonOk(tr[i], tr[..i], pbs[k := c], cs, gen)
    {
      assert ReasonOk(tr[i], tr[..i], pbs, cs, gen);
      if tr[i].reason == ByConstraint(k) {
        var j :| 0 <= j < |pbs[k].lhs| && pbs[k].lhs[j].lit == tr[i].lit
                 && Slack(pbs[k], NonFalse(tr[..i])) < pbs[k].lhs[j].coef;
        assert c.lhs[j].lit == tr[i].lit;
      }
    }
  }

  /** The objective update of solve: a larger right-hand side, and the counter follows. */
  method TightenObjective(s: Solver, k: nat, rhs: int)
    requires s.Valid() && s.Counters() && k < |s.constraintsPB| && rhs >= s.constraintsPB[k].rhs
    modifies s`sumOfWatches, s`constraintsPB
    ensures s.Valid() && s.Counters()
    ensures s.constraintsPB == old(s.constraintsPB)[k := PB(old(s.constraintsPB)[k].lhs, rhs)]
  {
    hide ReasonsOk, TrailOk, Mirrors, ClausesOk, ListsWatch, BinsKnown, ListOk, Pending;
    var obj := s.constraintsPB[k];
    var obj' := PB(obj.lhs, rhs);
    forall l: int | 1 <= Var(l) <= s.model.numVars
      ensures ListOk(s.constraintsPB[k := obj'], l, s.occurLists[l], s.genWatchList[l])
    {
      TightenLists(s.constraintsPB, k, obj', l, s.occurLists[l], s.genWatchList[l]);
    }
    TightenReasons(s.model.modelStack, s.cleaned, s.constraintsPB, s.store.clauses, s.genWatchList, k, obj');
    assert CounterOk(obj, s.sumOfWatches[k], s.PendingLits());
    assert forall j :: 0 <= j < |s.constraintsPB| ==> CounterOk(s.constraintsPB[j], s.sumOfWatches[j], s.PendingLits());
    s.sumOfWatches := s.sumOfWatches[k := s.sumOfWatches[k] + (obj.rhs - rhs)];
    s.constraintsPB := s.constraintsPB[k := obj'];
  }
}
