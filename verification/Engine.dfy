/** The state shared by propagation and conflict analysis of the native solver (Solver.h, Solver.cpp,
    DBAddition.cpp): constraint database, counters, occurrence lists and the trail. */
module Engine {
  import Arith
  import opened PBCore
  import opened Trail
  import opened Watches

  /** An entry of an occurrence list. */
  datatype Occ = Occ(ctr: nat, coef: int)

  /** An entry of a general watch list. */
  datatype GenElem = Bin(other: int) | Counter(ctr: nat, coef: int) | ClauseEntry(id: nat)

  datatype Conflict = NoConflict | PBConflict(ctr: nat) | ClauseConflict(id: nat) | BinConflict(l1: int, l2: int)

  function CounterCoef(e: GenElem, k: nat): int {
    if e.Counter? && e.ctr == k then e.coef else 0
  }

  /** What a general watch list takes off the counter of constraint k. */
  function GenSum(list: seq<GenElem>, k: nat): int {
    if |list| == 0 then 0 else GenSum(list[..|list| - 1], k) + CounterCoef(list[|list| - 1], k)
  }

  function OccSum(list: seq<Occ>, k: nat): int {
    if |list| == 0 then 0
    else OccSum(list[..|list| - 1], k) + (if list[|list| - 1].ctr == k then list[|list| - 1].coef else 0)
  }

  ghost predicate DecreasingCoefs(s: seq<Term>) {
    forall i, j :: 0 <= i <= j < |s| ==> s[i].coef >= s[j].coef
  }

  /** A stored constraint: non-empty, positive, distinct variables of the solver, largest coefficient first. */
  ghost predicate Stored(c: PB, n: nat) {
    && |c.lhs| > 0 && Positive(c.lhs) && DistinctVars(c.lhs) && DecreasingCoefs(c.lhs)
    && forall i :: 0 <= i < |c.lhs| ==> Var(c.lhs[i].lit) <= n
  }

  /** The literals that are not both false and propagated. */
  ghost function Pending(tr: seq<Elem>, lp: int): Lits
    requires -1 <= lp < |tr|
  {
    NonFalse(tr[..lp + 1])
  }

  /** The counter invariant: coefficients not both false and propagated, minus rhs, minus the largest one. */
  ghost predicate CountersOk(pbs: seq<PB>, sums: seq<int>, N: Lits) {
    && |sums| == |pbs|
    && forall k :: 0 <= k < |pbs| ==> CounterOk(pbs[k], sums[k], N)
  }

  ghost predicate CounterOk(c: PB, sum: int, N: Lits) {
    |c.lhs| > 0 && sum == Slack(c, N) - c.lhs[0].coef
  }

  /** The lists of literal l hold exactly the coefficients of l. */
  ghost predicate ListsOk(pbs: seq<PB>, occ: map<int, seq<Occ>>, gen: map<int, seq<GenElem>>, n: nat) {
    forall l: int :: 1 <= Var(l) <= n ==> l in occ && l in gen && ListOk(pbs, l, occ[l], gen[l])
  }

  ghost predicate ListOk(pbs: seq<PB>, l: int, o: seq<Occ>, g: seq<GenElem>) {
    && (forall i :: 0 <= i < |o| ==> o[i].ctr < |pbs|)
    && (forall i :: 0 <= i < |g| && g[i].Counter? ==> g[i].ctr < |pbs| && g[i].coef > 0)
    && (forall k :: 0 <= k < |pbs| ==>
          OccSum(o, k) == Weight(pbs[k].lhs, iset{l}) && GenSum(g, k) == Weight(pbs[k].lhs, iset{l}))
  }

  ghost predicate BinLitsKnown(list: seq<GenElem>, n: nat) {
    forall j :: 0 <= j < |list| && list[j].Bin? ==> 1 <= Var(list[j].other) <= n
  }

  ghost predicate BinsKnown(gen: map<int, seq<GenElem>>, n: nat) {
    forall l: int :: 1 <= Var(l) <= n ==> l in gen && BinLitsKnown(gen[l], n) && Bin(l) !in gen[l]
  }

  /** A binary clause is in the lists of both its literals. */
  ghost predicate BinsPaired(gen: map<int, seq<GenElem>>) {
    forall l, o :: l in gen && Bin(o) in gen[l] ==> o in gen && Bin(l) in gen[o]
  }

  /** Literals before the saved index are assigned, unless a backjump intervened. */
  ghost predicate SavedIndexOk(c: PB, maxWIdx: nat, stamp: nat, now: nat, tr: seq<Elem>) {
    && stamp <= now && maxWIdx <= |c.lhs|
    && (stamp == now ==> AssignedUpTo(c, maxWIdx, tr))
  }

  ghost predicate Assigned(l: int, tr: seq<Elem>) {
    l in TrueLits(tr) || l in FalseLits(tr)
  }

  ghost predicate AssignedUpTo(c: PB, idx: nat, tr: seq<Elem>)
    requires idx <= |c.lhs|
  {
    forall i :: 0 <= i < idx ==> Assigned(c.lhs[i].lit, tr)
  }

  ghost predicate IndicesOk(pbs: seq<PB>, maxWIdx: seq<nat>, stamp: seq<nat>, now: nat, tr: seq<Elem>) {
    && |maxWIdx| == |pbs| == |stamp|
    && forall k :: 0 <= k < |pbs| ==> SavedIndexOk(pbs[k], maxWIdx[k], stamp[k], now, tr)
  }

  /** What is left of the saved indices while literals are popped without a backjump. */
  ghost predicate StampsOk(pbs: seq<PB>, maxWIdx: seq<nat>, stamp: seq<nat>, now: nat) {
    && |maxWIdx| == |pbs| == |stamp|
    && forall k :: 0 <= k < |pbs| ==> stamp[k] <= now && maxWIdx[k] <= |pbs[k].lhs|
  }

  lemma IndicesStamps(pbs: seq<PB>, maxWIdx: seq<nat>, stamp: seq<nat>, now: nat, tr: seq<Elem>)
    requires IndicesOk(pbs, maxWIdx, stamp, now, tr)
    ensures StampsOk(pbs, maxWIdx, stamp, now)
  {
    forall k | 0 <= k < |pbs|
      ensures stamp[k] <= now && maxWIdx[k] <= |pbs[k].lhs|
    {
      assert SavedIndexOk(pbs[k], maxWIdx[k], stamp[k], now, tr);
    }
  }

  /** A backjump makes every saved index stale. */
  lemma StampsAfterBackjump(pbs: seq<PB>, maxWIdx: seq<nat>, stamp: seq<nat>, now: nat, tr: seq<Elem>)
    requires StampsOk(pbs, maxWIdx, stamp, now)
    ensures IndicesOk(pbs, maxWIdx, stamp, now + 1, tr)
  {
  }

  /** With slack s over the pending literals: not falsified, and every forced literal is assigned. */
  ghost predicate Settled(c: PB, s: int, tr: seq<Elem>) {
    s >= 0 && forall i :: 0 <= i < |c.lhs| && c.lhs[i].coef > s ==> Assigned(c.lhs[i].lit, tr)
  }

  ghost predicate AllSettled(pbs: seq<PB>, N: Lits, tr: seq<Elem>) {
    forall k :: 0 <= k < |pbs| ==> Settled(pbs[k], Slack(pbs[k], N), tr)
  }

  /** c forces l under the trail: without coefficient of l it cannot reach its right-hand side. */
  ghost predicate Forces(c: PB, l: int, tr: seq<Elem>) {
    exists i :: 0 <= i < |c.lhs| && c.lhs[i].lit == l && Slack(c, NonFalse(tr)) < c.lhs[i].coef
  }

  ghost predicate UnitUnder(lits: seq<int>, l: int, tr: seq<Elem>) {
    l in lits && forall m :: m in lits && m != l ==> m in FalseLits(tr)
  }

  /** A trail element with a reason was forced by it when it was pushed. */
  ghost predicate ReasonOk(e: Elem, before: seq<Elem>, pbs: seq<PB>, clauses: seq<seq<int>>,
                           gen: map<int, seq<GenElem>>) {
    match e.reason
    case NoReason => true
    case ByConstraint(k) => k < |pbs| && Forces(pbs[k], e.lit, before)
    case ByClause(k) => k < |clauses| && UnitUnder(clauses[k], e.lit, before)
    case ByBinary(o) => o != e.lit && o in FalseLits(before) && o in gen && Bin(e.lit) in gen[o]
  }

  ghost predicate CleanedRoots(tr: seq<Elem>, cleaned: nat) {
    cleaned <= |tr| && forall i :: 0 <= i < cleaned ==> tr[i].dl == 0
  }

  /** The reasons of the trail, except for the first literals of level 0 whose reasons a cleanup has dropped. */
  ghost predicate ReasonsOk(tr: seq<Elem>, cleaned: nat, pbs: seq<PB>, clauses: seq<seq<int>>,
                            gen: map<int, seq<GenElem>>) {
    && CleanedRoots(tr, cleaned)
    && forall i :: cleaned <= i < |tr| ==> ReasonOk(tr[i], tr[..i], pbs, clauses, gen)
  }

  // ----- lists -----

  lemma GenSumStep(list: seq<GenElem>, i: nat, k: nat)
    requires i < |list|
    ensures GenSum(list[..i + 1], k) == GenSum(list[..i], k) + CounterCoef(list[i], k)
  {
    assert list[..i + 1][..i] == list[..i];
  }

  lemma OccSumStep(list: seq<Occ>, i: nat, k: nat)
    requires i < |list|
    ensures OccSum(list[..i + 1], k) == OccSum(list[..i], k) + (if list[i].ctr == k then list[i].coef else 0)
  {
    assert list[..i + 1][..i] == list[..i];
  }

  /** Taking one literal out of the set of pending literals lowers every slack by the literal's own weight. */
  lemma {:induction false} WeightWithout(s: seq<Term>, N: Lits, l: int)
    requires l in N
    ensures Weight(s, N - iset{l}) == Weight(s, N) - Weight(s, iset{l})
  {
    if |s| > 0 {
      WeightWithout(s[..|s| - 1], N, l);
    }
  }

  lemma PendingStep(tr: seq<Elem>, lp: int)
    requires TrailOk(tr) && -1 <= lp && lp + 1 < |tr|
    ensures var l := -tr[lp + 1].lit;
            l in Pending(tr, lp) && Pending(tr, lp + 1) == Pending(tr, lp) - iset{l}
  {
    var e := tr[lp + 1];
    assert tr[..lp + 2] == tr[..lp + 1] + [e];
    NonFalseSnoc(tr[..lp + 1], e);
    var before := tr[..lp + 1];
    forall i | 0 <= i < |before|
      ensures before[i].lit != e.lit
    {
      assert before[i] == tr[i] && Var(tr[i].lit) != Var(e.lit);
    }
  }

  lemma PendingPush(tr: seq<Elem>, e: Elem, lp: int)
    requires -1 <= lp < |tr|
    ensures Pending(tr + [e], lp) == Pending(tr, lp)
  {
    assert (tr + [e])[..lp + 1] == tr[..lp + 1];
  }

  /** Dropping the last element matters to the pending set only when that element was propagated. */
  lemma PendingPop(tr: seq<Elem>, lp: int)
    requires TrailOk(tr) && |tr| > 0 && -1 <= lp < |tr|
    ensures var shorter := tr[..|tr| - 1];
            var l := -tr[|tr| - 1].lit;
            if lp == |tr| - 1
            then Pending(tr, lp) == Pending(shorter, lp - 1) - iset{l} && l in Pending(shorter, lp - 1)
            else Pending(tr, lp) == Pending(shorter, lp)
  {
    var shorter := tr[..|tr| - 1];
    if lp == |tr| - 1 {
      PendingStep(tr, lp - 1);
      assert tr[..lp] == shorter[..lp];
    } else {
      assert tr[..lp + 1] == shorter[..lp + 1];
    }
  }

  // ----- the trail grows and shrinks -----

  lemma AssignedMono(l: int, tr: seq<Elem>, e: Elem)
    ensures Assigned(l, tr) ==> Assigned(l, tr + [e])
    ensures Assigned(e.lit, tr + [e])
  {
    NonFalseSnoc(tr, e);
  }

  lemma IndicesPush(pbs: seq<PB>, maxWIdx: seq<nat>, stamp: seq<nat>, now: nat, tr: seq<Elem>, e: Elem)
    requires IndicesOk(pbs, maxWIdx, stamp, now, tr)
    ensures IndicesOk(pbs, maxWIdx, stamp, now, tr + [e])
  {
    forall k | 0 <= k < |pbs|
      ensures SavedIndexOk(pbs[k], maxWIdx[k], stamp[k], now, tr + [e])
    {
      assert SavedIndexOk(pbs[k], maxWIdx[k], stamp[k], now, tr);
      forall i | 0 <= i < maxWIdx[k]
        ensures Assigned(pbs[k].lhs[i].lit, tr) ==> Assigned(pbs[k].lhs[i].lit, tr + [e])
      {
        AssignedMono(pbs[k].lhs[i].lit, tr, e);
      }
    }
  }

  lemma SettledPush(c: PB, s: int, tr: seq<Elem>, e: Elem)
    requires Settled(c, s, tr)
    ensures Settled(c, s, tr + [e])
  {
    forall i | 0 <= i < |c.lhs| && c.lhs[i].coef > s
      ensures Assigned(c.lhs[i].lit, tr + [e])
    {
      AssignedMono(c.lhs[i].lit, tr, e);
    }
  }

  lemma ReasonsPush(tr: seq<Elem>, cleaned: nat, e: Elem, pbs: seq<PB>, clauses: seq<seq<int>>,
                    gen: map<int, seq<GenElem>>)
    requires ReasonsOk(tr, cleaned, pbs, clauses, gen) && ReasonOk(e, tr, pbs, clauses, gen)
    ensures ReasonsOk(tr + [e], cleaned, pbs, clauses, gen)
  {
    var s := tr + [e];
    forall i | cleaned <= i < |s|
      ensures ReasonOk(s[i], s[..i], pbs, clauses, gen)
    {
      if i < |tr| {
        assert s[..i] == tr[..i] && s[i] == tr[i];
      } else {
        assert s[..i] == tr;
      }
    }
  }

  lemma ReasonsPrefix(tr: seq<Elem>, cleaned: nat, n: nat, pbs: seq<PB>, clauses: seq<seq<int>>,
                      gen: map<int, seq<GenElem>>)
    requires ReasonsOk(tr, cleaned, pbs, clauses, gen) && cleaned <= n <= |tr|
    ensures ReasonsOk(tr[..n], cleaned, pbs, clauses, gen)
  {
    forall i | cleaned <= i < n
      ensures ReasonOk(tr[..n][i], tr[..n][..i], pbs, clauses, gen)
    {
      assert tr[..n][..i] == tr[..i];
    }
  }

  /** A literal above level 0 is not among the cleaned ones. */
  lemma CleanedBelow(tr: seq<Elem>, cleaned: nat, pbs: seq<PB>, clauses: seq<seq<int>>, gen: map<int, seq<GenElem>>)
    requires ReasonsOk(tr, cleaned, pbs, clauses, gen) && LevelOf(tr) > 0
    ensures |tr| > 0 && cleaned <= |tr| - 1
  {
  }

  /** The true slack never exceeds the slack over the pending literals. */
  lemma SlackAtMostPending(c: PB, tr: seq<Elem>, lp: int)
    requires Positive(c.lhs) && -1 <= lp < |tr|
    ensures Slack(c, NonFalse(tr)) <= Slack(c, Pending(tr, lp))
  {
    NonFalseShrinks(tr, lp + 1);
    WeightMono(c.lhs, NonFalse(tr), Pending(tr, lp));
  }

  /** Giving back the coefficients of l turns the counters for N - {l} into the counters for N. */
  lemma RestoreCounters(pbs: seq<PB>, before: seq<int>, after: seq<int>, list: seq<Occ>, N: Lits, l: int,
                        g: seq<GenElem>)
    requires |before| == |after| == |pbs| && l in N && CountersOk(pbs, before, N - iset{l})
    requires ListOk(pbs, l, list, g)
    requires forall k :: 0 <= k < |pbs| ==> after[k] == before[k] + OccSum(list, k)
    ensures CountersOk(pbs, after, N)
  {
    forall k | 0 <= k < |pbs|
      ensures CounterOk(pbs[k], after[k], N)
    {
      assert CounterOk(pbs[k], before[k], N - iset{l});
      WeightWithout(pbs[k].lhs, N, l);
    }
  }

  /** One empty list per literal. */
  function EmptyLists<T>(n: nat): (m: map<int, seq<T>>)
    ensures forall l: int :: Var(l) <= n ==> l in m && m[l] == []
    ensures forall l :: l in m ==> m[l] == []
  {
    if n == 0 then map[0 := []] else EmptyLists(n - 1)[n as int := []][-(n as int) := []]
  }

  /** Empty lists fit the empty database. */
  lemma EmptyDatabase(occ: map<int, seq<Occ>>, gen: map<int, seq<GenElem>>, n: nat)
    requires occ == EmptyLists<Occ>(n) && gen == EmptyLists<GenElem>(n)
    ensures ListsOk([], occ, gen, n) && BinsKnown(gen, n) && BinsPaired(gen)
  {
    hide EmptyLists;
  }

  /** What is left of a trail after a backjump to level dl. */
  function LevelPrefix(tr: seq<Elem>, dl: nat): seq<Elem> {
    if |tr| > 0 && tr[|tr| - 1].dl > dl then LevelPrefix(tr[..|tr| - 1], dl) else tr
  }

  class Solver {
    const model: Model
    const store: ClauseStore
    var constraintsPB: seq<PB>
    var maxWIdx: seq<nat>       // per constraint: the saved scan index
    var stamp: seq<nat>         // per constraint: number of backjumps when it was saved
    var sumOfWatches: seq<int>
    var occurLists: map<int, seq<Occ>>
    var genWatchList: map<int, seq<GenElem>>
    var conflict: Conflict
    var numOfBackjump: nat
    var learnedPB: set<nat>       // the constraints that are not initial
    var learnedClauses: set<nat>  // ... and the clauses
    ghost var cleaned: nat        // how many literals of level 0 have lost their reasons in a cleanup

    ghost predicate Valid()
      reads this`constraintsPB, this`occurLists, this`genWatchList, this`sumOfWatches, this`cleaned, model, store
    {
      && model.Valid()
      && store.Valid() && store.numVars == model.numVars
      && (forall k :: 0 <= k < |constraintsPB| ==> Stored(constraintsPB[k], model.numVars))
      && ListsOk(constraintsPB, occurLists, genWatchList, model.numVars)
      && BinsKnown(genWatchList, model.numVars) && BinsPaired(genWatchList)
      && |sumOfWatches| == |constraintsPB|
      && ReasonsOk(model.modelStack, cleaned, constraintsPB, store.clauses, genWatchList)
    }

    ghost function PendingLits(): Lits
      requires model.Valid()
      reads model
    {
      Pending(model.modelStack, model.lastPropagated)
    }

    ghost predicate Counters()
      requires model.Valid()
      reads this`constraintsPB, this`sumOfWatches, model
    {
      CountersOk(constraintsPB, sumOfWatches, PendingLits())
    }

    ghost predicate Indices()
      reads this`constraintsPB, this`maxWIdx, this`stamp, this`numOfBackjump, model
    {
      IndicesOk(constraintsPB, maxWIdx, stamp, numOfBackjump, model.modelStack)
    }

    ghost predicate Closed()
      requires model.Valid()
      reads this`constraintsPB, model
    {
      AllSettled(constraintsPB, PendingLits(), model.modelStack)
    }

    constructor (n: nat)
      ensures Valid() && Counters() && Indices() && Closed() && fresh(model) && fresh(store)
      ensures model.numVars == n && model.modelStack == [] && constraintsPB == [] && store.clauses == []
      ensures conflict == NoConflict && learnedPB == {} && learnedClauses == {}
      ensures forall l :: l in genWatchList ==> genWatchList[l] == []
    {
      model := new Model(n);
      store := new ClauseStore(n, EmptyLists(n));
      constraintsPB, maxWIdx, stamp, sumOfWatches := [], [], [], [];
      occurLists := EmptyLists(n);
      genWatchList := EmptyLists(n);
      conflict := NoConflict;
      numOfBackjump := 0;
      learnedPB, learnedClauses, cleaned := {}, {}, 0;
      new;
      EmptyDatabase(occurLists, genWatchList, n);
      hide ListsOk, BinsKnown, BinsPaired, EmptyLists;
    }

    /** setTrueDueToReason. */
    method SetTrueDueToReason(l: int, r: Reason)
      requires Valid() && model.HasVar(l) && model.IsUndefLit(l) && (r == NoReason ==> model.decisionLevel == 0)
      requires ReasonOk(Elem(l, model.decisionLevel, r), model.modelStack, constraintsPB, store.clauses, genWatchList)
      modifies model
      ensures Valid() && model.modelStack == old(model.modelStack) + [Elem(l, old(model.decisionLevel), r)]
      ensures model.lastPropagated == old(model.lastPropagated) && model.decisionLevel == old(model.decisionLevel)
    {
      hide ReasonsOk, TrailOk, Stored, ListsOk, Mirrors, ClausesOk, ListsWatch;
      ReasonsPush(model.modelStack, cleaned, Elem(l, model.decisionLevel, r), constraintsPB, store.clauses,
                  genWatchList);
      model.SetTrueDueToReason(l, r);
    }

    /** popAndUnassign: a propagated literal gives its coefficients back to the counters. */
    method PopAndUnassign() returns (lit: int)
      requires Valid() && Counters() && model.decisionLevel > 0
      modifies this`sumOfWatches, model
      ensures Valid() && Counters() && |old(model.modelStack)| > 0
      ensures model.modelStack == old(model.modelStack)[..|old(model.modelStack)| - 1]
      ensures lit == old(model.modelStack)[|old(model.modelStack)| - 1].lit
      ensures model.lastPropagated == if old(model.AllPropagated()) then old(model.lastPropagated) - 1
                                      else old(model.lastPropagated)
    {
      hide ReasonsOk, TrailOk, Stored, CountersOk, ListOk, Pending, TrueLits, Mirrors, ClausesOk, ListsWatch;
      ghost var tr, lp := model.modelStack, model.lastPropagated;
      lit := model.modelStack[|model.modelStack| - 1].lit;
      model.TopOfStack();
      PendingPop(tr, lp);
      CleanedBelow(tr, cleaned, constraintsPB, store.clauses, genWatchList);
      ReasonsPrefix(tr, cleaned, |tr| - 1, constraintsPB, store.clauses, genWatchList);
      if model.IsLitPropagated(lit) {
        GiveBack(-lit);
        RestoreCounters(constraintsPB, old(sumOfWatches), sumOfWatches, occurLists[-lit],
                        Pending(tr[..|tr| - 1], lp - 1), -lit, genWatchList[-lit]);
      }
      var _ := model.PopAndUnassign();
    }

    /** The loop of popAndUnassign. */
    method GiveBack(l: int)
      requires Valid() && 1 <= Var(l) <= model.numVars
      modifies this`sumOfWatches
      ensures |sumOfWatches| == |constraintsPB|
      ensures forall k :: 0 <= k < |constraintsPB| ==>
                sumOfWatches[k] == old(sumOfWatches)[k] + OccSum(occurLists[l], k)
    {
      var list := occurLists[l];
      assert ListOk(constraintsPB, l, list, genWatchList[l]);
      for i := 0 to |list|
        invariant |sumOfWatches| == |constraintsPB|
        invariant forall k :: 0 <= k < |constraintsPB| ==>
                    sumOfWatches[k] == old(sumOfWatches)[k] + OccSum(list[..i], k)
      {
        forall k | 0 <= k < |constraintsPB|
          ensures OccSum(list[..i + 1], k) == OccSum(list[..i], k) + (if list[i].ctr == k then list[i].coef else 0)
        {
          OccSumStep(list, i, k);
        }
        var c := list[i].ctr;
        sumOfWatches := sumOfWatches[c := sumOfWatches[c] + list[i].coef];
      }
      assert list[..|list|] == list;
    }

    /** backjumpToDL. */
    method BackjumpTo(dl: nat)
      requires Valid() && Counters() && dl <= model.decisionLevel
      modifies this`sumOfWatches, this`numOfBackjump, model
      ensures Valid() && Counters() && numOfBackjump == old(numOfBackjump) + 1
      ensures model.modelStack == LevelPrefix(old(model.modelStack), dl)
      ensures model.lastPropagated == Arith.Min(old(model.lastPropagated), |model.modelStack| - 1)
    {
      hide ReasonsOk, TrailOk, Stored, ListsOk, CountersOk, Mirrors, Pending, ClausesOk, ListsWatch;
      numOfBackjump := numOfBackjump + 1;
      ghost var tr, lp := model.modelStack, model.lastPropagated;
      while model.decisionLevel > dl
        invariant Valid() && Counters()
        invariant numOfBackjump == old(numOfBackjump) + 1
        invariant |model.modelStack| <= |tr| && model.modelStack == tr[..|model.modelStack|]
        invariant model.lastPropagated == Arith.Min(lp, |model.modelStack| - 1)
        invariant LevelPrefix(model.modelStack, dl) == LevelPrefix(tr, dl)
        decreases |model.modelStack|
      {
        var _ := PopAndUnassign();
      }
    }
  }
}
