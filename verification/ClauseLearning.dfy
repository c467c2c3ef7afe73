/** Learning a clause: the backjump, the asserted literal, and where the lemma goes
    (conflictAnalysisAndBackjump, ConflictAnalysis.cpp; addBinaryClause and addClause, DBAddition.cpp). */
module ClauseLearning {
  import opened PBCore
  import opened Trail
  import opened Watches
  import opened Engine
  import opened Repair
  import opened BackjumpLevel
  import opened Closure
  import opened PropagateLoop
  import opened LemmaShortening
  import opened Database

  // ----- a clean backjump -----

  /** Sound, settled and completely propagated, whether or not the conflict flag is still set. */
  ghost predicate Clean(s: Solver)
    reads s`constraintsPB, s`maxWIdx, s`stamp, s`sumOfWatches, s`occurLists, s`genWatchList, s`numOfBackjump, s`cleaned,
          s.model, s.store
  {
    Sound(s) && s.Closed() && s.model.AllPropagated()
  }

  lemma FullPrefix(tr: seq<Elem>)
    ensures tr[..|tr|] == tr
  {
  }

  /** backjumpToDL out of conflict analysis: every invariant of propagation is back. */
  method BackjumpClean(s: Solver, d: nat)
    requires Underway(s) && d < s.model.decisionLevel
    modifies s`sumOfWatches, s`numOfBackjump, s.model
    ensures Clean(s) && s.model.modelStack == LevelPrefix(old(s.model.modelStack), d)
  {
    hide LowerClauses, LowerPropagated, LevelsClosed, ReasonsOk, Mirrors, ClausesOk, ListsWatch, ListsOk, CountersOk,
         BinsKnown, Stored, StampsOk, IndicesOk, NonFalse, FalseLits, TrueLits, BinsOk, WatchesOk, AllSettled,
         LevelPrefix, LevelsStart, LevelsGrow, OneEach;
    ghost var tr, lp, now := s.model.modelStack, s.model.lastPropagated, s.numOfBackjump;
    BackjumpKeepsClauses(tr, lp, d, s.store.clauses, s.genWatchList);
    BackjumpKeepsLevels(s.constraintsPB, tr, d);
    StampsAfterBackjump(s.constraintsPB, s.maxWIdx, s.stamp, now, LevelPrefix(tr, d));
    s.BackjumpTo(d);
    FullPrefix(s.model.modelStack);
    NothingPending(s.model.modelStack);
  }

  lemma NothingPending(tr: seq<Elem>)
    ensures LowerPropagated(tr, |tr| - 1)
  {
  }

  lemma ReadyParts(s: Solver)
    requires Ready(s) && s.model.AllPropagated()
    ensures var tr := s.model.modelStack;
            s.Valid() && s.Counters() && TrailOk(tr) && BinsOk(tr, |tr|, s.genWatchList)
                && WatchesOk(tr, |tr|, s.store.clauses)
            && LevelsClosed(s.constraintsPB, tr) && SettledAt(s.constraintsPB, tr)
            && IndicesOk(s.constraintsPB, s.maxWIdx, s.stamp, s.numOfBackjump, tr)
  {
    FullPrefix(s.model.modelStack);
  }

  lemma CleanAgain(s: Solver)
    requires s.Valid() && s.Counters() && s.model.AllPropagated()
    requires var tr := s.model.modelStack;
             BinsOk(tr, |tr|, s.genWatchList) && WatchesOk(tr, |tr|, s.store.clauses)
             && LevelsClosed(s.constraintsPB, tr)
             && IndicesOk(s.constraintsPB, s.maxWIdx, s.stamp, s.numOfBackjump, tr)
    ensures Sound(s) && s.PendingLits() == NonFalse(s.model.modelStack)
    ensures s.model.decisionLevel == LevelOf(s.model.modelStack)
    ensures SettledAt(s.constraintsPB, s.model.modelStack) && s.conflict == NoConflict ==> Ready(s)
  {
    FullPrefix(s.model.modelStack);
    NothingPending(s.model.modelStack);
  }

  // ----- pushing a literal on a clean trail -----

  lemma TrueByPush(tr: seq<Elem>, e: Elem, t: int, d: nat)
    requires TrueBy(tr, t, d)
    ensures TrueBy(tr + [e], t, d)
  {
    var i :| 0 <= i < |tr| && tr[i].lit == t && tr[i].dl <= d;
    assert (tr + [e])[i] == tr[i];
  }

  lemma BinsPush(tr: seq<Elem>, e: Elem, p: nat, gen: map<int, seq<GenElem>>)
    requires p <= |tr| && BinsOk(tr, p, gen)
    ensures BinsOk(tr + [e], p, gen)
  {
    forall i | 0 <= i < p
      ensures BinOkAt(tr + [e], i, gen)
    {
      assert BinOkAt(tr, i, gen) && (tr + [e])[i] == tr[i];
      var list := gen[-tr[i].lit];
      forall j | 0 <= j < |list| && list[j].Bin?
        ensures TrueBy(tr + [e], list[j].other, tr[i].dl)
      {
        TrueByPush(tr, e, list[j].other, tr[i].dl);
      }
    }
  }

  lemma WatchesPush(tr: seq<Elem>, e: Elem, p: nat, clauses: seq<seq<int>>)
    requires p <= |tr| && WatchesOk(tr, p, clauses)
    ensures WatchesOk(tr + [e], p, clauses)
  {
    forall i | 0 <= i < p
      ensures WatchOkAt(tr + [e], i, clauses)
    {
      assert WatchOkAt(tr, i, clauses) && (tr + [e])[i] == tr[i];
      forall k | 0 <= k < |clauses| && Watches.Watches(clauses[k], -tr[i].lit)
        ensures Witnessed(clauses[k], tr + [e], tr[i].dl)
      {
        var x :| x in clauses[k] && TrueBy(tr, x, tr[i].dl);
        TrueByPush(tr, e, x, tr[i].dl);
      }
    }
  }

  lemma LevelsClosedPush(pbs: seq<PB>, tr: seq<Elem>, e: Elem)
    requires LevelsClosed(pbs, tr) && e.dl == LevelOf(tr)
    ensures LevelsClosed(pbs, tr + [e])
  {
    var s := tr + [e];
    assert s[..|tr|] == tr;
    forall d: nat | d < LevelOf(s)
      ensures SettledAt(pbs, LevelPrefix(s, d))
    {
      assert LevelPrefix(s, d) == LevelPrefix(tr, d);
    }
  }

  lemma AllSettledPush(pbs: seq<PB>, N: Lits, tr: seq<Elem>, e: Elem)
    requires AllSettled(pbs, N, tr)
    ensures AllSettled(pbs, N, tr + [e])
  {
    forall k | 0 <= k < |pbs|
      ensures Settled(pbs[k], Slack(pbs[k], N), tr + [e])
    {
      SettledPush(pbs[k], Slack(pbs[k], N), tr, e);
    }
  }

  /** Everything about the constraints that a push on a completely propagated trail leaves intact. */
  lemma PushFacts(pbs: seq<PB>, maxWIdx: seq<nat>, stamp: seq<nat>, now: nat, tr: seq<Elem>, e: Elem)
    requires IndicesOk(pbs, maxWIdx, stamp, now, tr) && LevelsClosed(pbs, tr) && e.dl == LevelOf(tr)
    requires AllSettled(pbs, Pending(tr, |tr| - 1), tr)
    ensures IndicesOk(pbs, maxWIdx, stamp, now, tr + [e]) && LevelsClosed(pbs, tr + [e])
    ensures Pending(tr + [e], |tr| - 1) == Pending(tr, |tr| - 1)
    ensures AllSettled(pbs, Pending(tr, |tr| - 1), tr + [e])
    ensures LowerPropagated(tr + [e], |tr| - 1)
  {
    IndicesPush(pbs, maxWIdx, stamp, now, tr, e);
    LevelsClosedPush(pbs, tr, e);
    PendingPush(tr, e, |tr| - 1);
    AllSettledPush(pbs, Pending(tr, |tr| - 1), tr, e);
  }

  // ----- new clauses in the lists -----

  lemma {:induction false} GenSumOther(list: seq<GenElem>, e: GenElem, k: nat)
    requires !e.Counter?
    ensures GenSum(list + [e], k) == GenSum(list, k)
  {
    assert (list + [e])[..|list|] == list;
  }

  lemma EntryKeepsLists(pbs: seq<PB>, occ: map<int, seq<Occ>>, gen: map<int, seq<GenElem>>, n: nat, l: int, e: GenElem)
    requires ListsOk(pbs, occ, gen, n) && BinsKnown(gen, n) && 1 <= Var(l) <= n
    requires !e.Counter? && e != Bin(l) && (e.Bin? ==> 1 <= Var(e.other) <= n)
    ensures l in gen
    ensures var gen' := gen[l := gen[l] + [e]];
            ListsOk(pbs, occ, gen', n) && BinsKnown(gen', n) && BinsGrow(gen, gen')
  {
    var gen' := gen[l := gen[l] + [e]];
    forall x: int | 1 <= Var(x) <= n
      ensures x in occ && x in gen' && ListOk(pbs, x, occ[x], gen'[x]) && BinLitsKnown(gen'[x], n) && Bin(x) !in gen'[x]
    {
      assert ListOk(pbs, x, occ[x], gen[x]) && BinLitsKnown(gen[x], n) && Bin(x) !in gen[x];
      forall k | 0 <= k < |pbs|
        ensures GenSum(gen[l] + [e], k) == GenSum(gen[l], k)
      {
        GenSumOther(gen[l], e, k);
      }
    }
  }

  lemma EntryKeepsPairs(gen: map<int, seq<GenElem>>, l: int, e: GenElem)
    requires BinsPaired(gen) && l in gen && !e.Bin?
    ensures BinsPaired(gen[l := gen[l] + [e]])
  {
  }

  /** A clause's entry in a general watch list. */
  method AddGenEntry(s: Solver, l: int, e: GenElem)
    requires s.Valid() && s.model.HasVar(l) && e.ClauseEntry?
    modifies s`genWatchList
    ensures s.Valid() && l in old(s.genWatchList)
    ensures s.genWatchList == old(s.genWatchList)[l := old(s.genWatchList)[l] + [e]]
  {
    hide ListOk, BinLitsKnown, Stored, TrailOk, Mirrors, ClausesOk, ListsWatch, ReasonsOk, ListsOk, BinsKnown, BinsGrow,
         BinsPaired;
    ghost var gen := s.genWatchList;
    EntryKeepsLists(s.constraintsPB, s.occurLists, gen, s.model.numVars, l, e);
    KnownList(s, l);
    EntryKeepsPairs(gen, l, e);
    s.genWatchList := s.genWatchList[l := s.genWatchList[l] + [e]];
    ReasonsGrow(s.model.modelStack, s.cleaned, s.constraintsPB, s.store.clauses, gen, s.constraintsPB, s.store.clauses,
                s.genWatchList);
  }

  lemma KnownList(s: Solver, l: int)
    requires s.Valid() && s.model.HasVar(l)
    ensures l in s.genWatchList
  {
  }

  function BinAdded(gen: map<int, seq<GenElem>>, l1: int, l2: int): map<int, seq<GenElem>>
    requires l1 in gen && l2 in gen && l1 != l2
  {
    gen[l1 := gen[l1] + [Bin(l2)]][l2 := gen[l2] + [Bin(l1)]]
  }

  lemma BinAddedKeeps(pbs: seq<PB>, occ: map<int, seq<Occ>>, gen: map<int, seq<GenElem>>, n: nat, l1: int, l2: int)
    requires ListsOk(pbs, occ, gen, n) && BinsKnown(gen, n) && BinsPaired(gen)
    requires 1 <= Var(l1) <= n && 1 <= Var(l2) <= n && l1 != l2
    ensures l1 in gen && l2 in gen
    ensures var gen' := BinAdded(gen, l1, l2);
            ListsOk(pbs, occ, gen', n) && BinsKnown(gen', n) && BinsPaired(gen') && BinsGrow(gen, gen')
  {
    EntryKeepsLists(pbs, occ, gen, n, l1, Bin(l2));
    var mid := gen[l1 := gen[l1] + [Bin(l2)]];
    EntryKeepsLists(pbs, occ, mid, n, l2, Bin(l1));
    var gen' := BinAdded(gen, l1, l2);
    assert gen' == mid[l2 := mid[l2] + [Bin(l1)]];
    forall l, o | l in gen' && Bin(o) in gen'[l]
      ensures o in gen' && Bin(l) in gen'[o]
    {
      if !(l in gen && Bin(o) in gen[l]) {
        assert {l, o} == {l1, l2};
      }
    }
  }

  /** addBinaryClause. */
  method AddBinaryClause(s: Solver, l1: int, l2: int)
    requires s.Valid() && s.model.HasVar(l1) && s.model.HasVar(l2) && l1 != l2
    modifies s`genWatchList
    ensures s.Valid() && l1 in old(s.genWatchList) && l2 in old(s.genWatchList)
    ensures s.genWatchList == BinAdded(old(s.genWatchList), l1, l2)
  {
    hide ListOk, BinLitsKnown, Stored, TrailOk, Mirrors, ClausesOk, ListsWatch, ReasonsOk, ListsOk, BinsKnown, BinsGrow,
         BinsPaired;
    ghost var gen := s.genWatchList;
    BinAddedKeeps(s.constraintsPB, s.occurLists, gen, s.model.numVars, l1, l2);
    s.genWatchList := s.genWatchList[l1 := s.genWatchList[l1] + [Bin(l2)]];
    s.genWatchList := s.genWatchList[l2 := s.genWatchList[l2] + [Bin(l1)]];
    ReasonsGrow(s.model.modelStack, s.cleaned, s.constraintsPB, s.store.clauses, gen, s.constraintsPB, s.store.clauses,
                s.genWatchList);
  }

  /** addClause: two watchers, and two entries in the general lists. */
  method AddClause(s: Solver, cl: seq<int>)
    requires s.Valid() && ClauseOk(cl, 2, s.model.numVars)
    modifies s`genWatchList, s.store
    ensures s.Valid() && s.store.clauses == old(s.store.clauses) + [cl]
    ensures GenGrows(old(s.genWatchList), s.genWatchList)
    ensures forall l, o :: l in s.genWatchList && Bin(o) in s.genWatchList[l] ==>
              l in old(s.genWatchList) && Bin(o) in old(s.genWatchList)[l]
  {
    hide ListOk, BinLitsKnown, Stored, TrailOk, Mirrors, ClausesOk, ListsWatch, ReasonsOk, ListsOk, BinsKnown, BinsGrow;
    ghost var cs, gen := s.store.clauses, s.genWatchList;
    s.store.AddClause(cl);
    GrowsSelf(gen);
    ReasonsGrow(s.model.modelStack, s.cleaned, s.constraintsPB, cs, gen, s.constraintsPB, s.store.clauses, gen);
    KnownList(s, cl[0]);
    AddGenEntry(s, cl[0], ClauseEntry(|s.store.clauses| - 1));
    KnownList(s, cl[1]);
    AddGenEntry(s, cl[1], ClauseEntry(|s.store.clauses| - 1));
  }

  lemma GrowsSelf(gen: map<int, seq<GenElem>>)
    ensures BinsGrow(gen, gen)
  {
  }

  // ----- the asserted literal satisfies the new clause in time -----

  /** Literal l was assigned at the current level or not at all. */
  ghost predicate AtTopLevel(tr: seq<Elem>, l: int) {
    forall i :: 0 <= i < |tr| && Var(tr[i].lit) == Var(l) ==> tr[i].dl == LevelOf(tr)
  }

  lemma BinsLearned(tr: seq<Elem>, e: Elem, gen: map<int, seq<GenElem>>, l2: int)
    requires BinsOk(tr, |tr|, gen) && e.lit in gen && l2 in gen && e.lit != l2
    requires !Assigned(e.lit, tr) && AtTopLevel(tr, l2) && e.dl == LevelOf(tr)
    ensures BinsOk(tr + [e], |tr|, BinAdded(gen, e.lit, l2))
  {
    var s, gen' := tr + [e], BinAdded(gen, e.lit, l2);
    BinsPush(tr, e, |tr|, gen);
    forall i | 0 <= i < |tr|
      ensures BinOkAt(s, i, gen')
    {
      assert BinOkAt(s, i, gen) && s[i] == tr[i];
      assert -tr[i].lit in FalseLits(tr);
      var l := -tr[i].lit;
      if l == l2 {
        assert Var(tr[i].lit) == Var(l2);
        assert s[|tr|] == e;
        assert TrueBy(s, e.lit, tr[i].dl);
      }
    }
  }

  lemma WatchesLearned(tr: seq<Elem>, e: Elem, clauses: seq<seq<int>>, cl: seq<int>)
    requires WatchesOk(tr, |tr|, clauses) && |cl| >= 2 && cl[0] == e.lit
    requires !Assigned(e.lit, tr) && AtTopLevel(tr, cl[1]) && e.dl == LevelOf(tr)
    ensures WatchesOk(tr + [e], |tr|, clauses + [cl])
  {
    var s, cs := tr + [e], clauses + [cl];
    WatchesPush(tr, e, |tr|, clauses);
    forall i | 0 <= i < |tr|
      ensures WatchOkAt(s, i, cs)
    {
      assert WatchOkAt(s, i, clauses) && s[i] == tr[i];
      assert -tr[i].lit in FalseLits(tr);
      forall k | 0 <= k < |cs| && Watches.Watches(cs[k], -s[i].lit)
        ensures Witnessed(cs[k], s, s[i].dl)
      {
        if k == |clauses| {
          assert Var(tr[i].lit) == Var(cl[1]);
          assert s[|tr|] == e;
          assert cl[0] in cl && TrueBy(s, cl[0], s[i].dl);
        } else {
          assert cs[k] == clauses[k];
        }
      }
    }
  }

  /** What the caller has established about the shortened lemma after the backjump. */
  ghost predicate Asserting(s: Solver, short: seq<int>)
    requires s.model.Valid()
    reads s.model
  {
    var tr := s.model.modelStack;
    && |short| > 0 && DistinctLitVars(short)
    && (forall i :: 0 <= i < |short| ==> s.model.HasVar(short[i]))
    && !Assigned(short[0], tr)
    && (forall i :: 1 <= i < |short| ==> short[i] in FalseLits(tr))
    && (|short| > 1 ==> AtTopLevel(tr, short[1]))
    && (|short| == 1 ==> LevelOf(tr) == 0)
  }

  /** The reason of the asserted literal. */
  function LearnedReason(short: seq<int>, id: nat): Reason
    requires |short| > 0
  {
    if |short| == 1 then NoReason else if |short| == 2 then ByBinary(short[1]) else ByClause(id)
  }

  ghost predicate LearnedShort(s: Solver, short: seq<int>, tr: seq<Elem>, clauses: seq<seq<int>>,
                               gen: map<int, seq<GenElem>>)
    requires |short| > 0
    reads s, s.model, s.store
  {
    && s.model.modelStack == tr + [Elem(short[0], LevelOf(tr), LearnedReason(short, |clauses|))]
    && s.store.clauses == (if |short| > 2 then clauses + [short] else clauses)
    && BinsGrow(gen, s.genWatchList)
    && forall l, o :: l in s.genWatchList && Bin(o) in s.genWatchList[l] ==>
         (l in gen && Bin(o) in gen[l]) || (|short| == 2 && {l, o} == {short[0], short[1]})
  }

  method LearnUnit(s: Solver, l: int)
    requires Clean(s) && s.conflict == NoConflict && s.model.HasVar(l) && !Assigned(l, s.model.modelStack)
    requires LevelOf(s.model.modelStack) == 0
    modifies s.model
    ensures Ready(s) && s.model.modelStack == old(s.model.modelStack)
            + [Elem(l, LevelOf(old(s.model.modelStack)), NoReason)]
  {
    hide LowerPropagated, LevelsClosed, ReasonsOk, Mirrors, ClausesOk, ListsWatch, ListsOk, CountersOk, BinsKnown,
         Stored, IndicesOk, NonFalse, FalseLits, TrueLits, BinsOk, WatchesOk, AllSettled, TrailOk, Pending;
    ghost var tr, e := s.model.modelStack, Elem(l, s.model.decisionLevel, NoReason);
    PushFacts(s.constraintsPB, s.maxWIdx, s.stamp, s.numOfBackjump, tr, e);
    BinsPush(tr, e, |tr|, s.genWatchList);
    WatchesPush(tr, e, |tr|, s.store.clauses);
    s.SetTrueDueToReason(l, NoReason);
  }

  method LearnBinary(s: Solver, l1: int, l2: int)
    requires Clean(s) && s.conflict == NoConflict && Asserting(s, [l1, l2])
    modifies s`genWatchList, s.model
    ensures Ready(s) && LearnedShort(s, [l1, l2], old(s.model.modelStack), s.store.clauses, old(s.genWatchList))
  {
    hide LowerPropagated, LevelsClosed, ReasonsOk, Mirrors, ClausesOk, ListsWatch, ListsOk, CountersOk, BinsKnown,
         Stored, IndicesOk, NonFalse, FalseLits, TrueLits, BinsOk, WatchesOk, AllSettled, TrailOk, Pending, AtTopLevel;
    ghost var tr, e, gen := s.model.modelStack, Elem(l1, s.model.decisionLevel, ByBinary(l2)), s.genWatchList;
    BinaryFacts(s, l1, l2);
    PushFacts(s.constraintsPB, s.maxWIdx, s.stamp, s.numOfBackjump, tr, e);
    WatchesPush(tr, e, |tr|, s.store.clauses);
    AddBinaryClause(s, l1, l2);
    BinsLearned(tr, e, gen, l2);
    s.SetTrueDueToReason(l1, ByBinary(l2));
  }

  lemma BinaryFacts(s: Solver, l1: int, l2: int)
    requires s.model.Valid() && Asserting(s, [l1, l2])
    ensures s.model.HasVar(l1) && s.model.HasVar(l2) && l1 != l2 && !Assigned(l1, s.model.modelStack)
    ensures l2 in FalseLits(s.model.modelStack) && AtTopLevel(s.model.modelStack, l2)
  {
    var short := [l1, l2];
    assert short[0] == l1 && short[1] == l2;
    assert Var(short[0]) != Var(short[1]);
  }

  method LearnLong(s: Solver, cl: seq<int>)
    requires Clean(s) && s.conflict == NoConflict && Asserting(s, cl) && |cl| > 2
    modifies s`genWatchList, s`learnedClauses, s.model, s.store
    ensures s.learnedClauses == old(s.learnedClauses) + {|old(s.store.clauses)|}
    ensures Ready(s) && LearnedShort(s, cl, old(s.model.modelStack), old(s.store.clauses), old(s.genWatchList))
  {
    hide LowerPropagated, LevelsClosed, ReasonsOk, Mirrors, ClausesOk, ListsWatch, ListsOk, CountersOk, BinsKnown,
         Stored, IndicesOk, NonFalse, FalseLits, TrueLits, BinsOk, WatchesOk, AllSettled, TrailOk, Pending, AtTopLevel,
         GenGrows;
    ghost var tr, gen, cs := s.model.modelStack, s.genWatchList, s.store.clauses;
    ghost var e := Elem(cl[0], s.model.decisionLevel, ByClause(|cs|));
    PushFacts(s.constraintsPB, s.maxWIdx, s.stamp, s.numOfBackjump, tr, e);
    WatchesLearned(tr, e, cs, cl);
    AddClause(s, cl);
    BinsOkGrow(tr, |tr|, gen, s.genWatchList);
    GenGrowsBins(gen, s.genWatchList);
    BinsPush(tr, e, |tr|, s.genWatchList);
    AssertingIsUnit(cl, tr);
    s.learnedClauses := s.learnedClauses + {|s.store.clauses| - 1};
    s.SetTrueDueToReason(cl[0], ByClause(|s.store.clauses| - 1));
  }

  lemma AssertingIsUnit(cl: seq<int>, tr: seq<Elem>)
    requires |cl| > 0 && forall i :: 1 <= i < |cl| ==> cl[i] in FalseLits(tr)
    ensures UnitUnder(cl, cl[0], tr)
  {
  }

  /** Store the lemma by its size and assert its first literal. */
  method LearnShort(s: Solver, short: seq<int>)
    requires Clean(s) && s.conflict == NoConflict && Asserting(s, short)
    modifies s`genWatchList, s`learnedClauses, s.model, s.store
    ensures s.learnedClauses == old(s.learnedClauses) + (if |short| > 2 then {|old(s.store.clauses)|} else {})
    ensures Ready(s) && LearnedShort(s, short, old(s.model.modelStack), old(s.store.clauses), old(s.genWatchList))
  {
    hide Clean, Ready;
    if |short| == 1 {
      LearnUnit(s, short[0]);
    } else if |short| == 2 {
      assert short == [short[0], short[1]];
      LearnBinary(s, short[0], short[1]);
    } else {
      LearnLong(s, short);
    }
  }
}
