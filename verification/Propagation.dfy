/** Propagation of the native solver (Propagate.cpp): counters for PB constraints, binary clauses,
    and the main loop. */
module Propagation {
  import opened Arith
  import opened PBCore
  import opened Trail
  import opened Watches
  import opened Engine
  import opened Closure

  // ----- PB constraints -----

  lemma IndicesReset(pbs: seq<PB>, maxWIdx: seq<nat>, stamp: seq<nat>, now: nat, tr: seq<Elem>, k: nat)
    requires IndicesOk(pbs, maxWIdx, stamp, now, tr) && k < |pbs|
    ensures IndicesOk(pbs, maxWIdx[k := 0], stamp[k := now], now, tr)
    ensures stamp[k] >= now ==> AssignedUpTo(pbs[k], maxWIdx[k], tr) && stamp[k] == now && maxWIdx[k] <= |pbs[k].lhs|
  {
    assert SavedIndexOk(pbs[k], maxWIdx[k], stamp[k], now, tr);
    forall j | 0 <= j < |pbs|
      ensures SavedIndexOk(pbs[j], maxWIdx[k := 0][j], stamp[k := now][j], now, tr)
    {
      assert SavedIndexOk(pbs[j], maxWIdx[j], stamp[j], now, tr);
    }
  }

  lemma IndicesSave(pbs: seq<PB>, maxWIdx: seq<nat>, stamp: seq<nat>, now: nat, tr: seq<Elem>, k: nat, idx: nat)
    requires IndicesOk(pbs, maxWIdx, stamp, now, tr) && k < |pbs| && idx <= |pbs[k].lhs|
    requires AssignedUpTo(pbs[k], idx, tr)
    ensures IndicesOk(pbs, maxWIdx[k := idx], stamp, now, tr)
  {
    forall j | 0 <= j < |pbs|
      ensures SavedIndexOk(pbs[j], maxWIdx[k := idx][j], stamp[j], now, tr)
    {
      assert SavedIndexOk(pbs[j], maxWIdx[j], stamp[j], now, tr);
    }
  }

  /** A literal whose coefficient exceeds the slack is forced. */
  lemma ForcedLiteral(c: PB, i: nat, wslk: int, tr: seq<Elem>)
    requires i < |c.lhs| && Slack(c, NonFalse(tr)) <= wslk < c.lhs[i].coef
    ensures Forces(c, c.lhs[i].lit, tr)
  {
  }

  lemma AssignedUpToExtends(c: PB, idx: nat, tr: seq<Elem>, tr': seq<Elem>)
    requires idx <= |c.lhs| && AssignedUpTo(c, idx, tr) && Extends(tr, tr')
    ensures AssignedUpTo(c, idx, tr')
  {
    forall i | 0 <= i < idx
      ensures Assigned(c.lhs[i].lit, tr')
    {
      AssignedExtends(tr, tr', c.lhs[i].lit);
    }
  }

  lemma SlackExtends(c: PB, tr: seq<Elem>, tr': seq<Elem>)
    requires Positive(c.lhs) && Extends(tr, tr')
    ensures Slack(c, NonFalse(tr')) <= Slack(c, NonFalse(tr))
  {
    NonFalseShrinks(tr', |tr|);
    WeightMono(c.lhs, NonFalse(tr'), NonFalse(tr));
  }

  /** One literal of the scan: assign it when it is still open. */
  method ScanLiteral(s: Solver, k: nat, idx: nat, wslk: int)
    requires s.Valid() && k < |s.constraintsPB| && idx < |s.constraintsPB[k].lhs|
    requires Slack(s.constraintsPB[k], NonFalse(s.model.modelStack)) <= wslk < s.constraintsPB[k].lhs[idx].coef
    modifies s.model
    ensures s.Valid() && s.model.lastPropagated == old(s.model.lastPropagated)
    ensures Extends(old(s.model.modelStack), s.model.modelStack)
    ensures Assigned(s.constraintsPB[k].lhs[idx].lit, s.model.modelStack)
  {
    hide ReasonsOk, TrailOk, ListsOk, Mirrors, ClausesOk, ListsWatch, TrueLits, FalseLits, Forces, NonFalse;
    ghost var tr := s.model.modelStack;
    var c := s.constraintsPB[k];
    assert Stored(c, s.model.numVars);
    var lit := c.lhs[idx].lit;
    ExtendsSelf(tr);
    if s.model.IsUndefLit(lit) {
      ForcedLiteral(c, idx, wslk, tr);
      ghost var e := Elem(lit, s.model.decisionLevel, ByConstraint(k));
      s.SetTrueDueToReason(lit, ByConstraint(k));
      ExtendsPush(tr, tr, e);
      AssignedMono(lit, tr, e);
    }
  }

  /** propagatePBCtrCounter: scanning from the saved index assigns every literal that a scan from 0 would. */
  method PropagatePBCtrCounter(s: Solver, k: nat, wslk: int)
    requires s.Valid() && s.Indices() && k < |s.constraintsPB|
    requires Slack(s.constraintsPB[k], NonFalse(s.model.modelStack)) <= wslk
    modifies s`maxWIdx, s`stamp, s.model
    ensures s.Valid() && s.Indices() && s.model.lastPropagated == old(s.model.lastPropagated)
    ensures Extends(old(s.model.modelStack), s.model.modelStack)
    ensures wslk >= 0 ==> Settled(s.constraintsPB[k], wslk, s.model.modelStack)
  {
    hide ReasonsOk, TrailOk, ListsOk, Mirrors, ClausesOk, ListsWatch, TrueLits, FalseLits, NonFalse, IndicesOk, Extends,
         AssignedUpTo, Assigned;
    ghost var tr := s.model.modelStack;
    var c := s.constraintsPB[k];
    assert Stored(c, s.model.numVars);
    ExtendsSelf(tr);
    var idx := 0;
    IndicesReset(s.constraintsPB, s.maxWIdx, s.stamp, s.numOfBackjump, tr, k);
    AssignedNone(c, tr);
    IndicesLength(s.constraintsPB, s.maxWIdx, s.stamp, s.numOfBackjump, tr);
    if s.stamp[k] < s.numOfBackjump {
      s.stamp := s.stamp[k := s.numOfBackjump];
    } else {
      assert s.stamp[k := s.numOfBackjump] == s.stamp;
      idx := s.maxWIdx[k];
    }
    while idx < |c.lhs| && c.lhs[idx].coef > wslk
      invariant idx <= |c.lhs| && s.Valid() && s.model.lastPropagated == old(s.model.lastPropagated)
      invariant Extends(tr, s.model.modelStack)
      invariant AssignedUpTo(c, idx, s.model.modelStack)
      invariant |s.maxWIdx| == |s.constraintsPB|
      invariant IndicesOk(s.constraintsPB, s.maxWIdx[k := 0], s.stamp, s.numOfBackjump, s.model.modelStack)
      invariant Slack(c, NonFalse(s.model.modelStack)) <= wslk
    {
      ghost var before := s.model.modelStack;
      ScanLiteral(s, k, idx, wslk);
      ScanStep(s.constraintsPB, s.maxWIdx[k := 0], s.stamp, s.numOfBackjump, tr, before, s.model.modelStack, c, idx);
      idx := idx + 1;
    }
    IndicesSave(s.constraintsPB, s.maxWIdx[k := 0], s.stamp, s.numOfBackjump, s.model.modelStack, k, idx);
    assert s.maxWIdx[k := 0][k := idx] == s.maxWIdx[k := idx];
    s.maxWIdx := s.maxWIdx[k := idx];
    ScanDone(c, idx, wslk, s.model.modelStack, s.model.numVars);
  }

  lemma AssignedNone(c: PB, tr: seq<Elem>)
    ensures AssignedUpTo(c, 0, tr)
  {
  }

  lemma IndicesLength(pbs: seq<PB>, maxWIdx: seq<nat>, stamp: seq<nat>, now: nat, tr: seq<Elem>)
    requires IndicesOk(pbs, maxWIdx, stamp, now, tr)
    ensures |maxWIdx| == |pbs| == |stamp|
  {
  }

  lemma ScanStep(pbs: seq<PB>, maxWIdx: seq<nat>, stamp: seq<nat>, now: nat,
                 tr0: seq<Elem>, tr: seq<Elem>, tr': seq<Elem>, c: PB, idx: nat)
    requires Extends(tr0, tr) && Extends(tr, tr') && IndicesOk(pbs, maxWIdx, stamp, now, tr)
    requires idx < |c.lhs| && AssignedUpTo(c, idx, tr) && Assigned(c.lhs[idx].lit, tr') && Positive(c.lhs)
    ensures Extends(tr0, tr') && IndicesOk(pbs, maxWIdx, stamp, now, tr') && AssignedUpTo(c, idx + 1, tr')
    ensures Slack(c, NonFalse(tr')) <= Slack(c, NonFalse(tr))
  {
    ExtendsTrans(tr0, tr, tr');
    IndicesExtend(pbs, maxWIdx, stamp, now, tr, tr');
    AssignedUpToExtends(c, idx, tr, tr');
    SlackExtends(c, tr, tr');
  }

  lemma ScanDone(c: PB, idx: nat, wslk: int, tr: seq<Elem>, n: nat)
    requires Stored(c, n) && idx <= |c.lhs| && AssignedUpTo(c, idx, tr)
    requires idx < |c.lhs| ==> c.lhs[idx].coef <= wslk
    ensures wslk >= 0 ==> Settled(c, wslk, tr)
  {
  }

  lemma {:induction false} GenSumMono(list: seq<GenElem>, i: nat, k: nat)
    requires i <= |list| && forall j :: 0 <= j < |list| && list[j].Counter? ==> list[j].coef > 0
    ensures GenSum(list[..i], k) <= GenSum(list, k)
  {
    if i < |list| {
      GenSumMono(list[..|list| - 1], i, k);
      assert list[..|list| - 1][..i] == list[..i];
    } else {
      assert list[..i] == list;
    }
  }

  /** Counters while the list of a falsified literal is being visited. */
  ghost predicate Visiting(pbs: seq<PB>, before: seq<int>, sums: seq<int>, list: seq<GenElem>, i: nat, tr: seq<Elem>)
    requires i <= |list|
  {
    && |before| == |sums| == |pbs|
    && (forall k :: 0 <= k < |pbs| ==> sums[k] == before[k] - GenSum(list[..i], k))
    && (forall k :: 0 <= k < |pbs| ==> |pbs[k].lhs| > 0 && Settled(pbs[k], sums[k] + pbs[k].lhs[0].coef, tr))
  }

  lemma VisitStart(pbs: seq<PB>, sums: seq<int>, list: seq<GenElem>, tr: seq<Elem>, N: Lits)
    requires CountersOk(pbs, sums, N) && AllSettled(pbs, N, tr)
    ensures Visiting(pbs, sums, sums, list, 0, tr)
  {
    forall k | 0 <= k < |pbs|
      ensures |pbs[k].lhs| > 0 && Settled(pbs[k], sums[k] + pbs[k].lhs[0].coef, tr)
    {
      assert CounterOk(pbs[k], sums[k], N);
    }
  }

  lemma VisitSkip(pbs: seq<PB>, before: seq<int>, sums: seq<int>, list: seq<GenElem>, i: nat, tr: seq<Elem>)
    requires i < |list| && Visiting(pbs, before, sums, list, i, tr) && !list[i].Counter?
    ensures Visiting(pbs, before, sums, list, i + 1, tr)
  {
    forall k | 0 <= k < |pbs|
      ensures GenSum(list[..i + 1], k) == GenSum(list[..i], k)
    {
      GenSumStep(list, i, k);
    }
  }

  /** After one counter entry: its constraint was scanned when its counter became negative. */
  lemma VisitCounter(pbs: seq<PB>, before: seq<int>, sums: seq<int>, list: seq<GenElem>, i: nat,
                     tr: seq<Elem>, tr': seq<Elem>)
    requires i < |list| && Visiting(pbs, before, sums, list, i, tr) && Extends(tr, tr')
    requires list[i].Counter? && list[i].ctr < |pbs|
    requires var k := list[i].ctr; Settled(pbs[k], sums[k] - list[i].coef + pbs[k].lhs[0].coef, tr')
    ensures Visiting(pbs, before, sums[list[i].ctr := sums[list[i].ctr] - list[i].coef], list, i + 1, tr')
  {
    forall k | 0 <= k < |pbs|
      ensures GenSum(list[..i + 1], k) == GenSum(list[..i], k) + CounterCoef(list[i], k)
      ensures Settled(pbs[k], sums[k] + pbs[k].lhs[0].coef, tr')
    {
      GenSumStep(list, i, k);
      SettledExtends(pbs[k], sums[k] + pbs[k].lhs[0].coef, tr, tr');
    }
  }

  /** The slack that will result from the whole list is at most what the counter shows so far. */
  lemma VisitBound(pbs: seq<PB>, before: seq<int>, list: seq<GenElem>, i: nat, k: nat, N: Lits, l: int,
                   o: seq<Occ>)
    requires CountersOk(pbs, before, N) && l in N && ListOk(pbs, l, o, list) && i <= |list| && k < |pbs|
    ensures |pbs[k].lhs| > 0
    ensures Slack(pbs[k], N - iset{l}) <= before[k] - GenSum(list[..i], k) + pbs[k].lhs[0].coef
    ensures i == |list| ==> Slack(pbs[k], N - iset{l}) == before[k] - GenSum(list[..i], k) + pbs[k].lhs[0].coef
  {
    assert CounterOk(pbs[k], before[k], N);
    WeightWithout(pbs[k].lhs, N, l);
    GenSumMono(list, i, k);
    assert i == |list| ==> list[..i] == list;
  }

  lemma VisitEnd(pbs: seq<PB>, before: seq<int>, sums: seq<int>, list: seq<GenElem>, tr: seq<Elem>, N: Lits, l: int,
                 o: seq<Occ>)
    requires CountersOk(pbs, before, N) && l in N && ListOk(pbs, l, o, list)
    requires Visiting(pbs, before, sums, list, |list|, tr)
    ensures CountersOk(pbs, sums, N - iset{l}) && AllSettled(pbs, N - iset{l}, tr)
  {
    forall k | 0 <= k < |pbs|
      ensures CounterOk(pbs[k], sums[k], N - iset{l}) && Settled(pbs[k], Slack(pbs[k], N - iset{l}), tr)
    {
      VisitBound(pbs, before, list, |list|, k, N, l, o);
    }
  }

  function CountCounters(list: seq<GenElem>): nat {
    if |list| == 0 then 0
    else CountCounters(list[..|list| - 1]) + (if list[|list| - 1].Counter? then 1 else 0)
  }

  lemma {:induction false} CountMono(list: seq<GenElem>, i: nat, j: nat)
    requires i <= j <= |list|
    ensures CountCounters(list[..i]) <= CountCounters(list[..j])
  {
    if i < j {
      CountMono(list, i, j - 1);
      assert list[..j][..j - 1] == list[..j - 1];
    }
  }

  /** The second loop of visitPBCounterLists: leave the counters as they were before the visit. */
  method UndoVisit(s: Solver, list: seq<GenElem>, stop: nat, nVisited: nat, ghost before: seq<int>)
    requires stop < |list| && list[stop].Counter? && nVisited == CountCounters(list[..stop + 1])
    requires forall j :: 0 <= j < |list| && list[j].Counter? ==> list[j].ctr < |before|
    requires |s.sumOfWatches| == |before|
    requires forall k :: 0 <= k < |before| ==> s.sumOfWatches[k] == before[k] - GenSum(list[..stop + 1], k)
    modifies s`sumOfWatches
    ensures s.sumOfWatches == before
  {
    var nVisited2, j := 0, 0;
    while j < |list|
      invariant j <= stop && nVisited2 == CountCounters(list[..j])
      invariant |s.sumOfWatches| == |before|
      invariant forall k :: 0 <= k < |before| ==>
                  s.sumOfWatches[k] == before[k] - GenSum(list[..stop + 1], k) + GenSum(list[..j], k)
    {
      UndoStep(list, j, stop, |before|);
      if list[j].Counter? {
        var c := list[j].ctr;
        s.sumOfWatches := s.sumOfWatches[c := s.sumOfWatches[c] + list[j].coef];
        nVisited2 := nVisited2 + 1;
        if nVisited2 == nVisited {
          break;
        }
      }
      j := j + 1;
    }
    assert s.sumOfWatches == before;
  }

  lemma UndoStep(list: seq<GenElem>, j: nat, stop: nat, n: nat)
    requires j <= stop < |list| && list[stop].Counter?
    ensures forall k :: 0 <= k < n ==> GenSum(list[..j + 1], k) == GenSum(list[..j], k) + CounterCoef(list[j], k)
    ensures CountCounters(list[..j + 1]) == CountCounters(list[..j]) + (if list[j].Counter? then 1 else 0)
    ensures j < stop ==> CountCounters(list[..j + 1]) < CountCounters(list[..stop + 1])
  {
    forall k | 0 <= k < n
      ensures GenSum(list[..j + 1], k) == GenSum(list[..j], k) + CounterCoef(list[j], k)
    {
      GenSumStep(list, j, k);
    }
    assert list[..j + 1][..j] == list[..j];
    if j < stop {
      CountMono(list, j + 1, stop);
      assert list[..stop + 1][..stop] == list[..stop];
    }
  }

  /** The new counter of one constraint: conflicting, or nothing to do, or scan. */
  method VisitEntry(s: Solver, k: nat) returns (clash: bool)
    requires s.Valid() && s.Indices() && k < |s.constraintsPB|
    requires Slack(s.constraintsPB[k], NonFalse(s.model.modelStack)) <= s.sumOfWatches[k]
             + s.constraintsPB[k].lhs[0].coef
    modifies s`maxWIdx, s`stamp, s.model
    ensures s.Valid() && s.Indices() && s.model.lastPropagated == old(s.model.lastPropagated)
    ensures Extends(old(s.model.modelStack), s.model.modelStack)
    ensures clash <==> s.sumOfWatches[k] + s.constraintsPB[k].lhs[0].coef < 0
    ensures !clash ==> Settled(s.constraintsPB[k], s.sumOfWatches[k] + s.constraintsPB[k].lhs[0].coef,
                               s.model.modelStack)
  {
    hide ReasonsOk, TrailOk, ListsOk, Mirrors, ClausesOk, ListsWatch, NonFalse, IndicesOk, Extends, Assigned;
    var c := s.constraintsPB[k];
    assert Stored(c, s.model.numVars);
    ExtendsSelf(s.model.modelStack);
    clash := false;
    if s.sumOfWatches[k] < 0 {
      var wslk := s.sumOfWatches[k] + c.lhs[0].coef;
      if wslk < 0 {
        clash := true;
        return;
      }
      PropagatePBCtrCounter(s, k, wslk);
    }
  }

  lemma NonFalseExtends(tr: seq<Elem>, tr': seq<Elem>)
    requires Extends(tr, tr')
    ensures NonFalse(tr') <= NonFalse(tr)
  {
    NonFalseShrinks(tr', |tr|);
  }

  lemma VisitBefore(pbs: seq<PB>, before: seq<int>, sums: seq<int>, list: seq<GenElem>, i: nat, tr: seq<Elem>, N: Lits,
                    l: int, o: seq<Occ>, n: nat)
    requires i < |list| && Visiting(pbs, before, sums, list, i, tr) && list[i].Counter? && list[i].ctr < |pbs|
    requires CountersOk(pbs, before, N) && l in N && ListOk(pbs, l, o, list) && NonFalse(tr) <= N - iset{l}
    requires Stored(pbs[list[i].ctr], n)
    ensures var k := list[i].ctr;
            |pbs[k].lhs| > 0 && Slack(pbs[k], NonFalse(tr)) <= sums[k] - list[i].coef + pbs[k].lhs[0].coef
    ensures |sums| == |before| == |pbs|
    ensures forall k :: 0 <= k < |pbs| ==>
              before[k] - GenSum(list[..i + 1], k) == sums[k] - CounterCoef(list[i], k)
  {
    var k := list[i].ctr;
    VisitBound(pbs, before, list, i + 1, k, N, l, o);
    WeightMono(pbs[k].lhs, NonFalse(tr), N - iset{l});
    forall j | 0 <= j < |pbs|
      ensures before[j] - GenSum(list[..i + 1], j) == sums[j] - CounterCoef(list[i], j)
    {
      GenSumStep(list, i, j);
    }
  }

  /** One counter entry of the visited list. */
  method VisitOne(s: Solver, lit: int, ghost N: Lits, list: seq<GenElem>, i: nat, ghost before: seq<int>)
    returns (clash: bool)
    requires s.Valid() && s.Indices() && s.model.HasVar(lit) && list == s.genWatchList[lit]
    requires i < |list| && list[i].Counter?
    requires CountersOk(s.constraintsPB, before, N) && lit in N && NonFalse(s.model.modelStack) <= N - iset{lit}
    requires Visiting(s.constraintsPB, before, s.sumOfWatches, list, i, s.model.modelStack)
    modifies s`maxWIdx, s`stamp, s`sumOfWatches, s.model
    ensures s.Valid() && s.Indices() && s.model.lastPropagated == old(s.model.lastPropagated)
    ensures Extends(old(s.model.modelStack), s.model.modelStack) && NonFalse(s.model.modelStack) <= N - iset{lit}
    ensures !clash ==> Visiting(s.constraintsPB, before, s.sumOfWatches, list, i + 1, s.model.modelStack)
    ensures list[i].ctr < |s.constraintsPB| == |s.sumOfWatches| == |before|
    ensures clash ==> Slack(s.constraintsPB[list[i].ctr], NonFalse(s.model.modelStack)) < 0
    ensures clash ==> forall k :: 0 <= k < |before| ==> s.sumOfWatches[k] == before[k] - GenSum(list[..i + 1], k)
  {
    hide ReasonsOk, TrailOk, Mirrors, ClausesOk, ListsWatch, NonFalse, IndicesOk, Extends, Stored, Settled,
         CountersOk, Visiting, AllSettled, GenSum;
    ghost var tr := s.model.modelStack;
    ghost var pbs, sums := s.constraintsPB, s.sumOfWatches;
    assert ListOk(pbs, lit, s.occurLists[lit], list);
    var k, coef := list[i].ctr, list[i].coef;
    VisitBefore(pbs, before, sums, list, i, tr, N, lit, s.occurLists[lit], s.model.numVars);
    s.sumOfWatches := s.sumOfWatches[k := s.sumOfWatches[k] - coef];
    clash := VisitEntry(s, k);
    NonFalseExtends(tr, s.model.modelStack);
    if clash {
      WeightMono(pbs[k].lhs, NonFalse(s.model.modelStack), NonFalse(tr)) by {
        assert Stored(pbs[k], s.model.numVars);
        StoredPositive(pbs[k], s.model.numVars);
      }
    } else {
      VisitCounter(pbs, before, sums, list, i, tr, s.model.modelStack);
    }
  }

  lemma StoredPositive(c: PB, n: nat)
    requires Stored(c, n)
    ensures Positive(c.lhs) && |c.lhs| > 0
  {
  }

  /** visitPBCounterLists: literal lit has just become false.  Either every constraint is settled with its new
      counter, or a constraint is falsified and all counters are as before the visit. */
  method VisitPBCounterLists(s: Solver, lit: int, ghost N: Lits)
    requires s.Valid() && s.Indices() && s.model.HasVar(lit) && s.conflict == NoConflict
    requires lit in N && NonFalse(s.model.modelStack) <= N - iset{lit}
    requires CountersOk(s.constraintsPB, s.sumOfWatches, N) && AllSettled(s.constraintsPB, N, s.model.modelStack)
    modifies s`maxWIdx, s`stamp, s`sumOfWatches, s`conflict, s.model
    ensures s.Valid() && s.Indices() && s.model.lastPropagated == old(s.model.lastPropagated)
    ensures Extends(old(s.model.modelStack), s.model.modelStack)
    ensures s.conflict == NoConflict ==>
              CountersOk(s.constraintsPB, s.sumOfWatches, N - iset{lit})
              && AllSettled(s.constraintsPB, N - iset{lit}, s.model.modelStack)
    ensures s.conflict != NoConflict ==>
              s.conflict.PBConflict? && s.conflict.ctr < |s.constraintsPB| && s.sumOfWatches == old(s.sumOfWatches)
              && Slack(s.constraintsPB[s.conflict.ctr], NonFalse(s.model.modelStack)) < 0
  {
    hide ReasonsOk, TrailOk, ListOk, Mirrors, ClausesOk, ListsWatch, NonFalse, IndicesOk, Extends, Stored, Settled,
         CountersOk, Visiting, AllSettled, GenSum, CountCounters;
    ghost var tr, before := s.model.modelStack, s.sumOfWatches;
    var list := s.genWatchList[lit];
    ExtendsSelf(tr);
    VisitStart(s.constraintsPB, s.sumOfWatches, list, tr, N);
    CountNothing(list);
    ListBounds(s.constraintsPB, lit, s.occurLists[lit], list);
    var nVisited, i := 0, 0;
    while i < |list|
      invariant i <= |list| && s.Valid() && s.Indices() && s.model.lastPropagated == old(s.model.lastPropagated)
      invariant s.conflict == NoConflict && nVisited == CountCounters(list[..i])
      invariant Extends(tr, s.model.modelStack) && NonFalse(s.model.modelStack) <= N - iset{lit}
      invariant Visiting(s.constraintsPB, before, s.sumOfWatches, list, i, s.model.modelStack)
    {
      CountStep(list, i);
      if list[i].Counter? {
        nVisited := nVisited + 1;
        ghost var tr1 := s.model.modelStack;
        var clash := VisitOne(s, lit, N, list, i, before);
        ExtendsTrans(tr, tr1, s.model.modelStack);
        if clash {
          s.conflict := PBConflict(list[i].ctr);
          UndoVisit(s, list, i, nVisited, before);
          return;
        }
      } else {
        VisitSkip(s.constraintsPB, before, s.sumOfWatches, list, i, s.model.modelStack);
      }
      i := i + 1;
    }
    VisitEnd(s.constraintsPB, before, s.sumOfWatches, list, s.model.modelStack, N, lit, s.occurLists[lit]);
  }

  lemma ListBounds(pbs: seq<PB>, l: int, o: seq<Occ>, g: seq<GenElem>)
    requires ListOk(pbs, l, o, g)
    ensures forall j :: 0 <= j < |g| && g[j].Counter? ==> g[j].ctr < |pbs|
  {
  }

  lemma CountNothing(list: seq<GenElem>)
    ensures CountCounters(list[..0]) == 0
  {
  }

  lemma CountStep(list: seq<GenElem>, i: nat)
    requires i < |list|
    ensures CountCounters(list[..i + 1]) == CountCounters(list[..i]) + (if list[i].Counter? then 1 else 0)
  {
    assert list[..i + 1][..i] == list[..i];
  }
}
