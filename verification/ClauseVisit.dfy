/** Propagation of binary and of two-watched clauses (visitBinClause, visitClauseWatchList, Propagate.cpp). */
module ClauseVisit {
  import opened PBCore
  import opened Trail
  import opened Watches
  import opened Engine
  import opened Closure

  lemma TrueNow(tr: seq<Elem>, t: int)
    requires TrailOk(tr) && t in TrueLits(tr)
    ensures TrueBy(tr, t, LevelOf(tr))
  {
    var i :| 0 <= i < |tr| && tr[i].lit == t;
  }

  lemma FalseExtends(tr: seq<Elem>, tr': seq<Elem>, l: int)
    requires Extends(tr, tr')
    ensures l in FalseLits(tr) ==> l in FalseLits(tr')
    ensures l in TrueLits(tr) ==> l in TrueLits(tr')
  {
    NonFalseShrinks(tr', |tr|);
  }

  /** The binary clauses of the first i entries are dealt with. */
  ghost predicate BinsDone(tr: seq<Elem>, list: seq<GenElem>, i: nat, d: nat)
    requires i <= |list|
  {
    forall j :: 0 <= j < i && list[j].Bin? ==> TrueBy(tr, list[j].other, d)
  }

  lemma BinsDoneExtends(tr: seq<Elem>, tr': seq<Elem>, list: seq<GenElem>, i: nat, d: nat)
    requires i <= |list| && BinsDone(tr, list, i, d) && Extends(tr, tr')
    ensures BinsDone(tr', list, i, d)
  {
    forall j | 0 <= j < i && list[j].Bin?
      ensures TrueBy(tr', list[j].other, d)
    {
      TrueByExtends(tr, tr', list[j].other, d);
    }
  }

  /** visitBinClause: literal lit has just become false. */
  method VisitBinClause(s: Solver, lit: int)
    requires s.Valid() && s.model.HasVar(lit) && s.conflict == NoConflict
    requires lit in FalseLits(s.model.modelStack)
    modifies s`conflict, s.model
    ensures s.Valid() && s.model.lastPropagated == old(s.model.lastPropagated)
    ensures Extends(old(s.model.modelStack), s.model.modelStack)
    ensures s.conflict == NoConflict ==>
              BinListOk(s.model.modelStack, s.genWatchList[lit], LevelOf(s.model.modelStack))
    ensures s.conflict != NoConflict ==>
              exists other :: s.conflict == BinConflict(lit, other) && Bin(other) in s.genWatchList[lit]
                              && other in FalseLits(s.model.modelStack)
  {
    hide ReasonsOk, Mirrors, ClausesOk, ListsWatch, Extends, Stored, TrailOk, ListOk, TrueLits, FalseLits, TrueBy;
    ghost var tr := s.model.modelStack;
    ghost var d := LevelOf(tr);
    var list := s.genWatchList[lit];
    ExtendsSelf(tr);
    for i := 0 to |list|
      invariant s.Valid() && s.conflict == NoConflict && s.model.lastPropagated == old(s.model.lastPropagated)
      invariant Extends(tr, s.model.modelStack) && LevelOf(s.model.modelStack) == d
      invariant BinsDone(s.model.modelStack, list, i, d)
    {
      ghost var tr1 := s.model.modelStack;
      FalseExtends(tr, tr1, lit);
      if list[i].Bin? {
        var otherLit := list[i].other;
        if s.model.IsFalseLit(otherLit) {
          s.conflict := BinConflict(lit, otherLit);
          return;
        } else if s.model.IsUndefLit(otherLit) {
          s.SetTrueDueToReason(otherLit, ByBinary(lit));
          ghost var e := Elem(otherLit, d, ByBinary(lit));
          ExtendsPush(tr, tr1, e);
          ExtendsSelf(tr1);
          ExtendsPush(tr1, tr1, e);
          NonFalseSnoc(tr1, e);
          BinsDoneExtends(tr1, s.model.modelStack, list, i, d);
        }
        TrueNow(s.model.modelStack, otherLit);
      }
    }
  }

  // ----- two watched literals -----

  /** The circular search: from the saved index to the end, then from the third literal to the saved index.
      It finds a non-false literal exactly when there is one behind the watches. */
  method FindReplacement(model: Model, cl: seq<int>, watchIdx: nat) returns (k: nat, isFalse: bool)
    requires model.Valid() && ClauseOk(cl, watchIdx, model.numVars)
    ensures 2 <= k < |cl|
    ensures isFalse <==> forall j :: 2 <= j < |cl| ==> cl[j] in FalseLits(model.modelStack)
    ensures !isFalse ==> cl[k] !in FalseLits(model.modelStack)
  {
    hide Mirrors, TrailOk, FalseLits, TrueLits;
    k, isFalse := watchIdx, true;
    while k != |cl| && isFalse
      invariant watchIdx <= k <= |cl|
      invariant forall j :: watchIdx <= j < k ==> cl[j] in FalseLits(model.modelStack)
      invariant !isFalse ==> k < |cl| && cl[k] !in FalseLits(model.modelStack)
      decreases |cl| - k, isFalse
    {
      isFalse := model.IsFalseLit(cl[k]);
      if isFalse {
        k := k + 1;
      }
    }
    if isFalse {
      k := 2;
      while k != watchIdx && isFalse
        invariant 2 <= k <= watchIdx
        invariant forall j :: 2 <= j < k ==> cl[j] in FalseLits(model.modelStack)
        invariant forall j :: watchIdx <= j < |cl| ==> cl[j] in FalseLits(model.modelStack)
        invariant !isFalse ==> k < watchIdx && cl[k] !in FalseLits(model.modelStack)
        decreases watchIdx - k, isFalse
      {
        isFalse := model.IsFalseLit(cl[k]);
        if isFalse {
          k := k + 1;
        }
      }
    }
  }

  /** The clauses that watch lit are satisfied, or still wait in the rest of the list. */
  ghost predicate VisitedOrWaiting(clauses: seq<seq<int>>, lit: int, rest: seq<WatchElem>, tr: seq<Elem>, d: nat) {
    forall k :: 0 <= k < |clauses| && Watches.Watches(clauses[k], lit) ==>
                  Witnessed(clauses[k], tr, d) || HasEntry(rest, k)
  }

  ghost predicate SameClauses(cs: seq<seq<int>>, ds: seq<seq<int>>) {
    |cs| == |ds| && forall k, x :: 0 <= k < |cs| ==> (x in cs[k] <==> x in ds[k])
  }

  /** Reasons only ask which literals a clause has, not in which order. */
  lemma ReasonsReorder(tr: seq<Elem>, cleaned: nat, pbs: seq<PB>, cs: seq<seq<int>>, ds: seq<seq<int>>,
                       gen: map<int, seq<GenElem>>)
    requires ReasonsOk(tr, cleaned, pbs, cs, gen) && SameClauses(cs, ds)
    ensures ReasonsOk(tr, cleaned, pbs, ds, gen)
  {
    forall i | cleaned <= i < |tr|
      ensures ReasonOk(tr[i], tr[..i], pbs, ds, gen)
    {
      assert ReasonOk(tr[i], tr[..i], pbs, cs, gen);
      match tr[i].reason
      case ByClause(k) =>
        assert UnitUnder(cs[k], tr[i].lit, tr[..i]);
        forall m | m in ds[k] && m != tr[i].lit
          ensures m in FalseLits(tr[..i])
        {
          assert m in cs[k];
        }
        assert tr[i].lit in cs[k];
      case _ =>
    }
  }

  /** Moving a watch away from lit onto an unassigned literal disturbs no clause invariant. */
  lemma MoveKeepsWatches(clauses: seq<seq<int>>, id: nat, cl: seq<int>, other: int, r: int, tr: seq<Elem>, p: nat)
    requires id < |clauses| && p <= |tr| && WatchesOk(tr, p, clauses)
    requires |cl| >= 2 && cl[0] == other && cl[1] == r && r !in FalseLits(tr)
    requires Watches.Watches(clauses[id], other) && forall x :: x in cl <==> x in clauses[id]
    ensures WatchesOk(tr, p, clauses[id := cl])
  {
    var cs := clauses[id := cl];
    forall i | 0 <= i < p
      ensures WatchOkAt(tr, i, cs)
    {
      assert WatchOkAt(tr, i, clauses);
      forall k | 0 <= k < |cs| && Watches.Watches(cs[k], -tr[i].lit)
        ensures Witnessed(cs[k], tr, tr[i].dl)
      {
        assert -tr[i].lit in FalseLits(tr);
        assert Watches.Watches(clauses[k], -tr[i].lit);
        var x :| x in clauses[k] && TrueBy(tr, x, tr[i].dl);
        assert x in cs[k];
      }
    }
  }

  lemma MoveKeepsWaiting(clauses: seq<seq<int>>, id: nat, cl: seq<int>, lit: int, e: WatchElem, rest: seq<WatchElem>,
                         tr: seq<Elem>, d: nat)
    requires id < |clauses| && e.id == id && VisitedOrWaiting(clauses, lit, [e] + rest, tr, d)
    requires !Watches.Watches(cl, lit)
    ensures VisitedOrWaiting(clauses[id := cl], lit, rest, tr, d)
  {
    var cs := clauses[id := cl];
    forall k | 0 <= k < |cs| && Watches.Watches(cs[k], lit)
      ensures Witnessed(cs[k], tr, d) || HasEntry(rest, k)
    {
      assert k != id;
      WaitsOn(e, rest, k);
    }
  }

  lemma WaitsOn(e: WatchElem, rest: seq<WatchElem>, k: nat)
    ensures HasEntry([e] + rest, k) ==> e.id == k || HasEntry(rest, k)
  {
    if HasEntry([e] + rest, k) {
      var j :| 0 <= j < |[e] + rest| && ([e] + rest)[j].id == k;
      assert j > 0 ==> rest[j - 1].id == k;
    }
  }

  lemma DoneKeepsWaiting(clauses: seq<seq<int>>, lit: int, e: WatchElem, rest: seq<WatchElem>,
                         tr: seq<Elem>, tr': seq<Elem>, d: nat)
    requires VisitedOrWaiting(clauses, lit, [e] + rest, tr, d) && Extends(tr, tr')
    requires e.id < |clauses| && Witnessed(clauses[e.id], tr', d)
    ensures VisitedOrWaiting(clauses, lit, rest, tr', d)
  {
    forall k | 0 <= k < |clauses| && Watches.Watches(clauses[k], lit)
      ensures Witnessed(clauses[k], tr', d) || HasEntry(rest, k)
    {
      WaitsOn(e, rest, k);
      if Witnessed(clauses[k], tr, d) {
        WitnessedExtends(clauses[k], tr, tr', d);
      }
    }
  }

  /** When every other literal is false the clause is unit, or falsified. */
  lemma OthersFalse(cl: seq<int>, lit: int, other: int, tr: seq<Elem>)
    requires |cl| >= 2 && ((cl[0] == lit && cl[1] == other) || (cl[1] == lit && cl[0] == other))
    requires lit in FalseLits(tr) && forall j :: 2 <= j < |cl| ==> cl[j] in FalseLits(tr)
    ensures UnitUnder(cl, other, tr)
    ensures other in FalseLits(tr) ==> forall x :: x in cl ==> x in FalseLits(tr)
  {
  }

  /** The clause of an entry, its other watch, and where a replacement would go. */
  lemma WatchPair(cl: seq<int>, lit: int, n: nat, idx: nat)
    requires ClauseOk(cl, idx, n) && Watches.Watches(cl, lit)
    ensures var other := if cl[0] == lit then cl[1] else cl[0];
            other != lit && other in cl && lit in cl && Watches.Watches(cl, other) && 1 <= Var(other) <= n
            && WatchedPair(cl, lit, other, n)
  {
  }

  /** What one step of the visit leaves behind. */
  ghost predicate Stepped(lit: int, list: seq<WatchElem>, j: nat, clauses: seq<seq<int>>, tr: seq<Elem>, p: nat, d: nat)
    requires j <= |list| && p <= |tr|
  {
    WatchesOk(tr, p, clauses) && VisitedOrWaiting(clauses, lit, list[j..], tr, d)
  }

  lemma StepSatisfied(lit: int, list: seq<WatchElem>, list': seq<WatchElem>, j: nat, clauses: seq<seq<int>>,
                      tr: seq<Elem>, tr': seq<Elem>, p: nat, d: nat)
    requires j < |list| && p <= |tr| && Stepped(lit, list, j, clauses, tr, p, d) && Extends(tr, tr')
    requires |list'| == |list| && list'[j + 1..] == list[j + 1..]
    requires list[j].id < |clauses| && Witnessed(clauses[list[j].id], tr', d)
    ensures Stepped(lit, list', j + 1, clauses, tr', p, d)
  {
    assert list[j..] == [list[j]] + list[j + 1..];
    DoneKeepsWaiting(clauses, lit, list[j], list[j + 1..], tr, tr', d);
    WatchesExtend(tr, tr', p, clauses);
  }

  lemma StepMoved(lit: int, list: seq<WatchElem>, list': seq<WatchElem>, j: nat, clauses: seq<seq<int>>,
                  other: int, k: nat, tr: seq<Elem>, p: nat, d: nat, n: nat)
    requires j < |list| && p <= |tr| && Stepped(lit, list, j, clauses, tr, p, d)
    requires list' == list[..j] + list[j + 1..] && list[j].id < |clauses|
    requires Replaceable(clauses[list[j].id], lit, other, k, n) && clauses[list[j].id][k] !in FalseLits(tr)
    ensures Stepped(lit, list', j, clauses[list[j].id := Rewatched(clauses[list[j].id], other, k, lit)], tr, p, d)
    ensures SameClauses(clauses, clauses[list[j].id := Rewatched(clauses[list[j].id], other, k, lit)])
  {
    var id := list[j].id;
    var cl := Rewatched(clauses[id], other, k, lit);
    RewatchedSame(clauses[id], other, k, lit);
    assert list[j..] == [list[j]] + list[j + 1..];
    assert list'[j..] == list[j + 1..];
    MoveKeepsWaiting(clauses, id, cl, lit, list[j], list[j + 1..], tr, d);
    MoveKeepsWatches(clauses, id, cl, other, clauses[id][k], tr, p);
  }

  lemma Satisfied(cl: seq<int>, x: int, tr: seq<Elem>)
    requires TrailOk(tr) && x in cl && x in TrueLits(tr)
    ensures Witnessed(cl, tr, LevelOf(tr))
  {
    TrueNow(tr, x);
  }

  /** Entry j stays, perhaps with another cached literal, or it goes. */
  predicate OneEntry(list: seq<WatchElem>, j: nat, list': seq<WatchElem>, j': nat) {
    && j < |list|
    && if j' == j then list' == list[..j] + list[j + 1..]
       else
         && j' == j + 1 && |list'| == |list| && list'[..j] == list[..j] && list'[j].id == list[j].id
         && list'[j + 1..] == list[j + 1..]
  }

  /** What the two iterators stand for: the kept prefix and the part that is still to be read. */
  function Compacted(buf: seq<WatchElem>, kept: nat, read: nat): seq<WatchElem>
    requires kept <= read <= |buf|
  {
    buf[..kept] + buf[read..]
  }

  /** Copying the next entry to the kept part, and the entry as the visit leaves it there. */
  lemma CompactKeep(buf: seq<WatchElem>, kept: nat, read: nat, list': seq<WatchElem>)
    requires kept <= read < |buf| && OneEntry(Compacted(buf, kept, read), kept, list', kept + 1)
    ensures Compacted(buf[kept := list'[kept]], kept + 1, read + 1) == list'
  {
    var list := Compacted(buf, kept, read);
    assert list[kept + 1..] == buf[read + 1..];
    assert buf[kept := list'[kept]][read + 1..] == buf[read + 1..];
    assert list' == list'[..kept] + [list'[kept]] + list'[kept + 1..];
  }

  /** ... or taken back. */
  lemma CompactDrop(buf: seq<WatchElem>, kept: nat, read: nat, x: WatchElem, list': seq<WatchElem>)
    requires kept <= read < |buf| && OneEntry(Compacted(buf, kept, read), kept, list', kept)
    ensures Compacted(buf[kept := x], kept, read + 1) == list'
  {
    assert buf[kept := x][read + 1..] == buf[read + 1..];
    assert Compacted(buf, kept, read)[kept + 1..] == buf[read + 1..];
  }

  /** The copy of what was not read after a conflict, and the final resize. */
  method CloseGap(buf: array<WatchElem>, kept0: nat, read0: nat) returns (kept: nat)
    requires kept0 <= read0 <= buf.Length
    modifies buf
    ensures kept <= buf.Length && buf[..kept] == old(Compacted(buf[..], kept0, read0))
  {
    kept := kept0;
    var read := read0;
    while read != buf.Length
      invariant kept <= read <= buf.Length && kept0 <= kept
      invariant Compacted(buf[..], kept, read) == old(Compacted(buf[..], kept0, read0))
      decreases buf.Length - read
    {
      ghost var before := buf[..];
      buf[kept] := buf[read];
      assert buf[..] == before[kept := before[read]];
      CompactCopy(before, kept, read);
      kept, read := kept + 1, read + 1;
    }
    assert buf[read..] == [];
  }

  lemma CompactCopy(buf: seq<WatchElem>, kept: nat, read: nat)
    requires kept <= read < |buf|
    ensures Compacted(buf[kept := buf[read]], kept + 1, read + 1) == Compacted(buf, kept, read)
  {
    var after := buf[kept := buf[read]];
    assert after[..kept + 1] == buf[..kept] + [buf[read]];
    assert after[read + 1..] == buf[read + 1..];
    assert buf[read..] == [buf[read]] + buf[read + 1..];
  }

  /** One entry of the watch list of lit; j' is where the next one is. */
  method VisitWatch(s: Solver, lit: int, p: nat, j: nat) returns (j': nat)
    requires s.Valid() && s.model.HasVar(lit) && s.conflict == NoConflict
    requires p < |s.model.modelStack| && lit in FalseLits(s.model.modelStack)
    requires j < |s.store.watchLists[lit]|
    requires Stepped(lit, s.store.watchLists[lit], j, s.store.clauses, s.model.modelStack, p,
                     LevelOf(s.model.modelStack))
    modifies s`conflict, s.model, s.store
    ensures s.Valid() && s.model.lastPropagated == old(s.model.lastPropagated)
    ensures Extends(old(s.model.modelStack), s.model.modelStack)
    ensures SameClauses(old(s.store.clauses), s.store.clauses)
    ensures j' <= |s.store.watchLists[lit]| && |s.store.watchLists[lit]| - j' < |old(s.store.watchLists[lit])| - j
    ensures OneEntry(old(s.store.watchLists[lit]), j, s.store.watchLists[lit], j')
    ensures s.conflict == NoConflict ==>
              Stepped(lit, s.store.watchLists[lit], j', s.store.clauses, s.model.modelStack, p,
                      LevelOf(s.model.modelStack))
    ensures s.conflict != NoConflict ==>
              WatchesOk(s.model.modelStack, p, s.store.clauses)
              && s.conflict.ClauseConflict? && s.conflict.id < |s.store.clauses|
              && forall x :: x in s.store.clauses[s.conflict.id] ==> x in FalseLits(s.model.modelStack)
  {
    hide ReasonsOk, Mirrors, ClausesOk, WatchListOk, Extends, Stored, TrailOk, ListOk, TrueLits, FalseLits, TrueBy,
         Stepped, WatchesOk, UnitUnder;
    ghost var tr, list, clauses := s.model.modelStack, s.store.watchLists[lit], s.store.clauses;
    ghost var d := LevelOf(tr);
    ExtendsSelf(tr);
    s.store.EntryFacts(lit, j);
    var e := s.store.watchLists[lit][j];
    j' := j + 1;
    var cl := s.store.clauses[e.id];
    if s.model.IsTrueLit(e.cached) {
      Satisfied(cl, e.cached, tr);
      StepSatisfied(lit, list, list, j, clauses, tr, tr, p, d);
      return;
    }
    WatchPair(cl, lit, s.model.numVars, s.store.watchIdx[e.id]);
    var otherLit := if cl[0] == lit then cl[1] else cl[0];
    if s.model.IsTrueLit(otherLit) {
      s.store.SetCached(lit, j, otherLit);
      Satisfied(cl, otherLit, tr);
      StepSatisfied(lit, list, s.store.watchLists[lit], j, clauses, tr, tr, p, d);
      return;
    }
    j' := VisitUnsatisfied(s, lit, p, j, otherLit);
  }

  /** The rest of a step, when neither the cached literal nor the other watch is true. */
  method VisitUnsatisfied(s: Solver, lit: int, p: nat, j: nat, otherLit: int) returns (j': nat)
    requires s.Valid() && s.model.HasVar(lit) && s.conflict == NoConflict
    requires p < |s.model.modelStack| && lit in FalseLits(s.model.modelStack)
    requires j < |s.store.watchLists[lit]|
    requires Stepped(lit, s.store.watchLists[lit], j, s.store.clauses, s.model.modelStack, p,
                     LevelOf(s.model.modelStack))
    requires var id := s.store.watchLists[lit][j].id;
             id < |s.store.clauses| && WatchedPair(s.store.clauses[id], lit, otherLit, s.model.numVars)
    requires otherLit !in TrueLits(s.model.modelStack)
    modifies s`conflict, s.model, s.store
    ensures s.Valid() && s.model.lastPropagated == old(s.model.lastPropagated)
    ensures Extends(old(s.model.modelStack), s.model.modelStack)
    ensures SameClauses(old(s.store.clauses), s.store.clauses)
    ensures j' <= |s.store.watchLists[lit]| && |s.store.watchLists[lit]| - j' < |old(s.store.watchLists[lit])| - j
    ensures OneEntry(old(s.store.watchLists[lit]), j, s.store.watchLists[lit], j')
    ensures s.conflict == NoConflict ==>
              Stepped(lit, s.store.watchLists[lit], j', s.store.clauses, s.model.modelStack, p,
                      LevelOf(s.model.modelStack))
    ensures s.conflict != NoConflict ==>
              WatchesOk(s.model.modelStack, p, s.store.clauses)
              && s.conflict.ClauseConflict? && s.conflict.id < |s.store.clauses|
              && forall x :: x in s.store.clauses[s.conflict.id] ==> x in FalseLits(s.model.modelStack)
  {
    hide ReasonsOk, Mirrors, ClausesOk, WatchListOk, Extends, Stored, TrailOk, ListOk, TrueLits, FalseLits, TrueBy,
         Stepped, WatchesOk, UnitUnder, WatchedPair;
    ghost var tr, list, clauses := s.model.modelStack, s.store.watchLists[lit], s.store.clauses;
    ghost var d := LevelOf(tr);
    ExtendsSelf(tr);
    SteppedWatches(lit, list, j, clauses, tr, p, d);
    s.store.EntryFacts(lit, j);
    var id := s.store.watchLists[lit][j].id;
    var cl := s.store.clauses[id];
    PairFacts(cl, lit, otherLit, s.model.numVars);
    j' := j + 1;
    var k, isFalse := FindReplacement(s.model, cl, s.store.watchIdx[id]);
    CandidateFacts(cl, lit, otherLit, k, s.store.watchIdx[id], s.model.numVars);
    s.store.SetWatchIdx(id, k);
    if !isFalse {
      var r := cl[k];
      if s.model.IsTrueLit(r) {
        s.store.SetCached(lit, j, r);
        Satisfied(cl, r, tr);
        StepSatisfied(lit, list, s.store.watchLists[lit], j, clauses, tr, tr, p, d);
      } else {
        StepMoved(lit, list, list[..j] + list[j + 1..], j, clauses, otherLit, k, tr, p, d, s.model.numVars);
        ReasonsReorder(tr, s.cleaned, s.constraintsPB, clauses, clauses[id := Rewatched(cl, otherLit, k, lit)],
                       s.genWatchList);
        s.store.ReplaceWatch(lit, j, otherLit, k);
        j' := j;
      }
    } else {
      AssertOther(s, lit, p, j, otherLit);
    }
  }

  /** Every literal behind the two watches is false. */
  ghost predicate RestFalse(cl: seq<int>, tr: seq<Elem>) {
    forall i :: 2 <= i < |cl| ==> cl[i] in FalseLits(tr)
  }

  /** No replacement: the other watch is forced, or the clause is falsified. */
  method AssertOther(s: Solver, lit: int, p: nat, j: nat, otherLit: int)
    requires s.Valid() && s.model.HasVar(lit) && s.conflict == NoConflict
    requires p < |s.model.modelStack| && lit in FalseLits(s.model.modelStack)
    requires j < |s.store.watchLists[lit]|
    requires Stepped(lit, s.store.watchLists[lit], j, s.store.clauses, s.model.modelStack, p,
                     LevelOf(s.model.modelStack))
    requires var id := s.store.watchLists[lit][j].id;
             id < |s.store.clauses| && WatchedPair(s.store.clauses[id], lit, otherLit, s.model.numVars)
             && RestFalse(s.store.clauses[id], s.model.modelStack)
    requires otherLit !in TrueLits(s.model.modelStack)
    modifies s`conflict, s.model
    ensures s.Valid() && s.model.lastPropagated == old(s.model.lastPropagated)
    ensures Extends(old(s.model.modelStack), s.model.modelStack)
    ensures s.conflict == NoConflict ==>
              Stepped(lit, s.store.watchLists[lit], j + 1, s.store.clauses, s.model.modelStack, p,
                      LevelOf(s.model.modelStack))
    ensures s.conflict != NoConflict ==>
              WatchesOk(s.model.modelStack, p, s.store.clauses)
              && s.conflict.ClauseConflict? && s.conflict.id < |s.store.clauses|
              && forall x :: x in s.store.clauses[s.conflict.id] ==> x in FalseLits(s.model.modelStack)
  {
    hide ReasonsOk, Mirrors, ClausesOk, WatchListOk, Extends, Stored, TrailOk, ListOk, TrueLits, FalseLits, TrueBy,
         Stepped, WatchesOk, UnitUnder, WatchedPair;
    ghost var tr, list, d := s.model.modelStack, s.store.watchLists[lit], LevelOf(s.model.modelStack);
    ExtendsSelf(tr);
    SteppedWatches(lit, list, j, s.store.clauses, tr, p, d);
    var id := s.store.watchLists[lit][j].id;
    ghost var cl := s.store.clauses[id];
    PairFacts(cl, lit, otherLit, s.model.numVars);
    OthersFalse(cl, lit, otherLit, tr);
    if s.model.IsUndefLit(otherLit) {
      s.SetTrueDueToReason(otherLit, ByClause(id));
      ExtendsPush(tr, tr, Elem(otherLit, d, ByClause(id)));
      NonFalseSnoc(tr, Elem(otherLit, d, ByClause(id)));
      Satisfied(cl, otherLit, s.model.modelStack);
      StepSatisfied(lit, list, list, j, s.store.clauses, tr, s.model.modelStack, p, d);
    } else {
      s.conflict := ClauseConflict(id);
    }
  }

  ghost predicate WatchedPair(cl: seq<int>, lit: int, other: int, n: nat) {
    && |cl| >= 3 && other != lit && 1 <= Var(other) <= n
    && ((cl[0] == lit && cl[1] == other) || (cl[1] == lit && cl[0] == other))
  }

  lemma PairFacts(cl: seq<int>, lit: int, other: int, n: nat)
    requires WatchedPair(cl, lit, other, n)
    ensures |cl| >= 3 && other != lit && 1 <= Var(other) <= n && other in cl
    ensures (cl[0] == lit && cl[1] == other) || (cl[1] == lit && cl[0] == other)
  {
  }

  lemma CandidateFacts(cl: seq<int>, lit: int, other: int, k: nat, idx: nat, n: nat)
    requires ClauseOk(cl, idx, n) && WatchedPair(cl, lit, other, n) && 2 <= k < |cl|
    ensures Replaceable(cl, lit, other, k, n)
  {
  }

  lemma SteppedWatches(lit: int, list: seq<WatchElem>, j: nat, clauses: seq<seq<int>>, tr: seq<Elem>, p: nat, d: nat)
    requires j <= |list| && p <= |tr| && Stepped(lit, list, j, clauses, tr, p, d)
    ensures WatchesOk(tr, p, clauses)
  {
  }

  lemma SteppedEnd(lit: int, list: seq<WatchElem>, clauses: seq<seq<int>>, tr: seq<Elem>, p: nat)
    requires p < |tr| && tr[p].lit == -lit && tr[p].dl == LevelOf(tr)
    requires Stepped(lit, list, |list|, clauses, tr, p, LevelOf(tr))
    ensures WatchesOk(tr, p + 1, clauses)
  {
    assert list[|list|..] == [];
    assert WatchOkAt(tr, p, clauses);
  }

  lemma SteppedStart(lit: int, list: seq<WatchElem>, clauses: seq<seq<int>>, tr: seq<Elem>, p: nat)
    requires p <= |tr| && WatchesOk(tr, p, clauses) && WatchListOk(lit, list, clauses)
    ensures Stepped(lit, list, 0, clauses, tr, p, LevelOf(tr))
  {
    assert list[0..] == list;
  }

  lemma SameClausesTrans(a: seq<seq<int>>, b: seq<seq<int>>, c: seq<seq<int>>)
    requires SameClauses(a, b) && SameClauses(b, c)
    ensures SameClauses(a, c)
  {
    forall k, x | 0 <= k < |a|
      ensures x in a[k] <==> x in c[k]
    {
      assert x in a[k] <==> x in b[k];
    }
  }

  /** visitClauseWatchList: literal lit, at position p of the trail, has just become false. */
  method VisitClauseWatchList(s: Solver, lit: int, p: nat)
    requires s.Valid() && s.model.HasVar(lit) && s.conflict == NoConflict
    requires p < |s.model.modelStack| && s.model.modelStack[p].lit == -lit
    requires s.model.modelStack[p].dl == LevelOf(s.model.modelStack)
    requires WatchesOk(s.model.modelStack, p, s.store.clauses)
    modifies s`conflict, s.model, s.store
    ensures s.Valid() && s.model.lastPropagated == old(s.model.lastPropagated)
    ensures Extends(old(s.model.modelStack), s.model.modelStack)
    ensures SameClauses(old(s.store.clauses), s.store.clauses)
    ensures s.conflict == NoConflict ==> WatchesOk(s.model.modelStack, p + 1, s.store.clauses)
    ensures s.conflict != NoConflict ==>
              WatchesOk(s.model.modelStack, p, s.store.clauses)
              && s.conflict.ClauseConflict? && s.conflict.id < |s.store.clauses|
              && forall x :: x in s.store.clauses[s.conflict.id] ==> x in FalseLits(s.model.modelStack)
  {
    hide ReasonsOk, Mirrors, ClausesOk, WatchListOk, Stored, TrailOk, ListOk, TrueLits, TrueBy,
         Stepped, WatchesOk, SameClauses;
    ghost var tr, clauses := s.model.modelStack, s.store.clauses;
    ExtendsSelf(tr);
    SteppedStart(lit, s.store.watchLists[lit], clauses, tr, p);
    SameClausesSelf(clauses);
    assert -tr[p].lit in FalseLits(tr);
    var list := s.store.watchLists[lit];
    var wl := new WatchElem[|list|](i requires 0 <= i < |list| => list[i]);
    assert wl[..] == list;
    var read, j: nat := 0, 0;
    while read < wl.Length
      invariant s.Valid() && s.conflict == NoConflict && s.model.lastPropagated == old(s.model.lastPropagated)
      invariant Extends(tr, s.model.modelStack) && SameClauses(clauses, s.store.clauses)
      invariant j <= read <= wl.Length && s.store.watchLists[lit] == Compacted(wl[..], j, read)
      invariant Stepped(lit, s.store.watchLists[lit], j, s.store.clauses, s.model.modelStack, p,
                        LevelOf(s.model.modelStack))
      decreases wl.Length - read
    {
      ghost var tr1, clauses1 := s.model.modelStack, s.store.clauses;
      FalseExtends(tr, tr1, lit);
      j, read := VisitSlot(s, lit, p, wl, j, read);
      ExtendsTrans(tr, tr1, s.model.modelStack);
      SameClausesTrans(clauses, clauses1, s.store.clauses);
      if s.conflict != NoConflict {
        var n := CloseGap(wl, j, read);
        s.store.Resize(lit, wl[..n]);
        return;
      }
    }
    var n := CloseGap(wl, j, read);
    s.store.Resize(lit, wl[..n]);
    assert s.model.modelStack[..|tr|][p] == tr[p];
    SteppedEnd(lit, s.store.watchLists[lit], s.store.clauses, s.model.modelStack, p);
  }

  /** One round of the loop with its two iterators: *kept++ = *read++, then the entry is updated in place or taken
      back. */
  method VisitSlot(s: Solver, lit: int, p: nat, wl: array<WatchElem>, kept: nat, read: nat)
    returns (kept': nat, read': nat)
    requires s.Valid() && s.model.HasVar(lit) && s.conflict == NoConflict
    requires p < |s.model.modelStack| && lit in FalseLits(s.model.modelStack)
    requires kept <= read < wl.Length && s.store.watchLists[lit] == Compacted(wl[..], kept, read)
    requires Stepped(lit, s.store.watchLists[lit], kept, s.store.clauses, s.model.modelStack, p,
                     LevelOf(s.model.modelStack))
    modifies s`conflict, s.model, s.store, wl
    ensures s.Valid() && s.model.lastPropagated == old(s.model.lastPropagated)
    ensures Extends(old(s.model.modelStack), s.model.modelStack)
    ensures SameClauses(old(s.store.clauses), s.store.clauses)
    ensures read' == read + 1 && kept' <= read' && s.store.watchLists[lit] == Compacted(wl[..], kept', read')
    ensures s.conflict == NoConflict ==>
              Stepped(lit, s.store.watchLists[lit], kept', s.store.clauses, s.model.modelStack, p,
                      LevelOf(s.model.modelStack))
    ensures s.conflict != NoConflict ==>
              WatchesOk(s.model.modelStack, p, s.store.clauses)
              && s.conflict.ClauseConflict? && s.conflict.id < |s.store.clauses|
              && forall x :: x in s.store.clauses[s.conflict.id] ==> x in FalseLits(s.model.modelStack)
  {
    hide ReasonsOk, Mirrors, ClausesOk, WatchListOk, Stored, TrailOk, ListOk, TrueLits, FalseLits, TrueBy, Stepped,
         WatchesOk, SameClauses, Extends, ListsOk, BinsKnown, BinsPaired, OneEntry;
    ghost var buf, list := wl[..], s.store.watchLists[lit];
    kept', read' := kept + 1, read + 1;
    wl[kept] := wl[read];
    assert wl[..] == buf[kept := buf[read]];
    var j := VisitWatch(s, lit, p, kept);
    EntryCases(list, kept, s.store.watchLists[lit], j);
    if j == kept {
      CompactDrop(buf, kept, read, buf[read], s.store.watchLists[lit]);
      kept' := kept;
    } else {
      CompactKeep(buf, kept, read, s.store.watchLists[lit]);
      wl[kept] := s.store.watchLists[lit][kept];
      assert wl[..] == buf[kept := s.store.watchLists[lit][kept]];
    }
  }

  lemma EntryCases(list: seq<WatchElem>, j: nat, list': seq<WatchElem>, j': nat)
    requires OneEntry(list, j, list', j')
    ensures j' == j || (j' == j + 1 && j < |list'|)
  {
  }

  lemma SameClausesSelf(cs: seq<seq<int>>)
    ensures SameClauses(cs, cs)
  {
  }
}
