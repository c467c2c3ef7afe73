/** What propagation keeps across decision levels: binary and watched clauses, settled constraints,
    and how these invariants survive pushes and whole-level backjumps. */
module Closure {
  import opened PBCore
  import opened Trail
  import opened Watches
  import opened Engine
  import BackjumpLevel

  /** Literal t is true, and was so at level d. */
  ghost predicate TrueBy(tr: seq<Elem>, t: int, d: nat) {
    exists i :: 0 <= i < |tr| && tr[i].lit == t && tr[i].dl <= d
  }

  /** Every binary clause of the literal falsified by tr[i] has its other literal true by then. */
  ghost predicate BinOkAt(tr: seq<Elem>, i: nat, gen: map<int, seq<GenElem>>)
    requires i < |tr|
  {
    -tr[i].lit in gen && BinListOk(tr, gen[-tr[i].lit], tr[i].dl)
  }

  ghost predicate BinListOk(tr: seq<Elem>, list: seq<GenElem>, d: nat) {
    forall j :: 0 <= j < |list| && list[j].Bin? ==> TrueBy(tr, list[j].other, d)
  }

  ghost predicate BinsOk(tr: seq<Elem>, p: nat, gen: map<int, seq<GenElem>>)
    requires p <= |tr|
  {
    forall i :: 0 <= i < p ==> BinOkAt(tr, i, gen)
  }

  ghost predicate Witnessed(cl: seq<int>, tr: seq<Elem>, d: nat) {
    exists x :: x in cl && TrueBy(tr, x, d)
  }

  /** Every clause watching the literal falsified by tr[i] was satisfied by then. */
  ghost predicate WatchOkAt(tr: seq<Elem>, i: nat, clauses: seq<seq<int>>)
    requires i < |tr|
  {
    forall k :: 0 <= k < |clauses| && Watches.Watches(clauses[k], -tr[i].lit) ==> Witnessed(clauses[k], tr, tr[i].dl)
  }

  ghost predicate WatchesOk(tr: seq<Elem>, p: nat, clauses: seq<seq<int>>)
    requires p <= |tr|
  {
    forall i :: 0 <= i < p ==> WatchOkAt(tr, i, clauses)
  }

  ghost predicate SettledAt(pbs: seq<PB>, tr: seq<Elem>) {
    AllSettled(pbs, NonFalse(tr), tr)
  }

  /** Below the current level nothing conflicts and nothing is left to propagate. */
  ghost predicate LevelsClosed(pbs: seq<PB>, tr: seq<Elem>) {
    forall d: nat :: d < LevelOf(tr) ==> SettledAt(pbs, LevelPrefix(tr, d))
  }

  /** Only literals of the current level may still be unpropagated. */
  ghost predicate LowerPropagated(tr: seq<Elem>, lp: int) {
    forall i :: 0 <= i < |tr| && lp < i ==> tr[i].dl == LevelOf(tr)
  }

  /** tr' continues tr on the same level, by propagation only. */
  ghost predicate Extends(tr: seq<Elem>, tr': seq<Elem>) {
    && |tr| <= |tr'| && tr'[..|tr|] == tr
    && LevelOf(tr') == LevelOf(tr)
    && forall i :: |tr| <= i < |tr'| ==> tr'[i].dl == LevelOf(tr) && tr'[i].reason != NoReason
  }

  lemma ExtendsSelf(tr: seq<Elem>)
    ensures Extends(tr, tr)
  {
    assert tr[..|tr|] == tr;
  }

  lemma ExtendsPush(tr0: seq<Elem>, tr: seq<Elem>, e: Elem)
    requires Extends(tr0, tr) && e.dl == LevelOf(tr) && e.reason != NoReason
    ensures Extends(tr0, tr + [e])
  {
    assert (tr + [e])[..|tr0|] == tr[..|tr0|];
  }

  lemma ExtendsTrans(tr0: seq<Elem>, tr1: seq<Elem>, tr2: seq<Elem>)
    requires Extends(tr0, tr1) && Extends(tr1, tr2)
    ensures Extends(tr0, tr2)
  {
    assert tr2[..|tr0|] == tr1[..|tr0|];
    forall i | |tr0| <= i < |tr2|
      ensures tr2[i].dl == LevelOf(tr0) && tr2[i].reason != NoReason
    {
      assert i < |tr1| ==> tr2[..|tr1|][i] == tr1[i];
    }
  }

  lemma TrueByExtends(tr: seq<Elem>, tr': seq<Elem>, t: int, d: nat)
    requires Extends(tr, tr') && TrueBy(tr, t, d)
    ensures TrueBy(tr', t, d)
  {
    var i :| 0 <= i < |tr| && tr[i].lit == t && tr[i].dl <= d;
    assert tr'[..|tr|][i] == tr[i];
  }

  lemma BinsExtend(tr: seq<Elem>, tr': seq<Elem>, p: nat, gen: map<int, seq<GenElem>>)
    requires Extends(tr, tr') && p <= |tr| && BinsOk(tr, p, gen)
    ensures BinsOk(tr', p, gen)
  {
    forall i | 0 <= i < p
      ensures BinOkAt(tr', i, gen)
    {
      assert BinOkAt(tr, i, gen) && tr'[..|tr|][i] == tr[i];
      var list := gen[-tr[i].lit];
      forall j | 0 <= j < |list| && list[j].Bin?
        ensures TrueBy(tr', list[j].other, tr[i].dl)
      {
        TrueByExtends(tr, tr', list[j].other, tr[i].dl);
      }
    }
  }

  lemma WitnessedExtends(cl: seq<int>, tr: seq<Elem>, tr': seq<Elem>, d: nat)
    requires Extends(tr, tr') && Witnessed(cl, tr, d)
    ensures Witnessed(cl, tr', d)
  {
    var x :| x in cl && TrueBy(tr, x, d);
    TrueByExtends(tr, tr', x, d);
  }

  lemma WatchesExtend(tr: seq<Elem>, tr': seq<Elem>, p: nat, clauses: seq<seq<int>>)
    requires Extends(tr, tr') && p <= |tr| && WatchesOk(tr, p, clauses)
    ensures WatchesOk(tr', p, clauses)
  {
    forall i | 0 <= i < p
      ensures WatchOkAt(tr', i, clauses)
    {
      assert WatchOkAt(tr, i, clauses) && tr'[..|tr|][i] == tr[i];
      forall k | 0 <= k < |clauses| && Watches.Watches(clauses[k], -tr[i].lit)
        ensures Witnessed(clauses[k], tr', tr[i].dl)
      {
        WitnessedExtends(clauses[k], tr, tr', tr[i].dl);
      }
    }
  }

  lemma AssignedExtends(tr: seq<Elem>, tr': seq<Elem>, l: int)
    requires Extends(tr, tr') && Assigned(l, tr)
    ensures Assigned(l, tr')
  {
    NonFalseShrinks(tr', |tr|);
  }

  lemma IndicesExtend(pbs: seq<PB>, maxWIdx: seq<nat>, stamp: seq<nat>, now: nat, tr: seq<Elem>, tr': seq<Elem>)
    requires IndicesOk(pbs, maxWIdx, stamp, now, tr) && Extends(tr, tr')
    ensures IndicesOk(pbs, maxWIdx, stamp, now, tr')
  {
    forall k | 0 <= k < |pbs|
      ensures SavedIndexOk(pbs[k], maxWIdx[k], stamp[k], now, tr')
    {
      assert SavedIndexOk(pbs[k], maxWIdx[k], stamp[k], now, tr);
      if stamp[k] == now {
        forall i | 0 <= i < maxWIdx[k]
          ensures Assigned(pbs[k].lhs[i].lit, tr')
        {
          AssignedExtends(tr, tr', pbs[k].lhs[i].lit);
        }
      }
    }
  }

  lemma SettledExtends(c: PB, s: int, tr: seq<Elem>, tr': seq<Elem>)
    requires Settled(c, s, tr) && Extends(tr, tr')
    ensures Settled(c, s, tr')
  {
    forall i | 0 <= i < |c.lhs| && c.lhs[i].coef > s
      ensures Assigned(c.lhs[i].lit, tr')
    {
      AssignedExtends(tr, tr', c.lhs[i].lit);
    }
  }

  lemma AllSettledExtends(pbs: seq<PB>, N: Lits, tr: seq<Elem>, tr': seq<Elem>)
    requires AllSettled(pbs, N, tr) && Extends(tr, tr')
    ensures AllSettled(pbs, N, tr')
  {
    forall k | 0 <= k < |pbs|
      ensures Settled(pbs[k], Slack(pbs[k], N), tr')
    {
      SettledExtends(pbs[k], Slack(pbs[k], N), tr, tr');
    }
  }

  lemma LowerExtends(tr: seq<Elem>, tr': seq<Elem>, lp: int)
    requires LowerPropagated(tr, lp) && Extends(tr, tr')
    ensures LowerPropagated(tr', lp)
  {
    forall i | 0 <= i < |tr'| && lp < i
      ensures tr'[i].dl == LevelOf(tr')
    {
      assert i < |tr| ==> tr'[..|tr|][i] == tr[i];
    }
  }

  /** Lower levels do not see a continuation of the current one. */
  lemma {:induction false} LowerPrefixSame(tr: seq<Elem>, tr': seq<Elem>, d: nat)
    requires Extends(tr, tr') && d < LevelOf(tr)
    ensures LevelPrefix(tr', d) == LevelPrefix(tr, d)
    decreases |tr'|
  {
    if |tr'| > |tr| {
      var u := tr'[..|tr'| - 1];
      assert u[..|tr|] == tr'[..|tr|];
      assert |u| > |tr| ==> u[|u| - 1] == tr'[|u| - 1];
      assert |u| == |tr| ==> u == tr;
      LowerPrefixSame(tr, u, d);
    } else {
      assert tr' == tr;
    }
  }

  lemma LevelsClosedExtends(pbs: seq<PB>, tr: seq<Elem>, tr': seq<Elem>)
    requires LevelsClosed(pbs, tr) && Extends(tr, tr')
    ensures LevelsClosed(pbs, tr')
  {
    forall d: nat | d < LevelOf(tr')
      ensures SettledAt(pbs, LevelPrefix(tr', d))
    {
      LowerPrefixSame(tr, tr', d);
    }
  }

  /** At most one trail element per variable. */
  lemma TrailBounded(tr: seq<Elem>, n: nat)
    requires OneEach(tr) && forall i :: 0 <= i < |tr| ==> 1 <= Var(tr[i].lit) <= n
    ensures |tr| <= n
  {
    TrailFits(tr, UpTo(n));
  }

  lemma {:induction false} TrailFits(tr: seq<Elem>, T: set<int>)
    requires OneEach(tr) && forall i :: 0 <= i < |tr| ==> Var(tr[i].lit) in T
    ensures |tr| <= |T|
  {
    if |tr| > 0 {
      TrailFits(tr[..|tr| - 1], T - {Var(tr[|tr| - 1].lit)});
    }
  }

  ghost function UpTo(n: nat): (T: set<int>)
    ensures |T| == n
    ensures forall v: int :: v in T <==> 1 <= v <= n
  {
    if n == 0 then {} else UpTo(n - 1) + {n as int}
  }

  // ----- a backjump to a lower level -----

  lemma TrueByPrefix(tr: seq<Elem>, n: nat, d: nat, t: int, e: nat)
    requires n <= |tr| && e <= d && TrueBy(tr, t, e) && forall i :: n <= i < |tr| ==> tr[i].dl > d
    ensures TrueBy(tr[..n], t, e)
  {
    var i :| 0 <= i < |tr| && tr[i].lit == t && tr[i].dl <= e;
    assert i < n && tr[..n][i] == tr[i];
  }

  /** The part of the clause invariants that survives popping literals of the current level one by one. */
  ghost predicate LowerClauses(tr: seq<Elem>, clauses: seq<seq<int>>, gen: map<int, seq<GenElem>>) {
    forall i :: 0 <= i < |tr| && tr[i].dl < LevelOf(tr) ==> BinOkAt(tr, i, gen) && WatchOkAt(tr, i, clauses)
  }

  lemma LowerClausesOfOk(tr: seq<Elem>, lp: int, clauses: seq<seq<int>>, gen: map<int, seq<GenElem>>)
    requires -1 <= lp < |tr| && LowerPropagated(tr, lp)
    requires BinsOk(tr, lp + 1, gen) && WatchesOk(tr, lp + 1, clauses)
    ensures LowerClauses(tr, clauses, gen)
  {
  }

  lemma LowerClausesPop(tr: seq<Elem>, clauses: seq<seq<int>>, gen: map<int, seq<GenElem>>)
    requires |tr| > 0 && LevelsGrow(tr) && LowerClauses(tr, clauses, gen)
    ensures LowerClauses(tr[..|tr| - 1], clauses, gen)
  {
    var s := tr[..|tr| - 1];
    var n := |s|;
    forall i | 0 <= i < n && s[i].dl < LevelOf(s)
      ensures BinOkAt(s, i, gen) && WatchOkAt(s, i, clauses)
    {
      assert BinOkAt(tr, i, gen) && WatchOkAt(tr, i, clauses) && s[i] == tr[i];
      PrefixKeepsClauses(tr, n, i, clauses, gen);
    }
  }

  /** A cut above the level of position i loses none of its witnesses. */
  lemma PrefixKeepsClauses(tr: seq<Elem>, n: nat, i: nat, clauses: seq<seq<int>>, gen: map<int, seq<GenElem>>)
    requires i < n <= |tr| && (forall j :: n <= j < |tr| ==> tr[j].dl > tr[i].dl)
    requires BinOkAt(tr, i, gen) && WatchOkAt(tr, i, clauses)
    ensures BinOkAt(tr[..n], i, gen) && WatchOkAt(tr[..n], i, clauses)
  {
    var s, d := tr[..n], tr[i].dl;
    var list := gen[-tr[i].lit];
    forall j | 0 <= j < |list| && list[j].Bin?
      ensures TrueBy(s, list[j].other, d)
    {
      TrueByPrefix(tr, n, d, list[j].other, d);
    }
    forall k | 0 <= k < |clauses| && Watches.Watches(clauses[k], -tr[i].lit)
      ensures Witnessed(clauses[k], s, d)
    {
      var x :| x in clauses[k] && TrueBy(tr, x, d);
      TrueByPrefix(tr, n, d, x, d);
    }
  }

  lemma LowerPropagatedPop(tr: seq<Elem>, lp: int)
    requires |tr| > 0 && -1 <= lp < |tr| && LevelsGrow(tr) && LowerPropagated(tr, lp)
    ensures LowerPropagated(tr[..|tr| - 1], if lp == |tr| - 1 then lp - 1 else lp)
  {
  }

  lemma LevelsClosedPop(pbs: seq<PB>, tr: seq<Elem>)
    requires |tr| > 0 && LevelsGrow(tr) && LevelsClosed(pbs, tr)
    ensures LevelsClosed(pbs, tr[..|tr| - 1])
  {
    var s := tr[..|tr| - 1];
    forall d: nat | d < LevelOf(s)
      ensures SettledAt(pbs, LevelPrefix(s, d))
    {
      assert LevelPrefix(tr, d) == LevelPrefix(s, d);
    }
  }

  /** A backjump restores the clause invariants, and everything that is left was propagated. */
  lemma BackjumpKeepsClauses(tr: seq<Elem>, lp: int, d: nat, clauses: seq<seq<int>>, gen: map<int, seq<GenElem>>)
    requires TrailOk(tr) && -1 <= lp < |tr| && d < LevelOf(tr) && LowerPropagated(tr, lp)
    requires LowerClauses(tr, clauses, gen)
    ensures var s := LevelPrefix(tr, d);
            |s| <= lp + 1 && BinsOk(s, |s|, gen) && WatchesOk(s, |s|, clauses)
  {
    var n := BackjumpLevel.LevelPrefixIsPrefix(tr, d);
    var s := tr[..n];
    assert n > 0 ==> tr[n - 1].dl <= d;
    forall i | 0 <= i < n
      ensures BinOkAt(s, i, gen) && WatchOkAt(s, i, clauses)
    {
      assert BinOkAt(tr, i, gen) && WatchOkAt(tr, i, clauses) && s[i] == tr[i];
      PrefixKeepsClauses(tr, n, i, clauses, gen);
    }
  }

  lemma {:induction false} LevelPrefixTwice(tr: seq<Elem>, d: nat, e: nat)
    requires e <= d
    ensures LevelPrefix(LevelPrefix(tr, d), e) == LevelPrefix(tr, e)
  {
    if |tr| > 0 && tr[|tr| - 1].dl > d {
      LevelPrefixTwice(tr[..|tr| - 1], d, e);
    }
  }

  lemma {:induction false} LevelPrefixLevel(tr: seq<Elem>, d: nat)
    ensures LevelOf(LevelPrefix(tr, d)) <= d
  {
    if |tr| > 0 && tr[|tr| - 1].dl > d {
      LevelPrefixLevel(tr[..|tr| - 1], d);
    }
  }

  /** A backjump lands in a settled state whose own lower levels are settled. */
  lemma BackjumpKeepsLevels(pbs: seq<PB>, tr: seq<Elem>, d: nat)
    requires LevelsClosed(pbs, tr) && d < LevelOf(tr)
    ensures SettledAt(pbs, LevelPrefix(tr, d)) && LevelsClosed(pbs, LevelPrefix(tr, d))
  {
    var s := LevelPrefix(tr, d);
    LevelPrefixLevel(tr, d);
    forall e: nat | e < LevelOf(s)
      ensures SettledAt(pbs, LevelPrefix(s, e))
    {
      LevelPrefixTwice(tr, d, e);
    }
  }

  /** Pushing a decision on a fully propagated, settled trail closes one more level. */
  lemma DecisionClosesLevel(pbs: seq<PB>, tr: seq<Elem>, e: Elem)
    requires LevelsClosed(pbs, tr) && SettledAt(pbs, tr) && e.dl == LevelOf(tr) + 1
    ensures LevelsClosed(pbs, tr + [e])
  {
    var s := tr + [e];
    assert s[..|tr|] == tr;
    forall d: nat | d < LevelOf(s)
      ensures SettledAt(pbs, LevelPrefix(s, d))
    {
      assert LevelPrefix(s, d) == LevelPrefix(tr, d);
      if d == LevelOf(tr) {
        assert LevelPrefix(tr, d) == tr;
      }
    }
  }
}
