/** Where a falsified clause asserts its most recent literal (conflictAnalysisAndBackjump, ConflictAnalysis.cpp). */
module AssertionLevel {
  import opened PBCore
  import opened Trail
  import opened Watches
  import opened Engine
  import opened Repair
  import opened BackjumpLevel
  import opened Closure
  import opened PropagateLoop
  import opened LemmaShortening
  import opened ClauseLearning

  lemma {:induction false} CountNone(s: seq<Term>, tr: seq<Elem>, d: nat)
    requires forall i :: 0 <= i < |s| ==> !Above(tr, s[i].lit, d)
    ensures CountAbove(s, tr, d) == 0
  {
    if |s| > 0 {
      CountNone(s[..|s| - 1], tr, d);
    }
  }

  lemma {:induction false} CountAtMostOne(s: seq<Term>, tr: seq<Elem>, d: nat, p: nat)
    requires forall i :: 0 <= i < |s| && i != p ==> !Above(tr, s[i].lit, d)
    ensures CountAbove(s, tr, d) <= 1
  {
    if |s| > 0 {
      if p == |s| - 1 {
        CountNone(s[..|s| - 1], tr, d);
      } else {
        CountAtMostOne(s[..|s| - 1], tr, d, p);
      }
    }
  }

  lemma {:induction false} CountSome(s: seq<Term>, tr: seq<Elem>, d: nat, i: nat)
    requires i < |s| && Above(tr, s[i].lit, d)
    ensures CountAbove(s, tr, d) >= 1
  {
    if i < |s| - 1 {
      CountSome(s[..|s| - 1], tr, d, i);
    }
  }

  lemma {:induction false} CountTwo(s: seq<Term>, tr: seq<Elem>, d: nat, i: nat, j: nat)
    requires i < j < |s| && Above(tr, s[i].lit, d) && Above(tr, s[j].lit, d)
    ensures CountAbove(s, tr, d) >= 2
  {
    if j == |s| - 1 {
      CountSome(s[..j], tr, d, i);
    } else {
      CountTwo(s[..|s| - 1], tr, d, i, j);
    }
  }

  lemma LevelIsAbove(model: Model, l: int, d: nat)
    requires model.Valid() && OnTrail(model, l)
    ensures Above(model.modelStack, l, d) <==> model.LevelOfLit(l) > d
  {
    AboveMeans(model.modelStack, l, model.HeightOf(l), d);
  }

  /** The position the source calls posUIP, and whether its level is unique. */
  ghost predicate Uip(model: Model, lits: seq<int>, pos: nat, numUIP: nat)
    requires model.Valid() && AllOnTrail(model, lits)
    reads model
  {
    && pos < |lits| && numUIP >= 1
    && (forall i :: 0 <= i < |lits| ==> model.LevelOfLit(lits[i]) <= model.LevelOfLit(lits[pos]))
    && (numUIP == 1 ==> forall i :: 0 <= i < |lits| && i != pos ==>
          model.LevelOfLit(lits[i]) < model.LevelOfLit(lits[pos]))
    && (numUIP != 1 ==> exists i :: 0 <= i < pos && model.LevelOfLit(lits[i]) == model.LevelOfLit(lits[pos]))
  }

  lemma UipStep(model: Model, lits: seq<int>, l: int, pos: nat, numUIP: nat)
    requires model.Valid() && AllOnTrail(model, lits) && OnTrail(model, l) && Uip(model, lits, pos, numUIP)
    ensures AllOnTrail(model, lits + [l])
    ensures model.LevelOfLit(l) == model.LevelOfLit(lits[pos]) ==> Uip(model, lits + [l], |lits|, numUIP + 1)
    ensures model.LevelOfLit(l) > model.LevelOfLit(lits[pos]) ==> Uip(model, lits + [l], |lits|, 1)
    ensures model.LevelOfLit(l) < model.LevelOfLit(lits[pos]) ==> Uip(model, lits + [l], pos, numUIP)
  {
    hide TrailOk, Mirrors, Model.Valid;
    var s := lits + [l];
    assert s[pos] == lits[pos] && s[|lits|] == l;
    assert forall i :: 0 <= i < |lits| ==> s[i] == lits[i];
    if numUIP != 1 {
      var i :| 0 <= i < pos && model.LevelOfLit(lits[i]) == model.LevelOfLit(lits[pos]);
      assert s[i] == lits[i];
    }
  }

  /** The scan over the literals of the falsified clause. */
  method ScanClause(model: Model, c: PB) returns (lits: seq<int>, posUIP: nat, numUIP: nat)
    requires model.Valid() && WellFormed(c) && KnownVars(c.lhs, model.numVars) && |c.lhs| > 0
    requires AllFalse(c.lhs, model.modelStack)
    ensures |lits| == |c.lhs| && forall i :: 0 <= i < |lits| ==> lits[i] == c.lhs[i].lit
    ensures AllOnTrail(model, lits) && AllFalseLits(lits, model.modelStack) && Uip(model, lits, posUIP, numUIP)
  {
    hide TrailOk, Mirrors, Uip, FalseLits, TrueLits;
    lits := [];
    posUIP, numUIP := 0, 0;
    var maxDL := -1;
    for i := 0 to |c.lhs|
      invariant |lits| == i && (forall j :: 0 <= j < i ==> lits[j] == c.lhs[j].lit) && AllOnTrail(model, lits)
      invariant i == 0 ==> maxDL == -1
      invariant i > 0 ==> posUIP < |lits| && maxDL == model.LevelOfLit(lits[posUIP]) && Uip(model, lits, posUIP, numUIP)
    {
      var lit := c.lhs[i].lit;
      FalseIsAssigned(model, lit);
      var dl := model.LevelOfLit(lit);
      if i > 0 {
        UipStep(model, lits, lit, posUIP, numUIP);
      } else {
        UipFirst(model, lit);
        assert [] + [lit] == [lit];
      }
      if dl == maxDL {
        posUIP, numUIP := i, numUIP + 1;
      } else if dl > maxDL {
        posUIP, numUIP, maxDL := i, 1, dl;
      }
      lits := lits + [lit];
    }
  }

  lemma UipFirst(model: Model, l: int)
    requires model.Valid() && OnTrail(model, l)
    ensures AllOnTrail(model, [l]) && Uip(model, [l], 0, 1)
  {
  }

  // ----- the least level of a clause, in terms of its literals -----

  ghost predicate LitsOf(c: PB, lits: seq<int>) {
    |lits| == |c.lhs| && forall i :: 0 <= i < |lits| ==> lits[i] == c.lhs[i].lit
  }

  /** At the least level at most the UIP is above, and below it something else is. */
  lemma LeastLevelCounts(c: PB, tr: seq<Elem>, dl: nat)
    requires TrailOk(tr) && Positive(c.lhs) && IsClause(c) && AllFalse(c.lhs, tr) && LeastLevel(c, tr, dl)
    ensures CountAbove(c.lhs, tr, dl) <= 1
    ensures dl > 0 ==> CountAbove(c.lhs, tr, dl - 1) >= 2
  {
    ClauseAtLevel(c, tr, dl);
    if dl > 0 {
      ClauseAtLevel(c, tr, dl - 1);
      assert !ConflictsOrPropagates(c, LevelPrefix(tr, dl - 1));
    }
  }

  /** With one literal at the highest level: everything else is at level dl or below, with equality attained,
      and the UIP is above dl unless the clause is a unit of level 0. */
  lemma UniqueUip(model: Model, c: PB, lits: seq<int>, pos: nat, dl: nat)
    requires model.Valid() && Positive(c.lhs) && IsClause(c) && AllFalse(c.lhs, model.modelStack)
    requires LeastLevel(c, model.modelStack, dl) && LitsOf(c, lits) && AllOnTrail(model, lits)
    requires Uip(model, lits, pos, 1)
    ensures forall i :: 0 <= i < |lits| && i != pos ==> model.LevelOfLit(lits[i]) <= dl
    ensures dl > 0 ==> exists i :: 0 <= i < |lits| && i != pos && model.LevelOfLit(lits[i]) == dl
    ensures model.LevelOfLit(lits[pos]) > dl || (dl == 0 && |lits| == 1)
  {
    hide Mirrors, Weight, LeastLevel, FalseLits, TrueLits, LevelPrefix;
    var tr := model.modelStack;
    LeastLevelCounts(c, tr, dl);
    forall i, d: nat | 0 <= i < |lits|
      ensures Above(tr, c.lhs[i].lit, d) <==> model.LevelOfLit(lits[i]) > d
    {
      LevelIsAbove(model, lits[i], d);
    }
    forall i | 0 <= i < |lits| && i != pos
      ensures model.LevelOfLit(lits[i]) <= dl
    {
      if model.LevelOfLit(lits[i]) > dl {
        CountTwo(c.lhs, tr, dl, if i < pos then i else pos, if i < pos then pos else i);
      }
    }
    if dl > 0 && forall i :: 0 <= i < |lits| && i != pos ==> model.LevelOfLit(lits[i]) != dl {
      CountAtMostOne(c.lhs, tr, dl - 1, pos);
    }
    if dl == 0 && |lits| > 1 {
      var q := if pos == 0 then 1 else 0;
      assert model.LevelOfLit(lits[q]) < model.LevelOfLit(lits[pos]);
    }
  }

  /** With several literals at the highest level the clause is still falsified at dl. */
  lemma SeveralUips(model: Model, c: PB, lits: seq<int>, pos: nat, numUIP: nat, dl: nat)
    requires model.Valid() && Positive(c.lhs) && IsClause(c) && AllFalse(c.lhs, model.modelStack)
    requires LeastLevel(c, model.modelStack, dl) && LitsOf(c, lits) && AllOnTrail(model, lits)
    requires Uip(model, lits, pos, numUIP) && numUIP != 1
    ensures Slack(c, NonFalse(LevelPrefix(model.modelStack, dl))) < 0
  {
    hide Mirrors, Weight, LeastLevel, FalseLits, TrueLits, LevelPrefix, MaxUndef;
    var tr := model.modelStack;
    LeastLevelCounts(c, tr, dl);
    var q :| 0 <= q < pos && model.LevelOfLit(lits[q]) == model.LevelOfLit(lits[pos]);
    forall i | 0 <= i < |lits|
      ensures Above(tr, c.lhs[i].lit, dl) <==> model.LevelOfLit(lits[i]) > dl
    {
      LevelIsAbove(model, lits[i], dl);
    }
    if model.LevelOfLit(lits[pos]) > dl {
      CountTwo(c.lhs, tr, dl, q, pos);
    }
    CountNone(c.lhs, tr, dl);
    CountTells(c.lhs, tr, dl);
  }

  // ----- from the falsified clause to the asserted literal -----

  /** swap(lemma[0], lemma[posUIP]). */
  function UipFirstOrder(lits: seq<int>, pos: nat): (r: seq<int>)
    requires pos < |lits|
    ensures |r| == |lits| && r[0] == lits[pos]
  {
    lits[0 := lits[pos]][pos := lits[0]]
  }

  lemma SwapKeepsLits(lits: seq<int>, pos: nat)
    requires pos < |lits|
    ensures SameLits(UipFirstOrder(lits, pos), lits)
  {
    var r := UipFirstOrder(lits, pos);
    forall x | x in lits
      ensures x in r
    {
      var i :| 0 <= i < |lits| && lits[i] == x;
      assert r[if i == 0 then pos else if i == pos then 0 else i] == x;
    }
    if DistinctLitVars(lits) {
      forall i, j | 0 <= i < j < |r|
        ensures Var(r[i]) != Var(r[j])
      {
        var i' := if i == 0 then pos else if i == pos then 0 else i;
        var j' := if j == 0 then pos else if j == pos then 0 else j;
        assert r[i] == lits[i'] && r[j] == lits[j'] && i' != j';
        assert i' < j' || j' < i';
      }
    }
  }

  /** The shortened lemma, seen from the level it will be asserted at. */
  ghost predicate JumpsTo(model: Model, short: seq<int>, dl: nat)
    requires model.Valid()
    reads model
  {
    && |short| > 0 && DistinctLitVars(short) && AllOnTrail(model, short) && AllFalseLits(short, model.modelStack)
    && (forall i :: 1 <= i < |short| ==> model.LevelOfLit(short[i]) <= dl)
    && (|short| > 1 ==> model.LevelOfLit(short[1]) == dl < model.LevelOfLit(short[0]))
    && (|short| == 1 ==> dl == 0)
  }

  /** The UIP is above every other literal, and the second highest level is dl. */
  ghost predicate Ranking(model: Model, lits: seq<int>, dl: nat)
    requires model.Valid() && AllOnTrail(model, lits)
    reads model
  {
    && |lits| > 0 && DistinctLitVars(lits)
    && (forall x :: x in lits && x != lits[0] ==> OnTrail(model, x) && model.LevelOfLit(x) <= dl)
    && (dl > 0 ==> exists x :: x in lits && x != lits[0] && OnTrail(model, x) && model.LevelOfLit(x) == dl)
    && (model.LevelOfLit(lits[0]) > dl || (dl == 0 && |lits| == 1))
  }

  lemma UniqueUipRanks(model: Model, c: PB, lits: seq<int>, pos: nat, dl: nat)
    requires model.Valid() && WellFormed(c) && IsClause(c) && AllFalse(c.lhs, model.modelStack)
    requires LeastLevel(c, model.modelStack, dl) && LitsOf(c, lits) && AllOnTrail(model, lits)
    requires Uip(model, lits, pos, 1)
    ensures AllOnTrail(model, UipFirstOrder(lits, pos)) && Ranking(model, UipFirstOrder(lits, pos), dl)
  {
    hide TrailOk, Mirrors, LeastLevel, AllFalse, Model.Valid;
    var r := UipFirstOrder(lits, pos);
    UniqueUip(model, c, lits, pos, dl);
    SwapKeepsLits(lits, pos);
    assert DistinctLitVars(lits);
    forall x | x in r && x != r[0]
      ensures OnTrail(model, x) && model.LevelOfLit(x) <= dl
    {
      assert x in lits;
      var i :| 0 <= i < |lits| && lits[i] == x;
      assert i != pos;
    }
    if dl > 0 {
      var i :| 0 <= i < |lits| && i != pos && model.LevelOfLit(lits[i]) == dl;
      assert Var(lits[i]) != Var(lits[pos]) by {
        assert i < pos || pos < i;
      }
      assert lits[i] in lits && lits[i] in r && lits[i] != r[0];
    }
  }

  /** Shortening keeps the ranking, and the sort brings a literal of level dl to the second place. */
  lemma ShortenedJumps(s: Solver, lits: seq<int>, short: seq<int>, dl: nat)
    requires s.Valid() && AllOnTrail(s.model, lits) && Ranking(s.model, lits, dl) && Shortened(s, lits, short)
    requires AllFalseLits(short, s.model.modelStack)
    ensures JumpsTo(s.model, short, dl)
  {
    hide TrailOk, Mirrors, Model.Valid, Solver.Valid, AllFalseLits, LevelsKept, SameLits;
    assert s.model.Valid() by {
      ValidModel(s);
    }
    forall i | 1 <= i < |short|
      ensures s.model.LevelOfLit(short[i]) <= dl
    {
      assert short[i] in short && Var(short[i]) != Var(short[0]);
    }
    if dl > 0 {
      SecondLevelKept(s, lits, short, dl);
    }
    TwoNeedTwo(short, lits);
  }

  lemma TwoNeedTwo(short: seq<int>, lits: seq<int>)
    requires DistinctLitVars(short) && forall x :: x in short ==> x in lits
    ensures |short| > 1 ==> |lits| != 1
  {
    if |short| > 1 {
      assert short[0] in short && short[1] in short && Var(short[0]) != Var(short[1]);
    }
  }

  lemma ValidModel(s: Solver)
    requires s.Valid()
    ensures s.model.Valid()
  {
  }

  lemma SecondLevelKept(s: Solver, lits: seq<int>, short: seq<int>, dl: nat)
    requires s.Valid() && AllOnTrail(s.model, lits) && Ranking(s.model, lits, dl) && Shortened(s, lits, short) && dl > 0
    ensures |short| > 1 && s.model.LevelOfLit(short[1]) >= dl
  {
    hide TrailOk, Mirrors, ReasonsOk, ListsOk, BinsKnown, ClausesOk, ListsWatch, Stored, DistinctLitVars;
    var tr := s.model.modelStack;
    var x :| x in lits && x != lits[0] && OnTrail(s.model, x) && s.model.LevelOfLit(x) == dl;
    var k :| 0 <= k < |lits| && lits[k] == x;
    var h := s.model.HeightOf(x);
    assert Var(lits[k]) == Var(tr[h].lit) && Var(lits[k]) in VarSet(lits);
    assert LevelIn(tr, tr[h].dl, VarSet(short));
    var b :| 0 <= b < |tr| && tr[b].dl == dl && Var(tr[b].lit) in VarSet(short);
    var m :| 0 <= m < |short| && Var(short[m]) == Var(tr[b].lit);
    HeightUnique(s, short[m], b);
    assert s.model.LevelOfLit(short[m]) == dl;
    assert m != 0;
  }

  // ----- after the backjump -----

  /** What the backjump to level dl makes of the lemma. */
  ghost predicate Landed(tr: seq<Elem>, short: seq<int>) {
    && |short| > 0
    && (forall i :: 1 <= i < |short| ==> short[i] in FalseLits(tr))
    && (|short| > 1 ==> !Assigned(short[0], tr) && AtTopLevel(tr, short[1]))
    && (|short| == 1 ==> LevelOf(tr) == 0 && (short[0] in FalseLits(tr) || !Assigned(short[0], tr)))
  }

  lemma LandLiteral(model: Model, l: int, dl: nat)
    requires model.Valid() && OnTrail(model, l) && l in FalseLits(model.modelStack)
    ensures var tr := LevelPrefix(model.modelStack, dl);
            if model.LevelOfLit(l) <= dl then l in FalseLits(tr) else !Assigned(l, tr)
  {
    LevelIsAbove(model, l, dl);
    AtLevel(model.modelStack, l, dl);
  }

  /** At its least level the clause is still falsified exactly when its UIP is, as a unit of level 0. */
  lemma UipDecides(model: Model, c: PB, lits: seq<int>, pos: nat, dl: nat)
    requires model.Valid() && Positive(c.lhs) && IsClause(c) && AllFalse(c.lhs, model.modelStack)
    requires LeastLevel(c, model.modelStack, dl) && LitsOf(c, lits) && AllOnTrail(model, lits)
    requires Uip(model, lits, pos, 1)
    ensures var p := LevelPrefix(model.modelStack, dl);
            Slack(c, NonFalse(p)) < 0 <==> lits[pos] in FalseLits(p)
  {
    hide TrailOk, Mirrors, LevelPrefix, FalseLits, LeastLevel, Model.Valid, Weight;
    UniqueUip(model, c, lits, pos, dl);
    assert c.lhs[pos].lit in FalseLits(model.modelStack);
    LandLiteral(model, lits[pos], dl);
    var p := LevelPrefix(model.modelStack, dl);
    if lits[pos] in FalseLits(p) {
      assert c.lhs == [] + [c.lhs[0]];
      WeightSnoc([], c.lhs[0], NonFalse(p));
      WeightAtMostSum([], NonFalse(p));
    } else {
      WeightAtLeastTerm(c.lhs, pos, NonFalse(p));
    }
  }

  lemma LandSecond(model: Model, l: int, dl: nat)
    requires model.Valid() && OnTrail(model, l) && model.LevelOfLit(l) == dl
    ensures AtTopLevel(LevelPrefix(model.modelStack, dl), l)
  {
    hide Mirrors, LevelsStart, LevelPrefix, TrueLits, FalseLits;
    var tr, h := model.modelStack, model.HeightOf(l);
    var n := LevelPrefixIsPrefix(tr, dl);
    LevelPrefixLevel(tr, dl);
    forall i | 0 <= i < n && Var(tr[..n][i].lit) == Var(l)
      ensures tr[..n][i].dl == LevelOf(tr[..n])
    {
      assert i == h;
      assert tr[h].dl <= tr[n - 1].dl;
    }
  }

  lemma JumpLands(model: Model, short: seq<int>, dl: nat)
    requires model.Valid() && JumpsTo(model, short, dl)
    ensures Landed(LevelPrefix(model.modelStack, dl), short)
  {
    hide TrailOk, Mirrors, Model.Valid, FalseLits, TrueLits, LevelPrefix, AtTopLevel;
    forall i | 0 <= i < |short|
      ensures if model.LevelOfLit(short[i]) <= dl then short[i] in FalseLits(LevelPrefix(model.modelStack, dl))
              else !Assigned(short[i], LevelPrefix(model.modelStack, dl))
    {
      LandLiteral(model, short[i], dl);
    }
    if |short| > 1 {
      LandSecond(model, short[1], dl);
    }
    LevelPrefixLevel(model.modelStack, dl);
  }
}
