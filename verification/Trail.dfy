/** The assignment trail (Model.h, Model.cpp). */
module Trail {
  import opened PBCore

  datatype Reason = NoReason | ByConstraint(id: nat) | ByClause(id: nat) | ByBinary(other: int)

  datatype Elem = Elem(lit: int, dl: nat, reason: Reason)

  ghost function TrueLits(tr: seq<Elem>): set<int> {
    set i | 0 <= i < |tr| :: tr[i].lit
  }

  ghost function FalseLits(tr: seq<Elem>): set<int> {
    set i | 0 <= i < |tr| :: -tr[i].lit
  }

  /** The literals a trail leaves true or unassigned. */
  ghost function NonFalse(tr: seq<Elem>): Lits {
    iset l: int | l !in FalseLits(tr)
  }

  function LevelOf(tr: seq<Elem>): nat {
    if |tr| == 0 then 0 else tr[|tr| - 1].dl
  }

  ghost predicate OneEach(tr: seq<Elem>) {
    && (forall i :: 0 <= i < |tr| ==> tr[i].lit != 0)
    && (forall i, j :: 0 <= i < j < |tr| ==> Var(tr[i].lit) != Var(tr[j].lit))
  }

  ghost predicate LevelsGrow(tr: seq<Elem>) {
    forall i, j :: 0 <= i < j < |tr| ==> tr[i].dl <= tr[j].dl
  }

  /** A new level starts with a decision, and there is no other decision on it. */
  ghost predicate LevelsStart(tr: seq<Elem>) {
    forall i :: 0 <= i < |tr| ==> StartsLevel(tr, i)
  }

  ghost predicate StartsLevel(tr: seq<Elem>, i: nat)
    requires i < |tr|
  {
    tr[i].dl > LevelOf(tr[..i]) <==> IsDecision(tr[i])
  }

  /** Level 0 holds literals without a reason that are no decisions: units. */
  predicate IsDecision(e: Elem) {
    e.reason == NoReason && e.dl > 0
  }

  ghost predicate TrailOk(tr: seq<Elem>) {
    OneEach(tr) && LevelsGrow(tr) && LevelsStart(tr)
  }

  lemma OneValue(tr: seq<Elem>, l: int)
    requires OneEach(tr) && l != 0 && l in FalseLits(tr)
    ensures -l !in FalseLits(tr)
  {
    var i :| 0 <= i < |tr| && -tr[i].lit == l;
    forall j | 0 <= j < |tr|
      ensures -tr[j].lit != -l
    {
      assert j != i ==> Var(tr[j].lit) != Var(tr[i].lit);
    }
  }

  lemma NonFalseCovers(tr: seq<Elem>)
    requires TrailOk(tr)
    ensures Covering(NonFalse(tr))
  {
    forall l: int | l != 0 && l in FalseLits(tr)
      ensures -l !in FalseLits(tr)
    {
      OneValue(tr, l);
    }
  }

  lemma NonFalseSnoc(tr: seq<Elem>, e: Elem)
    ensures FalseLits(tr + [e]) == FalseLits(tr) + {-e.lit}
    ensures TrueLits(tr + [e]) == TrueLits(tr) + {e.lit}
    ensures NonFalse(tr + [e]) == NonFalse(tr) - iset{-e.lit}
  {
    var s := tr + [e];
    assert s[|tr|] == e;
    forall l | l in FalseLits(tr) + {-e.lit}
      ensures l in FalseLits(s)
    {
      if l in FalseLits(tr) {
        var i :| 0 <= i < |tr| && -tr[i].lit == l;
        assert s[i] == tr[i];
      }
    }
    forall l | l in TrueLits(tr) + {e.lit}
      ensures l in TrueLits(s)
    {
      if l in TrueLits(tr) {
        var i :| 0 <= i < |tr| && tr[i].lit == l;
        assert s[i] == tr[i];
      }
    }
  }

  lemma NonFalseShrinks(tr: seq<Elem>, n: nat)
    requires n <= |tr|
    ensures FalseLits(tr[..n]) <= FalseLits(tr) && TrueLits(tr[..n]) <= TrueLits(tr)
    ensures NonFalse(tr) <= NonFalse(tr[..n])
  {
    forall i | 0 <= i < n
      ensures -tr[i].lit in FalseLits(tr) && tr[i].lit in TrueLits(tr)
    {
    }
  }

  lemma LevelsStartPrefix(tr: seq<Elem>, n: nat)
    requires LevelsStart(tr) && n <= |tr|
    ensures LevelsStart(tr[..n])
  {
    forall i | 0 <= i < n
      ensures StartsLevel(tr[..n], i)
    {
      assert StartsLevel(tr, i);
      assert tr[..n][..i] == tr[..i];
    }
  }

  lemma TrailOkPrefix(tr: seq<Elem>, n: nat)
    requires TrailOk(tr) && n <= |tr|
    ensures TrailOk(tr[..n])
  {
    hide LevelsStart;
    LevelsStartPrefix(tr, n);
  }

  lemma TrueMeansComplementFalse(tr: seq<Elem>, l: int)
    ensures l in TrueLits(tr) <==> -l in FalseLits(tr)
  {
    if l in TrueLits(tr) {
      var i :| 0 <= i < |tr| && tr[i].lit == l;
      assert -tr[i].lit in FalseLits(tr);
    }
    if -l in FalseLits(tr) {
      var i :| 0 <= i < |tr| && -tr[i].lit == -l;
      assert tr[i].lit in TrueLits(tr);
    }
  }

  /** A literal is never both true and false. */
  lemma NotBoth(tr: seq<Elem>, l: int)
    requires TrailOk(tr) && l != 0 && l in FalseLits(tr)
    ensures l !in TrueLits(tr)
  {
    OneValue(tr, l);
    TrueMeansComplementFalse(tr, l);
  }

  /** The two arrays indexed by variable mirror the stack. */
  ghost predicate Mirrors(tr: seq<Elem>, value: seq<int>, height: seq<int>, n: nat) {
    && |value| == n + 1 && |height| == n + 1
    && (forall i :: 0 <= i < |tr| ==> Recorded(tr[i].lit, i, value, height, n))
    && (forall v :: 1 <= v <= n ==> value[v] == 0 || (0 <= height[v] < |tr| && Var(tr[height[v]].lit) == v))
  }

  ghost predicate Recorded(l: int, i: nat, value: seq<int>, height: seq<int>, n: nat)
    requires |value| == n + 1 && |height| == n + 1
  {
    1 <= Var(l) <= n && height[Var(l)] == i && value[Var(l)] == (if l > 0 then 1 else -1)
  }

  lemma MirrorsValue(tr: seq<Elem>, value: seq<int>, height: seq<int>, n: nat, l: int)
    requires Mirrors(tr, value, height, n) && 1 <= Var(l) <= n
    ensures l in TrueLits(tr) <==> value[Var(l)] == (if l > 0 then 1 else -1)
    ensures value[Var(l)] in {-1, 0, 1}
  {
    if l in TrueLits(tr) {
      var i :| 0 <= i < |tr| && tr[i].lit == l;
      assert Recorded(tr[i].lit, i, value, height, n);
    }
    if value[Var(l)] != 0 {
      var h := height[Var(l)];
      assert Recorded(tr[h].lit, h, value, height, n);
    }
  }

  lemma MirrorsFalse(tr: seq<Elem>, value: seq<int>, height: seq<int>, n: nat, l: int)
    requires Mirrors(tr, value, height, n) && 1 <= Var(l) <= n
    ensures l in FalseLits(tr) <==> value[Var(l)] == (if l > 0 then -1 else 1)
  {
    hide Mirrors, TrueLits, FalseLits;
    var m := -l;
    assert Var(m) == Var(l);
    MirrorsValue(tr, value, height, n, m);
    TrueMeansComplementFalse(tr, m);
    assert -m == l;
  }

  lemma MirrorsPush(tr: seq<Elem>, value: seq<int>, height: seq<int>, n: nat, e: Elem)
    requires Mirrors(tr, value, height, n) && 1 <= Var(e.lit) <= n && value[Var(e.lit)] == 0
    ensures Mirrors(tr + [e], value[Var(e.lit) := if e.lit > 0 then 1 else -1], height[Var(e.lit) := |tr|], n)
    ensures forall i :: 0 <= i < |tr| ==> Var(tr[i].lit) != Var(e.lit)
  {
    forall i | 0 <= i < |tr|
      ensures Var(tr[i].lit) != Var(e.lit)
    {
      assert Recorded(tr[i].lit, i, value, height, n);
    }
  }

  lemma MirrorsPop(tr: seq<Elem>, value: seq<int>, height: seq<int>, n: nat)
    requires Mirrors(tr, value, height, n) && |tr| > 0 && OneEach(tr)
    ensures var v := Var(tr[|tr| - 1].lit);
            1 <= v <= n && Mirrors(tr[..|tr| - 1], value[v := 0], height[v := -1], n)
  {
    var last := |tr| - 1;
    assert Recorded(tr[last].lit, last, value, height, n);
    forall i | 0 <= i < last
      ensures Recorded(tr[i].lit, i, value, height, n) && Var(tr[i].lit) != Var(tr[last].lit)
    {
    }
  }

  lemma LevelsStartPush(tr: seq<Elem>, e: Elem)
    requires LevelsStart(tr) && (e.dl > LevelOf(tr) <==> IsDecision(e))
    ensures LevelsStart(tr + [e])
  {
    var s := tr + [e];
    forall i | 0 <= i < |s|
      ensures StartsLevel(s, i)
    {
      assert i < |tr| ==> StartsLevel(tr, i);
      assert s[..i] == tr[..i];
      assert tr[..|tr|] == tr;
    }
  }

  lemma TrailOkPush(tr: seq<Elem>, e: Elem)
    requires TrailOk(tr) && e.lit != 0 && (forall i :: 0 <= i < |tr| ==> Var(tr[i].lit) != Var(e.lit))
    requires e.dl >= LevelOf(tr) && (e.dl > LevelOf(tr) <==> IsDecision(e))
    ensures TrailOk(tr + [e])
  {
    hide LevelsStart;
    LevelsStartPush(tr, e);
  }

  class Model {
    const numVars: nat
    var modelStack: seq<Elem>
    var truthValue: seq<int>    // 1 true, -1 false, 0 unassigned
    var stackHeight: seq<int>   // -1 when unassigned
    var lastPropagated: int
    var decisionLevel: nat

    ghost predicate Valid()
      reads this
    {
      && TrailOk(modelStack)
      && |truthValue| == |stackHeight| == numVars + 1
      && Mirrors(modelStack, truthValue, stackHeight, numVars)
      && -1 <= lastPropagated < |modelStack|
      && decisionLevel == LevelOf(modelStack)
    }

    constructor (n: nat)
      ensures Valid() && numVars == n && modelStack == [] && lastPropagated == -1
    {
      numVars := n;
      modelStack := [];
      truthValue := seq(n + 1, _ => 0);
      stackHeight := seq(n + 1, _ => -1);
      lastPropagated := -1;
      decisionLevel := 0;
    }

    predicate HasVar(l: int)
    {
      1 <= Var(l) <= numVars
    }

    predicate IsTrueLit(l: int)
      requires Valid() && HasVar(l)
      reads this
      ensures IsTrueLit(l) <==> l in TrueLits(modelStack)
    {
      hide TrailOk, Mirrors, TrueLits, FalseLits;
      MirrorsValue(modelStack, truthValue, stackHeight, numVars, l);
      if l > 0 then truthValue[l] > 0 else truthValue[-l] < 0
    }

    predicate IsFalseLit(l: int)
      requires Valid() && HasVar(l)
      reads this
      ensures IsFalseLit(l) <==> l in FalseLits(modelStack)
    {
      hide TrailOk, Mirrors, TrueLits, FalseLits;
      MirrorsFalse(modelStack, truthValue, stackHeight, numVars, l);
      if l > 0 then truthValue[l] < 0 else truthValue[-l] > 0
    }

    predicate IsUndefLit(l: int)
      requires Valid() && HasVar(l)
      reads this
      ensures IsUndefLit(l) <==> l !in TrueLits(modelStack) && l !in FalseLits(modelStack)
    {
      hide TrailOk, Mirrors, TrueLits, FalseLits;
      MirrorsValue(modelStack, truthValue, stackHeight, numVars, l);
      MirrorsFalse(modelStack, truthValue, stackHeight, numVars, l);
      truthValue[Var(l)] == 0
    }

    function HeightOf(l: int): (h: nat)
      requires Valid() && HasVar(l) && !IsUndefLit(l)
      reads this
      ensures h < |modelStack| && Var(modelStack[h].lit) == Var(l)
    {
      stackHeight[Var(l)]
    }

    function LevelOfLit(l: int): nat
      requires Valid() && HasVar(l) && !IsUndefLit(l)
      reads this
    {
      modelStack[HeightOf(l)].dl
    }

    lemma TopOfStack()
      requires Valid() && |modelStack| > 0
      ensures var l := modelStack[|modelStack| - 1].lit;
              HasVar(l) && HasVar(-l) && !IsUndefLit(l) && HeightOf(l) == |modelStack| - 1
    {
      var h := |modelStack| - 1;
      assert Recorded(modelStack[h].lit, h, truthValue, stackHeight, numVars);
    }

    predicate AllPropagated()
      reads this
    {
      lastPropagated == |modelStack| - 1
    }

    predicate IsLitPropagated(l: int)
      requires Valid() && HasVar(l) && !IsUndefLit(l)
      reads this
    {
      lastPropagated >= HeightOf(l)
    }

    method Push(l: int, dl: nat, r: Reason)
      requires Valid() && HasVar(l) && IsUndefLit(l)
      requires decisionLevel <= dl <= decisionLevel + 1 && (dl > decisionLevel <==> r == NoReason && dl > 0)
      modifies this
      ensures Valid() && modelStack == old(modelStack) + [Elem(l, dl, r)]
      ensures lastPropagated == old(lastPropagated)
    {
      hide TrailOk, Mirrors;
      MirrorsPush(modelStack, truthValue, stackHeight, numVars, Elem(l, dl, r));
      TrailOkPush(modelStack, Elem(l, dl, r));
      modelStack := modelStack + [Elem(l, dl, r)];
      truthValue := truthValue[Var(l) := if l > 0 then 1 else -1];
      stackHeight := stackHeight[Var(l) := |modelStack| - 1];
      decisionLevel := dl;
    }

    method SetTrueDueToDecision(l: int)
      requires Valid() && HasVar(l) && IsUndefLit(l)
      modifies this
      ensures Valid() && modelStack == old(modelStack) + [Elem(l, old(decisionLevel) + 1, NoReason)]
      ensures lastPropagated == old(lastPropagated)
    {
      Push(l, decisionLevel + 1, NoReason);
    }

    method SetTrueDueToReason(l: int, r: Reason)
      requires Valid() && HasVar(l) && IsUndefLit(l) && (r == NoReason ==> decisionLevel == 0)
      modifies this
      ensures Valid() && modelStack == old(modelStack) + [Elem(l, old(decisionLevel), r)]
      ensures lastPropagated == old(lastPropagated) && decisionLevel == old(decisionLevel)
    {
      Push(l, decisionLevel, r);
    }

    /** getNextLitToPropagatePB: 0 when every literal of the trail is propagated. */
    method NextLitToPropagate() returns (l: int)
      requires Valid()
      modifies this`lastPropagated
      ensures Valid()
      ensures old(AllPropagated()) ==> l == 0 && lastPropagated == old(lastPropagated)
      ensures !old(AllPropagated()) ==>
                lastPropagated == old(lastPropagated) + 1 && l == modelStack[lastPropagated].lit && l != 0
    {
      if lastPropagated == |modelStack| - 1 {
        return 0;
      }
      lastPropagated := lastPropagated + 1;
      return modelStack[lastPropagated].lit;
    }

    method PopAndUnassign() returns (l: int)
      requires Valid() && |modelStack| > 0
      modifies this
      ensures Valid() && modelStack == old(modelStack)[..|old(modelStack)| - 1]
      ensures l == old(modelStack)[|old(modelStack)| - 1].lit
      ensures lastPropagated == if old(AllPropagated()) then old(lastPropagated) - 1 else old(lastPropagated)
    {
      l := modelStack[|modelStack| - 1].lit;
      hide Mirrors;
      MirrorsPop(modelStack, truthValue, stackHeight, numVars);
      TrailOkPrefix(modelStack, |modelStack| - 1);
      truthValue := truthValue[Var(l) := 0];
      stackHeight := stackHeight[Var(l) := -1];
      modelStack := modelStack[..|modelStack| - 1];
      decisionLevel := if |modelStack| == 0 then 0 else modelStack[|modelStack| - 1].dl;
      var maxIdx := |modelStack| - 1;
      if lastPropagated > maxIdx {
        lastPropagated := maxIdx;
      }
    }
  }
}
