/** Watched and counting propagation of one pseudo-Boolean constraint in RoundingSat (Constr.cpp; the trail is that of
    Solver.cpp).  A watched term carries its coefficient with a negative sign, and exactly the watched literals have an
    entry for this constraint in the watch lists. */
module Watched {
  import opened Arith
  import opened PBCore

  datatype WatchStatus = KEEPWATCH | DROPWATCH | CONFLICTING

  predicate IsFalse(l: int, t: seq<int>) {
    -l in t
  }

  predicate IsUnknown(l: int, t: seq<int>) {
    l !in t && -l !in t
  }

  /** The literals that are not false on the trail t. */
  ghost function Live(t: seq<int>): Lits {
    iset l: int | !IsFalse(l, t)
  }

  /** All terms, without the watch flags. */
  ghost function Plain(data: seq<Term>): (s: seq<Term>)
    ensures |s| == |data|
  {
    seq(|data|, i requires 0 <= i < |data| => Term(Abs(data[i].coef), data[i].lit))
  }

  /** The watched terms; the others count nothing. */
  ghost function Watching(data: seq<Term>): (s: seq<Term>)
    ensures |s| == |data|
  {
    seq(|data|, i requires 0 <= i < |data| => Term(Max(0, -data[i].coef), data[i].lit))
  }

  /** Sorted by decreasing coefficient, without zeroes, one term per variable. */
  ghost predicate Shape(data: seq<Term>) {
    && |data| > 0
    && (forall i :: 0 <= i < |data| ==> data[i].coef != 0 && data[i].lit != 0)
    && (forall i, j :: 0 <= i <= j < |data| ==> Abs(data[i].coef) >= Abs(data[j].coef))
    && (forall i, j :: 0 <= i < j < |data| ==> Var(data[i].lit) != Var(data[j].lit))
  }

  /** Same terms up to the watch flags. */
  ghost predicate SameTerms(data: seq<Term>, data': seq<Term>) {
    && |data| == |data'|
    && forall i :: 0 <= i < |data| ==> data[i].lit == data'[i].lit && Abs(data[i].coef) == Abs(data'[i].coef)
  }

  ghost function WatchSlack(data: seq<Term>, degr: int, t: seq<int>): int {
    Weight(Watching(data), Live(t)) - degr
  }

  /** The slack that counting all terms gives. */
  ghost function CountSlack(data: seq<Term>, degr: int, t: seq<int>): int {
    Weight(Plain(data), Live(t)) - degr
  }

  ghost predicate UnwatchedFalse(data: seq<Term>, t: seq<int>) {
    forall i :: 0 <= i < |data| && data[i].coef > 0 ==> IsFalse(data[i].lit, t)
  }

  // ----- sums -----

  lemma {:induction false} WeightReplace(s: seq<Term>, i: nat, c: int, L: Lits)
    requires i < |s|
    ensures Weight(s[i := Term(c, s[i].lit)], L) == Weight(s, L) + if s[i].lit in L then c - s[i].coef else 0
  {
    var t := s[i := Term(c, s[i].lit)];
    WeightSplitAt(s, i, L);
    WeightSplitAt(t, i, L);
    assert t[..i] == s[..i] && t[i + 1..] == s[i + 1..];
  }

  /** Setting or clearing one watch flag. */
  lemma FlipWatch(data: seq<Term>, i: nat, degr: int, t: seq<int>)
    requires i < |data| && data[i].coef != 0
    ensures var data' := data[i := Term(-data[i].coef, data[i].lit)];
            && WatchSlack(data', degr, t) == WatchSlack(data, degr, t)
                 + (if IsFalse(data[i].lit, t) then 0 else data[i].coef)
            && Plain(data') == Plain(data)
  {
    var data' := data[i := Term(-data[i].coef, data[i].lit)];
    WeightReplace(Watching(data), i, Max(0, data[i].coef), Live(t));
    assert Watching(data') == Watching(data)[i := Term(Max(0, data[i].coef), data[i].lit)];
  }

  lemma {:induction false} WeightBelow(s: seq<Term>, s': seq<Term>, L: Lits, L': Lits)
    requires |s| == |s'|
    requires forall i :: 0 <= i < |s| ==>
                           (if s[i].lit in L then s[i].coef else 0) <= (if s'[i].lit in L' then s'[i].coef else 0)
    ensures Weight(s, L) <= Weight(s', L')
  {
    if |s| > 0 {
      WeightBelow(s[..|s| - 1], s'[..|s| - 1], L, L');
    }
  }

  /** A shorter trail has more literals left. */
  lemma SlackMono(data: seq<Term>, degr: int, t: seq<int>, t': seq<int>)
    requires t' <= t
    ensures WatchSlack(data, degr, t) <= WatchSlack(data, degr, t')
  {
    assert forall x :: x in t' ==> x in t;
    WeightBelow(Watching(data), Watching(data), Live(t), Live(t'));
  }

  /** The watched slack never exceeds the counted one, and is equal when every other literal is false. */
  lemma WatchBelowCount(data: seq<Term>, degr: int, t: seq<int>)
    ensures WatchSlack(data, degr, t) <= CountSlack(data, degr, t)
    ensures UnwatchedFalse(data, t) ==> WatchSlack(data, degr, t) == CountSlack(data, degr, t)
  {
    WeightBelow(Watching(data), Plain(data), Live(t), Live(t));
    if UnwatchedFalse(data, t) {
      WeightBelow(Plain(data), Watching(data), Live(t), Live(t));
    }
  }

  /** Falsifying one more literal costs exactly its coefficient. */
  lemma FalsifyAt(s: seq<Term>, t: seq<int>, p: int, i: nat)
    requires i < |s| && s[i].lit == -p && p !in t && p != 0
    requires forall i, j :: 0 <= i < j < |s| ==> Var(s[i].lit) != Var(s[j].lit)
    ensures Weight(s, Live(t + [p])) == Weight(s, Live(t)) - s[i].coef
  {
    assert Live(t + [p]) == Live(t) - iset{-p} by {
      forall l: int
        ensures IsFalse(l, t + [p]) <==> IsFalse(l, t) || l == -p
      {
      }
    }
    WeightRemoveLit(s, i, Live(t));
  }

  lemma FalsifyElsewhere(s: seq<Term>, t: seq<int>, p: int)
    requires forall i :: 0 <= i < |s| ==> s[i].lit != -p || s[i].coef == 0
    ensures Weight(s, Live(t + [p])) == Weight(s, Live(t))
  {
    forall i | 0 <= i < |s|
      ensures (if s[i].lit in Live(t + [p]) then s[i].coef else 0) == if s[i].lit in Live(t) then s[i].coef else 0
    {
    }
    WeightBelow(s, s, Live(t), Live(t + [p]));
    WeightBelow(s, s, Live(t + [p]), Live(t));
  }

  // ----- the trail -----

  ghost predicate TrailOk(trail: seq<int>, limits: seq<nat>, qhead: nat) {
    && (forall i :: 0 <= i < |trail| ==> trail[i] != 0)
    && (forall i, j :: 0 <= i < j < |trail| ==> Var(trail[i]) != Var(trail[j]))
    && qhead <= |trail|
    && (forall k :: 0 <= k < |limits| ==> limits[k] <= qhead && limits[k] < |trail|)
    && (forall j, k :: 0 <= j < k < |limits| ==> limits[j] < limits[k])
  }

  class Trail {
    var trail: seq<int>
    var limits: seq<nat>
    var qhead: nat
    var trailpops: nat

    ghost predicate Valid()
      reads this
    {
      TrailOk(trail, limits, qhead)
    }

    /** propagate and uncheckedEnqueue. */
    method Propagate(l: int)
      requires Valid() && l != 0 && IsUnknown(l, trail)
      modifies this`trail
      ensures Valid() && trail == old(trail) + [l]
    {
      forall i | 0 <= i < |trail|
        ensures Var(trail[i]) != Var(l)
      {
        assert trail[i] in trail;
      }
      trail := trail + [l];
    }

    /** decide: only when everything is propagated. */
    method Decide(l: int)
      requires Valid() && l != 0 && IsUnknown(l, trail) && qhead == |trail|
      modifies this`trail, this`limits
      ensures Valid() && trail == old(trail) + [l] && limits == old(limits) + [|old(trail)|]
    {
      var start := |trail|;
      Propagate(l);
      limits := limits + [start];
    }
  }

  // ----- what holds between the steps -----

  /** Over t the watched slack reaches the largest coefficient, or every unwatched literal is false. */
  ghost predicate EnoughWatched(data: seq<Term>, degr: int, t: seq<int>) {
    |data| > 0 && (WatchSlack(data, degr, t) >= Abs(data[0].coef) || UnwatchedFalse(data, t))
  }

  /** Counting finds neither a conflict nor an unassigned literal to propagate. */
  ghost predicate Quiet(data: seq<Term>, degr: int, t: seq<int>) {
    && CountSlack(data, degr, t) >= 0
    && forall i :: 0 <= i < |data| && Abs(data[i].coef) > CountSlack(data, degr, t) ==> !IsUnknown(data[i].lit, t)
  }

  /** The state of a watched constraint between two steps of the solver. */
  ghost predicate Settled(data: seq<Term>, degr: int, watchslack: int, trail: seq<int>, limits: seq<nat>, qhead: nat) {
    && Shape(data) && TrailOk(trail, limits, qhead)
    && watchslack == WatchSlack(data, degr, trail[..qhead]) >= 0
    && (watchslack >= Abs(data[0].coef) || UnwatchedFalse(data, trail))
    && (forall i :: 0 <= i < |data| && Abs(data[i].coef) > watchslack ==> !IsUnknown(data[i].lit, trail))
    && (forall k :: 0 <= k < |limits| ==> EnoughWatched(data, degr, trail[..limits[k]]))
    && (forall k :: 0 <= k < |limits| ==> Quiet(data, degr, trail[..limits[k]]))
  }

  /** Once everything is propagated, counting all the terms would find nothing more, and where it matters the two slacks
      are equal. */
  lemma AgreesWithCounting(data: seq<Term>, degr: int, watchslack: int, trail: seq<int>, limits: seq<nat>)
    requires Settled(data, degr, watchslack, trail, limits, |trail|)
    ensures Quiet(data, degr, trail) && EnoughWatched(data, degr, trail)
    ensures watchslack <= CountSlack(data, degr, trail)
    ensures watchslack < Abs(data[0].coef) ==> watchslack == CountSlack(data, degr, trail)
  {
    assert trail[..|trail|] == trail;
    WatchBelowCount(data, degr, trail);
  }

  /** Backjumping to the start of any level leaves the constraint settled there: whichever terms are watched by now,
      that level has enough of them. */
  lemma BackjumpSettles(data: seq<Term>, degr: int, watchslack: int, trail: seq<int>, limits: seq<nat>, qhead: nat,
                        k: nat)
    requires Settled(data, degr, watchslack, trail, limits, qhead) && k < |limits|
    ensures limits[k] <= |trail|
    ensures Settled(data, degr, WatchSlack(data, degr, trail[..limits[k]]), trail[..limits[k]], limits[..k], limits[k])
  {
    var m := limits[k];
    var t := trail[..m];
    assert t[..m] == t;
    forall j | 0 <= j < k
      ensures t[..limits[j]] == trail[..limits[j]]
    {
    }
    assert EnoughWatched(data, degr, t) && Quiet(data, degr, t);
    WatchBelowCount(data, degr, t);
    SlackMono(data, degr, trail[..qhead], t);
  }

  /** A new decision makes the present trail the start of a level. */
  lemma DecisionSettles(data: seq<Term>, degr: int, watchslack: int, trail: seq<int>, limits: seq<nat>, l: int)
    requires Settled(data, degr, watchslack, trail, limits, |trail|) && l != 0 && IsUnknown(l, trail)
    requires TrailOk(trail + [l], limits + [|trail|], |trail|)
    ensures Settled(data, degr, watchslack, trail + [l], limits + [|trail|], |trail|)
  {
    AgreesWithCounting(data, degr, watchslack, trail, limits);
    EnqueueSettles(data, degr, watchslack, trail, limits, |trail|, trail + [l]);
    assert (trail + [l])[..|trail|] == trail;
  }

  /** Literals that other constraints propagate only join the queue. */
  lemma EnqueueSettles(data: seq<Term>, degr: int, watchslack: int, trail: seq<int>, limits: seq<nat>, qhead: nat,
                       trail': seq<int>)
    requires Settled(data, degr, watchslack, trail, limits, qhead) && trail <= trail' && TrailOk(trail', limits, qhead)
    ensures Settled(data, degr, watchslack, trail', limits, qhead)
  {
    assert forall x :: x in trail ==> x in trail';
    assert trail'[..qhead] == trail[..qhead];
    forall k | 0 <= k < |limits|
      ensures trail'[..limits[k]] == trail[..limits[k]]
    {
    }
  }

  // ----- one visit of a watched constraint -----

  /** The same terms; whatever was watched still is. */
  ghost predicate WatchesGrew(data: seq<Term>, data': seq<Term>) {
    && SameTerms(data, data')
    && forall i :: 0 <= i < |data| && data[i].coef < 0 ==> data'[i].coef < 0
  }

  lemma PlainSame(data: seq<Term>, data': seq<Term>)
    requires SameTerms(data, data')
    ensures Plain(data) == Plain(data')
  {
  }

  lemma GrownKeeps(data: seq<Term>, data': seq<Term>, degr: int, t: seq<int>)
    requires WatchesGrew(data, data')
    ensures WatchSlack(data, degr, t) <= WatchSlack(data', degr, t)
    ensures EnoughWatched(data, degr, t) ==> EnoughWatched(data', degr, t)
    ensures Quiet(data, degr, t) ==> Quiet(data', degr, t)
  {
    PlainSame(data, data');
    WeightBelow(Watching(data), Watching(data'), Live(t), Live(t));
  }

  /** The visited watch stays: not enough other literals were found. */
  lemma VisitKept(data: seq<Term>, data': seq<Term>, degr: int, ws: int, ws': int, trail: seq<int>, limits: seq<nat>,
                  qhead: nat)
    requires Settled(data, degr, ws, trail, limits, qhead) && qhead < |trail| && WatchesGrew(data, data')
    requires ws' == WatchSlack(data', degr, trail[..qhead + 1]) && ws' >= 0 && UnwatchedFalse(data', trail)
    requires forall i :: 0 <= i < |data| && Abs(data[i].coef) > ws' ==> !IsUnknown(data[i].lit, trail)
    ensures Settled(data', degr, ws', trail, limits, qhead + 1)
  {
    forall k | 0 <= k < |limits|
      ensures EnoughWatched(data', degr, trail[..limits[k]]) && Quiet(data', degr, trail[..limits[k]])
    {
      GrownKeeps(data, data', degr, trail[..limits[k]]);
    }
  }

  /** The visited watch goes: the others reach the largest coefficient, hence at every earlier level too. */
  lemma VisitDropped(data: seq<Term>, mid: seq<Term>, data': seq<Term>, degr: int, ws: int, ws': int, trail: seq<int>,
                     limits: seq<nat>, qhead: nat, i: nat)
    requires Settled(data, degr, ws, trail, limits, qhead) && qhead < |trail| && WatchesGrew(data, mid)
    requires i < |data| && data[i].coef < 0 && data[i].lit == -trail[qhead]
    requires data' == mid[i := Term(-mid[i].coef, mid[i].lit)]
    requires ws' == WatchSlack(mid, degr, trail[..qhead + 1]) && ws' >= Abs(data[0].coef)
    ensures Settled(data', degr, ws', trail, limits, qhead + 1)
  {
    assert trail[qhead] in trail[..qhead + 1];
    FlipWatch(mid, i, degr, trail[..qhead + 1]);
    PlainSame(data, data');
    forall k | 0 <= k < |limits|
      ensures EnoughWatched(data', degr, trail[..limits[k]]) && Quiet(data', degr, trail[..limits[k]])
    {
      SlackMono(data', degr, trail[..qhead + 1], trail[..limits[k]]);
    }
  }

  /** A conflict: the visit is undone, and what was watched in addition does no harm. */
  lemma VisitUndone(data: seq<Term>, data': seq<Term>, degr: int, ws: int, ws': int, trail: seq<int>, limits: seq<nat>,
                    qhead: nat, i: nat)
    requires Settled(data, degr, ws, trail, limits, qhead) && qhead < |trail| && WatchesGrew(data, data')
    requires i < |data| && data[i].coef < 0 && data[i].lit == -trail[qhead]
    requires ws' == WatchSlack(data', degr, trail[..qhead + 1])
    requires ws' >= Abs(data[0].coef) || UnwatchedFalse(data', trail)
    ensures Settled(data', degr, ws' - data'[i].coef, trail, limits, qhead)
  {
    VisitCost(data', degr, trail, qhead, i);
    GrownKeeps(data, data', degr, trail[..qhead]);
    forall k | 0 <= k < |limits|
      ensures EnoughWatched(data', degr, trail[..limits[k]]) && Quiet(data', degr, trail[..limits[k]])
    {
      GrownKeeps(data, data', degr, trail[..limits[k]]);
    }
  }

  lemma NotBefore(trail: seq<int>, limits: seq<nat>, qhead: nat)
    requires TrailOk(trail, limits, qhead) && qhead < |trail|
    ensures trail[qhead] !in trail[..qhead] && -trail[qhead] !in trail
            && trail[..qhead + 1] == trail[..qhead] + [trail[qhead]]
  {
  }

  /** Processing the next literal costs a watched term its coefficient. */
  lemma VisitCost(data: seq<Term>, degr: int, trail: seq<int>, qhead: nat, i: nat)
    requires Shape(data) && TrailOk(trail, [], qhead) && qhead < |trail|
    requires i < |data| && data[i].coef < 0 && data[i].lit == -trail[qhead]
    ensures WatchSlack(data, degr, trail[..qhead + 1]) == WatchSlack(data, degr, trail[..qhead]) + data[i].coef
  {
    NotBefore(trail, [], qhead);
    FalsifyAt(Watching(data), trail[..qhead], trail[qhead], i);
  }

  lemma NoVisit(data: seq<Term>, degr: int, ws: int, trail: seq<int>, limits: seq<nat>, qhead: nat)
    requires Settled(data, degr, ws, trail, limits, qhead) && qhead < |trail|
    requires forall i :: 0 <= i < |data| && data[i].coef < 0 ==> data[i].lit != -trail[qhead]
    ensures Settled(data, degr, ws, trail, limits, qhead + 1)
  {
    NotBefore(trail, limits, qhead);
    FalsifyElsewhere(Watching(data), trail[..qhead], trail[qhead]);
  }

  /** l is not false and the literals of the constraint that are not false cannot reach the degree without it. */
  ghost predicate Forced(data: seq<Term>, degr: int, t: seq<int>, l: int) {
    exists i :: 0 <= i < |data| && data[i].lit == l && Abs(data[i].coef) > CountSlack(data, degr, t)
  }

  /** nextWatchIdx is worth resuming from: before it every literal is watched or false, or, once watches ran out,
      assigned. */
  ghost predicate Resumable(data: seq<Term>, watchslack: int, trail: seq<int>, next: nat) {
    && 0 < |data| && next <= |data|
    && (watchslack >= Abs(data[0].coef) ==> forall j :: 0 <= j < next ==>
          data[j].coef < 0 || IsFalse(data[j].lit, trail))
    && (watchslack < Abs(data[0].coef) ==> forall j :: 0 <= j < next ==> !IsUnknown(data[j].lit, trail))
  }

  /** The search for watches has looked at the first terms: each of them is watched or false by now. */
  ghost predicate Searched(start: seq<Term>, data: seq<Term>, degr: int, ws: int, trail: seq<int>, qhead: nat,
                           next: nat) {
    && Shape(data) && WatchesGrew(start, data) && qhead <= |trail| && next <= |data|
    && ws == WatchSlack(data, degr, trail[..qhead])
    && Abs(data[0].coef) == Abs(start[0].coef)
    && (forall i :: 0 <= i < |data| && data[i].coef < 0 < start[i].coef ==> !IsFalse(data[i].lit, trail))
    && forall j :: 0 <= j < next ==> data[j].coef < 0 || IsFalse(data[j].lit, trail)
  }

  lemma SearchStep(start: seq<Term>, data: seq<Term>, degr: int, ws: int, trail: seq<int>, qhead: nat, i: nat)
    requires Searched(start, data, degr, ws, trail, qhead, i) && i < |data|
    ensures if data[i].coef > 0 && !IsFalse(data[i].lit, trail)
            then Searched(start, data[i := Term(-data[i].coef, data[i].lit)], degr, ws + data[i].coef, trail, qhead,
                          i + 1)
            else Searched(start, data, degr, ws, trail, qhead, i + 1)
  {
    FlipWatch(data, i, degr, trail[..qhead]);
    if !IsFalse(data[i].lit, trail) {
      assert !IsFalse(data[i].lit, trail[..qhead]);
    }
  }

  lemma SearchDone(start: seq<Term>, data: seq<Term>, degr: int, ws: int, trail: seq<int>, qhead: nat, next: nat)
    requires Searched(start, data, degr, ws, trail, qhead, next)
    ensures WatchesGrew(start, data) && Shape(data) && ws == WatchSlack(data, degr, trail[..qhead])
    ensures forall i :: 0 <= i < |data| && data[i].coef < 0 < start[i].coef ==> !IsFalse(data[i].lit, trail)
    ensures next == |data| ==> UnwatchedFalse(data, trail)
    ensures forall j :: 0 <= j < next ==> data[j].coef < 0 || IsFalse(data[j].lit, trail)
  {
  }

  class Watched {
    var data: seq<Term>
    const degr: int
    var watchslack: int
    var nextWatchIdx: nat
    var ntrailpops: int
    const propIdx: bool
    const propSup: bool

    /** hasCorrectSlack and hasCorrectWatches, and that nextWatchIdx may be used when nothing was popped since. */
    ghost predicate Valid(s: Trail)
      reads this, s
    {
      && Settled(data, degr, watchslack, s.trail, s.limits, s.qhead)
      && ntrailpops <= s.trailpops && nextWatchIdx <= |data|
      && (propIdx && ntrailpops == s.trailpops ==> Resumable(data, watchslack, s.trail, nextWatchIdx))
    }

    /** The search for new watches in checkForPropagation. */
    method FindWatches(trail: seq<int>, ghost qhead: nat)
      requires Shape(data) && qhead <= |trail| && watchslack == WatchSlack(data, degr, trail[..qhead])
      requires nextWatchIdx <= |data|
      requires forall j :: 0 <= j < nextWatchIdx ==> data[j].coef < 0 || IsFalse(data[j].lit, trail)
      modifies this`data, this`watchslack, this`nextWatchIdx
      ensures WatchesGrew(old(data), data) && watchslack == WatchSlack(data, degr, trail[..qhead])
      ensures watchslack >= old(watchslack) && nextWatchIdx <= |data| == |old(data)|
      ensures if watchslack < Abs(old(data)[0].coef) then UnwatchedFalse(data, trail) && nextWatchIdx == 0
              else forall j :: 0 <= j < nextWatchIdx ==> data[j].coef < 0 || IsFalse(data[j].lit, trail)
    {
      ghost var start := data;
      SearchLoop(trail, qhead, start);
      SearchDone(start, data, degr, watchslack, trail, qhead, nextWatchIdx);
      if watchslack < Abs(data[0].coef) {
        nextWatchIdx := 0;
      }
    }

    method SearchLoop(trail: seq<int>, ghost qhead: nat, ghost start: seq<Term>)
      requires Searched(start, data, degr, watchslack, trail, qhead, nextWatchIdx)
      modifies this`data, this`watchslack, this`nextWatchIdx
      ensures Searched(start, data, degr, watchslack, trail, qhead, nextWatchIdx) && |data| == |old(data)| && |data| > 0
      ensures watchslack >= old(watchslack) && nextWatchIdx <= |data|
      ensures watchslack >= Abs(old(data)[0].coef) || nextWatchIdx == |data|
    {
      var lrgstCf := Abs(data[0].coef);
      hide *;
      while nextWatchIdx < |data| && watchslack < lrgstCf
        invariant nextWatchIdx <= |data| == |old(data)| && watchslack >= old(watchslack)
        invariant Searched(start, data, degr, watchslack, trail, qhead, nextWatchIdx)
      {
        TryWatch(trail, qhead, start);
      }
    }

    /** The body of the search: watch the next term when its literal is not false. */
    method TryWatch(trail: seq<int>, ghost qhead: nat, ghost start: seq<Term>)
      requires Searched(start, data, degr, watchslack, trail, qhead, nextWatchIdx) && nextWatchIdx < |data|
      modifies this`data, this`watchslack, this`nextWatchIdx
      ensures Searched(start, data, degr, watchslack, trail, qhead, nextWatchIdx)
      ensures |data| == |old(data)| && watchslack >= old(watchslack) && nextWatchIdx == old(nextWatchIdx) + 1
    {
      hide *;
      SearchStep(start, data, degr, watchslack, trail, qhead, nextWatchIdx);
      var cf, l := data[nextWatchIdx].coef, data[nextWatchIdx].lit;
      if cf > 0 && !IsFalse(l, trail) {
        watchslack := watchslack + cf;
        data := data[nextWatchIdx := Term(-cf, l)];
      }
      nextWatchIdx := nextWatchIdx + 1;
    }

    /** The loop of checkForPropagation that propagates every unassigned literal whose coefficient exceeds the slack. */
    method PropagateForced(s: Trail)
      requires Shape(data) && s.Valid() && nextWatchIdx <= |data|
      requires watchslack == WatchSlack(data, degr, s.trail[..s.qhead]) && UnwatchedFalse(data, s.trail)
      requires forall j :: 0 <= j < nextWatchIdx ==> !IsUnknown(data[j].lit, s.trail)
      modifies this`nextWatchIdx, s`trail
      ensures s.Valid() && old(s.trail) <= s.trail && nextWatchIdx <= |data|
      ensures forall j :: 0 <= j < nextWatchIdx ==> !IsUnknown(data[j].lit, s.trail)
      ensures forall i :: 0 <= i < |data| && Abs(data[i].coef) > watchslack ==> !IsUnknown(data[i].lit, s.trail)
      ensures forall j :: |old(s.trail)| <= j < |s.trail| ==> Forced(data, degr, s.trail[..j], s.trail[j])
    {
      while nextWatchIdx < |data| && Abs(data[nextWatchIdx].coef) > watchslack
        invariant nextWatchIdx <= |data| && s.Valid() && old(s.trail) <= s.trail
        invariant forall j :: 0 <= j < nextWatchIdx ==> !IsUnknown(data[j].lit, s.trail)
        invariant forall j :: |old(s.trail)| <= j < |s.trail| ==> Forced(data, degr, s.trail[..j], s.trail[j])
      {
        var l := data[nextWatchIdx].lit;
        if IsUnknown(l, s.trail) {
          ForcedNow(data, degr, old(s.trail), s.trail, s.qhead, nextWatchIdx);
          ghost var before := s.trail;
          s.Propagate(l);
          ForcedStays(data, degr, |old(s.trail)|, before, s.trail);
        }
        nextWatchIdx := nextWatchIdx + 1;
      }
    }

    /** The literal processed last falsified the watched term idx, which the slack does not show yet. */
    ghost predicate Visiting(idx: nat, s: Trail)
      reads this, s
    {
      && 0 < s.qhead <= |s.trail| && idx < |data| && data[idx].coef < 0 && data[idx].lit == -s.trail[s.qhead - 1]
      && Settled(data, degr, watchslack, s.trail, s.limits, s.qhead - 1)
      && ntrailpops <= s.trailpops && nextWatchIdx <= |data|
      && (propIdx && ntrailpops == s.trailpops ==> Resumable(data, watchslack, s.trail, nextWatchIdx))
    }

    /** nextWatchIdx starts again when something was popped since it was set. */
    method Refresh(trailpops: nat, ghost trail: seq<int>)
      requires ntrailpops <= trailpops && 0 < |data|
      requires propIdx && ntrailpops == trailpops ==> Resumable(data, watchslack, trail, nextWatchIdx)
      modifies this`nextWatchIdx, this`ntrailpops
      ensures ntrailpops <= trailpops && Resumable(data, watchslack, trail, nextWatchIdx)
    {
      if !propIdx || ntrailpops < trailpops {
        ntrailpops := trailpops;
        nextWatchIdx := 0;
      }
    }

    /** The first half of checkForPropagation: lower the slack and look for other watches.  With propSup the search is
        left out when it ran dry before. */
    method Search(idx: nat, s: Trail)
      requires Visiting(idx, s)
      modifies this`data, this`watchslack, this`nextWatchIdx, this`ntrailpops
      ensures SearchedFor(s, old(data), old(watchslack))
    {
      hide Settled, WatchSlack, Resumable, Shape, TrailOk, UnwatchedFalse, WatchesGrew, IsFalse;
      Refresh(s.trailpops, s.trail);
      ReadyToSearch(data, degr, watchslack, s.trail, s.limits, s.qhead - 1, idx, nextWatchIdx);
      LookForWatches(data[idx].coef, s.trail, s.qhead);
    }

    method LookForWatches(c: int, trail: seq<int>, ghost qhead: nat)
      requires Shape(data) && WatchesGrew(data, data) && 0 < |data| && qhead <= |trail| && nextWatchIdx <= |data|
      requires watchslack + c == WatchSlack(data, degr, trail[..qhead])
      requires forall j :: 0 <= j < nextWatchIdx ==> data[j].coef < 0 || IsFalse(data[j].lit, trail)
      requires watchslack < Abs(data[0].coef) ==>
                 UnwatchedFalse(data, trail) && Resumable(data, watchslack + c, trail, nextWatchIdx)
      modifies this`data, this`watchslack, this`nextWatchIdx
      ensures WatchesGrew(old(data), data) && Shape(data) && watchslack == WatchSlack(data, degr, trail[..qhead])
      ensures 0 < |data| && nextWatchIdx <= |data| && Resumable(data, watchslack, trail, nextWatchIdx)
      ensures watchslack >= Abs(data[0].coef) || UnwatchedFalse(data, trail)
    {
      hide Resumable, WatchSlack, UnwatchedFalse, IsFalse;
      watchslack := watchslack + c;
      if !propSup || watchslack - c >= Abs(data[0].coef) {
        FindWatches(trail, qhead);
        FoundResumable(data, watchslack, trail, nextWatchIdx);
      }
    }

    /** checkForPropagation. */
    method CheckForPropagation(idx: nat, s: Trail) returns (status: WatchStatus)
      requires Visiting(idx, s)
      modifies this`data, this`watchslack, this`nextWatchIdx, this`ntrailpops, s`trail
      ensures old(s.trail) <= s.trail
      ensures status != CONFLICTING ==> Valid(s)
      ensures status == DROPWATCH <==> idx < |data| && data[idx].coef > 0
      ensures status == CONFLICTING ==> s.trail == old(s.trail) && ntrailpops <= s.trailpops && nextWatchIdx <= |data|
      ensures status == CONFLICTING ==> idx < |data| && CountSlack(data, degr, s.trail) < 0
      ensures status == CONFLICTING ==> Settled(data, degr, watchslack - data[idx].coef, s.trail, s.limits, s.qhead - 1)
      ensures forall j :: |old(s.trail)| <= j < |s.trail| ==> Forced(data, degr, s.trail[..j], s.trail[j])
    {
      hide Settled, WatchSlack, Resumable, Forced;
      ghost var data0, ws0 := data, watchslack;
      Search(idx, s);
      if watchslack >= Abs(data[0].coef) {
        Drop(idx, s, data0, ws0);
        return DROPWATCH;
      }
      if watchslack < 0 {
        VisitUndone(data0, data, degr, ws0, watchslack, s.trail, s.limits, s.qhead - 1, idx);
        SlackMono(data, degr, s.trail, s.trail[..s.qhead]);
        WatchBelowCount(data, degr, s.trail);
        return CONFLICTING;
      }
      Keep(s, data0, ws0);
      return KEEPWATCH;
    }

    ghost predicate SearchedFor(s: Trail, data0: seq<Term>, ws0: int)
      reads this, s
    {
      && 0 < s.qhead <= |s.trail| && Settled(data0, degr, ws0, s.trail, s.limits, s.qhead - 1)
      && WatchesGrew(data0, data) && Shape(data) && watchslack == WatchSlack(data, degr, s.trail[..s.qhead])
      && ntrailpops <= s.trailpops && nextWatchIdx <= |data| && Resumable(data, watchslack, s.trail, nextWatchIdx)
      && (watchslack >= Abs(data[0].coef) || UnwatchedFalse(data, s.trail))
    }

    /** Enough other literals are watched: this one no longer is. */
    method Drop(idx: nat, s: Trail, ghost data0: seq<Term>, ghost ws0: int)
      requires SearchedFor(s, data0, ws0) && watchslack >= Abs(data[0].coef)
      requires idx < |data0| && data0[idx].coef < 0 && data0[idx].lit == -s.trail[s.qhead - 1]
      modifies this`data
      ensures Valid(s) && idx < |data| && data[idx].coef > 0
    {
      hide Settled, WatchSlack, Resumable, WatchesGrew, UnwatchedFalse;
      DropSettles(data0, data, degr, ws0, watchslack, s.trail, s.limits, s.qhead - 1, idx, nextWatchIdx);
      data := data[idx := Term(-data[idx].coef, data[idx].lit)];
    }

    /** Watches ran out: keep this one and propagate. */
    method Keep(s: Trail, ghost data0: seq<Term>, ghost ws0: int)
      requires SearchedFor(s, data0, ws0) && 0 <= watchslack < Abs(data[0].coef)
      modifies this`nextWatchIdx, s`trail
      ensures Valid(s) && old(s.trail) <= s.trail
      ensures forall j :: |old(s.trail)| <= j < |s.trail| ==> Forced(data, degr, s.trail[..j], s.trail[j])
    {
      PropagateForced(s);
      EnqueueSettles(data0, degr, ws0, old(s.trail), s.limits, s.qhead - 1, s.trail);
      assert s.trail[..s.qhead] == old(s.trail)[..s.qhead];
      ResumableAssigned(data, watchslack, s.trail, nextWatchIdx);
      VisitKept(data0, data, degr, ws0, watchslack, s.trail, s.limits, s.qhead - 1);
      hide *;
    }

    /** The entry of this constraint in the watch list of l, if there is one. */
    method FindWatch(l: int) returns (idx: int)
      requires Shape(data)
      ensures -1 <= idx < |data|
      ensures idx >= 0 ==> data[idx].coef < 0 && data[idx].lit == l
      ensures idx < 0 ==> forall i :: 0 <= i < |data| && data[i].coef < 0 ==> data[i].lit != l
    {
      idx := |data| - 1;
      while idx >= 0 && !(data[idx].coef < 0 && data[idx].lit == l)
        invariant -1 <= idx < |data|
        invariant forall i :: idx < i < |data| && data[i].coef < 0 ==> data[i].lit != l
      {
        idx := idx - 1;
      }
    }

    /** What one turn of runPropagation does to this constraint: the next literal is processed; on a conflict the visit
        is undone.  The propagated literals are forced, a conflict is one for counting too. */
    method Process(s: Trail) returns (conflict: bool)
      requires Valid(s) && s.qhead < |s.trail|
      modifies this, s
      ensures Valid(s) && old(s.trail) <= s.trail && s.limits == old(s.limits) && s.trailpops >= old(s.trailpops)
      ensures s.qhead == old(s.qhead) + if conflict then 0 else 1
      ensures conflict ==> CountSlack(data, degr, s.trail) < 0
      ensures forall j :: |old(s.trail)| <= j < |s.trail| ==> Forced(data, degr, s.trail[..j], s.trail[j])
    {
      hide WatchSlack, Resumable, Shape, UnwatchedFalse, EnoughWatched, Quiet, Forced;
      var p := s.trail[s.qhead];
      var idx := FindWatch(-p);
      if idx < 0 {
        NoVisit(data, degr, watchslack, s.trail, s.limits, s.qhead);
        s.qhead := s.qhead + 1;
        return false;
      }
      s.qhead := s.qhead + 1;
      var status := CheckForPropagation(idx, s);
      conflict := status == CONFLICTING;
      if conflict {
        s.trailpops := s.trailpops + 1;
        UndoFalsified(idx);
        s.qhead := s.qhead - 1;
      }
    }

    method UndoFalsified(i: nat)
      requires i < |data|
      modifies this`watchslack
      ensures watchslack == old(watchslack) - data[i].coef
    {
      watchslack := watchslack - data[i].coef;
    }

    /** Another constraint conflicts on the same literal after this one was visited: the visit is undone. */
    method UndoVisit(s: Trail)
      requires Valid(s) && 0 < s.qhead && forall k :: 0 <= k < |s.limits| ==> s.limits[k] < s.qhead
      modifies this`watchslack, s`qhead, s`trailpops
      ensures Valid(s) && s.qhead == old(s.qhead) - 1
    {
      var idx := FindWatch(-s.trail[s.qhead - 1]);
      Unvisited(data, degr, watchslack, s.trail, s.limits, s.qhead - 1, idx);
      s.trailpops := s.trailpops + 1;
      if idx >= 0 {
        UndoFalsified(idx);
      }
      s.qhead := s.qhead - 1;
    }

    /** removeLastAssignment, as far as this constraint and the trail are concerned. */
    method RemoveLastAssignment(s: Trail)
      requires Shape(data) && s.Valid() && 0 < |s.trail| && watchslack == WatchSlack(data, degr, s.trail[..s.qhead])
      requires forall k :: 0 <= k < |s.limits| ==> s.limits[k] < |s.trail|
      modifies this`watchslack, s
      ensures s.trail == old(s.trail)[..|old(s.trail)| - 1] && s.trailpops == old(s.trailpops) + 1
      ensures s.qhead == Min(old(s.qhead), |s.trail|) && watchslack == WatchSlack(data, degr, s.trail[..s.qhead])
      ensures s.limits == if 0 < |old(s.limits)| && old(s.limits)[|old(s.limits)| - 1] == |s.trail|
                          then old(s.limits)[..|old(s.limits)| - 1] else old(s.limits)
      ensures s.Valid()
    {
      hide Shape, WatchSlack;
      var n := |s.trail| - 1;
      s.trailpops := s.trailpops + 1;
      if s.qhead == |s.trail| {
        var idx := FindWatch(-s.trail[n]);
        SlackStep(data, degr, s.trail, n, idx);
        if idx >= 0 {
          UndoFalsified(idx);
        }
        s.qhead := s.qhead - 1;
      }
      assert s.trail[..n][..s.qhead] == s.trail[..s.qhead];
      s.trail := s.trail[..n];
      if 0 < |s.limits| && s.limits[|s.limits| - 1] == |s.trail| {
        s.limits := s.limits[..|s.limits| - 1];
      }
    }

    /** backjumpTo: the constraint is settled at the start of the level it returns to. */
    method BackjumpTo(s: Trail, level: nat)
      requires Valid(s) && level < |s.limits|
      modifies this`watchslack, s
      ensures Valid(s) && s.limits == old(s.limits)[..level] && s.trail == old(s.trail)[..old(s.limits)[level]]
      ensures s.qhead == |s.trail|
    {
      BackjumpSettles(data, degr, watchslack, s.trail, s.limits, s.qhead, level);
      PopWhole(s, level);
      assert s.trail[..|s.trail|] == s.trail;
    }

    /** backjumpTo's loop. */
    method PopWhole(s: Trail, level: nat)
      requires Shape(data) && s.Valid() && level < |s.limits|
               && watchslack == WatchSlack(data, degr, s.trail[..s.qhead])
      modifies this`watchslack, s
      ensures s.limits == old(s.limits)[..level] && s.trail == old(s.trail)[..old(s.limits)[level]]
      ensures s.qhead == |s.trail| && s.trailpops > old(s.trailpops)
      ensures watchslack == WatchSlack(data, degr, s.trail[..s.qhead])
    {
      ghost var t0, l0, q0 := s.trail, s.limits, s.qhead;
      while |s.limits| > level
        invariant Popping(s, t0, l0, q0, level) && s.trailpops >= old(s.trailpops)
        invariant |s.limits| == level ==> s.trailpops > old(s.trailpops)
        decreases |s.trail|
      {
        PopOne(s, t0, l0, q0, level);
      }
    }

    ghost predicate Popping(s: Trail, t0: seq<int>, l0: seq<nat>, q0: nat, level: nat)
      reads this, s
    {
      && Shape(data) && s.Valid() && s.qhead <= |s.trail| && watchslack == WatchSlack(data, degr, s.trail[..s.qhead])
      && TrailOk(t0, l0, q0) && level <= |s.limits| && PoppedFrom(t0, l0, q0, s.trail, s.limits, s.qhead)
      && (|s.limits| == level ==> JustPopped(l0, s.trail, s.limits))
    }

    method PopOne(s: Trail, ghost t0: seq<int>, ghost l0: seq<nat>, ghost q0: nat, ghost level: nat)
      requires Popping(s, t0, l0, q0, level) && |s.limits| > level
      modifies this`watchslack, s
      ensures Popping(s, t0, l0, q0, level) && s.trailpops == old(s.trailpops) + 1 && |s.trail| < |old(s.trail)|
    {
      PopStep(t0, l0, q0, s.trail, s.limits, s.qhead);
      hide WatchSlack, Shape;
      RemoveLastAssignment(s);
    }

    constructor (terms: seq<Term>, d: int, idx: bool, sup: bool)
      ensures data == terms && degr == d && propIdx == idx && propSup == sup && nextWatchIdx == 0 && ntrailpops == -1
    {
      data, degr, propIdx, propSup := terms, d, idx, sup;
      watchslack, nextWatchIdx, ntrailpops := 0, 0, -1;
    }

    /** initializeWatches, for a constraint that is not falsified, and at the start of the earlier levels neither
        falsified nor propagating. */
    method InitializeWatches(s: Trail)
      requires Shape(data) && (forall i :: 0 <= i < |data| ==> data[i].coef > 0) && ntrailpops == -1
      requires s.Valid() && CountSlack(data, degr, s.trail) >= 0
      requires forall k :: 0 <= k < |s.limits| ==> Quiet(data, degr, s.trail[..s.limits[k]])
      modifies this, s`trail
      ensures Valid(s) && old(s.trail) <= s.trail && SameTerms(old(data), data)
      ensures forall j :: |old(s.trail)| <= j < |s.trail| ==> Forced(data, degr, s.trail[..j], s.trail[j])
    {
      ghost var start := data;
      var t := s.trail[..s.qhead];
      FirstWatches(t);
      if watchslack >= Abs(data[0].coef) {
        EnoughAtOnce(start, data, degr, watchslack, s.trail, s.limits, s.qhead);
        return;
      }
      InitialPropagation(s, start, t);
    }

    /** The first loop of initializeWatches, which is the search for watches over the processed trail. */
    method FirstWatches(t: seq<int>)
      requires Shape(data) && forall i :: 0 <= i < |data| ==> data[i].coef > 0
      modifies this`data, this`watchslack, this`nextWatchIdx
      ensures Shape(data) && WatchesGrew(old(data), data) && watchslack == WatchSlack(data, degr, t)
              && nextWatchIdx == 0
      ensures watchslack >= Abs(data[0].coef) || UnwatchedFalse(data, t)
      ensures forall i :: 0 <= i < |data| && data[i].coef < 0 ==> !IsFalse(data[i].lit, t)
    {
      ghost var start := data;
      watchslack := -degr;
      nextWatchIdx := 0;
      assert t[..|t|] == t;
      NothingWatched(data, degr, t);
      SearchLoop(t, |t|, data);
      SearchDone(start, data, degr, watchslack, t, |t|, nextWatchIdx);
      nextWatchIdx := 0;
    }

    /** The rest of initializeWatches, when there are too few literals to watch. */
    method InitialPropagation(s: Trail, ghost start: seq<Term>, t: seq<int>)
      requires Shape(data) && SameTerms(start, data) && nextWatchIdx == 0 && ntrailpops == -1
      requires s.Valid() && CountSlack(start, degr, s.trail) >= 0 && t == s.trail[..s.qhead]
      requires watchslack == WatchSlack(data, degr, t) && UnwatchedFalse(data, t)
      requires forall i :: 0 <= i < |data| && data[i].coef < 0 ==> !IsFalse(data[i].lit, t)
      requires forall k :: 0 <= k < |s.limits| ==> Quiet(start, degr, s.trail[..s.limits[k]])
      modifies this, s`trail
      ensures Valid(s) && old(s.trail) <= s.trail && SameTerms(start, data)
      ensures forall j :: |old(s.trail)| <= j < |s.trail| ==> Forced(data, degr, s.trail[..j], s.trail[j])
    {
      ghost var j := WatchFalsified(t);
      PrefixFalse(data, t, j, s.trail);
      hide Shape, UnwatchedFalse, SameTerms, Quiet, WatchSlack, CountSlack, TrailOk, Forced;
      PropagateForced(s);
      nextWatchIdx := 0;
      InitialSettles(start, data, degr, watchslack, old(s.trail), s.trail, s.limits, s.qhead, j);
    }

    /** The index of the term with literal l, -1 when there is none. */
    method FindTerm(l: int) returns (idx: int)
      ensures -1 <= idx < |data|
      ensures if idx >= 0 then data[idx].lit == l else forall i :: 0 <= i < |data| ==> data[i].lit != l
    {
      idx := |data| - 1;
      while idx >= 0 && data[idx].lit != l
        invariant -1 <= idx < |data|
        invariant forall i :: idx < i < |data| ==> data[i].lit != l
      {
        idx := idx - 1;
      }
    }

    /** Watch false literals too, the latest first, until undoing them would bring the slack up to the largest
        coefficient. */
    method WatchFalsified(t: seq<int>) returns (j: nat)
      requires Shape(data) && TrailOk(t, [], |t|) && watchslack == WatchSlack(data, degr, t) && UnwatchedFalse(data, t)
      requires forall i :: 0 <= i < |data| && data[i].coef < 0 ==> !IsFalse(data[i].lit, t)
      modifies this`data
      ensures SameTerms(old(data), data) && Shape(data) && watchslack == WatchSlack(data, degr, t)
      ensures j <= |t| && UnwatchedFalse(data, t[..j])
              && (j == 0 || WatchSlack(data, degr, t[..j]) >= Abs(data[0].coef))
    {
      j := |t|;
      var diff := Abs(data[0].coef) - watchslack;
      assert t[..|t|] == t;
      ghost var start := data;
      assert WatchedBack(start, data, degr, t, j, watchslack, diff);
      while j > 0 && diff > 0
        invariant j <= |t| && WatchedBack(start, data, degr, t, j, watchslack, diff)
      {
        j := j - 1;
        diff := WatchNextFalse(t, j, diff, start);
      }
    }

    method WatchNextFalse(t: seq<int>, j: nat, diff: int, ghost start: seq<Term>) returns (d: int)
      requires j < |t| && TrailOk(t, [], |t|) && WatchedBack(start, data, degr, t, j + 1, watchslack, diff)
      modifies this`data
      ensures WatchedBack(start, data, degr, t, j, watchslack, d)
    {
      hide WatchedBack, TrailOk;
      d := diff;
      WatchedBackShape(start, data, degr, t, j + 1, watchslack, diff);
      var idx := FindTerm(-t[j]);
      if idx >= 0 {
        WatchFalse(start, data, degr, t, j, watchslack, diff, idx);
        d := diff - data[idx].coef;
        data := data[idx := Term(-data[idx].coef, data[idx].lit)];
      } else {
        NothingFalse(start, data, degr, t, j, watchslack, diff);
      }
    }
  }

  /** With every unwatched literal false, a coefficient above the watched slack is above the counted one. */
  lemma ForcedNow(data: seq<Term>, degr: int, start: seq<int>, trail: seq<int>, qhead: nat, i: nat)
    requires UnwatchedFalse(data, start) && start <= trail && qhead <= |start| && i < |data|
    requires Abs(data[i].coef) > WatchSlack(data, degr, start[..qhead])
    ensures Forced(data, degr, trail, data[i].lit)
  {
    assert start[..qhead] == trail[..qhead];
    SlackMono(data, degr, trail, trail[..qhead]);
    assert UnwatchedFalse(data, trail);
    WatchBelowCount(data, degr, trail);
  }

  lemma DropSettles(data: seq<Term>, mid: seq<Term>, degr: int, ws: int, ws': int, trail: seq<int>, limits: seq<nat>,
                    qhead: nat, i: nat, next: nat)
    requires Settled(data, degr, ws, trail, limits, qhead) && qhead < |trail| && WatchesGrew(data, mid)
    requires i < |data| && data[i].coef < 0 && data[i].lit == -trail[qhead]
    requires 0 < |mid| && ws' == WatchSlack(mid, degr, trail[..qhead + 1]) && ws' >= Abs(mid[0].coef)
    requires Resumable(mid, ws', trail, next)
    ensures |mid| == |data| && mid[i].coef < 0
    ensures var data' := mid[i := Term(-mid[i].coef, mid[i].lit)];
            Settled(data', degr, ws', trail, limits, qhead + 1) && Resumable(data', ws', trail, next) && next <= |data'|
  {
    hide WatchSlack;
    VisitDropped(data, mid, mid[i := Term(-mid[i].coef, mid[i].lit)], degr, ws, ws', trail, limits, qhead, i);
    ResumableDropped(mid, i, ws', trail, next);
  }

  /** Taking back the last processed literal gives a watched term its coefficient back. */
  lemma Unvisited(data: seq<Term>, degr: int, ws: int, trail: seq<int>, limits: seq<nat>, q: nat, idx: int)
    requires Settled(data, degr, ws, trail, limits, q + 1) && forall k :: 0 <= k < |limits| ==> limits[k] <= q
    requires -1 <= idx < |data| && q < |trail|
    requires idx >= 0 ==> data[idx].coef < 0 && data[idx].lit == -trail[q]
    requires idx < 0 ==> forall i :: 0 <= i < |data| && data[i].coef < 0 ==> data[i].lit != -trail[q]
    ensures Settled(data, degr, if idx >= 0 then ws - data[idx].coef else ws, trail, limits, q)
  {
    SlackStep(data, degr, trail, q, idx);
  }

  lemma SlackStep(data: seq<Term>, degr: int, trail: seq<int>, q: nat, idx: int)
    requires Shape(data) && TrailOk(trail, [], q) && q < |trail| && -1 <= idx < |data|
    requires idx >= 0 ==> data[idx].coef < 0 && data[idx].lit == -trail[q]
    requires idx < 0 ==> forall i :: 0 <= i < |data| && data[i].coef < 0 ==> data[i].lit != -trail[q]
    ensures WatchSlack(data, degr, trail[..q]) == WatchSlack(data, degr, trail[..q + 1]) - if idx >= 0
            then data[idx].coef else 0
  {
    if idx >= 0 {
      VisitCost(data, degr, trail, q, idx);
    } else {
      NotBefore(trail, [], q);
      FalsifyElsewhere(Watching(data), trail[..q], trail[q]);
    }
  }

  /** Popping from the end: the trail is a prefix that has not lost its current level, or has just lost one. */
  ghost predicate PoppedFrom(trail0: seq<int>, limits0: seq<nat>, qhead0: nat, trail: seq<int>, limits: seq<nat>,
                             qhead: nat) {
    && trail <= trail0 && limits <= limits0 && qhead == Min(qhead0, |trail|)
    && (0 < |limits| ==> limits[|limits| - 1] < |trail|)
    && (|limits| < |limits0| ==> |trail| <= limits0[|limits|])
  }

  ghost predicate JustPopped(limits0: seq<nat>, trail: seq<int>, limits: seq<nat>) {
    |limits| < |limits0| && |trail| == limits0[|limits|]
  }

  lemma PopStep(trail0: seq<int>, limits0: seq<nat>, qhead0: nat, trail: seq<int>, limits: seq<nat>, qhead: nat)
    requires TrailOk(trail0, limits0, qhead0) && PoppedFrom(trail0, limits0, qhead0, trail, limits, qhead)
             && 0 < |limits|
    ensures 0 < |trail|
    ensures var n := |trail| - 1;
            var ends := limits[|limits| - 1] == n;
            var limits' := if ends then limits[..|limits| - 1] else limits;
            && PoppedFrom(trail0, limits0, qhead0, trail[..n], limits', Min(qhead, n))
            && (ends ==> JustPopped(limits0, trail[..n], limits'))
  {
    var n := |trail| - 1;
    if limits[|limits| - 1] == n && |limits| > 1 {
      assert limits0[|limits| - 2] < limits0[|limits| - 1];
    }
  }

  lemma NothingWatched(data: seq<Term>, degr: int, t: seq<int>)
    requires Shape(data) && forall i :: 0 <= i < |data| ==> data[i].coef > 0
    ensures Searched(data, data, degr, -degr, t, |t|, 0)
  {
    assert t[..|t|] == t;
    assert Watching(data) == Watching(data);
    AllZero(Watching(data), Live(t));
  }

  lemma {:induction false} AllZero(s: seq<Term>, L: Lits)
    requires forall i :: 0 <= i < |s| ==> s[i].coef == 0
    ensures Weight(s, L) == 0
  {
    if |s| > 0 {
      AllZero(s[..|s| - 1], L);
    }
  }

  /** Going backwards over the processed trail: its false literals from j on are watched, and diff is what undoing them
      would still leave to the largest coefficient. */
  ghost predicate WatchedBack(start: seq<Term>, data: seq<Term>, degr: int, t: seq<int>, j: nat, ws: int, diff: int) {
    && Shape(data) && SameTerms(start, data) && j <= |t| && ws == WatchSlack(data, degr, t)
    && UnwatchedFalse(data, t[..j]) && diff == Abs(data[0].coef) - WatchSlack(data, degr, t[..j])
    && forall i :: 0 <= i < |data| && data[i].coef < 0 ==> !IsFalse(data[i].lit, t[..j])
  }

  lemma WatchedBackShape(start: seq<Term>, data: seq<Term>, degr: int, t: seq<int>, j: nat, ws: int, diff: int)
    requires WatchedBack(start, data, degr, t, j, ws, diff)
    ensures |data| > 0
  {
  }

  lemma WatchFalse(start: seq<Term>, data: seq<Term>, degr: int, t: seq<int>, j: nat, ws: int, diff: int, idx: nat)
    requires WatchedBack(start, data, degr, t, j + 1, ws, diff) && TrailOk(t, [], |t|) && j < |t|
    requires idx < |data| && data[idx].lit == -t[j]
    ensures data[idx].coef > 0
    ensures WatchedBack(start, data[idx := Term(-data[idx].coef, data[idx].lit)], degr, t, j, ws, diff - data[idx].coef)
  {
    assert t[j] in t[..j + 1];
    StillFalse(data, data[idx := Term(-data[idx].coef, data[idx].lit)], t, j, idx);
    WatchFalseSlack(data, degr, t, j, idx);
    hide WatchSlack;
  }

  lemma WatchFalseSlack(data: seq<Term>, degr: int, t: seq<int>, j: nat, idx: nat)
    requires Shape(data) && TrailOk(t, [], |t|) && j < |t| && idx < |data| && data[idx].lit == -t[j]
             && data[idx].coef > 0
    ensures var data' := data[idx := Term(-data[idx].coef, data[idx].lit)];
            && WatchSlack(data', degr, t) == WatchSlack(data, degr, t)
            && WatchSlack(data', degr, t[..j]) == WatchSlack(data, degr, t[..j + 1]) + data[idx].coef
  {
    NotBefore(t, [], j);
    assert t[j] in t[..j + 1] && t[j] in t;
    FlipWatch(data, idx, degr, t);
    FlipWatch(data, idx, degr, t[..j + 1]);
    FalsifyAt(Watching(data[idx := Term(-data[idx].coef, data[idx].lit)]), t[..j], t[j], idx);
  }

  lemma StillFalse(data: seq<Term>, data': seq<Term>, t: seq<int>, j: nat, idx: nat)
    requires j < |t| && Shape(data) && UnwatchedFalse(data, t[..j + 1]) && idx < |data| && data[idx].lit == -t[j]
    requires data[idx].coef > 0 && data' == data[idx := Term(-data[idx].coef, data[idx].lit)]
    ensures UnwatchedFalse(data', t[..j])
  {
    forall i | 0 <= i < |data'| && data'[i].coef > 0
      ensures IsFalse(data'[i].lit, t[..j])
    {
      assert i != idx && Var(data[i].lit) != Var(data[idx].lit);
      assert t[..j + 1] == t[..j] + [t[j]];
    }
  }

  lemma NothingFalse(start: seq<Term>, data: seq<Term>, degr: int, t: seq<int>, j: nat, ws: int, diff: int)
    requires WatchedBack(start, data, degr, t, j + 1, ws, diff) && TrailOk(t, [], |t|) && j < |t|
    requires forall i :: 0 <= i < |data| ==> data[i].lit != -t[j]
    ensures WatchedBack(start, data, degr, t, j, ws, diff)
  {
    NotBefore(t, [], j);
    FalsifyElsewhere(Watching(data), t[..j], t[j]);
    hide WatchSlack;
  }

  lemma PrefixFalse(data: seq<Term>, t: seq<int>, j: nat, trail: seq<int>)
    requires t <= trail && j <= |t| && UnwatchedFalse(data, t[..j])
    ensures UnwatchedFalse(data, trail) && trail[..j] == t[..j]
  {
  }

  lemma InitialSettles(start: seq<Term>, data: seq<Term>, degr: int, ws: int, trail: seq<int>, trail': seq<int>,
                       limits: seq<nat>, qhead: nat, j: nat)
    requires Shape(data) && TrailOk(trail, limits, qhead) && TrailOk(trail', limits, qhead) && trail <= trail'
    requires SameTerms(start, data) && CountSlack(start, degr, trail) >= 0
    requires ws == WatchSlack(data, degr, trail[..qhead])
    requires forall k :: 0 <= k < |limits| ==> Quiet(start, degr, trail[..limits[k]])
    requires j <= qhead && UnwatchedFalse(data, trail[..j])
    requires j == 0 || WatchSlack(data, degr, trail[..j]) >= Abs(data[0].coef)
    requires forall i :: 0 <= i < |data| && Abs(data[i].coef) > ws ==> !IsUnknown(data[i].lit, trail')
    ensures Settled(data, degr, ws, trail', limits, qhead)
  {
    PlainSame(start, data);
    assert UnwatchedFalse(data, trail) && UnwatchedFalse(data, trail') && UnwatchedFalse(data, trail[..qhead]);
    WatchBelowCount(data, degr, trail);
    SlackMono(data, degr, trail, trail[..qhead]);
    assert trail'[..qhead] == trail[..qhead];
    forall k | 0 <= k < |limits|
      ensures EnoughWatched(data, degr, trail'[..limits[k]]) && Quiet(data, degr, trail'[..limits[k]])
    {
      assert trail'[..limits[k]] == trail[..limits[k]];
      if limits[k] <= j {
        SlackMono(data, degr, trail[..j], trail[..limits[k]]);
      }
    }
  }

  lemma EnoughAtOnce(start: seq<Term>, data: seq<Term>, degr: int, ws: int, trail: seq<int>, limits: seq<nat>,
                     qhead: nat)
    requires Shape(data) && TrailOk(trail, limits, qhead) && WatchesGrew(start, data)
    requires ws == WatchSlack(data, degr, trail[..qhead]) && ws >= Abs(data[0].coef)
    requires forall k :: 0 <= k < |limits| ==> Quiet(start, degr, trail[..limits[k]])
    ensures Settled(data, degr, ws, trail, limits, qhead)
  {
    PlainSame(start, data);
    forall k | 0 <= k < |limits|
      ensures EnoughWatched(data, degr, trail[..limits[k]]) && Quiet(data, degr, trail[..limits[k]])
    {
      SlackMono(data, degr, trail[..qhead], trail[..limits[k]]);
    }
  }

  /** Before the search: the prefix up to nextWatchIdx needs no second look, and when the search is left out nothing is
      to be found. */
  lemma ReadyToSearch(data: seq<Term>, degr: int, ws: int, trail: seq<int>, limits: seq<nat>, qhead: nat, i: nat,
                      next: nat)
    requires Settled(data, degr, ws, trail, limits, qhead) && qhead < |trail| && Resumable(data, ws, trail, next)
    requires i < |data| && data[i].coef < 0 && data[i].lit == -trail[qhead]
    ensures Shape(data) && WatchesGrew(data, data)
    ensures ws + data[i].coef == WatchSlack(data, degr, trail[..qhead + 1])
    ensures forall j :: 0 <= j < next ==> data[j].coef < 0 || IsFalse(data[j].lit, trail)
    ensures ws < Abs(data[0].coef) ==> UnwatchedFalse(data, trail) && Resumable(data, ws + data[i].coef, trail, next)
  {
    VisitCost(data, degr, trail, qhead, i);
  }

  lemma FoundResumable(data: seq<Term>, ws: int, trail: seq<int>, next: nat)
    requires 0 < |data| && next <= |data| && (ws < Abs(data[0].coef) ==> next == 0)
    requires ws >= Abs(data[0].coef) ==> forall j :: 0 <= j < next ==> data[j].coef < 0 || IsFalse(data[j].lit, trail)
    ensures Resumable(data, ws, trail, next)
  {
  }

  lemma ResumableDropped(data: seq<Term>, i: nat, ws: int, trail: seq<int>, next: nat)
    requires Resumable(data, ws, trail, next) && i < |data| && data[i].coef < 0 && IsFalse(data[i].lit, trail)
    ensures Resumable(data[i := Term(-data[i].coef, data[i].lit)], ws, trail, next)
  {
  }

  lemma ResumableAssigned(data: seq<Term>, ws: int, trail: seq<int>, next: nat)
    requires 0 < |data| && ws < Abs(data[0].coef) && next <= |data|
    requires forall j :: 0 <= j < next ==> !IsUnknown(data[j].lit, trail)
    ensures Resumable(data, ws, trail, next)
  {
  }

  lemma ForcedStays(data: seq<Term>, degr: int, n: nat, t: seq<int>, t': seq<int>)
    requires n <= |t| && |t'| == |t| + 1 && t <= t' && Forced(data, degr, t, t'[|t|])
    requires forall j :: n <= j < |t| ==> Forced(data, degr, t[..j], t[j])
    ensures forall j :: n <= j < |t'| ==> Forced(data, degr, t'[..j], t'[j])
  {
    forall j | n <= j < |t'|
      ensures Forced(data, degr, t'[..j], t'[j])
    {
      if j < |t| {
        assert t'[..j] == t[..j] && t'[j] == t[j];
      } else {
        assert t'[..j] == t;
      }
    }
  }
}
