/** Counting propagation of one pseudo-Boolean constraint in RoundingSat (Constr.cpp).  It is the case of watched
    propagation in which every term is watched, so the same facts about visits and backjumps apply; the two then
    agree. */
module Counting {
  import opened Arith
  import opened PBCore
  import opened Watched

  /** The terms with every one of them watched. */
  ghost function AllWatched(data: seq<Term>): (s: seq<Term>)
    ensures |s| == |data|
    ensures forall i :: 0 <= i < |s| ==> s[i] == Term(-Abs(data[i].coef), data[i].lit)
  {
    seq(|data|, i requires 0 <= i < |data| => Term(-Abs(data[i].coef), data[i].lit))
  }

  lemma AllWatchedSlack(data: seq<Term>, degr: int, t: seq<int>)
    ensures WatchSlack(AllWatched(data), degr, t) == CountSlack(data, degr, t)
    ensures CountSlack(AllWatched(data), degr, t) == CountSlack(data, degr, t)
  {
    assert Watching(AllWatched(data)) == Plain(data) == Plain(AllWatched(data));
  }

  ghost predicate CountSettled(data: seq<Term>, degr: int, slack: int, trail: seq<int>, limits: seq<nat>, qhead: nat) {
    Settled(AllWatched(data), degr, slack, trail, limits, qhead)
  }

  lemma AllWatchedShape(data: seq<Term>)
    requires Shape(data)
    ensures Shape(AllWatched(data)) && SameTerms(data, AllWatched(data))
  {
  }

  /** Both kinds of propagation over the same terms and the same fully processed trail: neither has missed a conflict or
      a literal, and the watched slack is the counted one wherever it says something. */
  lemma WatchedAgreesWithCounting(data: seq<Term>, watched: seq<Term>, degr: int, slack: int, watchslack: int,
                                  trail: seq<int>, limits: seq<nat>)
    requires SameTerms(data, watched) && CountSettled(data, degr, slack, trail, limits, |trail|)
    requires Settled(watched, degr, watchslack, trail, limits, |trail|)
    ensures slack == CountSlack(data, degr, trail) && Quiet(data, degr, trail)
    ensures watchslack <= slack && (watchslack < Abs(watched[0].coef) ==> watchslack == slack)
    ensures forall i :: 0 <= i < |data| ==> (Abs(data[i].coef) > slack <==> Abs(watched[i].coef) > watchslack)
  {
    assert trail[..|trail|] == trail;
    AllWatchedSlack(data, degr, trail);
    PlainSame(data, watched);
    AgreesWithCounting(watched, degr, watchslack, trail, limits);
    PlainSame(data, AllWatched(data));
    AgreesWithCounting(AllWatched(data), degr, slack, trail, limits);
  }

  /** On a trail that falsifies the constraint both stop with a conflict before it is fully processed. */
  lemma ConflictsAgree(data: seq<Term>, watched: seq<Term>, degr: int, slack: int, watchslack: int, trail: seq<int>,
                       limits: seq<nat>)
    requires SameTerms(data, watched) && CountSlack(data, degr, trail) < 0
    ensures !CountSettled(data, degr, slack, trail, limits, |trail|)
    ensures !Settled(watched, degr, watchslack, trail, limits, |trail|)
  {
    PlainSame(data, watched);
    if Settled(watched, degr, watchslack, trail, limits, |trail|) {
      AgreesWithCounting(watched, degr, watchslack, trail, limits);
    }
    AllWatchedSlack(data, degr, trail);
    if CountSettled(data, degr, slack, trail, limits, |trail|) {
      AgreesWithCounting(AllWatched(data), degr, slack, trail, limits);
    }
  }

  class Counting {
    const data: seq<Term>
    const degr: int
    var slack: int
    var nextWatchIdx: nat
    var ntrailpops: int
    const propIdx: bool

    constructor (terms: seq<Term>, d: int, idx: bool)
      ensures data == terms && degr == d && propIdx == idx && nextWatchIdx == 0 && ntrailpops == -1
    {
      data, degr, propIdx := terms, d, idx;
      slack, nextWatchIdx, ntrailpops := 0, 0, -1;
    }

    /** hasCorrectSlack, and that nextWatchIdx may be used when nothing was popped since. */
    ghost predicate Valid(s: Trail)
      reads this, s
    {
      && Shape(data) && (forall i :: 0 <= i < |data| ==> data[i].coef > 0)
      && CountSettled(data, degr, slack, s.trail, s.limits, s.qhead)
      && ntrailpops <= s.trailpops && nextWatchIdx <= |data|
      && (propIdx && ntrailpops == s.trailpops ==> AssignedUpTo(nextWatchIdx, s.trail))
    }

    ghost predicate AssignedUpTo(n: nat, t: seq<int>)
      requires n <= |data|
    {
      forall j :: 0 <= j < n ==> !IsUnknown(data[j].lit, t)
    }

    /** checkForPropagation. */
    method CheckForPropagation(idx: nat, s: Trail) returns (status: WatchStatus)
      requires Shape(data) && (forall i :: 0 <= i < |data| ==> data[i].coef > 0)
      requires 0 < s.qhead <= |s.trail| && idx < |data| && data[idx].lit == -s.trail[s.qhead - 1]
      requires CountSettled(data, degr, slack, s.trail, s.limits, s.qhead - 1)
      requires ntrailpops <= s.trailpops && nextWatchIdx <= |data|
      requires propIdx && ntrailpops == s.trailpops ==> AssignedUpTo(nextWatchIdx, s.trail)
      modifies this, s`trail
      ensures status != DROPWATCH && old(s.trail) <= s.trail && ntrailpops <= s.trailpops && nextWatchIdx <= |data|
      ensures status == KEEPWATCH ==> Valid(s)
      ensures status == CONFLICTING ==> s.trail == old(s.trail) && CountSlack(data, degr, s.trail) < 0
      ensures status == CONFLICTING ==> CountSettled(data, degr, slack + data[idx].coef, s.trail, s.limits, s.qhead - 1)
      ensures forall j :: |old(s.trail)| <= j < |s.trail| ==> Forced(data, degr, s.trail[..j], s.trail[j])
    {
      ghost var slack0, q := slack, s.qhead - 1;
      LoseTerm(data, degr, slack, s.trail, s.limits, q, idx);
      hide Shape, CountSettled, Forced, CountSlack;
      slack := slack - data[idx].coef;
      if slack < 0 {
        return CONFLICTING;
      }
      if slack < data[0].coef {
        if !propIdx || ntrailpops < s.trailpops {
          ntrailpops := s.trailpops;
          nextWatchIdx := 0;
        }
        PropagateForced(s);
      } else {
        NoneAbove(data, slack);
      }
      KeepTerm(data, degr, slack0, slack, old(s.trail), s.trail, s.limits, q);
      return KEEPWATCH;
    }

    /** What one turn of runPropagation does to this constraint. */
    method Process(s: Trail) returns (conflict: bool)
      requires Valid(s) && s.qhead < |s.trail|
      modifies this, s
      ensures Valid(s) && old(s.trail) <= s.trail && s.limits == old(s.limits) && s.trailpops >= old(s.trailpops)
      ensures s.qhead == old(s.qhead) + if conflict then 0 else 1
      ensures conflict ==> CountSlack(data, degr, s.trail) < 0
      ensures forall j :: |old(s.trail)| <= j < |s.trail| ==> Forced(data, degr, s.trail[..j], s.trail[j])
    {
      hide CountSlack, CountSettled, Forced, Shape;
      var idx := |data| - 1;
      while idx >= 0 && data[idx].lit != -s.trail[s.qhead]
        invariant -1 <= idx < |data|
        invariant forall i :: idx < i < |data| ==> data[i].lit != -s.trail[s.qhead]
      {
        idx := idx - 1;
      }
      if idx < 0 {
        NotConcerned(data, degr, slack, s.trail, s.limits, s.qhead);
        s.qhead := s.qhead + 1;
        return false;
      }
      s.qhead := s.qhead + 1;
      var status := CheckForPropagation(idx, s);
      conflict := status == CONFLICTING;
      if conflict {
        s.trailpops := s.trailpops + 1;
        slack := slack + data[idx].coef;
        s.qhead := s.qhead - 1;
      }
    }

    /** initializeWatches, for a constraint that is not falsified, and at the start of the earlier levels neither
        falsified nor propagating. */
    method InitializeWatches(s: Trail)
      requires Shape(data) && (forall i :: 0 <= i < |data| ==> data[i].coef > 0) && ntrailpops == -1
               && nextWatchIdx == 0
      requires s.Valid() && CountSlack(data, degr, s.trail) >= 0
      requires forall k :: 0 <= k < |s.limits| ==> Quiet(data, degr, s.trail[..s.limits[k]])
      modifies this, s`trail
      ensures Valid(s) && old(s.trail) <= s.trail
      ensures forall j :: |old(s.trail)| <= j < |s.trail| ==> Forced(data, degr, s.trail[..j], s.trail[j])
    {
      SumNotFalse(s.trail[..s.qhead]);
      hide CountSettled, Forced, Quiet;
      if slack < data[0].coef {
        PropagateForced(s);
        nextWatchIdx := 0;
      } else {
        NoneAbove(data, slack);
      }
      InitialCount(data, degr, slack, old(s.trail), s.trail, s.limits, s.qhead);
    }

    method SumNotFalse(t: seq<int>)
      requires forall i :: 0 <= i < |data| ==> data[i].coef > 0
      modifies this`slack
      ensures slack == CountSlack(data, degr, t)
    {
      slack := -degr;
      var i := 0;
      while i < |data|
        invariant 0 <= i <= |data| && slack == Weight(Plain(data)[..i], Live(t)) - degr
      {
        WeightStep(Plain(data), i, Live(t));
        if !IsFalse(data[i].lit, t) {
          slack := slack + data[i].coef;
        }
        i := i + 1;
      }
      WeightFull(Plain(data), Live(t));
    }

    /** The loop that propagates every unassigned literal whose coefficient exceeds the slack. */
    method PropagateForced(s: Trail)
      requires Shape(data) && (forall i :: 0 <= i < |data| ==> data[i].coef > 0) && s.Valid()
      requires slack == CountSlack(data, degr, s.trail[..s.qhead])
      requires nextWatchIdx <= |data| && AssignedUpTo(nextWatchIdx, s.trail)
      modifies this`nextWatchIdx, s`trail
      ensures s.Valid() && old(s.trail) <= s.trail
      ensures nextWatchIdx <= |data| && AssignedUpTo(nextWatchIdx, s.trail)
      ensures forall i :: 0 <= i < |data| && data[i].coef > slack ==> !IsUnknown(data[i].lit, s.trail)
      ensures forall j :: |old(s.trail)| <= j < |s.trail| ==> Forced(data, degr, s.trail[..j], s.trail[j])
    {
      while nextWatchIdx < |data| && data[nextWatchIdx].coef > slack
        invariant nextWatchIdx <= |data| && AssignedUpTo(nextWatchIdx, s.trail) && s.Valid() && old(s.trail) <= s.trail
        invariant forall j :: |old(s.trail)| <= j < |s.trail| ==> Forced(data, degr, s.trail[..j], s.trail[j])
      {
        var l := data[nextWatchIdx].lit;
        if IsUnknown(l, s.trail) {
          CountForced(data, degr, old(s.trail)[..s.qhead], s.trail, nextWatchIdx);
          ghost var before := s.trail;
          s.Propagate(l);
          ForcedStays(data, degr, |old(s.trail)|, before, s.trail);
        }
        nextWatchIdx := nextWatchIdx + 1;
      }
    }
  }

  lemma NoneAbove(data: seq<Term>, slack: int)
    requires Shape(data) && data[0].coef <= slack && forall i :: 0 <= i < |data| ==> data[i].coef > 0
    ensures forall i :: 0 <= i < |data| ==> data[i].coef <= slack
  {
  }

  /** The literal of term i is processed as false: the slack loses its coefficient, and a negative slack is a conflict
      that undoing the visit takes back. */
  lemma LoseTerm(data: seq<Term>, degr: int, slack: int, trail: seq<int>, limits: seq<nat>, q: nat, i: nat)
    requires CountSettled(data, degr, slack, trail, limits, q) && q < |trail| && i < |data| && data[i].coef > 0
    requires data[i].lit == -trail[q]
    ensures TrailOk(trail, limits, q + 1) && slack - data[i].coef == CountSlack(data, degr, trail[..q + 1])
    ensures slack - data[i].coef < 0 ==> CountSlack(data, degr, trail) < 0
  {
    var all := AllWatched(data);
    VisitCost(all, degr, trail, q, i);
    AllWatchedSlack(data, degr, trail[..q + 1]);
    AllWatchedSlack(data, degr, trail);
    SlackMono(all, degr, trail, trail[..q + 1]);
  }

  lemma KeepTerm(data: seq<Term>, degr: int, slack: int, slack': int, trail: seq<int>, trail': seq<int>,
                 limits: seq<nat>, q: nat)
    requires CountSettled(data, degr, slack, trail, limits, q) && q < |trail| && trail <= trail'
    requires TrailOk(trail', limits, q + 1) && slack' == CountSlack(data, degr, trail[..q + 1]) >= 0
    requires (forall i :: 0 <= i < |data| ==> data[i].coef > 0)
    requires forall i :: 0 <= i < |data| && data[i].coef > slack' ==> !IsUnknown(data[i].lit, trail')
    ensures CountSettled(data, degr, slack', trail', limits, q + 1)
  {
    var all := AllWatched(data);
    assert trail'[..q + 1] == trail[..q + 1];
    AllWatchedSlack(data, degr, trail[..q + 1]);
    assert TrailOk(trail', limits, q);
    EnqueueSettles(all, degr, slack, trail, limits, q, trail');
    VisitKept(all, all, degr, slack, slack', trail', limits, q);
  }

  lemma NotConcerned(data: seq<Term>, degr: int, slack: int, trail: seq<int>, limits: seq<nat>, q: nat)
    requires CountSettled(data, degr, slack, trail, limits, q) && q < |trail|
    requires forall i :: 0 <= i < |data| ==> data[i].lit != -trail[q]
    ensures CountSettled(data, degr, slack, trail, limits, q + 1)
  {
    NoVisit(AllWatched(data), degr, slack, trail, limits, q);
  }

  lemma InitialCount(data: seq<Term>, degr: int, slack: int, trail: seq<int>, trail': seq<int>, limits: seq<nat>,
                     qhead: nat)
    requires Shape(data) && (forall i :: 0 <= i < |data| ==> data[i].coef > 0)
    requires TrailOk(trail, limits, qhead) && TrailOk(trail', limits, qhead) && trail <= trail'
    requires CountSlack(data, degr, trail) >= 0 && slack == CountSlack(data, degr, trail[..qhead])
    requires forall k :: 0 <= k < |limits| ==> Quiet(data, degr, trail[..limits[k]])
    requires forall i :: 0 <= i < |data| && data[i].coef > slack ==> !IsUnknown(data[i].lit, trail')
    ensures CountSettled(data, degr, slack, trail', limits, qhead)
  {
    AllWatchedShape(data);
    AllWatchedSlack(data, degr, trail[..qhead]);
    AllWatchedSlack(data, degr, trail);
    InitialSettles(data, AllWatched(data), degr, slack, trail, trail', limits, qhead, 0);
  }

  /** Backjumping to the start of a level: the slack is the counted one there. */
  lemma CountBackjump(data: seq<Term>, degr: int, slack: int, trail: seq<int>, limits: seq<nat>, qhead: nat, k: nat)
    requires CountSettled(data, degr, slack, trail, limits, qhead) && k < |limits|
    ensures limits[k] <= |trail|
    ensures CountSettled(data, degr, CountSlack(data, degr, trail[..limits[k]]), trail[..limits[k]], limits[..k],
                         limits[k])
  {
    BackjumpSettles(AllWatched(data), degr, slack, trail, limits, qhead, k);
    AllWatchedSlack(data, degr, trail[..limits[k]]);
  }

  lemma CountForced(data: seq<Term>, degr: int, t: seq<int>, t': seq<int>, i: nat)
    requires i < |data| && Abs(data[i].coef) > CountSlack(data, degr, t) && t <= t'
    ensures Forced(data, degr, t', data[i].lit)
  {
    AllWatchedSlack(data, degr, t);
    AllWatchedSlack(data, degr, t');
    SlackMono(AllWatched(data), degr, t', t);
  }
}
