/** Cardinality constraints inside pseudo-Boolean ones (ConstrExp.cpp, simplifyToCardinality).  The terms are sorted by
    decreasing coefficient, so sums over arbitrary sets of literals can be compared with prefix and suffix sums. */
module Cardinality {
  import opened Arith
  import opened PBCore
  import opened ConstrExp

  ghost predicate Decreasing(s: seq<Term>) {
    forall i, j :: 0 <= i <= j < |s| ==> s[i].coef >= s[j].coef
  }

  /** How many of the literals count. */
  ghost function Count(s: seq<Term>, L: Lits): (n: nat)
    ensures n <= |s|
  {
    if |s| == 0 then 0 else Count(s[..|s| - 1], L) + (if s[|s| - 1].lit in L then 1 else 0)
  }

  ghost function Head(s: seq<Term>, i: int): int
    requires 0 <= i <= |s|
  {
    CoefSum(s[..i])
  }

  ghost function Tail(s: seq<Term>, i: int): int
    requires 0 <= i <= |s|
  {
    CoefSum(s[i..])
  }

  lemma SumSnoc(s: seq<Term>, t: Term)
    ensures CoefSum(s + [t]) == CoefSum(s) + t.coef
  {
    assert (s + [t])[..|s|] == s;
  }

  lemma PrefixSum(s: seq<Term>, i: nat)
    requires i < |s|
    ensures Head(s, i + 1) == Head(s, i) + s[i].coef
  {
    assert s[..i + 1] == s[..i] + [s[i]];
    SumSnoc(s[..i], s[i]);
  }

  lemma {:induction false} PrefixSumMono(s: seq<Term>, i: nat, j: nat)
    requires i <= j <= |s| && Positive(s)
    ensures Head(s, i) <= Head(s, j)
  {
    if i < j {
      PrefixSum(s, j - 1);
      PrefixSumMono(s, i, j - 1);
    }
  }

  lemma {:induction false} SumAppend(s: seq<Term>, t: seq<Term>)
    ensures CoefSum(s + t) == CoefSum(s) + CoefSum(t)
  {
    if |t| == 0 {
      assert s + t == s;
    } else {
      var u := t[..|t| - 1];
      assert s + t == (s + u) + [t[|t| - 1]];
      SumSnoc(s + u, t[|t| - 1]);
      SumAppend(s, u);
    }
  }

  lemma SuffixSum(s: seq<Term>, i: nat)
    requires i <= |s|
    ensures Head(s, i) + Tail(s, i) == CoefSum(s)
  {
    assert s == s[..i] + s[i..];
    SumAppend(s[..i], s[i..]);
  }

  /** No set of literals weighs more than the same number of largest ones. */
  lemma {:induction false} LargestWeighMost(s: seq<Term>, L: Lits)
    requires Decreasing(s)
    ensures Weight(s, L) <= Head(s, Count(s, L))
  {
    if |s| > 0 {
      var n := |s| - 1;
      var t := s[..n];
      LargestWeighMost(t, L);
      var c := Count(t, L);
      assert t[..c] == s[..c];
      if s[n].lit in L {
        PrefixSum(s, c);
      }
    }
  }

  /** No set of literals weighs less than the same number of smallest ones. */
  lemma {:induction false} SmallestWeighLeast(s: seq<Term>, L: Lits)
    requires Decreasing(s)
    ensures Weight(s, L) >= Tail(s, |s| - Count(s, L))
  {
    if |s| > 0 {
      var n := |s| - 1;
      var t := s[..n];
      SmallestWeighLeast(t, L);
      var c := Count(t, L);
      TailSums(s, c);
      hide CoefSum, Decreasing;
    }
  }

  /** The last c terms before the last one, extended by it or moved to include it. */
  lemma TailSums(s: seq<Term>, c: nat)
    requires Decreasing(s) && c < |s|
    ensures var n := |s| - 1;
            && Tail(s, n - c) == CoefSum(s[..n][n - c..]) + s[n].coef
            && Tail(s, n + 1 - c) <= CoefSum(s[..n][n - c..])
  {
    var n := |s| - 1;
    var t := s[..n][n - c..];
    assert s[n - c..] == t + [s[n]];
    SumSnoc(t, s[n]);
    assert t == s[n - c..][..c] && s[n - c + 1..][..c] == s[n - c + 1..];
    Shifted(s, n - c, c);
  }

  /** A window one place further to the right weighs no more. */
  lemma {:induction false} Shifted(s: seq<Term>, i: nat, c: nat)
    requires Decreasing(s) && i + c + 1 <= |s|
    ensures CoefSum(s[i..][..c]) >= CoefSum(s[i + 1..][..c])
  {
    if c > 0 {
      Shifted(s, i, c - 1);
      PrefixSum(s[i..], c - 1);
      PrefixSum(s[i + 1..], c - 1);
    }
  }

  /** k is how many of the largest coefficients it takes to reach the degree. */
  ghost predicate Needed(s: seq<Term>, degree: int, k: nat) {
    1 <= k <= |s| && Head(s, k - 1) < degree <= Head(s, k)
  }

  lemma TooFew(s: seq<Term>, degree: int, k: nat, L: Lits)
    requires Decreasing(s) && Positive(s) && Needed(s, degree, k)
    ensures Weight(s, L) >= degree ==> Count(s, L) >= k
  {
    LargestWeighMost(s, L);
    if Count(s, L) < k {
      PrefixSumMono(s, Count(s, L), k - 1);
    }
  }

  /** When the k smallest coefficients reach the degree too, exactly k literals are needed and enough. */
  lemma CardinalityExact(s: seq<Term>, degree: int, k: nat, L: Lits)
    requires Decreasing(s) && Positive(s) && Needed(s, degree, k) && Tail(s, |s| - k) >= degree
    ensures Weight(s, L) >= degree <==> Count(s, L) >= k
  {
    hide *;
    TooFew(s, degree, k, L);
    if Count(s, L) >= k {
      SmallestWeighLeast(s, L);
      SuffixSumMono(s, |s| - Count(s, L), |s| - k);
    }
  }

  lemma SuffixSumMono(s: seq<Term>, i: nat, j: nat)
    requires i <= j <= |s| && Positive(s)
    ensures Tail(s, i) >= Tail(s, j)
  {
    SuffixSum(s, i);
    SuffixSum(s, j);
    PrefixSumMono(s, i, j);
  }

  ghost function Literals(s: seq<Term>): Lits {
    iset i: int | 0 <= i < |s| :: s[i].lit
  }

  lemma {:induction false} AllCount(s: seq<Term>, L: Lits)
    requires forall i :: 0 <= i < |s| ==> s[i].lit in L
    ensures Count(s, L) == |s| && Weight(s, L) == CoefSum(s)
  {
    if |s| > 0 {
      AllCount(s[..|s| - 1], L);
    }
  }

  lemma {:induction false} NoneCount(s: seq<Term>, L: Lits)
    requires forall i :: 0 <= i < |s| ==> s[i].lit !in L
    ensures Count(s, L) == 0 && Weight(s, L) == 0
  {
    if |s| > 0 {
      NoneCount(s[..|s| - 1], L);
    }
  }

  lemma {:induction false} CountAppend(s: seq<Term>, t: seq<Term>, L: Lits)
    ensures Count(s + t, L) == Count(s, L) + Count(t, L)
    decreases |t|
  {
    if |t| == 0 {
      assert s + t == s;
    } else {
      var u := t[..|t| - 1];
      var x := t[|t| - 1];
      assert s + t == (s + u) + [x];
      assert ((s + u) + [x])[..|s + u|] == s + u;
      CountAppend(s, u, L);
    }
  }

  lemma PartMember(p: seq<Term>, q: seq<Term>, r: seq<Term>)
    requires DistinctVars(p + q + r)
    ensures forall k :: 0 <= k < |q| ==> q[k].lit in Literals(q)
    ensures forall k :: 0 <= k < |p| ==> p[k].lit !in Literals(q)
    ensures forall k :: 0 <= k < |r| ==> r[k].lit !in Literals(q)
  {
    var s := p + q + r;
    forall i, k | 0 <= i < |q| && 0 <= k < |p|
      ensures q[i].lit != p[k].lit
    {
      assert Var(s[k].lit) != Var(s[|p| + i].lit);
    }
    forall i, k | 0 <= i < |q| && 0 <= k < |r|
      ensures q[i].lit != r[k].lit
    {
      assert Var(s[|p| + i].lit) != Var(s[|p| + |q| + k].lit);
    }
  }

  /** Over exactly the literals of one part of the terms. */
  lemma PartCounts(p: seq<Term>, q: seq<Term>, r: seq<Term>)
    requires DistinctVars(p + q + r)
    ensures Count(p + q + r, Literals(q)) == |q| && Weight(p + q + r, Literals(q)) == CoefSum(q)
  {
    var L := Literals(q);
    PartMember(p, q, r);
    hide *;
    CountAppend(p + q, r, L);
    CountAppend(p, q, L);
    WeightAppend(p + q, r, L);
    WeightAppend(p, q, L);
    AllCount(q, L);
    NoneCount(p, L);
    NoneCount(r, L);
  }

  lemma PrefixCounts(s: seq<Term>, k: nat)
    requires DistinctVars(s) && k <= |s|
    ensures Count(s, Literals(s[..k])) == k && Weight(s, Literals(s[..k])) == Head(s, k)
  {
    hide Weight, Count, CoefSum, Literals, DistinctVars;
    assert [] + s[..k] + s[k..] == s;
    PartCounts([], s[..k], s[k..]);
  }

  lemma SuffixCounts(s: seq<Term>, k: nat)
    requires DistinctVars(s) && k <= |s|
    ensures Count(s, Literals(s[|s| - k..])) == k && Weight(s, Literals(s[|s| - k..])) == Tail(s, |s| - k)
  {
    hide Weight, Count, CoefSum, Literals, DistinctVars;
    var i := |s| - k;
    assert s[..i] + s[i..] + [] == s;
    PartCounts(s[..i], s[i..], []);
  }

  /** Otherwise no bound on the number of literals is equivalent: the k largest satisfy the constraint, the k smallest
      do not. */
  lemma NoCardinality(s: seq<Term>, degree: int, k: nat, bound: int)
    requires DistinctVars(s) && Needed(s, degree, k) && Tail(s, |s| - k) < degree
    ensures exists L: Lits :: !(Weight(s, L) >= degree <==> Count(s, L) >= bound)
  {
    PrefixCounts(s, k);
    SuffixCounts(s, k);
    hide Weight, Count, CoefSum;
    var L := if k >= bound then Literals(s[|s| - k..]) else Literals(s[..k]);
    assert Count(s, L) == k;
    assert Weight(s, L) >= degree <==> k < bound;
  }

  /** Smaller terms that together stay under the missing part can be skipped. */
  lemma SkippedImplied(s: seq<Term>, degree: int, k: nat, m: nat, L: Lits)
    requires Decreasing(s) && Positive(s) && Needed(s, degree, k) && k <= m <= |s|
    requires Tail(s, m) < degree - Head(s, k - 1)
    ensures Weight(s, L) >= degree ==> Count(s[..m], L) >= k
  {
    var p := s[..m];
    assert s == p + s[m..];
    WeightAppend(p, s[m..], L);
    WeightAtMostSum(s[m..], L);
    LargestWeighMost(p, L);
    if Count(p, L) < k {
      PrefixSumMono(p, Count(p, L), k - 1);
      assert p[..k - 1] == s[..k - 1];
    }
  }

  /** And k is the largest bound that is implied: the k largest literals satisfy the constraint. */
  lemma BoundMaximal(s: seq<Term>, degree: int, k: nat, m: nat)
    requires DistinctVars(s) && Needed(s, degree, k) && k <= m <= |s|
    ensures exists L: Lits :: Weight(s, L) >= degree && Count(s[..m], L) == k
  {
    var L := Literals(s[..k]);
    assert s[..m][..k] == s[..k];
    PrefixCounts(s, k);
    PrefixCounts(s[..m], k);
    assert Weight(s, L) >= degree && Count(s[..m], L) == k;
  }

  /** What is left of the degree once the k - 1 largest terms and everything from m on are set aside. */
  ghost predicate Wiggle(s: seq<Term>, degree: int, k: nat, m: int, w: int) {
    && Positive(s) && Needed(s, degree, k) && k <= m <= |s|
    && 0 < w == degree - Head(s, k - 1) - Tail(s, m)
  }

  /** m is the least bound from which on the terms can be skipped. */
  ghost predicate Skippable(s: seq<Term>, degree: int, k: nat, m: int) {
    1 <= k <= m <= |s| && Tail(s, m) < degree - Head(s, k - 1) <= Tail(s, m - 1)
  }

  lemma WiggleStart(s: seq<Term>, degree: int, k: nat, sum: int)
    requires Positive(s) && Needed(s, degree, k) && sum == Head(s, k)
    ensures Wiggle(s, degree, k, |s|, degree - sum + s[k - 1].coef)
  {
    PrefixSum(s, k - 1);
    SuffixSum(s, |s|);
    assert s[..|s|] == s;
  }

  lemma NoSuffix(s: seq<Term>)
    ensures Tail(s, |s|) == 0
  {
  }

  lemma SuffixStep(s: seq<Term>, i: nat)
    requires i < |s|
    ensures Tail(s, i) == s[i].coef + Tail(s, i + 1)
  {
    SuffixSum(s, i);
    SuffixSum(s, i + 1);
    PrefixSum(s, i);
  }

  lemma WiggleRange(s: seq<Term>, degree: int, k: nat, m: int, w: int)
    requires Wiggle(s, degree, k, m, w)
    ensures 1 <= k <= m <= |s|
  {
  }

  lemma WiggleStep(s: seq<Term>, degree: int, k: nat, m: int, w: int)
    requires Wiggle(s, degree, k, m, w) && w > s[m - 1].coef
    ensures k <= m - 1 < |s| && Wiggle(s, degree, k, m - 1, w - s[m - 1].coef)
  {
    NoSuffix(s);
    hide CoefSum, Head, Tail;
    SuffixStep(s, m - 1);
    SuffixSumMono(s, m, |s|);
    PrefixSum(s, k - 1);
  }

  lemma WiggleDone(s: seq<Term>, degree: int, k: nat, m: int, w: int)
    requires Wiggle(s, degree, k, m, w) && w <= s[m - 1].coef
    ensures Skippable(s, degree, k, m)
  {
    SuffixStep(s, m - 1);
  }

  /** A constraint whose coefficients cannot reach the degree has no solution. */
  lemma OutOfReach(s: seq<Term>, degree: int, L: Lits)
    requires Positive(s) && Head(s, |s|) < degree
    ensures Weight(s, L) < degree && Head(s, |s|) == CoefSum(s)
  {
    assert s[..|s|] == s;
    WeightAtMostSum(s, L);
  }

  /** What replacing the constraint by "at least k of the first m literals" keeps. */
  lemma Replaced(s: seq<Term>, degree: int, k: nat, m: nat)
    requires Decreasing(s) && Positive(s) && DistinctVars(s) && Needed(s, degree, k)
    requires Skippable(s, degree, k, m) || (m == |s| && Tail(s, |s| - k) >= degree)
    ensures k <= m <= |s|
    ensures forall L: Lits :: Weight(s, L) >= degree ==> Count(s[..m], L) >= k
    ensures exists L: Lits :: Weight(s, L) >= degree && Count(s[..m], L) == k
    ensures m == |s| && Tail(s, |s| - k) >= degree ==> forall L: Lits :: Count(s[..m], L) >= k ==>
              Weight(s, L) >= degree
  {
    BoundMaximal(s, degree, k, m);
    if m == |s| && Tail(s, |s| - k) >= degree {
      assert s[..m] == s;
      forall L: Lits
        ensures Weight(s, L) >= degree <==> Count(s, L) >= k
      {
        CardinalityExact(s, degree, k, L);
      }
    } else {
      forall L: Lits
        ensures Weight(s, L) >= degree ==> Count(s[..m], L) >= k
      {
        SkippedImplied(s, degree, k, m, L);
      }
    }
  }

  // ----- from the variable list to terms -----

  function TermsOf(vs: seq<int>, coefs: seq<int>): (s: seq<Term>)
    requires forall i :: 0 <= i < |vs| ==> 0 <= vs[i] < |coefs|
    ensures |s| == |vs|
    ensures forall i :: 0 <= i < |vs| ==> s[i] == Term(Abs(coefs[vs[i]]), if coefs[vs[i]] > 0 then vs[i] else -vs[i])
  {
    seq(|vs|, i requires 0 <= i < |vs| => Term(Abs(coefs[vs[i]]), if coefs[vs[i]] > 0 then vs[i] else -vs[i]))
  }

  lemma WithoutLast(vs: seq<int>, coefs: seq<int>)
    requires |vs| > 0 && forall i :: 0 <= i < |vs| ==> 1 <= vs[i] < |coefs|
    requires forall i, j :: 0 <= i < j < |vs| ==> vs[i] != vs[j]
    requires forall v :: 1 <= v < |coefs| && v !in vs ==> coefs[v] == 0
    ensures var n := |vs| - 1;
            && TermsOf(vs, coefs)[..n] == TermsOf(vs[..n], coefs[vs[n] := 0])
            && forall v :: 1 <= v < |coefs| && v !in vs[..n] ==> coefs[vs[n] := 0][v] == 0
  {
    assert vs == vs[..|vs| - 1] + [vs[|vs| - 1]];
  }

  /** The listed variables carry the whole weight. */
  lemma {:induction false} ListedWorth(vs: seq<int>, coefs: seq<int>, L: Lits)
    requires forall i :: 0 <= i < |vs| ==> 1 <= vs[i] < |coefs|
    requires forall i, j :: 0 <= i < j < |vs| ==> vs[i] != vs[j]
    requires forall v :: 1 <= v < |coefs| && v !in vs ==> coefs[v] == 0
    ensures Worth(coefs, L) == Weight(TermsOf(vs, coefs), L)
    decreases |vs|
  {
    if |vs| == 0 {
      AllZero(coefs, |coefs|, L);
    } else {
      var n := |vs| - 1;
      var v, rest, without := vs[n], vs[..n], coefs[vs[n] := 0];
      WithoutLast(vs, coefs);
      WorthUpdate(coefs, v, 0, L);
      assert Contr(coefs[v], v, L) == (if TermsOf(vs, coefs)[n].lit in L then TermsOf(vs, coefs)[n].coef else 0);
      hide TermsOf, WorthTo, Contr;
      ListedWorth(rest, without, L);
    }
  }

  /** With all coefficients at 1 the weight is the count. */
  lemma {:induction false} UnitWeight(s: seq<Term>, t: seq<Term>, L: Lits)
    requires |s| == |t| && forall i :: 0 <= i < |s| ==> t[i] == Term(1, s[i].lit)
    ensures Weight(t, L) == Count(s, L)
  {
    if |s| > 0 {
      UnitWeight(s[..|s| - 1], t[..|s| - 1], L);
    }
  }
}
