/** Pseudo-Boolean constraints and their meaning.

    A literal is a non-zero integer, -l is its complement.  The weight of a left-hand side is taken
    over a SET of literals, so the same function serves twice: over the literals true under a total
    0/1 assignment it evaluates the constraint, over the non-false literals of a trail it gives the slack. */
module PBCore {

  datatype Term = Term(coef: int, lit: int)

  /** lhs >= rhs */
  datatype PB = PB(lhs: seq<Term>, rhs: int)

  type Lits = iset<int>

  function Var(l: int): (v: int)
    ensures v >= 0
  {
    if l < 0 then -l else l
  }

  ghost function Weight(s: seq<Term>, L: Lits): int {
    if |s| == 0 then 0
    else Weight(s[..|s| - 1], L) + (if s[|s| - 1].lit in L then s[|s| - 1].coef else 0)
  }

  ghost function Slack(c: PB, L: Lits): int {
    Weight(c.lhs, L) - c.rhs
  }

  ghost predicate Sat(c: PB, L: Lits) {
    Slack(c, L) >= 0
  }

  /** A total 0/1 assignment, given by the literals it makes true. */
  ghost predicate Total(L: Lits) {
    forall l: int :: l != 0 ==> (l in L <==> -l !in L)
  }

  /** No variable has both literals missing: the non-false literals of a consistent trail. */
  ghost predicate Covering(L: Lits) {
    forall l: int :: l != 0 ==> l in L || -l in L
  }

  ghost predicate Holds(F: iset<PB>, a: Lits) {
    forall c :: c in F ==> Sat(c, a)
  }

  ghost predicate Implied(F: iset<PB>, c: PB) {
    forall a: Lits :: Total(a) && Holds(F, a) ==> Sat(c, a)
  }

  ghost predicate Positive(s: seq<Term>) {
    forall i :: 0 <= i < |s| ==> s[i].coef > 0 && s[i].lit != 0
  }

  /** Strictly increasing variables (Functions.h:35-37). */
  ghost predicate Ordered(s: seq<Term>) {
    forall i, j :: 0 <= i < j < |s| ==> Var(s[i].lit) < Var(s[j].lit)
  }

  ghost predicate DistinctVars(s: seq<Term>) {
    forall i, j :: 0 <= i < j < |s| ==> Var(s[i].lit) != Var(s[j].lit)
  }

  ghost predicate WellFormed(c: PB) {
    Positive(c.lhs) && Ordered(c.lhs)
  }

  /** No coefficient exceeds the right-hand side. */
  ghost predicate Saturated(c: PB) {
    forall i :: 0 <= i < |c.lhs| ==> c.lhs[i].coef <= c.rhs
  }

  ghost predicate MentionsVar(s: seq<Term>, v: int) {
    exists i :: 0 <= i < |s| && Var(s[i].lit) == v
  }

  lemma WeightSnoc(s: seq<Term>, t: Term, L: Lits)
    ensures Weight(s + [t], L) == Weight(s, L) + (if t.lit in L then t.coef else 0)
  {
    assert (s + [t])[..|s|] == s;
  }

  lemma WeightStep(s: seq<Term>, i: nat, L: Lits)
    requires i < |s|
    ensures Weight(s[..i + 1], L) == Weight(s[..i], L) + (if s[i].lit in L then s[i].coef else 0)
  {
    assert s[..i + 1] == s[..i] + [s[i]];
    WeightSnoc(s[..i], s[i], L);
  }

  lemma WeightFull(s: seq<Term>, L: Lits)
    ensures Weight(s[..|s|], L) == Weight(s, L)
  {
    assert s[..|s|] == s;
  }

  lemma {:induction false} WeightAppend(s: seq<Term>, t: seq<Term>, L: Lits)
    ensures Weight(s + t, L) == Weight(s, L) + Weight(t, L)
    decreases |t|
  {
    if |t| == 0 {
      assert s + t == s;
    } else {
      var u := t[..|t| - 1];
      assert s + t == (s + u) + [t[|t| - 1]];
      WeightSnoc(s + u, t[|t| - 1], L);
      WeightAppend(s, u, L);
    }
  }

  lemma {:induction false} WeightAgree(s: seq<Term>, L: Lits, M: Lits)
    requires forall i :: 0 <= i < |s| ==> (s[i].lit in L <==> s[i].lit in M)
    ensures Weight(s, L) == Weight(s, M)
  {
    if |s| > 0 {
      WeightAgree(s[..|s| - 1], L, M);
    }
  }

  /** More literals, more weight. */
  lemma {:induction false} WeightMono(s: seq<Term>, L: Lits, M: Lits)
    requires Positive(s)
    requires forall i :: 0 <= i < |s| ==> (s[i].lit in L ==> s[i].lit in M)
    ensures 0 <= Weight(s, L) <= Weight(s, M)
  {
    if |s| > 0 {
      WeightMono(s[..|s| - 1], L, M);
    }
  }

  ghost function CoefSum(s: seq<Term>): int {
    if |s| == 0 then 0 else CoefSum(s[..|s| - 1]) + s[|s| - 1].coef
  }

  lemma {:induction false} WeightAtMostSum(s: seq<Term>, L: Lits)
    requires Positive(s)
    ensures 0 <= Weight(s, L) <= CoefSum(s)
  {
    if |s| > 0 {
      WeightAtMostSum(s[..|s| - 1], L);
    }
  }

  lemma WeightSplitAt(s: seq<Term>, i: nat, L: Lits)
    requires i < |s|
    ensures Weight(s, L) == Weight(s[..i], L) + (if s[i].lit in L then s[i].coef else 0) + Weight(s[i + 1..], L)
  {
    assert s == s[..i + 1] + s[i + 1..];
    WeightAppend(s[..i + 1], s[i + 1..], L);
    WeightStep(s, i, L);
  }

  lemma WeightAtLeastTerm(s: seq<Term>, i: nat, L: Lits)
    requires Positive(s) && i < |s| && s[i].lit in L
    ensures Weight(s, L) >= s[i].coef
  {
    WeightSplitAt(s, i, L);
    WeightAtMostSum(s[..i], L);
    WeightAtMostSum(s[i + 1..], L);
  }

  /** Removing one literal from the set costs exactly its coefficient. */
  lemma WeightRemoveLit(s: seq<Term>, i: nat, L: Lits)
    requires DistinctVars(s) && i < |s| && s[i].lit in L
    ensures Weight(s, L - iset{s[i].lit}) == Weight(s, L) - s[i].coef
  {
    var M := L - iset{s[i].lit};
    WeightSplitAt(s, i, L);
    WeightSplitAt(s, i, M);
    WeightAgree(s[..i], L, M);
    WeightAgree(s[i + 1..], L, M);
  }

  lemma OrderedIsDistinct(s: seq<Term>)
    requires Ordered(s)
    ensures DistinctVars(s)
  {
  }

  lemma TotalIsCovering(L: Lits)
    requires Total(L)
    ensures Covering(L)
  {
  }
}
