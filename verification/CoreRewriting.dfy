/** Core-guided rewriting of the objective (objrewrite.cpp).  A core says that at least k of its literals are true; new
    variables y1, y2, ... count how many more are.  LazyVar introduces them one at a time, EagerVar all at once. */
module CoreRewriting {
  import opened Arith
  import opened PBCore

  /** The core: literals with coefficient 1 over different variables. */
  ghost predicate CoreOk(core: seq<Term>) {
    && (forall i :: 0 <= i < |core| ==> core[i].coef == 1 && core[i].lit != 0)
    && DistinctVars(core)
  }

  /** New variables: positive, different, and not in the core. */
  ghost predicate Fresh(core: seq<Term>, ys: seq<int>) {
    && (forall j :: 0 <= j < |ys| ==> ys[j] > 0)
    && (forall i, j :: 0 <= i < j < |ys| ==> ys[i] != ys[j])
    && (forall i, j :: 0 <= i < |core| && 0 <= j < |ys| ==> Var(core[i].lit) != ys[j])
  }

  function Negated(s: seq<Term>): (r: seq<Term>)
    ensures |r| == |s| && forall i :: 0 <= i < |s| ==> r[i] == Term(-s[i].coef, s[i].lit)
  {
    seq(|s|, i requires 0 <= i < |s| => Term(-s[i].coef, s[i].lit))
  }

  function Times(c: int, ys: seq<int>): (r: seq<Term>)
    ensures |r| == |ys| && forall i :: 0 <= i < |ys| ==> r[i] == Term(c, ys[i])
  {
    seq(|ys|, i requires 0 <= i < |ys| => Term(c, ys[i]))
  }

  /** X - y1 - ... - yi >= k */
  function AtLeastSum(core: seq<Term>, k: int, ys: seq<int>): PB {
    PB(core + Times(-1, ys), k)
  }

  /** k + y1 + ... + y(i-1) + (u - k - i + 1) yi >= X */
  function AtMostSum(core: seq<Term>, k: int, u: int, ys: seq<int>): PB
    requires |ys| > 0
  {
    var i := |ys|;
    PB(Negated(core) + Times(1, ys[..i - 1]) + [Term(u - k - i + 1, ys[i - 1])], -k)
  }

  /** yi implies X >= k + i. */
  function AtLeastReified(core: seq<Term>, k: int, ys: seq<int>): PB
    requires |ys| > 0
  {
    PB(core + [Term(-|ys|, ys[|ys| - 1])], k)
  }

  /** X >= k + i implies yi. */
  function AtMostReified(core: seq<Term>, k: int, u: int, ys: seq<int>): PB
    requires |ys| > 0
  {
    var i := |ys|;
    PB(Negated(core) + [Term(u - k - i + 1, ys[i - 1])], -k - i + 1)
  }

  function AtLeast(reified: bool, core: seq<Term>, k: int, ys: seq<int>): PB
    requires |ys| > 0
  {
    if reified then AtLeastReified(core, k, ys) else AtLeastSum(core, k, ys)
  }

  function AtMost(reified: bool, core: seq<Term>, k: int, u: int, ys: seq<int>): PB
    requires |ys| > 0
  {
    if reified then AtMostReified(core, k, u, ys) else AtMostSum(core, k, u, ys)
  }

  /** y(j) >= y(j+1) */
  function Order(y: int, y': int): PB {
    PB([Term(1, y), Term(1, -y')], 1)
  }

  // ----- what the constraints mean -----

  ghost function Size(core: seq<Term>, a: Lits): int {
    Weight(core, a)
  }

  ghost function Ones(ys: seq<int>, a: Lits): int {
    Weight(Times(1, ys), a)
  }

  lemma {:induction false} NegatedWeight(s: seq<Term>, a: Lits)
    ensures Weight(Negated(s), a) == -Weight(s, a)
  {
    if |s| > 0 {
      NegatedWeight(s[..|s| - 1], a);
      assert Negated(s)[..|s| - 1] == Negated(s[..|s| - 1]);
    }
  }

  lemma {:induction false} TimesWeight(c: int, ys: seq<int>, a: Lits)
    ensures Weight(Times(c, ys), a) == c * Ones(ys, a) && 0 <= Ones(ys, a) <= |ys|
  {
    if |ys| > 0 {
      var rest := ys[..|ys| - 1];
      TimesWeight(c, rest, a);
      assert Times(c, ys)[..|rest|] == Times(c, rest) && Times(1, ys)[..|rest|] == Times(1, rest);
    }
  }

  lemma OnesSnoc(ys: seq<int>, a: Lits)
    requires |ys| > 0
    ensures Ones(ys, a) == Ones(ys[..|ys| - 1], a) + if ys[|ys| - 1] in a then 1 else 0
  {
    assert Times(1, ys)[..|ys| - 1] == Times(1, ys[..|ys| - 1]);
  }

  lemma SumMeaning(core: seq<Term>, k: int, u: int, ys: seq<int>, a: Lits)
    requires |ys| > 0
    ensures Sat(AtLeastSum(core, k, ys), a) <==> Size(core, a) >= k + Ones(ys, a)
    ensures Sat(AtMostSum(core, k, u, ys), a) <==>
              Size(core, a) <= k + Ones(ys[..|ys| - 1], a) + if ys[|ys| - 1] in a then u - k - |ys| + 1 else 0
  {
    var i := |ys|;
    WeightAppend(core, Times(-1, ys), a);
    TimesWeight(-1, ys, a);
    var t := Term(u - k - i + 1, ys[i - 1]);
    WeightSnoc(Negated(core) + Times(1, ys[..i - 1]), t, a);
    WeightAppend(Negated(core), Times(1, ys[..i - 1]), a);
    NegatedWeight(core, a);
  }

  lemma ReifiedMeaning(core: seq<Term>, k: int, u: int, ys: seq<int>, a: Lits)
    requires |ys| > 0
    ensures Sat(AtLeastReified(core, k, ys), a) <==> Size(core, a) >= k + if ys[|ys| - 1] in a then |ys| else 0
    ensures Sat(AtMostReified(core, k, u, ys), a) <==> Size(core, a) <= if ys[|ys| - 1] in a then u else k + |ys| - 1
  {
    WeightSnoc(core, Term(-|ys|, ys[|ys| - 1]), a);
    WeightSnoc(Negated(core), Term(u - k - |ys| + 1, ys[|ys| - 1]), a);
    NegatedWeight(core, a);
  }

  lemma OrderMeaning(y: int, y': int, a: Lits)
    requires Total(a) && y > 0 && y' > 0
    ensures Sat(Order(y, y'), a) <==> (y' in a ==> y in a)
  {
    WeightSnoc([], Term(1, y), a);
    WeightSnoc([Term(1, y)], Term(1, -y'), a);
    assert [Term(1, y)] + [Term(1, -y')] == [Term(1, y), Term(1, -y')] && [] + [Term(1, y)] == [Term(1, y)];
  }

  /** y1, y2, ... say how far the size of the core exceeds k. */
  ghost predicate Counts(core: seq<Term>, k: int, ys: seq<int>, a: Lits) {
    forall j :: 0 <= j < |ys| ==> (ys[j] in a <==> Size(core, a) >= k + j + 1)
  }

  ghost predicate Sorted(ys: seq<int>, a: Lits) {
    forall i, j :: 0 <= i < j < |ys| && ys[j] in a ==> ys[i] in a
  }

  lemma {:induction false} CountsOnes(core: seq<Term>, k: int, ys: seq<int>, a: Lits)
    requires Counts(core, k, ys, a) && Size(core, a) >= k
    ensures Ones(ys, a) == Min(Size(core, a) - k, |ys|)
  {
    if |ys| > 0 {
      assert forall j :: 0 <= j < |ys| - 1 ==> ys[..|ys| - 1][j] == ys[j];
      CountsOnes(core, k, ys[..|ys| - 1], a);
      OnesSnoc(ys, a);
    }
  }

  /** Sorted variables are a run of ones. */
  lemma {:induction false} SortedOnes(ys: seq<int>, a: Lits, j: nat)
    requires Sorted(ys, a) && j < |ys|
    ensures ys[j] in a <==> j < Ones(ys, a)
    decreases |ys|
  {
    var n := |ys| - 1;
    var rest := ys[..n];
    OnesSnoc(ys, a);
    TimesWeight(1, rest, a);
    if ys[n] in a {
      AllOnes(rest, a);
    } else if j < n {
      assert rest[j] == ys[j];
      SortedOnes(rest, a, j);
    }
  }

  lemma {:induction false} AllOnes(ys: seq<int>, a: Lits)
    requires forall j :: 0 <= j < |ys| ==> ys[j] in a
    ensures Ones(ys, a) == |ys|
  {
    if |ys| > 0 {
      OnesSnoc(ys, a);
      AllOnes(ys[..|ys| - 1], a);
    }
  }

  /** Whatever encoding: the counting assignment satisfies the two constraints of the last variable. */
  lemma CountingSatisfies(reified: bool, core: seq<Term>, k: int, u: int, ys: seq<int>, a: Lits)
    requires |ys| > 0 && Counts(core, k, ys, a) && k <= Size(core, a) <= u
    ensures Sat(AtLeast(reified, core, k, ys), a) && Sat(AtMost(reified, core, k, u, ys), a)
  {
    if reified {
      ReifiedMeaning(core, k, u, ys, a);
    } else {
      var rest := ys[..|ys| - 1];
      assert Counts(core, k, rest, a);
      CountsOnes(core, k, ys, a);
      CountsOnes(core, k, rest, a);
      SumMeaning(core, k, u, ys, a);
    }
  }

  /** The sum encoding pins the new variables down: sorted and within both sums, they count. */
  lemma SumCounts(core: seq<Term>, k: int, u: int, ys: seq<int>, a: Lits)
    requires |ys| > 0 && Sorted(ys, a) && Sat(AtLeastSum(core, k, ys), a) && Sat(AtMostSum(core, k, u, ys), a)
    ensures Counts(core, k, ys, a) && Size(core, a) >= k
    ensures ys[|ys| - 1] in a ==> Size(core, a) <= u
  {
    var n := |ys| - 1;
    SumMeaning(core, k, u, ys, a);
    TimesWeight(1, ys, a);
    OnesSnoc(ys, a);
    forall j | 0 <= j < |ys|
      ensures ys[j] in a <==> Size(core, a) >= k + j + 1
    {
      SortedOnes(ys, a, j);
      SortedOnes(ys, a, n);
    }
    if ys[n] in a {
      AllOnes(ys[..n], a);
    }
  }

  // ----- every assignment extends to the new variables -----

  predicate NewLit(l: int, ys: seq<int>) {
    l in ys || -l in ys
  }

  /** a with the new variables set to count. */
  ghost function Extended(core: seq<Term>, k: int, ys: seq<int>, a: Lits): Lits {
    iset l: int | InExtension(core, k, ys, a, l)
  }

  ghost predicate InExtension(core: seq<Term>, k: int, ys: seq<int>, a: Lits, l: int) {
    if NewLit(l, ys) then
      exists j :: 0 <= j < |ys| && Var(l) == ys[j] && (l > 0 <==> Size(core, a) >= k + j + 1)
    else l in a
  }

  lemma ExtensionCounts(core: seq<Term>, k: int, ys: seq<int>, a: Lits)
    requires CoreOk(core) && Fresh(core, ys) && Total(a)
    ensures var b := Extended(core, k, ys, a);
            && Total(b) && Size(core, b) == Size(core, a) && Counts(core, k, ys, b)
            && forall l :: !NewLit(l, ys) ==> (l in b <==> l in a)
  {
    var b := Extended(core, k, ys, a);
    forall i | 0 <= i < |core|
      ensures core[i].lit in b <==> core[i].lit in a
    {
      forall j | 0 <= j < |ys|
        ensures ys[j] != core[i].lit && ys[j] != -core[i].lit
      {
        assert Var(core[i].lit) != ys[j];
      }
    }
    WeightAgree(core, a, b);
    forall l: int | l != 0
      ensures l in b <==> -l !in b
    {
      if NewLit(l, ys) {
        var j :| 0 <= j < |ys| && Var(l) == ys[j];
        NewValue(core, k, ys, a, l, j);
        NewValue(core, k, ys, a, -l, j);
      }
    }
    forall j | 0 <= j < |ys|
      ensures ys[j] in b <==> Size(core, b) >= k + j + 1
    {
      NewValue(core, k, ys, a, ys[j], j);
    }
  }

  lemma NewValue(core: seq<Term>, k: int, ys: seq<int>, a: Lits, l: int, j: nat)
    requires Fresh(core, ys) && j < |ys| && Var(l) == ys[j]
    ensures l in Extended(core, k, ys, a) <==> (l > 0 <==> Size(core, a) >= k + j + 1)
  {
    assert NewLit(l, ys);
  }

  // ----- the constraints of a core in the solver -----

  /** What stays in the solver besides the two latest constraints: the order of the new variables and, reified, the
      earlier constraints. */
  function Kept(reified: bool, core: seq<Term>, k: int, u: int, ys: seq<int>): seq<PB>
    requires |ys| > 0
  {
    var n := |ys| - 1;
    if n == 0 then []
    else Kept(reified, core, k, u, ys[..n])
         + (if reified then [AtMost(reified, core, k, u, ys[..n]), AtLeast(reified, core, k, ys[..n])] else [])
         + [Order(ys[n - 1], ys[n])]
  }

  ghost predicate SatAll(cs: seq<PB>, a: Lits) {
    forall c :: c in cs ==> Sat(c, a)
  }

  lemma {:induction false} CountingSatisfiesKept(reified: bool, core: seq<Term>, k: int, u: int, ys: seq<int>, a: Lits)
    requires |ys| > 0 && Counts(core, k, ys, a) && k <= Size(core, a) <= u && Total(a)
    requires forall j :: 0 <= j < |ys| ==> ys[j] > 0
    ensures SatAll(Kept(reified, core, k, u, ys), a)
  {
    var n := |ys| - 1;
    if n > 0 {
      var rest := ys[..n];
      assert Counts(core, k, rest, a) by {
        assert forall j :: 0 <= j < n ==> rest[j] == ys[j];
      }
      CountingSatisfiesKept(reified, core, k, u, rest, a);
      CountingSatisfies(reified, core, k, u, rest, a);
      OrderMeaning(ys[n - 1], ys[n], a);
    }
  }

  lemma {:induction false} KeptSorted(reified: bool, core: seq<Term>, k: int, u: int, ys: seq<int>, a: Lits)
    requires |ys| > 0 && SatAll(Kept(reified, core, k, u, ys), a) && Total(a)
    requires forall j :: 0 <= j < |ys| ==> ys[j] > 0
    ensures Sorted(ys, a)
  {
    var n := |ys| - 1;
    if n > 0 {
      var rest := ys[..n];
      KeptSorted(reified, core, k, u, rest, a);
      assert Order(ys[n - 1], ys[n]) in Kept(reified, core, k, u, ys);
      OrderMeaning(ys[n - 1], ys[n], a);
      forall i, j | 0 <= i < j < |ys| && ys[j] in a
        ensures ys[i] in a
      {
        assert rest[n - 1] == ys[n - 1] && (j < n ==> rest[j] == ys[j]) && rest[i] == ys[i];
      }
    }
  }

  lemma {:induction false} KeptReifiedCounts(core: seq<Term>, k: int, u: int, ys: seq<int>, a: Lits)
    requires |ys| > 0 && SatAll(Kept(true, core, k, u, ys), a)
    requires Sat(AtLeastReified(core, k, ys), a) && Sat(AtMostReified(core, k, u, ys), a)
    ensures Counts(core, k, ys, a)
  {
    var n := |ys| - 1;
    ReifiedMeaning(core, k, u, ys, a);
    if n > 0 {
      var rest := ys[..n];
      assert AtMost(true, core, k, u, rest) in Kept(true, core, k, u, ys);
      assert AtLeast(true, core, k, rest) in Kept(true, core, k, u, ys);
      KeptReifiedCounts(core, k, u, rest, a);
      forall j | 0 <= j < |ys|
        ensures ys[j] in a <==> Size(core, a) >= k + j + 1
      {
        if j < n {
          assert rest[j] == ys[j];
        }
      }
    }
  }

  ghost predicate InForce(reified: bool, core: seq<Term>, k: int, u: int, ys: seq<int>, a: Lits)
    requires |ys| > 0
  {
    && SatAll(Kept(reified, core, k, u, ys), a)
    && Sat(AtMost(reified, core, k, u, ys), a) && Sat(AtLeast(reified, core, k, ys), a)
  }

  /** Conservative: an assignment within the bounds of the core extends to the new variables, changing nothing else. */
  lemma Conservative(reified: bool, core: seq<Term>, k: int, u: int, ys: seq<int>, a: Lits)
    requires |ys| > 0 && CoreOk(core) && Fresh(core, ys) && Total(a) && k <= Size(core, a) <= u
    ensures var b := Extended(core, k, ys, a);
            && Total(b) && InForce(reified, core, k, u, ys, b)
            && forall l :: !NewLit(l, ys) ==> (l in b <==> l in a)
  {
    var b := Extended(core, k, ys, a);
    ExtensionCounts(core, k, ys, a);
    CountingSatisfies(reified, core, k, u, ys, b);
    CountingSatisfiesKept(reified, core, k, u, ys, b);
  }

  /** And uniquely: in both encodings the constraints force the new variables to count. */
  lemma ForcedToCount(reified: bool, core: seq<Term>, k: int, u: int, ys: seq<int>, a: Lits)
    requires |ys| > 0 && (forall j :: 0 <= j < |ys| ==> ys[j] > 0) && Total(a) && InForce(reified, core, k, u, ys, a)
    ensures Counts(core, k, ys, a) && Size(core, a) >= k
  {
    KeptSorted(reified, core, k, u, ys, a);
    if reified {
      ReifiedMeaning(core, k, u, ys, a);
      KeptReifiedCounts(core, k, u, ys, a);
    } else {
      SumCounts(core, k, u, ys, a);
    }
  }

  /** Trading cost * (X - k) for cost * (y1 + ... + yi) never raises the objective, and loses nothing exactly while the
      core is not larger than what the new variables can count. */
  lemma ObjectiveBelow(reified: bool, core: seq<Term>, k: int, u: int, ys: seq<int>, cost: int, a: Lits)
    requires |ys| > 0 && (forall j :: 0 <= j < |ys| ==> ys[j] > 0) && Total(a) && InForce(reified, core, k, u, ys, a)
             && cost > 0
    ensures cost * Ones(ys, a) <= cost * (Size(core, a) - k)
    ensures cost * Ones(ys, a) == cost * (Size(core, a) - k) <==> Size(core, a) <= k + |ys|
  {
    ForcedToCount(reified, core, k, u, ys, a);
    CountsOnes(core, k, ys, a);
    hide Ones, Size, InForce, Counts;
    ScaledCompare(cost, Ones(ys, a), Size(core, a) - k);
  }

  lemma ScaledCompare(k: int, x: int, y: int)
    requires k > 0 && x <= y
    ensures k * x <= k * y && (k * x == k * y <==> x == y)
  {
    MulLeq(x, y, k);
    MulLeq(x + 1, y, k);
    assert (x + 1) * k == x * k + k && x * k == k * x && y * k == k * y;
  }
}
