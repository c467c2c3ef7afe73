/** Several interpolants at once (the second half of create_craig_interpolant, craigtracer.cpp): their conjunction,
    their disjunction, or the one with the fewest or the most clauses. */
module Combination {
  import opened Aig
  import opened Tseitin
  import opened Craig

  /** UNION joins the clauses, so it accepts what all parts accept; INTERSECTION accepts what some part accepts. */
  datatype Mode = Union | Intersection | Smallest | Largest

  ghost predicate DependsBelow(G: iset<Assign>, n: int) {
    forall a: Assign, b: Assign :: Agree(a, b, n) ==> (a in G <==> b in G)
  }

  /** The parts were built one after the other; none depends on a variable from first on. */
  ghost predicate PartsOk(parts: seq<Part>, Gs: seq<iset<Assign>>, bounds: seq<int>, first: int) {
    && |Gs| == |parts| && |bounds| == |parts| + 1 && 0 < first == bounds[0]
    && (forall k :: 0 <= k < |parts| ==> PartOk(parts[k], Gs[k], bounds[k], bounds[k + 1]))
    && (forall k :: 0 <= k < |parts| ==> DependsBelow(Gs[k], first))
  }

  /** What the combination accepts; k is the part that was chosen by size. */
  ghost predicate Combined(mode: Mode, Gs: seq<iset<Assign>>, k: nat, a: Assign) {
    match mode
    case Union => forall i :: 0 <= i < |Gs| ==> a in Gs[i]
    case Intersection => exists i :: 0 <= i < |Gs| && a in Gs[i]
    case _ => k < |Gs| && a in Gs[k]
  }

  // ----- all gates together -----

  ghost function AllGates(parts: seq<Part>): seq<seq<int>>
    requires forall k :: 0 <= k < |parts| && parts[k].kind.Normal? ==> EndsInUnit(parts[k])
  {
    if |parts| == 0 then []
    else AllGates(parts[..|parts| - 1]) + if parts[|parts| - 1].kind.Normal? then Gates(parts[|parts| - 1]) else []
  }

  lemma {:induction false} BoundsRise(parts: seq<Part>, Gs: seq<iset<Assign>>, bounds: seq<int>, first: int, k: nat)
    requires PartsOk(parts, Gs, bounds, first) && k <= |parts|
    ensures first <= bounds[k] <= bounds[|parts|]
    decreases |parts| - k
  {
    BoundsUp(parts, Gs, bounds, first, k);
    if k < |parts| {
      BoundsRise(parts, Gs, bounds, first, k + 1);
    }
  }

  lemma {:induction false} BoundsUp(parts: seq<Part>, Gs: seq<iset<Assign>>, bounds: seq<int>, first: int, k: nat)
    requires PartsOk(parts, Gs, bounds, first) && k <= |parts|
    ensures first <= bounds[k]
  {
    if k > 0 {
      BoundsUp(parts, Gs, bounds, first, k - 1);
    }
  }

  lemma Shape(parts: seq<Part>, Gs: seq<iset<Assign>>, bounds: seq<int>, first: int)
    requires PartsOk(parts, Gs, bounds, first)
    ensures forall k :: 0 <= k < |parts| && parts[k].kind.Normal? ==> EndsInUnit(parts[k])
  {
    forall k | 0 <= k < |parts| && parts[k].kind.Normal?
      ensures EndsInUnit(parts[k])
    {
      assert PartOk(parts[k], Gs[k], bounds[k], bounds[k + 1]);
    }
  }

  /** The gates of one more part: their own variables come after everything in gs. */
  lemma GatesStep(gs: seq<seq<int>>, p: Part, G: iset<Assign>, first: int, m: int, m': int, a: Assign, c: Assign)
    returns (b: Assign)
    requires p.kind.Normal? && PartOk(p, G, m, m') && first <= m
    requires Agree(a, c, first) && SatCnf(gs, c) && CnfBelow(gs, m)
    ensures Agree(a, b, first) && SatCnf(gs + Gates(p), b) && CnfBelow(gs + Gates(p), m')
  {
    assert Extendable(c, Gates(p), m);
    b :| Agree(c, b, m) && SatCnf(Gates(p), b);
    FreshVar(gs, m, c, b);
    SatAppend(gs, Gates(p), b);
  }

  lemma GatesSame(gs: seq<seq<int>>, p: Part, G: iset<Assign>, m: int, m': int)
    requires PartOk(p, G, m, m') && CnfBelow(gs, m)
    ensures CnfBelow(gs, m') && (p.kind.Normal? ==> EndsInUnit(p))
  {
  }

  /** Every assignment can be changed from first on so that all gates hold. */
  lemma {:induction false} GatesExtend(parts: seq<Part>, Gs: seq<iset<Assign>>, bounds: seq<int>, first: int, n: nat,
                                       a: Assign)
    returns (b: Assign)
    requires PartsOk(parts, Gs, bounds, first) && n <= |parts|
    ensures forall k :: 0 <= k < n && parts[k].kind.Normal? ==> EndsInUnit(parts[k])
    ensures Agree(a, b, first) && SatCnf(AllGates(parts[..n]), b) && CnfBelow(AllGates(parts[..n]), bounds[n])
  {
    hide SatCnf, CnfBelow, PartOk, Agree, DependsBelow;
    if n == 0 {
      b := a;
      NoGates(a, bounds[0]);
      assert parts[..0] == [];
    } else {
      var p := parts[n - 1];
      assert PartOk(p, Gs[n - 1], bounds[n - 1], bounds[n]);
      b := GatesExtend(parts, Gs, bounds, first, n - 1, a);
      assert parts[..n][..n - 1] == parts[..n - 1] && parts[..n][n - 1] == p;
      BoundsUp(parts, Gs, bounds, first, n - 1);
      var gs := AllGates(parts[..n - 1]);
      GatesSame(gs, p, Gs[n - 1], bounds[n - 1], bounds[n]);
      if p.kind.Normal? {
        b := GatesStep(gs, p, Gs[n - 1], first, bounds[n - 1], bounds[n], a, b);
      } else {
        assert AllGates(parts[..n]) == gs;
      }
    }
  }

  lemma NoGates(a: Assign, first: int)
    ensures Agree(a, a, first) && SatCnf([], a) && CnfBelow([], first)
  {
  }

  /** The gates of one part are among all gates. */
  lemma {:induction false} GatesOf(parts: seq<Part>, k: nat, b: Assign)
    requires forall i :: 0 <= i < |parts| && parts[i].kind.Normal? ==> EndsInUnit(parts[i])
    requires k < |parts| && parts[k].kind.Normal? && SatCnf(AllGates(parts), b)
    ensures SatCnf(Gates(parts[k]), b)
  {
    var n := |parts| - 1;
    SatAppend(AllGates(parts[..n]), if parts[n].kind.Normal? then Gates(parts[n]) else [], b);
    if k < n {
      GatesOf(parts[..n], k, b);
    }
  }

  /** Where all gates hold, the root literals tell which parts accept the assignment. */
  lemma RootsTell(parts: seq<Part>, Gs: seq<iset<Assign>>, bounds: seq<int>, first: int, k: nat, b: Assign)
    requires PartsOk(parts, Gs, bounds, first) && k < |parts| && parts[k].kind.Normal?
    requires forall i :: 0 <= i < |parts| && parts[i].kind.Normal? ==> EndsInUnit(parts[i])
    requires SatCnf(AllGates(parts), b)
    ensures LitTrue(Root(parts[k]), b) <==> b in Gs[k]
  {
    assert PartOk(parts[k], Gs[k], bounds[k], bounds[k + 1]);
    GatesOf(parts, k, b);
  }

  // ----- the clauses around the trigger -----

  /** The gates of the parts, each followed by its clause with the trigger literal t: s is 1 for UNION (the trigger
      enables every part) and -1 for INTERSECTION (no trigger, no part). */
  function Joined(parts: seq<Part>, t: int, s: int): seq<seq<int>>
    requires forall k :: 0 <= k < |parts| && parts[k].kind.Normal? ==> EndsInUnit(parts[k])
  {
    if |parts| == 0 then []
    else
      var p := parts[|parts| - 1];
      Joined(parts[..|parts| - 1], t, s) + if p.kind.Normal? then Gates(p) + [[-s * t, s * Root(p)]] else []
  }

  /** The trigger clause. */
  function TriggerClause(parts: seq<Part>, t: int, s: int): (c: seq<int>)
    requires forall k :: 0 <= k < |parts| && parts[k].kind.Normal? ==> EndsInUnit(parts[k])
    ensures |c| > 0 && c[0] == s * t
  {
    if |parts| == 0 then [s * t]
    else
      var p := parts[|parts| - 1];
      TriggerClause(parts[..|parts| - 1], t, s) + if p.kind.Normal? then [-s * Root(p)] else []
  }

  /** The clause of each part with the trigger literal. */
  ghost predicate Linked(parts: seq<Part>, t: int, s: int, b: Assign)
    requires forall k :: 0 <= k < |parts| && parts[k].kind.Normal? ==> EndsInUnit(parts[k])
  {
    forall k :: 0 <= k < |parts| && parts[k].kind.Normal? ==> LitTrue(-s * t, b) || LitTrue(s * Root(parts[k]), b)
  }

  lemma LinkedSnoc(parts: seq<Part>, t: int, s: int, b: Assign)
    requires |parts| > 0 && forall k :: 0 <= k < |parts| && parts[k].kind.Normal? ==> EndsInUnit(parts[k])
    ensures var u, p := parts[..|parts| - 1], parts[|parts| - 1];
            Linked(parts, t, s, b) <==>
              Linked(u, t, s, b) && (p.kind.Normal? ==> LitTrue(-s * t, b) || LitTrue(s * Root(p), b))
  {
    var u := parts[..|parts| - 1];
    assert forall k :: 0 <= k < |u| ==> u[k] == parts[k];
  }

  lemma {:induction false} JoinedMeans(parts: seq<Part>, t: int, s: int, b: Assign)
    requires forall k :: 0 <= k < |parts| && parts[k].kind.Normal? ==> EndsInUnit(parts[k])
    ensures SatCnf(Joined(parts, t, s), b) <==> SatCnf(AllGates(parts), b) && Linked(parts, t, s, b)
  {
    if |parts| > 0 {
      hide SatCnf, Linked, LitTrue, EndsInUnit, Root, Gates;
      var n := |parts| - 1;
      var u, p := parts[..n], parts[n];
      JoinedMeans(u, t, s, b);
      LinkedSnoc(parts, t, s, b);
      if p.kind.Normal? {
        var link := [[-s * t, s * Root(p)]];
        SatAppend(AllGates(u), Gates(p), b);
        SatAppend(Joined(u, t, s), Gates(p) + link, b);
        SatAppend(Gates(p), link, b);
        PairSat(-s * t, s * Root(p), b);
      } else {
        assert AllGates(parts) == AllGates(u) && Joined(parts, t, s) == Joined(u, t, s);
      }
    }
  }

  lemma PairSat(x: int, y: int, b: Assign)
    ensures SatCnf([[x, y]], b) <==> LitTrue(x, b) || LitTrue(y, b)
  {
    var c := [[x, y]];
    ClauseMeans2(x, y, b);
    assert c[0] == [x, y];
  }

  lemma {:induction false} TriggerMeans(parts: seq<Part>, t: int, s: int, b: Assign)
    requires forall k :: 0 <= k < |parts| && parts[k].kind.Normal? ==> EndsInUnit(parts[k])
    ensures SatClause(TriggerClause(parts, t, s), b) <==>
              || LitTrue(s * t, b)
              || exists k :: 0 <= k < |parts| && parts[k].kind.Normal? && LitTrue(-s * Root(parts[k]), b)
  {
    var c := TriggerClause(parts, t, s);
    if |parts| == 0 {
      assert c[0] == s * t;
    } else {
      var n := |parts| - 1;
      var u, p := parts[..n], parts[n];
      var d := TriggerClause(u, t, s);
      TriggerMeans(u, t, s, b);
      assert forall k :: 0 <= k < n ==> u[k] == parts[k];
      ClauseGrows(d, if p.kind.Normal? then [-s * Root(p)] else [], b);
      if p.kind.Normal? {
        assert [-s * Root(p)][0] == -s * Root(p);
      }
    }
  }

  lemma ClauseGrows(c: seq<int>, d: seq<int>, b: Assign)
    ensures SatClause(c + d, b) <==> SatClause(c, b) || SatClause(d, b)
  {
    var e := c + d;
    assert forall i :: 0 <= i < |c| ==> e[i] == c[i];
    assert forall i :: 0 <= i < |d| ==> e[|c| + i] == d[i];
    if SatClause(e, b) {
      var i :| 0 <= i < |e| && LitTrue(e[i], b);
      assert if i < |c| then LitTrue(c[i], b) else LitTrue(d[i - |c|], b);
    }
  }

  /** Gates and clauses, the trigger clause, the trigger. */
  function Triggered(parts: seq<Part>, t: int, s: int): seq<seq<int>>
    requires forall k :: 0 <= k < |parts| && parts[k].kind.Normal? ==> EndsInUnit(parts[k])
  {
    Joined(parts, t, s) + [TriggerClause(parts, t, s)] + [[t]]
  }

  lemma TriggeredMeans(parts: seq<Part>, t: int, s: int, b: Assign)
    requires forall k :: 0 <= k < |parts| && parts[k].kind.Normal? ==> EndsInUnit(parts[k])
    ensures SatCnf(Triggered(parts, t, s), b) <==>
              SatCnf(Joined(parts, t, s), b) && SatClause(TriggerClause(parts, t, s), b) && LitTrue(t, b)
  {
    var c := TriggerClause(parts, t, s);
    SatAppend(Joined(parts, t, s) + [c], [[t]], b);
    SatAppend(Joined(parts, t, s), [c], b);
    UnitSat(t, b);
    assert [c][0] == c;
    assert SatCnf([c], b) <==> SatClause(c, b);
  }

  /** What a satisfying assignment is accepted by. */
  lemma TriggeredSound(parts: seq<Part>, Gs: seq<iset<Assign>>, bounds: seq<int>, first: int, t: int, union: bool,
                       b: Assign)
    requires PartsOk(parts, Gs, bounds, first) && t > 0
    requires forall i :: 0 <= i < |parts| && parts[i].kind.Normal? ==> EndsInUnit(parts[i])
    requires forall i :: 0 <= i < |parts| ==> parts[i].kind != if union then Constant0 else Constant1
    requires SatCnf(Triggered(parts, t, if union then 1 else -1), b)
    ensures Combined(if union then Union else Intersection, Gs, 0, b)
  {
    hide SatCnf, SatClause, Joined, TriggerClause, AllGates, Triggered;
    var s := if union then 1 else -1;
    TriggeredMeans(parts, t, s, b);
    JoinedMeans(parts, t, s, b);
    TriggerMeans(parts, t, s, b);
    if union {
      forall k | 0 <= k < |parts|
        ensures b in Gs[k]
      {
        assert PartOk(parts[k], Gs[k], bounds[k], bounds[k + 1]);
        if parts[k].kind.Normal? {
          RootsTell(parts, Gs, bounds, first, k, b);
          assert s * Root(parts[k]) == Root(parts[k]);
        }
      }
    } else {
      var k :| 0 <= k < |parts| && parts[k].kind.Normal? && LitTrue(-s * Root(parts[k]), b);
      assert -s * Root(parts[k]) == Root(parts[k]);
      RootsTell(parts, Gs, bounds, first, k, b);
    }
  }

  /** What is accepted extends to a satisfying assignment. */
  lemma TriggeredComplete(parts: seq<Part>, Gs: seq<iset<Assign>>, bounds: seq<int>, first: int, union: bool, a: Assign)
    requires PartsOk(parts, Gs, bounds, first)
    requires forall i :: 0 <= i < |parts| && parts[i].kind.Normal? ==> EndsInUnit(parts[i])
    requires forall i :: 0 <= i < |parts| ==> parts[i].kind != if union then Constant0 else Constant1
    requires Combined(if union then Union else Intersection, Gs, 0, a)
    ensures Extendable(a, Triggered(parts, bounds[|parts|], if union then 1 else -1), first)
  {
    hide SatCnf, SatClause, Joined, TriggerClause, AllGates, Triggered;
    var s, t := if union then 1 else -1, bounds[|parts|];
    BoundsUp(parts, Gs, bounds, first, |parts|);
    var c := GatesExtend(parts, Gs, bounds, first, |parts|, a);
    assert parts[..|parts|] == parts;
    var b := c + iset{t};
    FreshVar(AllGates(parts), t, c, b);
    assert Agree(a, b, first) && LitTrue(t, b);
    forall k | 0 <= k < |parts| && parts[k].kind.Normal?
      ensures LitTrue(Root(parts[k]), b) <==> a in Gs[k]
    {
      RootsTell(parts, Gs, bounds, first, k, b);
      assert DependsBelow(Gs[k], first);
    }
    TriggeredMeans(parts, t, s, b);
    JoinedMeans(parts, t, s, b);
    TriggerMeans(parts, t, s, b);
    if union {
      assert forall k :: 0 <= k < |parts| && parts[k].kind.Normal? ==> s * Root(parts[k]) == Root(parts[k]);
    } else {
      var k :| 0 <= k < |parts| && a in Gs[k];
      assert PartOk(parts[k], Gs[k], bounds[k], bounds[k + 1]);
      assert -s * Root(parts[k]) == Root(parts[k]);
      assert -s * t == t;
    }
  }

  // ----- the algorithm -----

  /** The UNION and INTERSECTION branches: a constant that decides, all parts the other constant, or the trigger. */
  method Join(parts: seq<Part>, union: bool, next: int, ghost Gs: seq<iset<Assign>>, ghost bounds: seq<int>,
              ghost first: int)
    returns (p: Part, next': int)
    requires PartsOk(parts, Gs, bounds, first) && next == bounds[|parts|] && |parts| > 0
    ensures next' >= next
    ensures forall b: Assign :: SatCnf(p.cnf, b) ==> Combined(if union then Union else Intersection, Gs, 0, b)
    ensures forall a: Assign :: Combined(if union then Union else Intersection, Gs, 0, a) ==>
              Extendable(a, p.cnf, first)
    ensures KindOk(p)
  {
    KindsOk(parts, Gs, bounds, first);
    hide SatCnf, SatClause, Joined, TriggerClause, AllGates, Extendable;
    var decisive, neutral := if union then Constant0 else Constant1, if union then Constant1 else Constant0;
    var allNeutral := true;
    for i := 0 to |parts|
      invariant forall k :: 0 <= k < i ==> parts[k].kind != decisive
      invariant allNeutral <==> forall k :: 0 <= k < i ==> parts[k].kind == neutral
    {
      if parts[i].kind == decisive {
        ConstantDecides(parts, union, i, Gs, bounds, first);
        return parts[i], next;
      }
      allNeutral := allNeutral && parts[i].kind == neutral;
    }
    Shape(parts, Gs, bounds, first);
    if allNeutral {
      p, next' := Part(neutral, if union then [] else [[]]), next;
      AllConstant(parts, union, p.cnf, Gs, bounds, first);
      return;
    }
    var cnf := JoinAll(parts, union, next);
    forall b: Assign | SatCnf(cnf, b)
      ensures Combined(if union then Union else Intersection, Gs, 0, b)
    {
      BoundsUp(parts, Gs, bounds, first, |parts|);
      TriggeredSound(parts, Gs, bounds, first, next, union, b);
    }
    forall a: Assign | Combined(if union then Union else Intersection, Gs, 0, a)
      ensures Extendable(a, cnf, first)
    {
      TriggeredComplete(parts, Gs, bounds, first, union, a);
    }
    p, next' := Part(Normal, cnf), next + 1;
  }

  /** The loop that copies the gates and collects the trigger clause. */
  method JoinAll(parts: seq<Part>, union: bool, t: int) returns (cnf: seq<seq<int>>)
    requires forall k :: 0 <= k < |parts| && parts[k].kind.Normal? ==> EndsInUnit(parts[k])
    ensures cnf == Triggered(parts, t, if union then 1 else -1)
  {
    var s := if union then 1 else -1;
    cnf := [];
    var trigger := [s * t];
    assert parts[..0] == [];
    for i := 0 to |parts|
      invariant cnf == Joined(parts[..i], t, s) && trigger == TriggerClause(parts[..i], t, s)
    {
      assert parts[..i + 1][..i] == parts[..i];
      if parts[i].kind.Normal? {
        var l := parts[i].cnf[|parts[i].cnf| - 1][0];
        cnf := cnf + (parts[i].cnf[..|parts[i].cnf| - 1] + [[-s * t, s * l]]);
        trigger := trigger + [-s * l];
      }
    }
    assert parts[..|parts|] == parts;
    cnf := cnf + [trigger] + [[t]];
  }

  lemma ConstantDecides(parts: seq<Part>, union: bool, i: nat, Gs: seq<iset<Assign>>, bounds: seq<int>, first: int)
    requires PartsOk(parts, Gs, bounds, first) && i < |parts| && parts[i].kind == if union then Constant0 else Constant1
    ensures forall b: Assign :: SatCnf(parts[i].cnf, b) ==> Combined(if union then Union else Intersection, Gs, 0, b)
    ensures forall a: Assign :: Combined(if union then Union else Intersection, Gs, 0, a) ==>
              Extendable(a, parts[i].cnf, first)
  {
    assert PartOk(parts[i], Gs[i], bounds[i], bounds[i + 1]);
    forall a: Assign
      ensures Extendable(a, [], first) && !SatCnf([[]], a)
    {
      EmptyCnf(a, first);
    }
  }

  lemma AllConstant(parts: seq<Part>, union: bool, cnf: seq<seq<int>>, Gs: seq<iset<Assign>>, bounds: seq<int>,
                    first: int)
    requires PartsOk(parts, Gs, bounds, first) && cnf == if union then [] else [[]]
    requires forall k :: 0 <= k < |parts| ==> parts[k].kind == if union then Constant1 else Constant0
    ensures forall b: Assign :: SatCnf(cnf, b) ==> Combined(if union then Union else Intersection, Gs, 0, b)
    ensures forall a: Assign :: Combined(if union then Union else Intersection, Gs, 0, a) ==> Extendable(a, cnf, first)
  {
    forall k, a: Assign | 0 <= k < |parts|
      ensures a in Gs[k] <==> union
    {
      assert PartOk(parts[k], Gs[k], bounds[k], bounds[k + 1]);
    }
    forall a: Assign
      ensures Extendable(a, [], first) && !SatCnf([[]], a)
    {
      EmptyCnf(a, first);
    }
  }

  predicate NotAfter(p: Part, q: Part, smallest: bool) {
    if smallest then |p.cnf| <= |q.cnf| else |q.cnf| <= |p.cnf|
  }

  /** min_element and max_element by the number of clauses. */
  method BySize(parts: seq<Part>, smallest: bool) returns (k: nat)
    requires |parts| > 0
    ensures k < |parts|
    ensures forall i :: 0 <= i < |parts| ==> NotAfter(parts[k], parts[i], smallest)
  {
    k := 0;
    for i := 1 to |parts|
      invariant k < |parts|
      invariant forall j :: 0 <= j < i ==> NotAfter(parts[k], parts[j], smallest)
    {
      if !NotAfter(parts[k], parts[i], smallest) {
        k := i;
      }
    }
  }

  lemma OnePart(parts: seq<Part>, Gs: seq<iset<Assign>>, bounds: seq<int>, first: int, k: nat)
    requires PartsOk(parts, Gs, bounds, first) && k < |parts|
    ensures forall b: Assign :: SatCnf(parts[k].cnf, b) ==> b in Gs[k]
    ensures forall a: Assign :: a in Gs[k] ==> Extendable(a, parts[k].cnf, first)
  {
    var p := parts[k];
    assert PartOk(p, Gs[k], bounds[k], bounds[k + 1]);
    BoundsUp(parts, Gs, bounds, first, k);
    if p.kind.Normal? {
      var gates, l := Gates(p), Root(p);
      assert p.cnf[|p.cnf| - 1] == [l] && p.cnf == gates + [[l]];
      forall b: Assign
        ensures SatCnf(p.cnf, b) <==> SatCnf(gates, b) && LitTrue(l, b)
      {
        SatAppend(gates, [[l]], b);
        UnitSat(l, b);
      }
      forall a: Assign | a in Gs[k]
        ensures Extendable(a, p.cnf, first)
      {
        assert Extendable(a, gates, bounds[k]);
        var b: Assign :| Agree(a, b, bounds[k]) && SatCnf(gates, b);
        assert Agree(a, b, first) && DependsBelow(Gs[k], first);
      }
    } else {
      forall a: Assign
        ensures Extendable(a, [], first) && !SatCnf([[]], a)
      {
        EmptyCnf(a, first);
      }
    }
  }

  /** The choice between the modes; one part alone is taken as it is. */
  method Combine(parts: seq<Part>, mode: Mode, next: int, ghost Gs: seq<iset<Assign>>, ghost bounds: seq<int>,
                 ghost first: int)
    returns (p: Part, next': int, k: nat)
    requires PartsOk(parts, Gs, bounds, first) && next == bounds[|parts|] && |parts| > 0
    ensures next' >= next && k < |parts|
    ensures forall b: Assign :: SatCnf(p.cnf, b) ==> Combined(mode, Gs, k, b)
    ensures forall a: Assign :: Combined(mode, Gs, k, a) ==> Extendable(a, p.cnf, first)
    ensures mode == Smallest ==> p == parts[k] && forall i :: 0 <= i < |parts| ==> |p.cnf| <= |parts[i].cnf|
    ensures mode == Largest ==> p == parts[k] && forall i :: 0 <= i < |parts| ==> |parts[i].cnf| <= |p.cnf|
    ensures KindOk(p)
  {
    hide SatCnf, Extendable, PartsOk;
    KindsOk(parts, Gs, bounds, first);
    next', k := next, 0;
    if |parts| == 1 {
      OnePart(parts, Gs, bounds, first, 0);
      Alone(mode, Gs, parts, bounds, first);
      p := parts[0];
      return;
    }
    match mode
    case Union =>
      p, next' := Join(parts, true, next, Gs, bounds, first);
    case Intersection =>
      p, next' := Join(parts, false, next, Gs, bounds, first);
    case _ =>
      k := BySize(parts, mode == Smallest);
      OnePart(parts, Gs, bounds, first, k);
      p := parts[k];
      Lengths(parts, Gs, bounds, first);
  }

  /** The kind tells constants and proper clauses apart. */
  ghost predicate KindOk(p: Part) {
    match p.kind
    case Constant1 => p.cnf == []
    case Constant0 => p.cnf == [[]]
    case Normal => EndsInUnit(p)
  }

  lemma KindsOk(parts: seq<Part>, Gs: seq<iset<Assign>>, bounds: seq<int>, first: int)
    requires PartsOk(parts, Gs, bounds, first)
    ensures forall i :: 0 <= i < |parts| ==> KindOk(parts[i])
  {
    forall i | 0 <= i < |parts|
      ensures KindOk(parts[i])
    {
      assert PartOk(parts[i], Gs[i], bounds[i], bounds[i + 1]);
    }
  }

  lemma Lengths(parts: seq<Part>, Gs: seq<iset<Assign>>, bounds: seq<int>, first: int)
    requires PartsOk(parts, Gs, bounds, first)
    ensures |Gs| == |parts|
  {
  }

  lemma Alone(mode: Mode, Gs: seq<iset<Assign>>, parts: seq<Part>, bounds: seq<int>, first: int)
    requires PartsOk(parts, Gs, bounds, first) && |parts| == 1
    ensures |Gs| == 1 && forall a: Assign :: Combined(mode, Gs, 0, a) <==> a in Gs[0]
  {
  }

  // ----- the combination interpolates -----

  /** A implies membership, B excludes it. */
  ghost predicate Separates(orig: seq<Original>, G: iset<Assign>) {
    && (forall a: Assign :: PartHolds(orig, AClause, a) ==> a in G)
    && (forall a: Assign :: PartHolds(orig, BClause, a) ==> a !in G)
  }

  lemma CombinedSeparates(mode: Mode, orig: seq<Original>, Gs: seq<iset<Assign>>, k: nat, a: Assign)
    requires |Gs| > 0 && k < |Gs| && forall i :: 0 <= i < |Gs| ==> Separates(orig, Gs[i])
    ensures PartHolds(orig, AClause, a) ==> Combined(mode, Gs, k, a)
    ensures PartHolds(orig, BClause, a) ==> !Combined(mode, Gs, k, a)
  {
    hide PartHolds;
    assert Separates(orig, Gs[k]) && Separates(orig, Gs[0]);
  }

  /** create_craig_interpolant over the enabled constructions: the clauses accept what the mode makes of the parts, the
      kind tells constants apart, and whatever the mode, A implies that the clauses can be satisfied by choosing the new
      variables, and no assignment satisfies them together with B. */
  method CreateCraigInterpolant(tracers: seq<CraigTracer>, edges: seq<nat>, mode: Mode, first: int,
                                ghost labels: Labels, ghost orig: seq<Original>)
    returns (found: bool, kind: CnfType, cnf: seq<seq<int>>, next: int, ghost parts: seq<Part>,
             ghost Gs: seq<iset<Assign>>, ghost k: nat)
    requires |edges| == |tracers| && first > 0
    requires forall k :: 0 <= k < |tracers| ==> tracers[k].aig.Valid() && NodesOk(tracers[k].aig.nodes)
    requires forall k :: 0 <= k < |tracers| ==> VarsBelow(tracers[k].aig.nodes, first)
    requires forall k :: 0 <= k < |tracers| ==>
               Interpolates(tracers[k].construction, labels, orig, tracers[k].aig.nodes, edges[k])
    ensures (found <==> |tracers| > 0) && next >= first
    ensures found ==> forall a: Assign :: PartHolds(orig, AClause, a) ==> Extendable(a, cnf, first)
    ensures found ==> forall b: Assign :: SatCnf(cnf, b) ==> !PartHolds(orig, BClause, b)
    ensures |parts| == |Gs| == |tracers| && forall i :: 0 <= i < |tracers| ==>
              EdgeIn(edges[i], |tracers[i].aig.nodes|)
              && Gs[i] == Accepted(tracers[i].construction, tracers[i].aig.nodes, edges[i])
    ensures found ==> k < |tracers| && KindOk(Part(kind, cnf))
    ensures found ==> forall a: Assign :: (SatCnf(cnf, a) ==> Combined(mode, Gs, k, a))
                                          && (Combined(mode, Gs, k, a) ==> Extendable(a, cnf, first))
    ensures found && mode == Smallest ==>
              Part(kind, cnf) == parts[k] && forall i :: 0 <= i < |parts| ==> |cnf| <= |parts[i].cnf|
    ensures found && mode == Largest ==>
              Part(kind, cnf) == parts[k] && forall i :: 0 <= i < |parts| ==> |parts[i].cnf| <= |cnf|
  {
    hide SatCnf, Extendable, PartOk, DependsBelow, Separates, Interpolates, VarsBelow, PartHolds;
    found, kind, cnf, next := |tracers| > 0, Constant1, [], first;
    var built: seq<Part> := [];
    ghost var bounds;
    Gs, bounds, parts, k := [], [first], [], 0;
    for i := 0 to |tracers|
      invariant |built| == i && PartsOk(built, Gs, bounds, first) && next == bounds[i] >= first
      invariant forall k :: 0 <= k < i ==> Separates(orig, Gs[k])
      invariant forall k :: 0 <= k < i ==>
                  EdgeIn(edges[k], |tracers[k].aig.nodes|)
                  && Gs[k] == Accepted(tracers[k].construction, tracers[k].aig.nodes, edges[k])
    {
      InterpolantSet(tracers[i], edges[i], labels, orig, first, next);
      var kindOf, cnfOf, after := tracers[i].CreateInterpolant(edges[i], next);
      built := built + [Part(kindOf, cnfOf)];
      Gs := Gs + [Accepted(tracers[i].construction, tracers[i].aig.nodes, edges[i])];
      bounds := bounds + [after];
      next := after;
    }
    parts := built;
    if !found {
      return;
    }
    var p, chosen;
    p, next, chosen := Combine(built, mode, next, Gs, bounds, first);
    kind, cnf, k := p.kind, p.cnf, chosen;
    Lengths(parts, Gs, bounds, first);
    forall a: Assign
      ensures PartHolds(orig, AClause, a) ==> Extendable(a, cnf, first)
      ensures SatCnf(cnf, a) ==> !PartHolds(orig, BClause, a)
    {
      CombinedSeparates(mode, orig, Gs, k, a);
    }
  }

  lemma InterpolantSet(t: CraigTracer, e: nat, labels: Labels, orig: seq<Original>, first: int, next: int)
    requires NodesOk(t.aig.nodes) && VarsBelow(t.aig.nodes, first) && first <= next
    requires Interpolates(t.construction, labels, orig, t.aig.nodes, e)
    ensures EdgeIn(e, |t.aig.nodes|) && VarsBelow(t.aig.nodes, next)
    ensures Separates(orig, Accepted(t.construction, t.aig.nodes, e))
    ensures DependsBelow(Accepted(t.construction, t.aig.nodes, e), first)
  {
    hide PartHolds, Eval;
    var G := Accepted(t.construction, t.aig.nodes, e);
    forall a: Assign, b: Assign | Agree(a, b, first)
      ensures a in G <==> b in G
    {
      EdgeAgrees(t.aig.nodes, e, a, b, first);
    }
  }
}
