/** From an and-inverter graph to clauses (create_cnf, craigtracer.cpp). */
module Tseitin {
  import opened Aig

  ghost predicate LitTrue(l: int, b: Assign) {
    if l > 0 then l in b else -l !in b
  }

  ghost predicate SatClause(c: seq<int>, b: Assign) {
    exists i :: 0 <= i < |c| && LitTrue(c[i], b)
  }

  ghost predicate SatCnf(cnf: seq<seq<int>>, b: Assign) {
    forall i :: 0 <= i < |cnf| ==> SatClause(cnf[i], b)
  }

  /** The two assignments agree on the variables below n. */
  ghost predicate Agree(a: Assign, b: Assign, n: int) {
    forall v: int :: 0 < v < n ==> (v in a <==> v in b)
  }

  ghost predicate VarsBelow(nodes: seq<Node>, n: int) {
    forall i :: 0 <= i < |nodes| && nodes[i].VarNode? ==> nodes[i].v < n
  }

  /** A node only depends on its variables. */
  lemma {:induction false} ValAgrees(nodes: seq<Node>, k: nat, a: Assign, b: Assign, n: int)
    requires NodesOk(nodes) && VarsBelow(nodes, n) && Agree(a, b, n) && k < |nodes|
    ensures Val(nodes, k, a) == Val(nodes, k, b)
    decreases k
  {
    assert NodeOk(nodes[k], k);
    match nodes[k]
    case VarNode(v) =>
    case AndNode(e1, e2) =>
      ValAgrees(nodes, NodeOf(e1), a, b, n);
      ValAgrees(nodes, NodeOf(e2), a, b, n);
  }

  /** The clauses so far: variables below next only, and each mapped node has its variable. */
  ghost predicate Mapped(nodes: seq<Node>, toVar: map<nat, int>, cnf: seq<seq<int>>, first: int, next: int)
    requires NodesOk(nodes)
  {
    && 0 < first <= next
    && (forall k :: k in toVar ==> k < |nodes| && 0 < toVar[k] < next)
    && CnfBelow(cnf, next)
    && (forall b: Assign :: SatCnf(cnf, b) ==> Tells(nodes, toVar, b))
    && (forall a: Assign :: Extendable(a, cnf, first))
  }

  /** The variables from first on can be chosen to satisfy the clauses. */
  ghost predicate Extendable(a: Assign, cnf: seq<seq<int>>, first: int) {
    exists b: Assign :: Agree(a, b, first) && SatCnf(cnf, b)
  }

  ghost predicate CnfBelow(cnf: seq<seq<int>>, next: int) {
    forall i, j :: 0 <= i < |cnf| && 0 <= j < |cnf[i]| ==> cnf[i][j] != 0 && -next < cnf[i][j] < next
  }

  /** Under b every mapped node's variable has the value of the node. */
  ghost predicate Tells(nodes: seq<Node>, toVar: map<nat, int>, b: Assign)
    requires NodesOk(nodes)
  {
    forall k :: k in toVar && k < |nodes| ==> (toVar[k] in b <==> Val(nodes, k, b))
  }

  function EdgeLit(v: int, e: nat): int {
    if e % 2 == 1 then -v else v
  }

  lemma EdgeLitTrue(nodes: seq<Node>, toVar: map<nat, int>, e: nat, b: Assign)
    requires NodesOk(nodes) && e >= 2 && EdgeIn(e, |nodes|) && NodeOf(e) in toVar && toVar[NodeOf(e)] > 0
    requires Tells(nodes, toVar, b)
    ensures LitTrue(EdgeLit(toVar[NodeOf(e)], e), b) <==> Eval(nodes, e, b)
  {
  }

  /** x = y * z as three clauses. */
  function Gate(x: int, y: int, z: int): seq<seq<int>> {
    [[-x, y], [-x, z], [x, -y, -z]]
  }

  lemma GateMeans(x: int, y: int, z: int, b: Assign)
    requires x > 0 && y != 0 && z != 0
    ensures SatCnf(Gate(x, y, z), b) <==> (x in b <==> LitTrue(y, b) && LitTrue(z, b))
  {
    var g := Gate(x, y, z);
    assert g[0] == [-x, y] && g[1] == [-x, z] && g[2] == [x, -y, -z];
    ClauseMeans2(-x, y, b);
    ClauseMeans2(-x, z, b);
    ClauseMeans3(x, -y, -z, b);
    assert SatCnf(g, b) <==> SatClause(g[0], b) && SatClause(g[1], b) && SatClause(g[2], b);
  }

  lemma ClauseMeans2(x: int, y: int, b: Assign)
    ensures SatClause([x, y], b) <==> LitTrue(x, b) || LitTrue(y, b)
  {
    var c := [x, y];
    assert c[0] == x && c[1] == y;
  }

  lemma ClauseMeans3(x: int, y: int, z: int, b: Assign)
    ensures SatClause([x, y, z], b) <==> LitTrue(x, b) || LitTrue(y, b) || LitTrue(z, b)
  {
    var c := [x, y, z];
    assert c[0] == x && c[1] == y && c[2] == z;
  }

  lemma SatAppend(x: seq<seq<int>>, y: seq<seq<int>>, b: Assign)
    ensures SatCnf(x + y, b) <==> SatCnf(x, b) && SatCnf(y, b)
  {
    var s := x + y;
    if SatCnf(s, b) {
      forall i | 0 <= i < |x|
        ensures SatClause(x[i], b)
      {
        assert s[i] == x[i];
      }
      forall i | 0 <= i < |y|
        ensures SatClause(y[i], b)
      {
        assert s[|x| + i] == y[i];
      }
    }
  }

  /** Clauses over smaller variables do not see a larger one. */
  lemma FreshVar(cnf: seq<seq<int>>, next: int, b: Assign, b': Assign)
    requires CnfBelow(cnf, next)
    requires Agree(b, b', next) && 0 < next && SatCnf(cnf, b)
    ensures SatCnf(cnf, b')
  {
    forall i | 0 <= i < |cnf|
      ensures SatClause(cnf[i], b')
    {
      assert SatClause(cnf[i], b);
      var j :| 0 <= j < |cnf[i]| && LitTrue(cnf[i][j], b);
      assert LitTrue(cnf[i][j], b');
    }
  }

  /** The step for an and-node whose two children are mapped. */
  lemma AddGate(nodes: seq<Node>, toVar: map<nat, int>, cnf: seq<seq<int>>, first: int, next: int, k: nat)
    requires NodesOk(nodes) && VarsBelow(nodes, first) && Mapped(nodes, toVar, cnf, first, next)
    requires k < |nodes| && nodes[k].AndNode? && k !in toVar && NodeOk(nodes[k], k)
    requires NodeOf(nodes[k].e1) in toVar && NodeOf(nodes[k].e2) in toVar
    ensures var y, z := EdgeLit(toVar[NodeOf(nodes[k].e1)], nodes[k].e1),
            EdgeLit(toVar[NodeOf(nodes[k].e2)], nodes[k].e2);
            Mapped(nodes, toVar[k := next], cnf + Gate(next, y, z), first, next + 1)
  {
    hide Eval, SatCnf, CnfBelow, Tells, Agree;
    var e1, e2 := nodes[k].e1, nodes[k].e2;
    var y, z := EdgeLit(toVar[NodeOf(e1)], e1), EdgeLit(toVar[NodeOf(e2)], e2);
    var m, cnf' := toVar[k := next], cnf + Gate(next, y, z);
    forall b: Assign | SatCnf(cnf', b)
      ensures Tells(nodes, m, b)
    {
      GateTells(nodes, toVar, cnf, k, next, y, z, b);
    }
    forall a: Assign
      ensures Extendable(a, cnf', first)
    {
      assert Extendable(a, cnf, first);
      var b: Assign :| Agree(a, b, first) && SatCnf(cnf, b);
      var b' := GateExtends(nodes, toVar, cnf, next, y, z, b);
      AgreeTrans(a, b, b', first, next);
    }
    GateRange(cnf, next, y, z);
  }

  lemma AgreeTrans(a: Assign, b: Assign, c: Assign, m: int, n: int)
    requires Agree(a, b, m) && Agree(b, c, n) && m <= n
    ensures Agree(a, c, m)
  {
  }

  lemma GateRange(cnf: seq<seq<int>>, next: int, y: int, z: int)
    requires CnfBelow(cnf, next)
    requires 0 < next && -next < y < next && -next < z < next && y != 0 && z != 0
    ensures CnfBelow(cnf + Gate(next, y, z), next + 1)
  {
  }

  lemma GateTells(nodes: seq<Node>, toVar: map<nat, int>, cnf: seq<seq<int>>, k: nat, x: int, y: int, z: int, b: Assign)
    requires NodesOk(nodes) && k < |nodes| && nodes[k].AndNode? && NodeOk(nodes[k], k) && x > 0
    requires NodeOf(nodes[k].e1) in toVar && toVar[NodeOf(nodes[k].e1)] > 0
    requires NodeOf(nodes[k].e2) in toVar && toVar[NodeOf(nodes[k].e2)] > 0
    requires y == EdgeLit(toVar[NodeOf(nodes[k].e1)], nodes[k].e1)
             && z == EdgeLit(toVar[NodeOf(nodes[k].e2)], nodes[k].e2)
    requires SatCnf(cnf, b) ==> Tells(nodes, toVar, b)
    requires SatCnf(cnf + Gate(x, y, z), b)
    ensures Tells(nodes, toVar[k := x], b)
  {
    SatAppend(cnf, Gate(x, y, z), b);
    GateMeans(x, y, z, b);
    EdgeLitTrue(nodes, toVar, nodes[k].e1, b);
    EdgeLitTrue(nodes, toVar, nodes[k].e2, b);
  }

  lemma GateExtends(nodes: seq<Node>, toVar: map<nat, int>, cnf: seq<seq<int>>, x: int, y: int, z: int, b: Assign)
    returns (b': Assign)
    requires CnfBelow(cnf, x)
    requires x > 0 && -x < y < x && -x < z < x && y != 0 && z != 0 && SatCnf(cnf, b)
    ensures Agree(b, b', x) && SatCnf(cnf + Gate(x, y, z), b')
  {
    b' := if LitTrue(y, b) && LitTrue(z, b) then b + iset{x} else b - iset{x};
    FreshVar(cnf, x, b, b');
    GateMeans(x, y, z, b');
    SatAppend(cnf, Gate(x, y, z), b');
  }

  // ----- the algorithm -----

  datatype CnfType = Constant0 | Constant1 | Normal

  /** What create_cnf leaves: the clauses with their kind. */
  datatype Part = Part(kind: CnfType, cnf: seq<seq<int>>)

  /** Clauses of kind Normal end with the unit clause of the root. */
  ghost predicate EndsInUnit(p: Part) {
    |p.cnf| > 0 && |p.cnf[|p.cnf| - 1]| == 1 && p.cnf[|p.cnf| - 1][0] != 0
  }

  function Gates(p: Part): seq<seq<int>>
    requires EndsInUnit(p)
  {
    p.cnf[..|p.cnf| - 1]
  }

  function Root(p: Part): int
    requires EndsInUnit(p)
  {
    p.cnf[|p.cnf| - 1][0]
  }

  /** Where the gates hold, l says whether the assignment is in G; and they exclude no assignment. */
  ghost predicate Selects(gates: seq<seq<int>>, l: int, G: iset<Assign>, first: int) {
    && (forall b: Assign :: SatCnf(gates, b) ==> (LitTrue(l, b) <==> b in G))
    && (forall a: Assign :: Extendable(a, gates, first))
  }

  /** The part stands for the assignments in G, with variables of its own from first up to next. */
  ghost predicate PartOk(p: Part, G: iset<Assign>, first: int, next: int) {
    && 0 < first <= next && CnfBelow(p.cnf, next)
    && match p.kind
       case Constant0 => p.cnf == [[]] && forall a: Assign :: a !in G
       case Constant1 => p.cnf == [] && forall a: Assign :: a in G
       case Normal => EndsInUnit(p) && Selects(Gates(p), Root(p), G, first)
  }

  ghost function Unmapped(n: nat, toVar: map<nat, int>): set<nat> {
    set k: nat | k < n && k !in toVar
  }

  function CountMapped(pending: seq<nat>, toVar: map<nat, int>): nat {
    if |pending| == 0 then 0
    else CountMapped(pending[..|pending| - 1], toVar) + (if pending[|pending| - 1] in toVar then 1 else 0)
  }

  /** What the clauses say about the root: exactly the assignments that make it true extend to models. */
  ghost predicate Encodes(nodes: seq<Node>, root: nat, cnf: seq<seq<int>>, first: int)
    requires NodesOk(nodes) && EdgeIn(root, |nodes|)
  {
    && (forall b: Assign :: SatCnf(cnf, b) ==> Eval(nodes, root, b))
    && (forall a: Assign :: Eval(nodes, root, a) ==> Extendable(a, cnf, first))
  }

  /** The gates fix literal l to the value of the root, and exclude no assignment. */
  ghost predicate Defines(nodes: seq<Node>, root: nat, gates: seq<seq<int>>, l: int, first: int)
    requires NodesOk(nodes) && EdgeIn(root, |nodes|)
  {
    && (forall b: Assign :: SatCnf(gates, b) ==> (LitTrue(l, b) <==> Eval(nodes, root, b)))
    && (forall a: Assign :: Extendable(a, gates, first))
  }

  /** Asserting l, or its negation, on top of the gates selects the assignments with that value. */
  lemma DefinesEncodes(nodes: seq<Node>, root: nat, gates: seq<seq<int>>, l: int, first: int)
    requires NodesOk(nodes) && VarsBelow(nodes, first) && EdgeIn(root, |nodes|) && Defines(nodes, root, gates, l, first)
    requires l != 0
    ensures forall b: Assign :: SatCnf(gates + [[l]], b) ==> Eval(nodes, root, b)
    ensures forall a: Assign :: Eval(nodes, root, a) ==> Extendable(a, gates + [[l]], first)
    ensures forall b: Assign :: SatCnf(gates + [[-l]], b) ==> !Eval(nodes, root, b)
    ensures forall a: Assign :: !Eval(nodes, root, a) ==> Extendable(a, gates + [[-l]], first)
  {
    hide SatCnf, Eval, Extendable, VarsBelow;
    forall b: Assign
      ensures SatCnf(gates + [[l]], b) <==> SatCnf(gates, b) && LitTrue(l, b)
      ensures SatCnf(gates + [[-l]], b) <==> SatCnf(gates, b) && !LitTrue(l, b)
    {
      SatAppend(gates, [[l]], b);
      SatAppend(gates, [[-l]], b);
      UnitSat(l, b);
      UnitSat(-l, b);
    }
    forall a: Assign
      ensures Extendable(a, gates + [[if Eval(nodes, root, a) then l else -l]], first)
    {
      assert Extendable(a, gates, first);
      ExtendValue(nodes, root, gates, l, first, a);
    }
  }

  lemma ExtendValue(nodes: seq<Node>, root: nat, gates: seq<seq<int>>, l: int, first: int, a: Assign)
    requires NodesOk(nodes) && VarsBelow(nodes, first) && EdgeIn(root, |nodes|) && Defines(nodes, root, gates, l, first)
    requires l != 0
    ensures Extendable(a, gates + [[if Eval(nodes, root, a) then l else -l]], first)
  {
    hide Eval, SatCnf;
    assert Extendable(a, gates, first);
    var b: Assign :| Agree(a, b, first) && SatCnf(gates, b);
    EdgeAgrees(nodes, root, a, b, first);
    var m := if Eval(nodes, root, a) then l else -l;
    UnitSat(m, b);
    SatAppend(gates, [[m]], b);
  }

  /** The variable nodes stand for themselves. */
  method MapVariables(nodes: seq<Node>, first: int) returns (toVar: map<nat, int>)
    requires NodesOk(nodes) && VarsBelow(nodes, first) && first > 0
    ensures Mapped(nodes, toVar, [], first, first)
    ensures forall k: nat :: k < |nodes| && nodes[k].VarNode? ==> k in toVar
  {
    toVar := map[];
    for i := 0 to |nodes|
      invariant forall k :: k in toVar ==> k < i && nodes[k] == VarNode(toVar[k]) && toVar[k] > 0
      invariant forall k: nat :: k < i && nodes[k].VarNode? ==> k in toVar
    {
      assert NodeOk(nodes[i], i);
      if nodes[i].VarNode? {
        toVar := toVar[i := nodes[i].v];
      }
    }
    VariablesMapped(nodes, toVar, first);
  }

  lemma VariablesMapped(nodes: seq<Node>, toVar: map<nat, int>, first: int)
    requires NodesOk(nodes) && VarsBelow(nodes, first) && first > 0
    requires forall k :: k in toVar ==> k < |nodes| && nodes[k] == VarNode(toVar[k]) && toVar[k] > 0
    ensures Mapped(nodes, toVar, [], first, first)
  {
    forall a: Assign
      ensures Extendable(a, [], first)
    {
      assert Agree(a, a, first) && SatCnf([], a);
    }
  }

  /** The stack loop: afterwards the root is mapped. */
  method BuildGates(nodes: seq<Node>, rootNode: nat, first: int)
    returns (toVar: map<nat, int>, cnf: seq<seq<int>>, next: int)
    requires NodesOk(nodes) && VarsBelow(nodes, first) && first > 0 && rootNode < |nodes|
    ensures Mapped(nodes, toVar, cnf, first, next) && rootNode in toVar && next >= first
  {
    hide Mapped;
    toVar := MapVariables(nodes, first);
    cnf, next := [], first;
    var pending: seq<nat> := [rootNode];
    while |pending| > 0
      invariant Mapped(nodes, toVar, cnf, first, next) && next >= first
      invariant forall i :: 0 <= i < |pending| ==> pending[i] < |nodes|
      invariant rootNode in toVar || (|pending| > 0 && pending[0] == rootNode)
      invariant forall k: nat :: k < |nodes| && nodes[k].VarNode? ==> k in toVar
      decreases Unmapped(|nodes|, toVar), CountMapped(pending, toVar), if |pending| > 0 then pending[|pending| - 1]
                else 0
    {
      var k := pending[|pending| - 1];
      assert NodeOk(nodes[k], k);
      if k in toVar {
        pending := pending[..|pending| - 1];
      } else {
        var n1, n2: nat := NodeOf(nodes[k].e1), NodeOf(nodes[k].e2);
        if n1 !in toVar {
          assert (pending + [n1])[..|pending|] == pending;
          pending := pending + [n1];
        } else if n2 !in toVar {
          assert (pending + [n2])[..|pending|] == pending;
          pending := pending + [n2];
        } else {
          AddGate(nodes, toVar, cnf, first, next, k);
          var y, z := EdgeLit(toVar[n1], nodes[k].e1), EdgeLit(toVar[n2], nodes[k].e2);
          assert k in Unmapped(|nodes|, toVar);
          cnf := cnf + [[-next, y], [-next, z], [next, -y, -z]];
          toVar := toVar[k := next];
          next := next + 1;
          pending := pending[..|pending| - 1];
        }
      }
    }
  }

  /** create_cnf: the last clause is the unit clause of the root. */
  method CreateCnf(nodes: seq<Node>, root: nat, first: int) returns (kind: CnfType, cnf: seq<seq<int>>, next: int)
    requires NodesOk(nodes) && VarsBelow(nodes, first) && first > 0 && EdgeIn(root, |nodes|)
    ensures next >= first && Encodes(nodes, root, cnf, first) && CnfBelow(cnf, next)
    ensures kind == Constant0 ==> cnf == [[]] && forall a: Assign :: !Eval(nodes, root, a)
    ensures kind == Constant1 ==> cnf == [] && forall a: Assign :: Eval(nodes, root, a)
    ensures kind == Normal ==> |cnf| > 0 && |cnf[|cnf| - 1]| == 1 && cnf[|cnf| - 1][0] != 0
                               && Defines(nodes, root, cnf[..|cnf| - 1], cnf[|cnf| - 1][0], first)
  {
    next := first;
    if NodeOf(root) < 0 {
      ConstantCnf(nodes, root, first);
      if root == FALSE_EDGE {
        return Constant0, [[]], next;
      }
      return Constant1, [], next;
    }
    var k: nat := NodeOf(root);
    assert NodeOk(nodes[k], k);
    if nodes[k].VarNode? {
      var l := EdgeLit(nodes[k].v, root);
      VariableCnf(nodes, root, first);
      DefinesEncodes(nodes, root, [], l, first);
      assert [] + [[l]] == [[l]] && [[l]][..0] == [];
      return Normal, [[l]], next;
    }
    var toVar;
    toVar, cnf, next := BuildGates(nodes, k, first);
    RootCnf(nodes, root, toVar, cnf, first, next);
    DefinesEncodes(nodes, root, cnf, EdgeLit(toVar[k], root), first);
    ghost var gates := cnf;
    cnf := cnf + [[EdgeLit(toVar[k], root)]];
    assert cnf[..|cnf| - 1] == gates;
    return Normal, cnf, next;
  }

  lemma ConstantCnf(nodes: seq<Node>, root: nat, first: int)
    requires NodesOk(nodes) && EdgeIn(root, |nodes|) && NodeOf(root) < 0
    ensures root == FALSE_EDGE ==> Encodes(nodes, root, [[]], first) && forall a: Assign :: !Eval(nodes, root, a)
    ensures root != FALSE_EDGE ==> Encodes(nodes, root, [], first) && forall a: Assign :: Eval(nodes, root, a)
  {
    hide Vars, NodesOk;
    forall a: Assign
      ensures Eval(nodes, root, a) == (root != FALSE_EDGE)
      ensures Extendable(a, [], first) && !SatCnf([[]], a)
    {
      EmptyCnf(a, first);
    }
  }

  lemma EmptyCnf(a: Assign, first: int)
    ensures Extendable(a, [], first) && !SatCnf([[]], a)
  {
    assert Agree(a, a, first) && SatCnf([], a);
    var c: seq<seq<int>> := [[]];
    assert !SatClause(c[0], a);
  }

  lemma UnitSat(l: int, b: Assign)
    ensures SatCnf([[l]], b) <==> LitTrue(l, b)
  {
    var c := [[l]];
    assert c[0] == [l] && [l][0] == l;
    assert SatClause([l], b) <==> LitTrue(l, b);
  }

  lemma VariableCnf(nodes: seq<Node>, root: nat, first: int)
    requires NodesOk(nodes) && EdgeIn(root, |nodes|) && NodeOf(root) >= 0 && nodes[NodeOf(root)].VarNode?
    ensures nodes[NodeOf(root)].v > 0
    ensures Defines(nodes, root, [], EdgeLit(nodes[NodeOf(root)].v, root), first)
  {
    var k := NodeOf(root);
    assert NodeOk(nodes[k], k);
    forall a: Assign
      ensures Extendable(a, [], first)
    {
      EmptyCnf(a, first);
    }
  }

  lemma RootCnf(nodes: seq<Node>, root: nat, toVar: map<nat, int>, cnf: seq<seq<int>>, first: int, next: int)
    requires NodesOk(nodes) && Mapped(nodes, toVar, cnf, first, next)
    requires EdgeIn(root, |nodes|) && NodeOf(root) >= 0 && NodeOf(root) in toVar
    ensures toVar[NodeOf(root)] > 0 && Defines(nodes, root, cnf, EdgeLit(toVar[NodeOf(root)], root), first)
    ensures CnfBelow(cnf + [[EdgeLit(toVar[NodeOf(root)], root)]], next)
  {
    hide SatCnf, Eval;
    forall b: Assign | SatCnf(cnf, b)
      ensures LitTrue(EdgeLit(toVar[NodeOf(root)], root), b) <==> Eval(nodes, root, b)
    {
      EdgeLitTrue(nodes, toVar, root, b);
    }
  }

  lemma EdgeAgrees(nodes: seq<Node>, e: nat, a: Assign, b: Assign, n: int)
    requires NodesOk(nodes) && VarsBelow(nodes, n) && Agree(a, b, n) && EdgeIn(e, |nodes|)
    ensures Eval(nodes, e, a) == Eval(nodes, e, b)
  {
    if NodeOf(e) >= 0 {
      ValAgrees(nodes, NodeOf(e), a, b, n);
    }
  }
}
