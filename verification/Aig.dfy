/** The and-inverter graph that holds Craig interpolants (class Aig, craigtracer.cpp): hashed construction and the
    translation to clauses. */
module Aig {

  /** The variables an assignment makes true. */
  type Assign = iset<int>

  datatype Node = VarNode(v: int) | AndNode(e1: nat, e2: nat)

  const TRUE_EDGE: nat := 0
  const FALSE_EDGE: nat := 1

  /** An edge is twice the node number plus one, its lowest bit negates; node number 0 is the constant. */
  function NodeOf(e: nat): int {
    e as int / 2 - 1
  }

  function Not(e: nat): (r: nat)
    ensures NodeOf(r) == NodeOf(e) && r % 2 != e % 2
  {
    if e % 2 == 0 then e + 1 else e - 1
  }

  predicate EdgeIn(e: nat, n: nat) {
    NodeOf(e) < n
  }

  /** Nodes refer to earlier, non-constant nodes. */
  ghost predicate NodesOk(nodes: seq<Node>) {
    forall i :: 0 <= i < |nodes| ==> NodeOk(nodes[i], i)
  }

  predicate NodeOk(node: Node, i: nat) {
    match node
    case VarNode(v) => v > 0
    case AndNode(e1, e2) => e1 >= 2 && e2 >= 2 && EdgeIn(e1, i) && EdgeIn(e2, i)
  }

  ghost predicate Val(nodes: seq<Node>, k: nat, a: Assign)
    requires NodesOk(nodes) && k < |nodes|
    decreases k, 0
  {
    assert NodeOk(nodes[k], k);
    match nodes[k]
    case VarNode(v) => v in a
    case AndNode(e1, e2) => Eval(nodes, e1, a) && Eval(nodes, e2, a)
  }

  ghost predicate Eval(nodes: seq<Node>, e: nat, a: Assign)
    requires NodesOk(nodes) && EdgeIn(e, |nodes|)
    decreases if NodeOf(e) < 0 then 0 else NodeOf(e), 1
  {
    (if NodeOf(e) < 0 then true else Val(nodes, NodeOf(e), a)) != (e % 2 == 1)
  }

  /** The variables below an edge. */
  ghost function NodeVars(nodes: seq<Node>, k: nat): set<int>
    requires NodesOk(nodes) && k < |nodes|
    decreases k, 0
  {
    assert NodeOk(nodes[k], k);
    match nodes[k]
    case VarNode(v) => {v}
    case AndNode(e1, e2) => Vars(nodes, e1) + Vars(nodes, e2)
  }

  ghost function Vars(nodes: seq<Node>, e: nat): set<int>
    requires NodesOk(nodes) && EdgeIn(e, |nodes|)
    decreases if NodeOf(e) < 0 then 0 else NodeOf(e), 1
  {
    if NodeOf(e) < 0 then {} else NodeVars(nodes, NodeOf(e))
  }

  /** New nodes do not change what an edge means. */
  lemma {:induction false} GrowNode(nodes: seq<Node>, more: seq<Node>, k: nat, a: Assign)
    requires NodesOk(nodes) && NodesOk(more) && nodes <= more && k < |nodes|
    ensures Val(more, k, a) == Val(nodes, k, a) && NodeVars(more, k) == NodeVars(nodes, k)
    decreases k
  {
    assert NodeOk(nodes[k], k) && more[k] == nodes[k];
    match nodes[k]
    case VarNode(v) =>
    case AndNode(e1, e2) =>
      GrowNode(nodes, more, NodeOf(e1), a);
      GrowNode(nodes, more, NodeOf(e2), a);
  }

  lemma Grow(nodes: seq<Node>, more: seq<Node>, e: nat, a: Assign)
    requires NodesOk(nodes) && NodesOk(more) && nodes <= more && EdgeIn(e, |nodes|)
    ensures EdgeIn(e, |more|) && Eval(more, e, a) == Eval(nodes, e, a) && Vars(more, e) == Vars(nodes, e)
  {
    if NodeOf(e) >= 0 {
      GrowNode(nodes, more, NodeOf(e), a);
    }
  }

  lemma GrowAll(nodes: seq<Node>, more: seq<Node>, e: nat)
    requires NodesOk(nodes) && NodesOk(more) && nodes <= more && EdgeIn(e, |nodes|)
    ensures EdgeIn(e, |more|) && Vars(more, e) == Vars(nodes, e)
    ensures forall a: Assign :: Eval(more, e, a) == Eval(nodes, e, a)
  {
    forall a: Assign
      ensures Eval(more, e, a) == Eval(nodes, e, a)
    {
      Grow(nodes, more, e, a);
    }
    Grow(nodes, more, e, iset{});
  }

  lemma NotMeans(nodes: seq<Node>, e: nat, a: Assign)
    requires NodesOk(nodes) && EdgeIn(e, |nodes|)
    ensures EdgeIn(Not(e), |nodes|) && Eval(nodes, Not(e), a) == !Eval(nodes, e, a)
    ensures Vars(nodes, Not(e)) == Vars(nodes, e)
  {
  }

  /** The variable table points at the node of the variable. */
  ghost predicate VarMapOk(nodes: seq<Node>, varMap: map<int, nat>) {
    forall v :: v in varMap ==> varMap[v] >= 2 && varMap[v] % 2 == 0 && EdgeIn(varMap[v], |nodes|)
                                && nodes[NodeOf(varMap[v])] == VarNode(v)
  }

  /** The hash table points at a node with these two edges, in either order. */
  ghost predicate AndMapOk(nodes: seq<Node>, andMap: map<(nat, nat), nat>) {
    forall p :: p in andMap ==> andMap[p] >= 2 && andMap[p] % 2 == 0 && EdgeIn(andMap[p], |nodes|)
                                && (nodes[NodeOf(andMap[p])] == AndNode(p.0, p.1)
                                    || nodes[NodeOf(andMap[p])] == AndNode(p.1, p.0))
  }

  function SortedPair(e1: nat, e2: nat): (nat, nat) {
    if e1 > e2 then (e2, e1) else (e1, e2)
  }

  /** The tables know every node. */
  ghost predicate Hashed(nodes: seq<Node>, varMap: map<int, nat>, andMap: map<(nat, nat), nat>) {
    forall k :: 0 <= k < |nodes| ==>
      match nodes[k]
      case VarNode(v) => v in varMap && varMap[v] == 2 * (k + 1)
      case AndNode(e1, e2) => SortedPair(e1, e2) in andMap && andMap[SortedPair(e1, e2)] == 2 * (k + 1)
  }

  /** Structural sharing: no variable has two nodes, and no pair of edges two conjunctions. */
  ghost predicate Shared(nodes: seq<Node>) {
    forall i, j :: 0 <= i < j < |nodes| ==>
      match (nodes[i], nodes[j])
      case (VarNode(v), VarNode(w)) => v != w
      case (AndNode(a1, a2), AndNode(b1, b2)) => SortedPair(a1, a2) != SortedPair(b1, b2)
      case _ => true
  }

  lemma HashedIsShared(nodes: seq<Node>, varMap: map<int, nat>, andMap: map<(nat, nat), nat>)
    requires Hashed(nodes, varMap, andMap)
    ensures Shared(nodes)
  {
  }

  /** e is the conjunction of e1 and e2. */
  ghost predicate IsAnd(nodes: seq<Node>, e: nat, e1: nat, e2: nat)
    requires NodesOk(nodes) && EdgeIn(e, |nodes|) && EdgeIn(e1, |nodes|) && EdgeIn(e2, |nodes|)
  {
    && (forall a: Assign :: Eval(nodes, e, a) <==> Eval(nodes, e1, a) && Eval(nodes, e2, a))
    && Vars(nodes, e) <= Vars(nodes, e1) + Vars(nodes, e2)
  }

  lemma NodeIsAnd(nodes: seq<Node>, k: nat, e1: nat, e2: nat)
    requires NodesOk(nodes) && k < |nodes| && (nodes[k] == AndNode(e1, e2) || nodes[k] == AndNode(e2, e1))
    ensures EdgeIn(2 * k + 2, |nodes|) && EdgeIn(e1, |nodes|) && EdgeIn(e2, |nodes|)
    ensures IsAnd(nodes, 2 * k + 2, e1, e2)
  {
    assert NodeOk(nodes[k], k);
    var e := 2 * k + 2;
    assert NodeOf(e) == k && e % 2 == 0;
    forall a: Assign
      ensures Eval(nodes, e, a) <==> Eval(nodes, e1, a) && Eval(nodes, e2, a)
    {
      assert Eval(nodes, e, a) == Val(nodes, k, a);
    }
    assert Vars(nodes, e) == NodeVars(nodes, k);
  }

  lemma PushOk(nodes: seq<Node>, node: Node)
    requires NodesOk(nodes) && NodeOk(node, |nodes|)
    ensures NodesOk(nodes + [node])
  {
  }

  /** Conjunctions with a constant, an equal or an opposite edge. */
  lemma TrivialAnd(nodes: seq<Node>, e1: nat, e2: nat)
    requires NodesOk(nodes) && EdgeIn(e1, |nodes|) && EdgeIn(e2, |nodes|)
    ensures e1 == FALSE_EDGE || e2 == FALSE_EDGE || e1 == Not(e2) ==> IsAnd(nodes, FALSE_EDGE, e1, e2)
    ensures e1 == TRUE_EDGE || e1 == e2 ==> IsAnd(nodes, e2, e1, e2)
    ensures e2 == TRUE_EDGE ==> IsAnd(nodes, e1, e1, e2)
  {
    forall a: Assign
      ensures Eval(nodes, Not(e2), a) == !Eval(nodes, e2, a)
    {
      NotMeans(nodes, e2, a);
    }
  }

  ghost predicate AllIn(edges: seq<nat>, n: nat) {
    forall i :: 0 <= i < |edges| ==> EdgeIn(edges[i], n)
  }

  /** Every edge of the list holds. */
  ghost predicate AllHold(nodes: seq<Node>, edges: seq<nat>, a: Assign)
    requires NodesOk(nodes) && AllIn(edges, |nodes|)
  {
    forall i :: 0 <= i < |edges| ==> Eval(nodes, edges[i], a)
  }

  ghost predicate Mentions(nodes: seq<Node>, edges: seq<nat>, v: int)
    requires NodesOk(nodes) && AllIn(edges, |nodes|)
  {
    exists i :: 0 <= i < |edges| && v in Vars(nodes, edges[i])
  }

  ghost function ListVars(nodes: seq<Node>, edges: seq<nat>): iset<int>
    requires NodesOk(nodes) && AllIn(edges, |nodes|)
  {
    iset v: int | Mentions(nodes, edges, v)
  }

  /** xs says the same as ys, over no more variables. */
  ghost predicate Condenses(nodes: seq<Node>, xs: seq<nat>, ys: seq<nat>)
    requires NodesOk(nodes)
  {
    && AllIn(xs, |nodes|) && AllIn(ys, |nodes|)
    && (forall a: Assign :: AllHold(nodes, xs, a) <==> AllHold(nodes, ys, a))
    && ListVars(nodes, xs) <= ListVars(nodes, ys)
  }

  lemma CondensesGrow(nodes: seq<Node>, more: seq<Node>, xs: seq<nat>, ys: seq<nat>)
    requires NodesOk(nodes) && NodesOk(more) && nodes <= more && Condenses(nodes, xs, ys)
    ensures Condenses(more, xs, ys)
  {
    forall i | 0 <= i < |xs|
      ensures EdgeIn(xs[i], |more|) && Vars(more, xs[i]) == Vars(nodes, xs[i])
      ensures forall a: Assign :: Eval(more, xs[i], a) == Eval(nodes, xs[i], a)
    {
      GrowAll(nodes, more, xs[i]);
    }
    forall i | 0 <= i < |ys|
      ensures EdgeIn(ys[i], |more|) && Vars(more, ys[i]) == Vars(nodes, ys[i])
      ensures forall a: Assign :: Eval(more, ys[i], a) == Eval(nodes, ys[i], a)
    {
      GrowAll(nodes, more, ys[i]);
    }
    forall a: Assign
      ensures AllHold(more, xs, a) <==> AllHold(nodes, xs, a)
      ensures AllHold(more, ys, a) <==> AllHold(nodes, ys, a)
    {
    }
    assert ListVars(more, xs) == ListVars(nodes, xs) && ListVars(more, ys) == ListVars(nodes, ys);
  }

  lemma CondensesTrans(nodes: seq<Node>, xs: seq<nat>, ys: seq<nat>, zs: seq<nat>)
    requires NodesOk(nodes) && Condenses(nodes, xs, ys) && Condenses(nodes, ys, zs)
    ensures Condenses(nodes, xs, zs)
  {
    forall a: Assign
      ensures AllHold(nodes, xs, a) <==> AllHold(nodes, zs, a)
    {
      assert AllHold(nodes, xs, a) <==> AllHold(nodes, ys, a);
    }
  }

  /** A pair is replaced by its conjunction. */
  lemma CondensePair(nodes: seq<Node>, t: seq<nat>, e1: nat, e2: nat, rest: seq<nat>, e: nat)
    requires NodesOk(nodes) && AllIn(t, |nodes|) && AllIn(rest, |nodes|)
    requires EdgeIn(e, |nodes|) && EdgeIn(e1, |nodes|) && EdgeIn(e2, |nodes|) && IsAnd(nodes, e, e1, e2)
    ensures Condenses(nodes, t + [e] + rest, t + [e1, e2] + rest)
  {
    var xs, ys := t + [e] + rest, t + [e1, e2] + rest;
    PairIn(t, e1, e2, rest, e, |nodes|);
    forall a: Assign
      ensures AllHold(nodes, xs, a) <==> AllHold(nodes, ys, a)
    {
      PairHolds(nodes, t, e1, e2, rest, e, a);
    }
    forall v: int | Mentions(nodes, xs, v)
      ensures Mentions(nodes, ys, v)
    {
      PairMentions(nodes, t, e1, e2, rest, e, v);
    }
  }

  lemma PairIn(t: seq<nat>, e1: nat, e2: nat, rest: seq<nat>, e: nat, n: nat)
    requires AllIn(t, n) && AllIn(rest, n) && EdgeIn(e, n) && EdgeIn(e1, n) && EdgeIn(e2, n)
    ensures AllIn(t + [e] + rest, n) && AllIn(t + [e1, e2] + rest, n)
  {
  }

  lemma {:induction false} AppendHolds(nodes: seq<Node>, x: seq<nat>, y: seq<nat>, a: Assign)
    requires NodesOk(nodes) && AllIn(x, |nodes|) && AllIn(y, |nodes|)
    ensures AllIn(x + y, |nodes|)
    ensures AllHold(nodes, x + y, a) <==> AllHold(nodes, x, a) && AllHold(nodes, y, a)
  {
    hide Eval;
    var s := x + y;
    if AllHold(nodes, s, a) {
      forall i | 0 <= i < |x|
        ensures Eval(nodes, x[i], a)
      {
        assert s[i] == x[i];
      }
      forall i | 0 <= i < |y|
        ensures Eval(nodes, y[i], a)
      {
        assert s[|x| + i] == y[i];
      }
    }
  }

  lemma PairHolds(nodes: seq<Node>, t: seq<nat>, e1: nat, e2: nat, rest: seq<nat>, e: nat, a: Assign)
    requires NodesOk(nodes) && AllIn(t, |nodes|) && AllIn(rest, |nodes|)
    requires EdgeIn(e, |nodes|) && EdgeIn(e1, |nodes|) && EdgeIn(e2, |nodes|) && IsAnd(nodes, e, e1, e2)
    requires AllIn(t + [e] + rest, |nodes|) && AllIn(t + [e1, e2] + rest, |nodes|)
    ensures AllHold(nodes, t + [e] + rest, a) <==> AllHold(nodes, t + [e1, e2] + rest, a)
  {
    hide Eval, Vars;
    AppendHolds(nodes, t, [e], a);
    AppendHolds(nodes, t + [e], rest, a);
    AppendHolds(nodes, t, [e1, e2], a);
    AppendHolds(nodes, t + [e1, e2], rest, a);
    assert AllHold(nodes, [e], a) <==> Eval(nodes, [e][0], a);
    assert AllHold(nodes, [e1, e2], a) <==> Eval(nodes, [e1, e2][0], a) && Eval(nodes, [e1, e2][1], a);
  }

  lemma PairMentions(nodes: seq<Node>, t: seq<nat>, e1: nat, e2: nat, rest: seq<nat>, e: nat, v: int)
    requires NodesOk(nodes) && AllIn(t, |nodes|) && AllIn(rest, |nodes|)
    requires EdgeIn(e, |nodes|) && EdgeIn(e1, |nodes|) && EdgeIn(e2, |nodes|) && IsAnd(nodes, e, e1, e2)
    requires AllIn(t + [e] + rest, |nodes|) && AllIn(t + [e1, e2] + rest, |nodes|)
    requires Mentions(nodes, t + [e] + rest, v)
    ensures Mentions(nodes, t + [e1, e2] + rest, v)
  {
    hide Eval, Vars;
    var n, xs, ys := |t|, t + [e] + rest, t + [e1, e2] + rest;
    var i :| 0 <= i < |xs| && v in Vars(nodes, xs[i]);
    if i == n {
      assert ys[n] == e1 && ys[n + 1] == e2;
    } else {
      assert ys[if i < n then i else i + 1] == xs[i];
    }
  }

  class Graph {
    var nodes: seq<Node>
    var varMap: map<int, nat>
    var andMap: map<(nat, nat), nat>

    ghost predicate Valid()
      reads this
    {
      NodesOk(nodes) && VarMapOk(nodes, varMap) && AndMapOk(nodes, andMap) && Hashed(nodes, varMap, andMap)
    }

    constructor ()
      ensures Valid() && nodes == []
    {
      nodes, varMap, andMap := [], map[], map[];
    }

    /** create_var: one node per variable. */
    method CreateVar(v: int) returns (e: nat)
      requires Valid() && v > 0
      modifies this
      ensures Valid() && old(nodes) <= nodes && EdgeIn(e, |nodes|)
      ensures Vars(nodes, e) == {v} && forall a: Assign :: Eval(nodes, e, a) <==> v in a
    {
      if v in varMap {
        return varMap[v];
      }
      PushOk(nodes, VarNode(v));
      nodes := nodes + [VarNode(v)];
      varMap := varMap[v := 2 * |nodes|];
      e := 2 * |nodes|;
      assert NodeOf(e) == |nodes| - 1;
    }

    /** create_literal. */
    method CreateLiteral(l: int) returns (e: nat)
      requires Valid() && l != 0
      modifies this
      ensures Valid() && old(nodes) <= nodes && EdgeIn(e, |nodes|)
      ensures Vars(nodes, e) == {if l < 0 then -l else l}
      ensures forall a: Assign :: Eval(nodes, e, a) <==> if l > 0 then l in a else -l !in a
    {
      e := CreateVar(if l < 0 then -l else l);
      forall a: Assign
        ensures EdgeIn(Not(e), |nodes|) && Eval(nodes, Not(e), a) == !Eval(nodes, e, a)
        ensures Vars(nodes, Not(e)) == Vars(nodes, e)
      {
        NotMeans(nodes, e, a);
      }
      if l < 0 {
        e := Not(e);
      }
    }

    /** The simplifications of create_and. */
    method SimplifyAnd(e1: nat, e2: nat) returns (simple: bool, e: nat)
      requires Valid() && EdgeIn(e1, |nodes|) && EdgeIn(e2, |nodes|)
      ensures simple ==> EdgeIn(e, |nodes|) && IsAnd(nodes, e, e1, e2)
      ensures !simple ==> e1 >= 2 && e2 >= 2
    {
      hide IsAnd;
      TrivialAnd(nodes, e1, e2);
      if e1 == FALSE_EDGE || e2 == FALSE_EDGE {
        return true, FALSE_EDGE;
      }
      if e1 == TRUE_EDGE {
        return true, e2;
      }
      if e2 == TRUE_EDGE {
        return true, e1;
      }
      if e1 == e2 {
        return true, e1;
      }
      if e1 == Not(e2) {
        return true, FALSE_EDGE;
      }
      return false, FALSE_EDGE;
    }

    /** The node of a pair of edges: found, or made. */
    method NodeOfPair(e1: nat, e2: nat) returns (e: nat)
      requires Valid() && EdgeIn(e1, |nodes|) && EdgeIn(e2, |nodes|) && e1 >= 2 && e2 >= 2
      modifies this
      ensures Valid() && old(nodes) <= nodes && EdgeIn(e, |nodes|) && IsAnd(nodes, e, e1, e2)
      ensures |nodes| <= |old(nodes)| + 1
    {
      hide IsAnd;
      var pair := SortedPair(e1, e2);
      if pair in andMap {
        NodeIsAnd(nodes, NodeOf(andMap[pair]), e1, e2);
        return andMap[pair];
      }
      e := PushPair(e1, e2, pair);
    }

    method PushPair(e1: nat, e2: nat, pair: (nat, nat)) returns (e: nat)
      requires Valid() && EdgeIn(e1, |nodes|) && EdgeIn(e2, |nodes|) && e1 >= 2 && e2 >= 2
      requires pair == SortedPair(e1, e2) && pair !in andMap
      modifies this
      ensures Valid() && old(nodes) <= nodes && EdgeIn(e, |nodes|) && IsAnd(nodes, e, e1, e2)
      ensures |nodes| == |old(nodes)| + 1
    {
      hide IsAnd, Hashed, AndMapOk, VarMapOk;
      PushOk(nodes, AndNode(e1, e2));
      PushedPair(nodes, varMap, andMap, e1, e2);
      nodes := nodes + [AndNode(e1, e2)];
      andMap := andMap[pair := 2 * |nodes|];
      NodeIsAnd(nodes, |nodes| - 1, e1, e2);
      return 2 * |nodes|;
    }

    /** The tables after a new conjunction. */
    static lemma PushedPair(nodes: seq<Node>, varMap: map<int, nat>, andMap: map<(nat, nat), nat>, e1: nat, e2: nat)
      requires VarMapOk(nodes, varMap) && AndMapOk(nodes, andMap) && Hashed(nodes, varMap, andMap)
      requires SortedPair(e1, e2) !in andMap
      ensures var more, pair := nodes + [AndNode(e1, e2)], SortedPair(e1, e2);
              && VarMapOk(more, varMap) && AndMapOk(more, andMap[pair := 2 * |more|])
              && Hashed(more, varMap, andMap[pair := 2 * |more|])
    {
    }

    /** create_and of two edges: simplify, look up, or make a node.  No conjunction is ever made twice. */
    method CreateAnd(e1: nat, e2: nat) returns (e: nat)
      requires Valid() && EdgeIn(e1, |nodes|) && EdgeIn(e2, |nodes|)
      modifies this
      ensures Valid() && old(nodes) <= nodes && EdgeIn(e, |nodes|) && IsAnd(nodes, e, e1, e2)
      ensures Shared(nodes) && |nodes| <= |old(nodes)| + 1
    {
      hide IsAnd, Hashed, Shared, NodesOk, VarMapOk, AndMapOk;
      var simple;
      simple, e := SimplifyAnd(e1, e2);
      if !simple {
        e := NodeOfPair(e1, e2);
      }
      HashedIsShared(nodes, varMap, andMap);
    }

    /** create_or of two edges. */
    method CreateOr(e1: nat, e2: nat) returns (e: nat)
      requires Valid() && EdgeIn(e1, |nodes|) && EdgeIn(e2, |nodes|)
      modifies this
      ensures Valid() && old(nodes) <= nodes && EdgeIn(e, |nodes|)
      ensures EdgeIn(e1, |nodes|) && EdgeIn(e2, |nodes|)
      ensures forall a: Assign :: Eval(nodes, e, a) <==> Eval(nodes, e1, a) || Eval(nodes, e2, a)
      ensures Vars(nodes, e) <= Vars(nodes, e1) + Vars(nodes, e2)
    {
      e := CreateAnd(Not(e1), Not(e2));
      forall a: Assign
        ensures Eval(nodes, Not(e1), a) == !Eval(nodes, e1, a) && Eval(nodes, Not(e2), a) == !Eval(nodes, e2, a)
        ensures Eval(nodes, Not(e), a) == !Eval(nodes, e, a)
        ensures Vars(nodes, Not(e)) == Vars(nodes, e) && Vars(nodes, Not(e1)) == Vars(nodes, e1)
                && Vars(nodes, Not(e2)) == Vars(nodes, e2)
      {
        NotMeans(nodes, e1, a);
        NotMeans(nodes, e2, a);
        NotMeans(nodes, e, a);
      }
      e := Not(e);
    }

    /** One level of the tree reduction. */
    method PairUp(edges: seq<nat>) returns (half: seq<nat>)
      requires Valid() && AllIn(edges, |nodes|) && |edges| > 1
      modifies this
      ensures Valid() && old(nodes) <= nodes && Condenses(nodes, half, edges) && 0 < |half| < |edges|
    {
      hide Condenses, IsAnd;
      half := [];
      var i: nat := 0;
      CondensesSelf(nodes, edges);
      assert [] + edges[0..] == edges;
      while i + 1 < |edges|
        invariant Valid() && old(nodes) <= nodes && i <= |edges| && 2 * |half| == i
        invariant AllIn(half, |nodes|) && AllIn(edges, |nodes|)
        invariant Condenses(nodes, half + edges[i..], edges)
      {
        half := PairOne(edges, i, half);
        i := i + 2;
      }
      if |edges| % 2 == 1 {
        assert half + edges[i..] == half + [edges[|edges| - 1]];
        half := half + [edges[|edges| - 1]];
      } else {
        assert half + edges[i..] == half;
      }
    }

    method PairOne(edges: seq<nat>, i: nat, half: seq<nat>) returns (next: seq<nat>)
      requires Valid() && AllIn(half, |nodes|) && AllIn(edges, |nodes|) && i + 1 < |edges|
      requires Condenses(nodes, half + edges[i..], edges)
      modifies this
      ensures Valid() && old(nodes) <= nodes && |next| == |half| + 1 && AllIn(next, |nodes|) && AllIn(edges, |nodes|)
      ensures Condenses(nodes, next + edges[i + 2..], edges)
    {
      hide Condenses, IsAnd;
      ghost var before := nodes;
      var e := CreateAnd(edges[i], edges[i + 1]);
      CondensesGrow(before, nodes, half + edges[i..], edges);
      CondensePair(nodes, half, edges[i], edges[i + 1], edges[i + 2..], e);
      assert half + [edges[i], edges[i + 1]] + edges[i + 2..] == half + edges[i..];
      assert half + [e] + edges[i + 2..] == (half + [e]) + edges[i + 2..];
      CondensesTrans(nodes, half + [e] + edges[i + 2..], half + edges[i..], edges);
      next := half + [e];
    }

    lemma CondensesSelf(ns: seq<Node>, xs: seq<nat>)
      requires NodesOk(ns) && AllIn(xs, |ns|)
      ensures Condenses(ns, xs, xs)
    {
    }

    /** create_and of a list, as a balanced tree. */
    method CreateAndAll(edges0: seq<nat>) returns (e: nat)
      requires Valid() && AllIn(edges0, |nodes|)
      modifies this
      ensures Valid() && old(nodes) <= nodes && EdgeIn(e, |nodes|) && AllIn(edges0, |nodes|)
      ensures forall a: Assign :: Eval(nodes, e, a) <==> AllHold(nodes, edges0, a)
      ensures forall v :: v in Vars(nodes, e) ==> v in ListVars(nodes, edges0)
    {
      if |edges0| == 0 {
        return TRUE_EDGE;
      }
      var edges := edges0;
      CondensesSelf(nodes, edges);
      while |edges| > 1
        invariant Valid() && old(nodes) <= nodes && |edges| > 0 && AllIn(edges, |nodes|)
        invariant Condenses(nodes, edges, edges0)
        decreases |edges|
      {
        ghost var before, cur := nodes, edges;
        edges := PairUp(edges);
        CondensesGrow(before, nodes, cur, edges0);
        CondensesTrans(nodes, edges, cur, edges0);
      }
      e := edges[0];
      OneEdge(nodes, edges, edges0);
    }

    lemma OneEdge(ns: seq<Node>, xs: seq<nat>, ys: seq<nat>)
      requires NodesOk(ns) && |xs| == 1 && Condenses(ns, xs, ys)
      ensures forall a: Assign :: Eval(ns, xs[0], a) <==> AllHold(ns, ys, a)
      ensures forall v :: v in Vars(ns, xs[0]) ==> v in ListVars(ns, ys)
    {
      forall a: Assign
        ensures Eval(ns, xs[0], a) <==> AllHold(ns, xs, a)
      {
      }
      assert forall v :: v in Vars(ns, xs[0]) ==> v in ListVars(ns, xs);
    }

    /** create_or of a list. */
    method CreateOrAll(edges: seq<nat>) returns (e: nat)
      requires Valid() && AllIn(edges, |nodes|)
      modifies this
      ensures Valid() && old(nodes) <= nodes && EdgeIn(e, |nodes|) && AllIn(edges, |nodes|)
      ensures forall a: Assign :: Eval(nodes, e, a) <==> exists i :: 0 <= i < |edges| && Eval(nodes, edges[i], a)
      ensures forall v :: v in Vars(nodes, e) ==> v in ListVars(nodes, edges)
    {
      var negated := seq(|edges|, i requires 0 <= i < |edges| => Not(edges[i]));
      e := CreateAndAll(negated);
      Negated(nodes, edges, negated, e);
      e := Not(e);
    }

    lemma Negated(ns: seq<Node>, edges: seq<nat>, negated: seq<nat>, e: nat)
      requires NodesOk(ns) && AllIn(negated, |ns|) && EdgeIn(e, |ns|) && |negated| == |edges|
      requires forall i :: 0 <= i < |edges| ==> negated[i] == Not(edges[i])
      requires forall a: Assign :: Eval(ns, e, a) <==> AllHold(ns, negated, a)
      requires forall v :: v in Vars(ns, e) ==> v in ListVars(ns, negated)
      ensures AllIn(edges, |ns|)
      ensures EdgeIn(Not(e), |ns|)
      ensures forall a: Assign :: Eval(ns, Not(e), a) <==> exists i :: 0 <= i < |edges| && Eval(ns, edges[i], a)
      ensures forall v :: v in Vars(ns, Not(e)) ==> v in ListVars(ns, edges)
    {
      forall i | 0 <= i < |edges|
        ensures EdgeIn(edges[i], |ns|) && Vars(ns, negated[i]) == Vars(ns, edges[i])
        ensures forall a: Assign :: Eval(ns, negated[i], a) == !Eval(ns, edges[i], a)
      {
        assert EdgeIn(negated[i], |ns|);
        forall a: Assign
          ensures Eval(ns, negated[i], a) == !Eval(ns, edges[i], a) && Vars(ns, negated[i]) == Vars(ns, edges[i])
        {
          NotMeans(ns, edges[i], a);
        }
        NotMeans(ns, edges[i], iset{});
      }
      forall a: Assign
        ensures Eval(ns, Not(e), a) == !Eval(ns, e, a) && Vars(ns, Not(e)) == Vars(ns, e)
      {
        NotMeans(ns, e, a);
      }
      NotMeans(ns, e, iset{});
    }
  }
}
