/** Craig interpolants from resolution chains (class CraigTracer, craigtracer.cpp).  The enabled constructions do not
    share anything but the proof, so one of them is followed at a time. */
module Craig {
  import opened Aig
  import opened Tseitin

  datatype VarType = ALocal | BLocal | Global
  datatype ClauseType = AClause | BClause
  datatype Construction = Symmetric | Asymmetric | DualSymmetric | DualAsymmetric

  type Labels = map<int, VarType>

  function VarOf(l: int): int {
    if l < 0 then -l else l
  }

  /** The variables whose literals an A-assignment, or a B-assignment, has to falsify. */
  function SideA(k: Construction): set<VarType> {
    if k.Asymmetric? then {ALocal} else {ALocal, Global}
  }

  function SideB(k: Construction): set<VarType> {
    if k.DualAsymmetric? then {BLocal} else {BLocal, Global}
  }

  /** The dual symmetric construction builds the negation. */
  predicate Value(k: Construction, raw: bool) {
    if k.DualSymmetric? then !raw else raw
  }

  predicate Labelled(labels: Labels, c: set<int>) {
    forall l :: l in c ==> l != 0 && VarOf(l) in labels
  }

  ghost predicate FalseOn(labels: Labels, c: set<int>, side: set<VarType>, a: Assign)
    requires Labelled(labels, c)
  {
    forall l :: l in c && labels[VarOf(l)] in side ==> !LitTrue(l, a)
  }

  datatype Original = Original(lits: seq<int>, kind: ClauseType)

  ghost predicate PartHolds(orig: seq<Original>, kind: ClauseType, a: Assign) {
    forall i :: 0 <= i < |orig| && orig[i].kind == kind ==> SatClause(orig[i].lits, a)
  }

  /** The partial interpolant of a clause. */
  ghost predicate Partial(k: Construction, labels: Labels, orig: seq<Original>, c: set<int>, nodes: seq<Node>, e: nat)
    requires NodesOk(nodes) && Labelled(labels, c)
  {
    && EdgeIn(e, |nodes|)
    && (forall a: Assign :: PartHolds(orig, AClause, a) && FalseOn(labels, c, SideA(k), a) ==>
          Value(k, Eval(nodes, e, a)))
    && (forall a: Assign :: PartHolds(orig, BClause, a) && FalseOn(labels, c, SideB(k), a) ==>
          !Value(k, Eval(nodes, e, a)))
    && (forall v :: v in Vars(nodes, e) ==> v in labels && labels[v] == Global)
  }

  function LitsOf(c: seq<int>): set<int> {
    set i | 0 <= i < |c| :: c[i]
  }

  // ----- one resolution step -----

  /** What the step computes, by the sides of the pivot's type. */
  function Combined(inA: bool, inB: bool, i1: bool, i2: bool, lit: bool): bool {
    if inA && inB then (i1 || lit) && (i2 || !lit) else if inA then i1 || i2 else i1 && i2
  }

  function Resolved(c1: set<int>, c2: set<int>, p: int): set<int> {
    (c1 - {p}) + (c2 - {-p})
  }

  /** Falsifying the resolvent falsifies the parent whose pivot literal is false, and both when the pivot does not
      matter on this side. */
  lemma ParentFalse(labels: Labels, c1: set<int>, c2: set<int>, p: int, side: set<VarType>, a: Assign)
    requires p in c1 && -p in c2 && p != 0 && Labelled(labels, c1) && Labelled(labels, c2)
    requires FalseOn(labels, Resolved(c1, c2, p), side, a)
    ensures labels[VarOf(p)] !in side || !LitTrue(p, a) ==> FalseOn(labels, c1, side, a)
    ensures labels[VarOf(p)] !in side || LitTrue(p, a) ==> FalseOn(labels, c2, side, a)
  {
    var r := Resolved(c1, c2, p);
    forall l | l in c1 && l != p
      ensures l in r
    {
    }
    forall l | l in c2 && l != -p
      ensures l in r
    {
    }
    assert VarOf(p) == VarOf(-p) && LitTrue(-p, a) == !LitTrue(p, a);
  }

  /** Soundness of every construction: the combined value is a partial interpolant of the resolvent. */
  lemma ResolutionKeeps(k: Construction, labels: Labels, orig: seq<Original>, nodes: seq<Node>, c1: set<int>,
                        c2: set<int>, p: int, e1: nat, e2: nat, e: nat)
    requires NodesOk(nodes) && p in c1 && -p in c2 && p != 0 && Labelled(labels, c1) && Labelled(labels, c2)
    requires Partial(k, labels, orig, c1, nodes, e1) && Partial(k, labels, orig, c2, nodes, e2) && EdgeIn(e, |nodes|)
    requires forall a: Assign :: Value(k, Eval(nodes, e, a)) ==
               Combined(labels[VarOf(p)] in SideA(k), labels[VarOf(p)] in SideB(k),
                        Value(k, Eval(nodes, e1, a)), Value(k, Eval(nodes, e2, a)), LitTrue(p, a))
    requires forall v :: v in Vars(nodes, e) ==> v in labels && labels[v] == Global
    ensures Partial(k, labels, orig, Resolved(c1, c2, p), nodes, e)
  {
    hide Eval, Vars, FalseOn;
    var r := Resolved(c1, c2, p);
    forall a: Assign | PartHolds(orig, AClause, a) && FalseOn(labels, r, SideA(k), a)
      ensures Value(k, Eval(nodes, e, a))
    {
      ParentFalse(labels, c1, c2, p, SideA(k), a);
    }
    forall a: Assign | PartHolds(orig, BClause, a) && FalseOn(labels, r, SideB(k), a)
      ensures !Value(k, Eval(nodes, e, a))
    {
      ParentFalse(labels, c1, c2, p, SideB(k), a);
    }
  }

  lemma PartialGrows(k: Construction, labels: Labels, orig: seq<Original>, c: set<int>, nodes: seq<Node>,
                     more: seq<Node>, e: nat)
    requires NodesOk(nodes) && NodesOk(more) && nodes <= more && Labelled(labels, c)
    requires Partial(k, labels, orig, c, nodes, e)
    ensures Partial(k, labels, orig, c, more, e)
  {
    GrowAll(nodes, more, e);
  }

  /** More original clauses, fewer assignments to consider. */
  lemma PartialMoreClauses(k: Construction, labels: Labels, orig: seq<Original>, o: Original, c: set<int>,
                           nodes: seq<Node>, e: nat)
    requires NodesOk(nodes) && Labelled(labels, c) && Partial(k, labels, orig, c, nodes, e)
    ensures Partial(k, labels, orig + [o], c, nodes, e)
  {
    forall a: Assign, kind: ClauseType | PartHolds(orig + [o], kind, a)
      ensures PartHolds(orig, kind, a)
    {
      assert forall i :: 0 <= i < |orig| ==> (orig + [o])[i] == orig[i];
    }
  }

  /** A longer clause keeps the partial interpolant. */
  lemma PartialLonger(k: Construction, labels: Labels, orig: seq<Original>, c: set<int>, d: set<int>, nodes: seq<Node>,
                      e: nat)
    requires NodesOk(nodes) && c <= d && Labelled(labels, c) && Labelled(labels, d)
             && Partial(k, labels, orig, c, nodes, e)
    ensures Partial(k, labels, orig, d, nodes, e)
  {
    forall a: Assign, side: set<VarType> | FalseOn(labels, d, side, a)
      ensures FalseOn(labels, c, side, a)
    {
    }
  }

  // ----- original clauses -----

  /** Clauses of A use no B-local variable and the other way round. */
  predicate ProperlyLabelled(labels: Labels, o: Original) {
    && Labelled(labels, LitsOf(o.lits))
    && forall l :: l in LitsOf(o.lits) ==> labels[VarOf(l)] != (if o.kind.AClause? then BLocal else ALocal)
  }

  ghost predicate SomeGlobalTrue(labels: Labels, c: seq<int>, a: Assign)
    requires Labelled(labels, LitsOf(c))
  {
    exists i :: 0 <= i < |c| && labels[VarOf(c[i])] == Global && LitTrue(c[i], a)
  }

  /** Some edge of the list differs from the given value. */
  ghost predicate SomeEdge(nodes: seq<Node>, edges: seq<nat>, than: bool, a: Assign)
    requires NodesOk(nodes) && AllIn(edges, |nodes|)
  {
    exists i :: 0 <= i < |edges| && Eval(nodes, edges[i], a) != than
  }

  /** The value an original clause starts with. */
  ghost predicate StartValue(k: Construction, labels: Labels, o: Original, a: Assign)
    requires ProperlyLabelled(labels, o)
  {
    match o.kind
    case AClause => k.Asymmetric? && SomeGlobalTrue(labels, o.lits, a)
    case BClause => k.DualAsymmetric? ==> !SomeGlobalTrue(labels, o.lits, a)
  }

  lemma SatisfiedNotFalse(labels: Labels, c: seq<int>, side: set<VarType>, a: Assign)
    requires Labelled(labels, LitsOf(c)) && SatClause(c, a) && FalseOn(labels, LitsOf(c), side, a)
    ensures exists i :: 0 <= i < |c| && labels[VarOf(c[i])] !in side && LitTrue(c[i], a)
  {
    var i :| 0 <= i < |c| && LitTrue(c[i], a);
    assert c[i] in LitsOf(c);
  }

  lemma StartIsPartial(k: Construction, labels: Labels, orig: seq<Original>, o: Original, nodes: seq<Node>, e: nat)
    requires NodesOk(nodes) && EdgeIn(e, |nodes|) && o in orig && ProperlyLabelled(labels, o)
    requires forall a: Assign :: Value(k, Eval(nodes, e, a)) == StartValue(k, labels, o, a)
    requires forall v :: v in Vars(nodes, e) ==> v in labels && labels[v] == Global
    ensures Partial(k, labels, orig, LitsOf(o.lits), nodes, e)
  {
    var c := LitsOf(o.lits);
    var j :| 0 <= j < |orig| && orig[j] == o;
    forall a: Assign | PartHolds(orig, AClause, a) && FalseOn(labels, c, SideA(k), a)
      ensures StartValue(k, labels, o, a)
    {
      StartOnA(k, labels, orig, o, j, a);
    }
    forall a: Assign | PartHolds(orig, BClause, a) && FalseOn(labels, c, SideB(k), a)
      ensures !StartValue(k, labels, o, a)
    {
      StartOnB(k, labels, orig, o, j, a);
    }
  }

  lemma NoGlobalTrue(labels: Labels, c: seq<int>, side: set<VarType>, a: Assign)
    requires Labelled(labels, LitsOf(c)) && Global in side && FalseOn(labels, LitsOf(c), side, a)
    ensures !SomeGlobalTrue(labels, c, a)
  {
    forall i | 0 <= i < |c| && labels[VarOf(c[i])] == Global
      ensures !LitTrue(c[i], a)
    {
      assert c[i] in LitsOf(c);
    }
  }

  lemma StartOnA(k: Construction, labels: Labels, orig: seq<Original>, o: Original, j: nat, a: Assign)
    requires ProperlyLabelled(labels, o) && j < |orig| && orig[j] == o
    requires PartHolds(orig, AClause, a) && FalseOn(labels, LitsOf(o.lits), SideA(k), a)
    ensures StartValue(k, labels, o, a)
  {
    if o.kind == AClause {
      SatisfiedNotFalse(labels, o.lits, SideA(k), a);
      var i :| 0 <= i < |o.lits| && labels[VarOf(o.lits[i])] !in SideA(k) && LitTrue(o.lits[i], a);
      assert o.lits[i] in LitsOf(o.lits);
    } else if k.DualAsymmetric? {
      NoGlobalTrue(labels, o.lits, SideA(k), a);
    }
  }

  lemma StartOnB(k: Construction, labels: Labels, orig: seq<Original>, o: Original, j: nat, a: Assign)
    requires ProperlyLabelled(labels, o) && j < |orig| && orig[j] == o
    requires PartHolds(orig, BClause, a) && FalseOn(labels, LitsOf(o.lits), SideB(k), a)
    ensures !StartValue(k, labels, o, a)
  {
    if o.kind == BClause {
      SatisfiedNotFalse(labels, o.lits, SideB(k), a);
      var i :| 0 <= i < |o.lits| && labels[VarOf(o.lits[i])] !in SideB(k) && LitTrue(o.lits[i], a);
      assert o.lits[i] in LitsOf(o.lits);
    } else if k.Asymmetric? {
      NoGlobalTrue(labels, o.lits, SideB(k), a);
    }
  }

  /** At the empty clause: A implies the interpolant, B excludes it, and it speaks of global variables only. */
  ghost predicate Interpolates(k: Construction, labels: Labels, orig: seq<Original>, nodes: seq<Node>, e: nat)
    requires NodesOk(nodes)
  {
    && EdgeIn(e, |nodes|)
    && (forall a: Assign :: PartHolds(orig, AClause, a) ==> Value(k, Eval(nodes, e, a)))
    && (forall a: Assign :: PartHolds(orig, BClause, a) ==> !Value(k, Eval(nodes, e, a)))
    && (forall v :: v in Vars(nodes, e) ==> v in labels && labels[v] == Global)
  }

  lemma EmptyClauseInterpolates(k: Construction, labels: Labels, orig: seq<Original>, nodes: seq<Node>, e: nat)
    requires NodesOk(nodes) && Partial(k, labels, orig, {}, nodes, e)
    ensures Interpolates(k, labels, orig, nodes, e)
  {
    forall a: Assign, side: set<VarType>
      ensures FalseOn(labels, {}, side, a)
    {
    }
  }

  // ----- resolution chains -----

  predicate ChainIds(clauses: seq<seq<int>>, chain: seq<nat>) {
    |chain| > 0 && forall i :: 0 <= i < |chain| ==> chain[i] < |clauses|
  }

  /** The resolvent after the steps from the end down to position i. */
  function Resolvent(clauses: seq<seq<int>>, chain: seq<nat>, piv: seq<int>, i: nat): set<int>
    requires ChainIds(clauses, chain) && |piv| == |chain| - 1 && i < |chain|
    decreases |chain| - i
  {
    if i == |chain| - 1 then LitsOf(clauses[chain[i]])
    else Resolved(Resolvent(clauses, chain, piv, i + 1), LitsOf(clauses[chain[i]]), -piv[i])
  }

  /** One clashing literal per step, no tautology, no duplicate, and no pivot variable seen again. */
  predicate StepOk(clauses: seq<seq<int>>, chain: seq<nat>, piv: seq<int>, i: nat)
    requires ChainIds(clauses, chain) && |piv| == |chain| - 1 && i < |chain| - 1
  {
    var c, r := clauses[chain[i]], Resolvent(clauses, chain, piv, i + 1);
    && piv[i] != 0 && piv[i] in c && -piv[i] in r
    && (forall m :: m in c && m != piv[i] ==> -m !in r)
    && (forall x, y :: 0 <= x < y < |c| ==> c[x] != c[y] && c[x] != -c[y])
    && (forall j, m :: i < j < |piv| && m in c ==> VarOf(m) != VarOf(piv[j]))
  }

  predicate LinearChain(clauses: seq<seq<int>>, chain: seq<nat>, piv: seq<int>) {
    && ChainIds(clauses, chain) && |piv| == |chain| - 1
    && forall i :: 0 <= i < |chain| - 1 ==> StepOk(clauses, chain, piv, i)
  }

  /** All literals of the clauses from position i on: what is marked before the next clause. */
  function Seen(clauses: seq<seq<int>>, chain: seq<nat>, i: nat): set<int>
    requires ChainIds(clauses, chain) && i < |chain|
    decreases |chain| - i
  {
    if i == |chain| - 1 then LitsOf(clauses[chain[i]])
    else Seen(clauses, chain, i + 1) + LitsOf(clauses[chain[i]])
  }

  /** A marked literal is in the resolvent, or its variable was resolved away. */
  lemma {:induction false} SeenMeans(clauses: seq<seq<int>>, chain: seq<nat>, piv: seq<int>, i: nat, m: int)
    requires ChainIds(clauses, chain) && |piv| == |chain| - 1 && i < |chain|
    ensures m in Resolvent(clauses, chain, piv, i) ==> m in Seen(clauses, chain, i)
    ensures m in Seen(clauses, chain, i) ==>
              m in Resolvent(clauses, chain, piv, i) || exists j :: i <= j < |piv| && VarOf(m) == VarOf(piv[j])
    decreases |chain| - i
  {
    if i < |chain| - 1 {
      SeenMeans(clauses, chain, piv, i + 1, m);
      if m in Seen(clauses, chain, i) && m !in Resolvent(clauses, chain, piv, i) {
        if m == -piv[i] || m == piv[i] {
          assert VarOf(m) == VarOf(piv[i]);
        } else {
          var j :| i + 1 <= j < |piv| && VarOf(m) == VarOf(piv[j]);
        }
      }
    }
  }

  /** Exactly the pivot's complement was marked before. */
  lemma OnlyPivotClashes(clauses: seq<seq<int>>, chain: seq<nat>, piv: seq<int>, i: nat, l: int)
    requires LinearChain(clauses, chain, piv) && i < |chain| - 1 && l in clauses[chain[i]]
    ensures -l in Seen(clauses, chain, i + 1) <==> l == piv[i]
  {
    assert StepOk(clauses, chain, piv, i);
    SeenMeans(clauses, chain, piv, i + 1, -l);
    assert VarOf(l) == VarOf(-l);
    forall j | i < j < |piv|
      ensures VarOf(-l) != VarOf(piv[j])
    {
    }
  }

  lemma {:induction false} ResolventLabelled(labels: Labels, clauses: seq<seq<int>>, chain: seq<nat>, piv: seq<int>,
                                             i: nat)
    requires ChainIds(clauses, chain) && |piv| == |chain| - 1 && i < |chain|
    requires forall j :: 0 <= j < |chain| ==> Labelled(labels, LitsOf(clauses[chain[j]]))
    ensures Labelled(labels, Resolvent(clauses, chain, piv, i))
    decreases |chain| - i
  {
    if i < |chain| - 1 {
      ResolventLabelled(labels, clauses, chain, piv, i + 1);
    }
  }

  // ----- the tracer -----

  lemma StepResolves(clauses: seq<seq<int>>, chain: seq<nat>, piv: seq<int>, i: nat)
    requires LinearChain(clauses, chain, piv) && i < |chain| - 1
    ensures var c, r := LitsOf(clauses[chain[i]]), Resolvent(clauses, chain, piv, i + 1);
            piv[i] != 0 && -piv[i] in r && piv[i] in c && Resolvent(clauses, chain, piv, i) == Resolved(r, c, -piv[i])
  {
    assert StepOk(clauses, chain, piv, i);
    var k :| 0 <= k < |clauses[chain[i]]| && clauses[chain[i]][k] == piv[i];
  }

  // ----- what a proof says, apart from any graph -----

  /** How a clause came about. */
  datatype Step = Given(o: Original) | ByChain(chain: seq<nat>, piv: seq<int>)

  predicate StepFits(labels: Labels, proof: seq<Step>, id: nat)
    requires id < |proof|
  {
    match proof[id]
    case Given(o) => ProperlyLabelled(labels, o)
    case ByChain(chain, piv) =>
      && |chain| > 0 && |piv| == |chain| - 1
      && (forall i :: 0 <= i < |chain| ==> chain[i] < id)
      && forall i :: 0 <= i < |piv| ==> VarOf(piv[i]) in labels
  }

  predicate ProofOk(labels: Labels, proof: seq<Step>) {
    forall id :: 0 <= id < |proof| ==> StepFits(labels, proof, id)
  }

  /** The value of the partial interpolant of clause id, computed along the proof. */
  ghost predicate Says(k: Construction, labels: Labels, proof: seq<Step>, id: nat, a: Assign)
    requires ProofOk(labels, proof) && id < |proof|
    decreases id, if proof[id].ByChain? then |proof[id].chain| + 1 else 0
  {
    assert StepFits(labels, proof, id);
    match proof[id]
    case Given(o) => StartValue(k, labels, o, a)
    case ByChain(_, _) => Folded(k, labels, proof, id, 0, a)
  }

  ghost predicate Folded(k: Construction, labels: Labels, proof: seq<Step>, id: nat, i: nat, a: Assign)
    requires ProofOk(labels, proof) && id < |proof| && proof[id].ByChain? && i < |proof[id].chain|
    decreases id, |proof[id].chain| - i
  {
    assert StepFits(labels, proof, id);
    var chain, piv := proof[id].chain, proof[id].piv;
    if i == |chain| - 1 then Says(k, labels, proof, chain[i], a)
    else
      Combined(labels[VarOf(piv[i])] in SideA(k), labels[VarOf(piv[i])] in SideB(k),
               Folded(k, labels, proof, id, i + 1, a), Says(k, labels, proof, chain[i], a), LitTrue(-piv[i], a))
  }

  /** Later clauses do not matter. */
  lemma {:induction false} SaysGrows(k: Construction, labels: Labels, proof: seq<Step>, more: seq<Step>, id: nat,
                                     a: Assign)
    requires ProofOk(labels, proof) && ProofOk(labels, more) && proof <= more && id < |proof|
    ensures Says(k, labels, more, id, a) <==> Says(k, labels, proof, id, a)
    decreases id, if proof[id].ByChain? then |proof[id].chain| + 1 else 0
  {
    assert StepFits(labels, proof, id) && more[id] == proof[id];
    if proof[id].ByChain? {
      FoldedGrows(k, labels, proof, more, id, 0, a);
    }
  }

  lemma {:induction false} FoldedGrows(k: Construction, labels: Labels, proof: seq<Step>, more: seq<Step>, id: nat,
                                       i: nat, a: Assign)
    requires ProofOk(labels, proof) && ProofOk(labels, more) && proof <= more && id < |proof|
    requires proof[id].ByChain? && i < |proof[id].chain|
    ensures more[id] == proof[id] && (Folded(k, labels, more, id, i, a) <==> Folded(k, labels, proof, id, i, a))
    decreases id, |proof[id].chain| - i
  {
    assert StepFits(labels, proof, id) && more[id] == proof[id];
    SaysGrows(k, labels, proof, more, proof[id].chain[i], a);
    if i < |proof[id].chain| - 1 {
      FoldedGrows(k, labels, proof, more, id, i + 1, a);
    }
  }

  /** The symmetric construction and its dual say the same along every proof. */
  lemma {:induction false} DualSaysSame(labels: Labels, proof: seq<Step>, id: nat, a: Assign)
    requires ProofOk(labels, proof) && id < |proof|
    ensures Says(DualSymmetric, labels, proof, id, a) <==> Says(Symmetric, labels, proof, id, a)
    decreases id, if proof[id].ByChain? then |proof[id].chain| + 1 else 0
  {
    assert StepFits(labels, proof, id);
    if proof[id].ByChain? {
      DualFoldsSame(labels, proof, id, 0, a);
    }
  }

  lemma {:induction false} DualFoldsSame(labels: Labels, proof: seq<Step>, id: nat, i: nat, a: Assign)
    requires ProofOk(labels, proof) && id < |proof| && proof[id].ByChain? && i < |proof[id].chain|
    ensures Folded(DualSymmetric, labels, proof, id, i, a) <==> Folded(Symmetric, labels, proof, id, i, a)
    decreases id, |proof[id].chain| - i
  {
    assert StepFits(labels, proof, id);
    DualSaysSame(labels, proof, proof[id].chain[i], a);
    if i < |proof[id].chain| - 1 {
      DualFoldsSame(labels, proof, id, i + 1, a);
    }
  }

  /** Edge e of the graph stands for clause id. */
  ghost predicate Means(k: Construction, labels: Labels, proof: seq<Step>, id: nat, nodes: seq<Node>, e: nat)
    requires NodesOk(nodes) && ProofOk(labels, proof) && id < |proof|
  {
    EdgeIn(e, |nodes|) && forall a: Assign :: Value(k, Eval(nodes, e, a)) == Says(k, labels, proof, id, a)
  }

  lemma MeansGrows(k: Construction, labels: Labels, proof: seq<Step>, more: seq<Step>, id: nat, nodes: seq<Node>,
                   larger: seq<Node>, e: nat)
    requires NodesOk(nodes) && NodesOk(larger) && nodes <= larger && ProofOk(labels, proof) && ProofOk(labels, more)
    requires proof <= more && id < |proof| && Means(k, labels, proof, id, nodes, e)
    ensures Means(k, labels, more, id, larger, e)
  {
    hide Eval, Says;
    GrowAll(nodes, larger, e);
    forall a: Assign
      ensures Says(k, labels, more, id, a) <==> Says(k, labels, proof, id, a)
    {
      SaysGrows(k, labels, proof, more, id, a);
    }
  }

  /** ... for the clause under construction, from position i of its chain on. */
  ghost predicate MeansFrom(k: Construction, labels: Labels, proof: seq<Step>, id: nat, i: nat, nodes: seq<Node>,
                            e: nat)
    requires NodesOk(nodes) && ProofOk(labels, proof) && id < |proof| && proof[id].ByChain? && i < |proof[id].chain|
  {
    EdgeIn(e, |nodes|) && forall a: Assign :: Value(k, Eval(nodes, e, a)) == Folded(k, labels, proof, id, i, a)
  }

  /** The assignments that the interpolant at edge e accepts. */
  ghost function Accepted(k: Construction, nodes: seq<Node>, e: nat): iset<Assign>
    requires NodesOk(nodes) && EdgeIn(e, |nodes|)
  {
    iset a: Assign | Value(k, Eval(nodes, e, a))
  }

  class CraigTracer {
    const construction: Construction
    const labels: Labels
    const aig: Graph
    var clauses: seq<seq<int>>
    var interpolants: seq<nat>
    var marked: set<int>
    var markedHistory: seq<int>
    ghost var original: seq<Original>
    ghost var traced: seq<seq<int>>   // the clauses as added; a deleted one is emptied in clauses
    ghost var proof: seq<Step>        // how they came about

    ghost predicate Valid()
      reads this, aig
    {
      && aig.Valid() && |clauses| == |interpolants| == |traced| && marked == {}
      && (forall i :: 0 <= i < |clauses| ==> clauses[i] == traced[i] || clauses[i] == [])
      && (forall i :: 0 <= i < |traced| ==> TracedOk(i))
      && |proof| == |traced| && ProofOk(labels, proof)
      && (forall i :: 0 <= i < |proof| ==> Means(construction, labels, proof, i, aig.nodes, interpolants[i]))
    }

    ghost predicate TracedOk(i: nat)
      requires aig.Valid() && i < |traced| == |interpolants|
      reads this, aig
    {
      Labelled(labels, LitsOf(traced[i]))
      && Partial(construction, labels, original, LitsOf(traced[i]), aig.nodes, interpolants[i])
    }

    constructor (k: Construction, l: Labels)
      requires forall v :: v in l ==> v > 0
      ensures Valid() && construction == k && labels == l && original == [] && clauses == [] && proof == []
              && fresh(aig)
    {
      construction, labels := k, l;
      aig := new Graph();
      clauses, interpolants, marked, markedHistory := [], [], {}, [];
      original, traced, proof := [], [], [];
    }

    /** mark_literal: was the complement marked before? */
    method MarkLiteral(l: int) returns (inverse: bool)
      modifies this`marked, this`markedHistory
      ensures marked == old(marked) + {l} && (inverse <==> -l in old(marked))
    {
      if l !in marked && -l !in marked {
        markedHistory := markedHistory + [VarOf(l)];
      }
      inverse := -l in marked;
      marked := marked + {l};
    }

    method UnmarkAll()
      modifies this`marked, this`markedHistory
      ensures marked == {}
    {
      marked, markedHistory := {}, [];
    }

    /** The edges of the global literals of a clause, negated on demand. */
    method GlobalLiterals(c: seq<int>, negate: bool) returns (edges: seq<nat>)
      requires aig.Valid() && Labelled(labels, LitsOf(c))
      modifies aig
      ensures aig.Valid() && old(aig.nodes) <= aig.nodes && AllIn(edges, |aig.nodes|)
      ensures forall a: Assign :: SomeEdge(aig.nodes, edges, negate, a) <==> SomeGlobalTrue(labels, c, a)
      ensures forall v :: v in ListVars(aig.nodes, edges) ==> v in labels && labels[v] == Global
    {
      hide Hashed, VarMapOk, AndMapOk;
      edges := [];
      for i := 0 to |c|
        invariant aig.Valid() && old(aig.nodes) <= aig.nodes && AllIn(edges, |aig.nodes|)
        invariant Collected(aig.nodes, edges, c[..i], negate)
      {
        assert c[i] in LitsOf(c);
        if labels[VarOf(c[i])] == Global {
          ghost var before := aig.nodes;
          var e := aig.CreateLiteral(if negate then -c[i] else c[i]);
          CollectLiteral(before, aig.nodes, edges, c, i, negate, e);
          edges := edges + [e];
        } else {
          CollectNothing(aig.nodes, edges, c, i, negate);
        }
      }
      assert c[..|c|] == c;
    }

    /** The edges speak for the global literals of the prefix. */
    ghost predicate Collected(ns: seq<Node>, edges: seq<nat>, c: seq<int>, negate: bool)
      requires NodesOk(ns)
    {
      && AllIn(edges, |ns|) && Labelled(labels, LitsOf(c))
      && (forall a: Assign :: SomeEdge(ns, edges, negate, a) <==> SomeGlobalTrue(labels, c, a))
      && (forall v :: v in ListVars(ns, edges) ==> v in labels && labels[v] == Global)
    }

    lemma GlobalSnoc(c: seq<int>, i: nat, a: Assign)
      requires i < |c| && Labelled(labels, LitsOf(c))
      ensures Labelled(labels, LitsOf(c[..i])) && Labelled(labels, LitsOf(c[..i + 1]))
      ensures VarOf(c[i]) in labels && c[i] != 0
      ensures SomeGlobalTrue(labels, c[..i + 1], a) <==>
                SomeGlobalTrue(labels, c[..i], a) || (labels[VarOf(c[i])] == Global && LitTrue(c[i], a))
    {
      assert forall j :: 0 <= j < |c| ==> c[j] in LitsOf(c);
      var u, w := c[..i + 1], c[..i];
      if SomeGlobalTrue(labels, w, a) {
        var j :| 0 <= j < |w| && labels[VarOf(w[j])] == Global && LitTrue(w[j], a);
        assert u[j] == w[j];
      }
      if SomeGlobalTrue(labels, u, a) {
        var j :| 0 <= j < |u| && labels[VarOf(u[j])] == Global && LitTrue(u[j], a);
        assert j < i ==> w[j] == u[j];
      }
      assert u[i] == c[i];
    }

    lemma CollectNothing(ns: seq<Node>, edges: seq<nat>, c: seq<int>, i: nat, negate: bool)
      requires NodesOk(ns) && i < |c| && Labelled(labels, LitsOf(c)) && Collected(ns, edges, c[..i], negate)
      requires VarOf(c[i]) in labels && labels[VarOf(c[i])] != Global
      ensures Collected(ns, edges, c[..i + 1], negate)
    {
      forall a: Assign
        ensures Labelled(labels, LitsOf(c[..i + 1])) && Labelled(labels, LitsOf(c[..i]))
        ensures SomeGlobalTrue(labels, c[..i + 1], a) <==> SomeGlobalTrue(labels, c[..i], a)
      {
        GlobalSnoc(c, i, a);
      }
      GlobalSnoc(c, i, iset{});
    }

    lemma CollectLiteral(before: seq<Node>, ns: seq<Node>, edges: seq<nat>, c: seq<int>, i: nat, negate: bool, e: nat)
      requires NodesOk(before) && NodesOk(ns) && before <= ns
      requires i < |c| && Labelled(labels, LitsOf(c)) && Collected(before, edges, c[..i], negate)
      requires VarOf(c[i]) in labels && labels[VarOf(c[i])] == Global && EdgeIn(e, |ns|) && c[i] != 0
      requires Vars(ns, e) == {VarOf(c[i])}
      requires forall a: Assign :: Eval(ns, e, a) != negate <==> LitTrue(c[i], a)
      ensures Collected(ns, edges + [e], c[..i + 1], negate)
    {
      hide Eval, Vars;
      var es := edges + [e];
      assert es[|edges|] == e;
      forall j | 0 <= j < |edges|
        ensures EdgeIn(es[j], |ns|) && Vars(ns, es[j]) == Vars(before, edges[j])
        ensures forall a: Assign :: Eval(ns, es[j], a) == Eval(before, edges[j], a)
      {
        assert es[j] == edges[j];
        GrowAll(before, ns, edges[j]);
      }
      GlobalSnoc(c, i, iset{});
      forall a: Assign
        ensures SomeEdge(ns, es, negate, a) <==> SomeGlobalTrue(labels, c[..i + 1], a)
      {
        GlobalSnoc(c, i, a);
        CollectValue(before, ns, edges, e, negate, a);
      }
      forall v | v in ListVars(ns, es)
        ensures v in labels && labels[v] == Global
      {
        var j :| 0 <= j < |es| && v in Vars(ns, es[j]);
        assert j < |edges| ==> Mentions(before, edges, v);
      }
    }

    lemma CollectValue(before: seq<Node>, ns: seq<Node>, edges: seq<nat>, e: nat, negate: bool, a: Assign)
      requires NodesOk(before) && NodesOk(ns) && AllIn(edges, |before|) && AllIn(edges + [e], |ns|) && EdgeIn(e, |ns|)
      requires forall j :: 0 <= j < |edges| ==> Eval(ns, (edges + [e])[j], a) == Eval(before, edges[j], a)
      ensures SomeEdge(ns, edges + [e], negate, a) <==> SomeEdge(before, edges, negate, a) || Eval(ns, e, a) != negate
    {
      var es := edges + [e];
      assert es[|edges|] == e;
      if j :| 0 <= j < |es| && Eval(ns, es[j], a) != negate {
        assert j < |edges| ==> Eval(before, edges[j], a) != negate;
      }
      if j :| 0 <= j < |edges| && Eval(before, edges[j], a) != negate {
        assert Eval(ns, es[j], a) != negate;
      }
    }

    /** create_interpolant_for_clause. */
    method InterpolantForClause(c: seq<int>, kind: ClauseType) returns (e: nat)
      requires aig.Valid() && ProperlyLabelled(labels, Original(c, kind))
      modifies aig
      ensures aig.Valid() && old(aig.nodes) <= aig.nodes && EdgeIn(e, |aig.nodes|)
      ensures forall a: Assign ::
                Value(construction, Eval(aig.nodes, e, a)) == StartValue(construction, labels, Original(c, kind), a)
      ensures forall v :: v in Vars(aig.nodes, e) ==> v in labels && labels[v] == Global
    {
      match construction {
        case Symmetric =>
          e := if kind == AClause then FALSE_EDGE else TRUE_EDGE;
        case Asymmetric =>
          if kind == AClause {
            var literals := GlobalLiterals(c, false);
            ghost var before := aig.nodes;
            e := aig.CreateOrAll(literals);
            SameList(before, aig.nodes, literals);
          } else {
            e := TRUE_EDGE;
          }
        case DualSymmetric =>
          e := if kind == AClause then TRUE_EDGE else FALSE_EDGE;
        case DualAsymmetric =>
          if kind == AClause {
            e := FALSE_EDGE;
          } else {
            var literals := GlobalLiterals(c, true);
            ghost var before := aig.nodes;
            e := aig.CreateAndAll(literals);
            SameList(before, aig.nodes, literals);
            AllOrSome(aig.nodes, literals);
          }
      }
    }

    lemma SameList(before: seq<Node>, ns: seq<Node>, edges: seq<nat>)
      requires NodesOk(before) && NodesOk(ns) && before <= ns && AllIn(edges, |before|)
      ensures AllIn(edges, |ns|)
      ensures forall i, a: Assign :: 0 <= i < |edges| ==> Eval(ns, edges[i], a) == Eval(before, edges[i], a)
      ensures ListVars(ns, edges) == ListVars(before, edges)
    {
      forall i | 0 <= i < |edges|
        ensures EdgeIn(edges[i], |ns|) && Vars(ns, edges[i]) == Vars(before, edges[i])
        ensures forall a: Assign :: Eval(ns, edges[i], a) == Eval(before, edges[i], a)
      {
        GrowAll(before, ns, edges[i]);
      }
      assert forall v: int :: Mentions(ns, edges, v) <==> Mentions(before, edges, v);
    }

    lemma AllOrSome(ns: seq<Node>, edges: seq<nat>)
      requires NodesOk(ns) && AllIn(edges, |ns|)
      ensures forall a: Assign :: AllHold(ns, edges, a) <==> !SomeEdge(ns, edges, true, a)
    {
    }

    /** extend_interpolant_with_resolution. */
    method Extend(e1: nat, literal: int, e2: nat) returns (e: nat)
      requires aig.Valid() && EdgeIn(e1, |aig.nodes|) && EdgeIn(e2, |aig.nodes|) && literal != 0
               && VarOf(literal) in labels
      modifies aig
      ensures aig.Valid() && old(aig.nodes) <= aig.nodes && EdgeIn(e, |aig.nodes|)
      ensures EdgeIn(e1, |aig.nodes|) && EdgeIn(e2, |aig.nodes|)
      ensures forall a: Assign :: Value(construction, Eval(aig.nodes, e, a)) ==
                Combined(labels[VarOf(literal)] in SideA(construction), labels[VarOf(literal)] in SideB(construction),
                         Value(construction, Eval(aig.nodes, e1, a)), Value(construction, Eval(aig.nodes, e2, a)),
                         LitTrue(literal, a))
      ensures forall v :: v in Vars(aig.nodes, e) ==>
                v in Vars(aig.nodes, e1) || v in Vars(aig.nodes, e2) || (v == VarOf(literal) && labels[v] == Global)
    {
      hide Eval, Vars;
      var t := labels[VarOf(literal)];
      match construction {
        case Symmetric =>
          if t == ALocal {
            e := aig.CreateOr(e1, e2);
          } else if t == BLocal {
            e := aig.CreateAnd(e1, e2);
            GrownPair(old(aig.nodes), aig.nodes, e1, e2);
          } else {
            e := Multiplex(e1, literal, e2);
          }
        case Asymmetric =>
          if t == ALocal {
            e := aig.CreateOr(e1, e2);
          } else {
            e := aig.CreateAnd(e1, e2);
            GrownPair(old(aig.nodes), aig.nodes, e1, e2);
          }
        case DualSymmetric =>
          if t == ALocal {
            e := aig.CreateAnd(e1, e2);
            GrownPair(old(aig.nodes), aig.nodes, e1, e2);
          } else if t == BLocal {
            e := aig.CreateOr(e1, e2);
          } else {
            e := DualMultiplex(e1, literal, e2);
          }
        case DualAsymmetric =>
          if t == BLocal {
            e := aig.CreateAnd(e1, e2);
            GrownPair(old(aig.nodes), aig.nodes, e1, e2);
          } else {
            e := aig.CreateOr(e1, e2);
          }
      }
    }

    lemma GrownPair(before: seq<Node>, ns: seq<Node>, e1: nat, e2: nat)
      requires NodesOk(before) && NodesOk(ns) && before <= ns && EdgeIn(e1, |before|) && EdgeIn(e2, |before|)
      ensures EdgeIn(e1, |ns|) && EdgeIn(e2, |ns|)
    {
    }

    /** (I1 or literal) and (I2 or not literal). */
    method Multiplex(e1: nat, literal: int, e2: nat) returns (e: nat)
      requires aig.Valid() && EdgeIn(e1, |aig.nodes|) && EdgeIn(e2, |aig.nodes|) && literal != 0
      modifies aig
      ensures aig.Valid() && old(aig.nodes) <= aig.nodes && EdgeIn(e, |aig.nodes|)
      ensures EdgeIn(e1, |aig.nodes|) && EdgeIn(e2, |aig.nodes|)
      ensures forall a: Assign :: Eval(aig.nodes, e, a) <==>
                (Eval(aig.nodes, e1, a) || LitTrue(literal, a)) && (Eval(aig.nodes, e2, a) || !LitTrue(literal, a))
      ensures Vars(aig.nodes, e) <= Vars(aig.nodes, e1) + Vars(aig.nodes, e2) + {VarOf(literal)}
    {
      hide Eval, Vars;
      var l := aig.CreateLiteral(literal);
      ghost var n1 := aig.nodes;
      var left := aig.CreateOr(e1, l);
      ghost var n2 := aig.nodes;
      var m := aig.CreateLiteral(-literal);
      ghost var n3 := aig.nodes;
      var right := aig.CreateOr(e2, m);
      ghost var n4 := aig.nodes;
      e := aig.CreateAnd(left, right);
      GrowAll(n2, n4, left);
      GrowAll(n3, n4, m);
      GrowAll(n1, n2, l);
      GrowAll(n2, n4, e1);
      GrowAll(n4, aig.nodes, left);
      GrowAll(n4, aig.nodes, right);
      GrowAll(n4, aig.nodes, e1);
      GrowAll(n4, aig.nodes, e2);
    }

    /** (J1 and not literal) or (J2 and literal). */
    method DualMultiplex(e1: nat, literal: int, e2: nat) returns (e: nat)
      requires aig.Valid() && EdgeIn(e1, |aig.nodes|) && EdgeIn(e2, |aig.nodes|) && literal != 0
      modifies aig
      ensures aig.Valid() && old(aig.nodes) <= aig.nodes && EdgeIn(e, |aig.nodes|)
      ensures EdgeIn(e1, |aig.nodes|) && EdgeIn(e2, |aig.nodes|)
      ensures forall a: Assign :: Eval(aig.nodes, e, a) <==>
                (Eval(aig.nodes, e1, a) && !LitTrue(literal, a)) || (Eval(aig.nodes, e2, a) && LitTrue(literal, a))
      ensures Vars(aig.nodes, e) <= Vars(aig.nodes, e1) + Vars(aig.nodes, e2) + {VarOf(literal)}
    {
      hide Eval, Vars;
      var l := aig.CreateLiteral(-literal);
      ghost var n1 := aig.nodes;
      GrownPair(old(aig.nodes), n1, e1, e2);
      var left := aig.CreateAnd(e1, l);
      ghost var n2 := aig.nodes;
      var m := aig.CreateLiteral(literal);
      ghost var n3 := aig.nodes;
      var right := aig.CreateAnd(e2, m);
      ghost var n4 := aig.nodes;
      GrowAll(n2, n4, left);
      GrownPair(n2, n4, e1, l);
      GrowAll(n1, n2, l);
      GrowAll(n3, n4, m);
      GrowAll(n2, n4, e1);
      e := aig.CreateOr(left, right);
      GrowAll(n4, aig.nodes, left);
      GrowAll(n4, aig.nodes, right);
      GrowAll(n4, aig.nodes, e1);
      GrowAll(n4, aig.nodes, e2);
    }

    lemma TracedGrows(before: seq<Node>, ns: seq<Node>, i: nat)
      requires NodesOk(before) && NodesOk(ns) && before <= ns && i < |traced| == |interpolants|
      requires Labelled(labels, LitsOf(traced[i]))
      requires Partial(construction, labels, original, LitsOf(traced[i]), before, interpolants[i])
      ensures Partial(construction, labels, original, LitsOf(traced[i]), ns, interpolants[i])
    {
      PartialGrows(construction, labels, original, LitsOf(traced[i]), before, ns, interpolants[i]);
    }

    /** add_original_clause. */
    method AddOriginalClause(c: seq<int>, kind: ClauseType)
      requires Valid() && ProperlyLabelled(labels, Original(c, kind))
      modifies this, aig
      ensures Valid() && original == old(original) + [Original(c, kind)] && traced == old(traced) + [c]
      ensures clauses == old(clauses) + [c] && proof == old(proof) + [Given(Original(c, kind))]
    {
      hide Partial, Graph.Valid, Means;
      ghost var before, o := aig.nodes, Original(c, kind);
      GraphNodes(aig);
      var e := InterpolantForClause(c, kind);
      GraphNodes(aig);
      forall i | 0 <= i < |traced|
        ensures Labelled(labels, LitsOf(traced[i]))
        ensures Partial(construction, labels, original + [o], LitsOf(traced[i]), aig.nodes, interpolants[i])
      {
        assert old(TracedOk(i));
        TracedGrows(before, aig.nodes, i);
        PartialMoreClauses(construction, labels, original, o, LitsOf(traced[i]), aig.nodes, interpolants[i]);
      }
      assert (original + [o])[|original|] == o;
      StartIsPartial(construction, labels, original + [o], o, aig.nodes, e);
      ProofGrows(Given(o));
      AllMeanMore(before, aig.nodes, proof + [Given(o)]);
      GivenMeans(o, e);
      clauses, interpolants := clauses + [c], interpolants + [e];
      original, traced, proof := original + [o], traced + [c], proof + [Given(o)];
    }

    lemma ProofGrows(step: Step)
      requires ProofOk(labels, proof) && StepFits(labels, proof + [step], |proof|)
      ensures ProofOk(labels, proof + [step])
    {
      var more := proof + [step];
      forall id | 0 <= id < |more|
        ensures StepFits(labels, more, id)
      {
        if id < |proof| {
          assert StepFits(labels, proof, id) && more[id] == proof[id];
        }
      }
    }

    /** Every edge keeps its meaning in a larger graph and a longer proof. */
    lemma AllMeanMore(before: seq<Node>, ns: seq<Node>, more: seq<Step>)
      requires NodesOk(before) && NodesOk(ns) && before <= ns && ProofOk(labels, proof) && ProofOk(labels, more)
      requires proof <= more && |proof| == |interpolants|
      requires forall i :: 0 <= i < |proof| ==> Means(construction, labels, proof, i, before, interpolants[i])
      ensures forall i :: 0 <= i < |proof| ==> Means(construction, labels, more, i, ns, interpolants[i])
    {
      hide Means;
      forall i | 0 <= i < |proof|
        ensures Means(construction, labels, more, i, ns, interpolants[i])
      {
        MeansGrows(construction, labels, proof, more, i, before, ns, interpolants[i]);
      }
    }

    lemma GivenMeans(o: Original, e: nat)
      requires NodesOk(aig.nodes) && EdgeIn(e, |aig.nodes|) && ProperlyLabelled(labels, o)
               && ProofOk(labels, proof + [Given(o)])
      requires forall a: Assign :: Value(construction, Eval(aig.nodes, e, a)) == StartValue(construction, labels, o, a)
      ensures Means(construction, labels, proof + [Given(o)], |proof|, aig.nodes, e)
    {
      hide Eval;
      assert (proof + [Given(o)])[|proof|] == Given(o);
    }

    /** delete_clause: the clause is emptied, its interpolant stays. */
    method DeleteClause(id: nat)
      requires Valid() && id < |clauses|
      modifies this`clauses
      ensures Valid() && clauses == old(clauses)[id := []]
    {
      hide Partial, Graph.Valid, Labelled, Means;
      assert forall i :: 0 <= i < |traced| ==> TracedOk(i);
      clauses := clauses[id := []];
      forall i | 0 <= i < |traced|
        ensures TracedOk(i)
      {
        assert old(TracedOk(i));
      }
    }

    /** restore: the clause comes back as it was. */
    method RestoreClause(id: nat, c: seq<int>)
      requires Valid() && id < |clauses| && c == traced[id]
      modifies this`clauses
      ensures Valid() && clauses == old(clauses)[id := c]
    {
      hide Partial, Graph.Valid, Labelled, Means;
      assert forall i :: 0 <= i < |traced| ==> TracedOk(i);
      clauses := clauses[id := c];
      forall i | 0 <= i < |traced|
        ensures TracedOk(i)
      {
        assert old(TracedOk(i));
      }
    }

    /** Marking the literals of one clause of the chain, and extending the interpolant where one clashes. */
    method ResolveWith(chain: seq<nat>, ghost piv: seq<int>, i: nat, e0: nat) returns (e: nat)
      requires aig.Valid() && LinearChain(clauses, chain, piv) && i < |chain| - 1 && |clauses| == |interpolants|
      requires marked == Seen(clauses, chain, i + 1)
      requires EdgeIn(e0, |aig.nodes|) && EdgeIn(interpolants[chain[i]], |aig.nodes|)
      requires Labelled(labels, LitsOf(clauses[chain[i]]))
      modifies aig, this`marked, this`markedHistory
      ensures aig.Valid() && old(aig.nodes) <= aig.nodes && marked == Seen(clauses, chain, i)
      ensures EdgeIn(e, |aig.nodes|) && EdgeIn(e0, |aig.nodes|) && EdgeIn(interpolants[chain[i]], |aig.nodes|)
      ensures VarOf(piv[i]) in labels && VarOf(-piv[i]) == VarOf(piv[i])
      ensures ExtendedBy(aig.nodes, e, e0, interpolants[chain[i]], -piv[i])
    {
      hide ExtendedBy, Graph.Valid, StepOk;
      GraphNodes(aig);
      e := e0;
      var c := clauses[chain[i]];
      ghost var seen := marked;
      StepResolves(clauses, chain, piv, i);
      ghost var q := PivotPosition(c, piv[i]);
      assert c[..0] == [];
      for k := 0 to |c|
        invariant aig.Valid() && NodesOk(aig.nodes) && old(aig.nodes) <= aig.nodes
        invariant marked == seen + LitsOf(c[..k])
        invariant EdgeIn(e0, |aig.nodes|) && EdgeIn(interpolants[chain[i]], |aig.nodes|) && EdgeIn(e, |aig.nodes|)
        invariant k <= q ==> e == e0
        invariant k > q ==> VarOf(-piv[i]) in labels && ExtendedBy(aig.nodes, e, e0, interpolants[chain[i]], -piv[i])
      {
        var l := c[k];
        ClashExactly(chain, piv, i, k, q, seen);
        LitsOfSnoc(c, k);
        var clash := MarkLiteral(l);
        if clash {
          ghost var before := aig.nodes;
          assert l in LitsOf(c);
          e := Extend(e, -l, interpolants[chain[i]]);
          GraphNodes(aig);
          ExtendFacts(aig.nodes, e, e0, interpolants[chain[i]], -l);
        }
      }
      assert c[..|c|] == c;
    }

    lemma GraphNodes(g: Graph)
      requires g.Valid()
      ensures NodesOk(g.nodes)
    {
    }

    lemma PivotPosition(c: seq<int>, p: int) returns (q: nat)
      requires p in LitsOf(c)
      ensures q < |c| && c[q] == p
    {
      q :| 0 <= q < |c| && c[q] == p;
    }

    lemma LitsOfSnoc(c: seq<int>, k: nat)
      requires k < |c|
      ensures LitsOf(c[..k + 1]) == LitsOf(c[..k]) + {c[k]}
    {
      var u, w := c[..k + 1], c[..k];
      assert u[k] == c[k];
      forall i | 0 <= i < |w|
        ensures w[i] in LitsOf(u)
      {
        assert u[i] == w[i];
      }
      forall i | 0 <= i < |u|
        ensures u[i] in LitsOf(w) + {c[k]}
      {
        assert i < k ==> w[i] == u[i];
      }
    }

    /** The complement of literal k is marked exactly when it is the pivot. */
    lemma ClashExactly(chain: seq<nat>, piv: seq<int>, i: nat, k: nat, q: nat, seen: set<int>)
      requires LinearChain(clauses, chain, piv) && i < |chain| - 1 && seen == Seen(clauses, chain, i + 1)
      requires k < |clauses[chain[i]]| && q < |clauses[chain[i]]| && clauses[chain[i]][q] == piv[i]
      ensures var c := clauses[chain[i]];
              -c[k] in seen + LitsOf(c[..k]) <==> k == q
    {
      var c := clauses[chain[i]];
      assert StepOk(clauses, chain, piv, i);
      OnlyPivotClashes(clauses, chain, piv, i, c[k]);
      assert c[k] == piv[i] ==> k == q;
      forall j | 0 <= j < k
        ensures c[..k][j] != -c[k]
      {
      }
    }

    /** e combines e1 and e2 as the construction prescribes for pivot literal p. */
    ghost predicate ExtendedBy(ns: seq<Node>, e: nat, e1: nat, e2: nat, p: int)
      requires NodesOk(ns) && EdgeIn(e, |ns|) && EdgeIn(e1, |ns|) && EdgeIn(e2, |ns|) && VarOf(p) in labels
    {
      && (forall a: Assign :: Value(construction, Eval(ns, e, a)) ==
            Combined(labels[VarOf(p)] in SideA(construction), labels[VarOf(p)] in SideB(construction),
                     Value(construction, Eval(ns, e1, a)), Value(construction, Eval(ns, e2, a)), LitTrue(p, a)))
      && (forall v :: v in Vars(ns, e) ==>
            v in Vars(ns, e1) || v in Vars(ns, e2) || (v == VarOf(p) && labels[v] == Global))
    }

    lemma ExtendFacts(ns: seq<Node>, e: nat, e1: nat, e2: nat, p: int)
      requires NodesOk(ns) && EdgeIn(e, |ns|) && EdgeIn(e1, |ns|) && EdgeIn(e2, |ns|) && VarOf(p) in labels
      requires forall a: Assign ::
                 Value(construction, Eval(ns, e, a)) ==
                 Combined(labels[VarOf(p)] in SideA(construction), labels[VarOf(p)] in SideB(construction),
                          Value(construction, Eval(ns, e1, a)), Value(construction, Eval(ns, e2, a)), LitTrue(p, a))
      requires forall v ::
                 v in Vars(ns, e) ==>
                 v in Vars(ns, e1) || v in Vars(ns, e2) || (v == VarOf(p) && labels[v] == Global)
      ensures ExtendedBy(ns, e, e1, e2, p)
    {
    }

    /** The chain speaks about clauses that were not deleted, and its last resolvent is contained in c. */
    predicate Derives(chain: seq<nat>, piv: seq<int>, c: seq<int>)
      reads this`clauses
    {
      && LinearChain(clauses, chain, piv) && Labelled(labels, LitsOf(c))
      && Resolvent(clauses, chain, piv, 0) <= LitsOf(c)
    }

    ghost predicate Present(chain: seq<nat>)
      reads this`clauses, this`traced
    {
      |clauses| == |traced| && forall i :: 0 <= i < |chain| ==>
            chain[i] < |clauses| && clauses[chain[i]] == traced[chain[i]]
    }

    lemma PresentPartial(chain: seq<nat>, i: nat)
      requires Valid() && Present(chain) && i < |chain|
      ensures chain[i] < |clauses| && Labelled(labels, LitsOf(clauses[chain[i]]))
      ensures Partial(construction, labels, original, LitsOf(clauses[chain[i]]), aig.nodes, interpolants[chain[i]])
    {
      assert TracedOk(chain[i]);
    }

    /** The interpolant of the resolvent at position i is the step from that at i + 1. */
    lemma StepPartial(chain: seq<nat>, piv: seq<int>, i: nat, before: seq<Node>, ns: seq<Node>, e0: nat, e: nat)
      requires LinearChain(clauses, chain, piv) && i < |chain| - 1 && |clauses| == |interpolants|
      requires NodesOk(before) && NodesOk(ns) && before <= ns
      requires forall j :: 0 <= j < |chain| ==> Labelled(labels, LitsOf(clauses[chain[j]]))
      requires Labelled(labels, Resolvent(clauses, chain, piv, i + 1))
      requires Partial(construction, labels, original, Resolvent(clauses, chain, piv, i + 1), before, e0)
      requires Partial(construction, labels, original, LitsOf(clauses[chain[i]]), before, interpolants[chain[i]])
      requires EdgeIn(e, |ns|) && EdgeIn(e0, |ns|) && EdgeIn(interpolants[chain[i]], |ns|) && VarOf(-piv[i]) in labels
      requires ExtendedBy(ns, e, e0, interpolants[chain[i]], -piv[i])
      ensures Labelled(labels, Resolvent(clauses, chain, piv, i))
      ensures Partial(construction, labels, original, Resolvent(clauses, chain, piv, i), ns, e)
    {
      hide Eval, Vars, FalseOn, StepOk, Seen;
      var r, c := Resolvent(clauses, chain, piv, i + 1), LitsOf(clauses[chain[i]]);
      StepResolves(clauses, chain, piv, i);
      PartialGrows(construction, labels, original, r, before, ns, e0);
      PartialGrows(construction, labels, original, c, before, ns, interpolants[chain[i]]);
      ResolutionKeeps(construction, labels, original, ns, r, c, -piv[i], e0, interpolants[chain[i]], e);
      ResolventLabelled(labels, clauses, chain, piv, i);
    }

    /** add_derived_clause: the partial interpolant follows the resolution chain. */
    method AddDerivedClause(c: seq<int>, chain: seq<nat>, ghost piv: seq<int>)
      requires Valid() && Present(chain) && Derives(chain, piv, c)
      modifies this, aig
      ensures Valid() && original == old(original) && traced == old(traced) + [c] && clauses == old(clauses) + [c]
      ensures proof == old(proof) + [ByChain(chain, piv)]
    {
      hide Partial, Graph.Valid, ExtendedBy, LinearChain, Resolvent, Means, MeansFrom;
      ghost var before, n := aig.nodes, |chain|;
      GraphNodes(aig);
      ChainBounds(chain, piv);
      forall j | 0 <= j < |chain|
        ensures chain[j] < |clauses| && Labelled(labels, LitsOf(clauses[chain[j]]))
        ensures Partial(construction, labels, original, LitsOf(clauses[chain[j]]), aig.nodes, interpolants[chain[j]])
      {
        PresentPartial(chain, j);
      }
      ghost var more, id := proof + [ByChain(chain, piv)], |proof|;
      ChainFits(chain, piv);
      AllMeanMore(before, before, more);
      MarkClause(clauses[chain[|chain| - 1]]);
      LastResolvent(chain, piv);
      var e := interpolants[chain[|chain| - 1]];
      LastMeans(more, id, aig.nodes, e);
      var i: nat := |chain| - 1;
      while i > 0
        invariant i < |chain| && aig.Valid() && NodesOk(aig.nodes) && before <= aig.nodes
        invariant clauses == old(clauses) && interpolants == old(interpolants)
        invariant ChainIds(clauses, chain) && |piv| == |chain| - 1 && LinearChain(clauses, chain, piv)
        invariant marked == Seen(clauses, chain, i)
        invariant original == old(original) && traced == old(traced) && proof == old(proof)
        invariant MeansFrom(construction, labels, more, id, i, aig.nodes, e)
        invariant Labelled(labels, Resolvent(clauses, chain, piv, i))
        invariant Partial(construction, labels, original, Resolvent(clauses, chain, piv, i), aig.nodes, e)
        invariant forall j :: 0 <= j < |chain| ==>
                    Partial(construction, labels, original, LitsOf(clauses[chain[j]]), aig.nodes,
                            interpolants[chain[j]])
      {
        i := i - 1;
        ghost var ns, e0 := aig.nodes, e;
        PartialEdges(original, LitsOf(clauses[chain[i]]), aig.nodes, interpolants[chain[i]]);
        PartialEdges(original, Resolvent(clauses, chain, piv, i + 1), aig.nodes, e);
        e := ResolveWith(chain, piv, i, e);
        GraphNodes(aig);
        StepPartial(chain, piv, i, ns, aig.nodes, e0, e);
        AllMeanMore(before, ns, more);
        StepMeans(more, id, i, ns, aig.nodes, e0, e);
        forall j | 0 <= j < |chain|
          ensures Partial(construction, labels, original, LitsOf(clauses[chain[j]]), aig.nodes, interpolants[chain[j]])
        {
          PartialGrows(construction, labels, original, LitsOf(clauses[chain[j]]), ns, aig.nodes,
                       interpolants[chain[j]]);
        }
      }
      UnmarkAll();
      PartialLonger(construction, labels, original, Resolvent(clauses, chain, piv, 0), LitsOf(c), aig.nodes, e);
      forall j | 0 <= j < |traced|
        ensures Labelled(labels, LitsOf(traced[j]))
        ensures Partial(construction, labels, original, LitsOf(traced[j]), aig.nodes, interpolants[j])
      {
        assert old(TracedOk(j));
        TracedGrows(before, aig.nodes, j);
      }
      AllMeanMore(before, aig.nodes, more);
      ChainMeans(more, id, aig.nodes, e);
      clauses, interpolants := clauses + [c], interpolants + [e];
      traced, proof := traced + [c], more;
    }

    lemma ChainFits(chain: seq<nat>, piv: seq<int>)
      requires Valid() && Present(chain) && LinearChain(clauses, chain, piv)
      requires forall j :: 0 <= j < |chain| ==> chain[j] < |clauses| && Labelled(labels, LitsOf(clauses[chain[j]]))
      ensures ProofOk(labels, proof + [ByChain(chain, piv)])
    {
      hide Partial, Graph.Valid, Means, ProofOk;
      var step := ByChain(chain, piv);
      assert (proof + [step])[|proof|] == step;
      forall i | 0 <= i < |piv|
        ensures VarOf(piv[i]) in labels
      {
        StepResolves(clauses, chain, piv, i);
        assert Labelled(labels, LitsOf(clauses[chain[i]]));
      }
      ProofGrows(step);
    }

    lemma LastMeans(more: seq<Step>, id: nat, ns: seq<Node>, e: nat)
      requires NodesOk(ns) && ProofOk(labels, more) && id < |more| && more[id].ByChain? && |more[id].chain| > 0
      requires more[id].chain[|more[id].chain| - 1] < |more|
      requires Means(construction, labels, more, more[id].chain[|more[id].chain| - 1], ns, e)
      ensures MeansFrom(construction, labels, more, id, |more[id].chain| - 1, ns, e)
    {
      hide Eval;
    }

    lemma StepMeans(more: seq<Step>, id: nat, i: nat, ns0: seq<Node>, ns: seq<Node>, e0: nat, e: nat)
      requires NodesOk(ns0) && NodesOk(ns) && ns0 <= ns && ProofOk(labels, more) && id < |more| && more[id].ByChain?
      requires |more[id].piv| == |more[id].chain| - 1 && i < |more[id].piv| && id <= |interpolants|
      requires more[id].chain[i] < id && VarOf(-more[id].piv[i]) in labels
      requires MeansFrom(construction, labels, more, id, i + 1, ns0, e0)
      requires Means(construction, labels, more, more[id].chain[i], ns0, interpolants[more[id].chain[i]])
      requires EdgeIn(e, |ns|) && EdgeIn(e0, |ns|) && EdgeIn(interpolants[more[id].chain[i]], |ns|)
      requires ExtendedBy(ns, e, e0, interpolants[more[id].chain[i]], -more[id].piv[i])
      ensures MeansFrom(construction, labels, more, id, i, ns, e)
    {
      hide Eval, Vars, Says;
      GrowAll(ns0, ns, e0);
      GrowAll(ns0, ns, interpolants[more[id].chain[i]]);
      assert VarOf(-more[id].piv[i]) == VarOf(more[id].piv[i]);
    }

    lemma ChainMeans(more: seq<Step>, id: nat, ns: seq<Node>, e: nat)
      requires NodesOk(ns) && ProofOk(labels, more) && id < |more| && more[id].ByChain? && |more[id].chain| > 0
      requires MeansFrom(construction, labels, more, id, 0, ns, e)
      ensures Means(construction, labels, more, id, ns, e)
    {
      hide Eval;
    }

    lemma ChainBounds(chain: seq<nat>, piv: seq<int>)
      requires LinearChain(clauses, chain, piv)
      ensures ChainIds(clauses, chain) && |piv| == |chain| - 1
    {
    }

    lemma LastResolvent(chain: seq<nat>, piv: seq<int>)
      requires ChainIds(clauses, chain) && |piv| == |chain| - 1
      ensures Resolvent(clauses, chain, piv, |chain| - 1) == LitsOf(clauses[chain[|chain| - 1]])
      ensures Seen(clauses, chain, |chain| - 1) == LitsOf(clauses[chain[|chain| - 1]])
    {
    }

    lemma PartialEdges(orig: seq<Original>, c: set<int>, ns: seq<Node>, e: nat)
      requires NodesOk(ns) && Labelled(labels, c) && Partial(construction, labels, orig, c, ns, e)
      ensures EdgeIn(e, |ns|)
    {
    }

    /** Marking the literals of the conflicting clause. */
    method MarkClause(c: seq<int>)
      requires marked == {}
      modifies this`marked, this`markedHistory
      ensures marked == LitsOf(c)
    {
      assert c[..0] == [];
      for k := 0 to |c|
        invariant marked == LitsOf(c[..k])
      {
        LitsOfSnoc(c, k);
        var _ := MarkLiteral(c[k]);
      }
      assert c[..|c|] == c;
    }

    /** conclude_unsat on a global conflict: the empty clause's partial interpolant is an interpolant. */
    method ConcludeUnsat(id: nat) returns (e: nat)
      requires Valid() && id < |clauses| && clauses[id] == traced[id] == []
      ensures NodesOk(aig.nodes) && Interpolates(construction, labels, original, aig.nodes, e)
    {
      hide Partial, Graph.Valid, Interpolates;
      GraphNodes(aig);
      assert TracedOk(id);
      assert LitsOf(traced[id]) == {};
      e := interpolants[id];
      EmptyClauseInterpolates(construction, labels, original, aig.nodes, e);
    }

    /** create_craig_interpolant for one construction: clauses whose models are the assignments the interpolant
        accepts; the dual symmetric construction is negated here. */
    method CreateInterpolant(e: nat, first: int) returns (kind: CnfType, cnf: seq<seq<int>>, next: int)
      requires aig.Valid() && EdgeIn(e, |aig.nodes|) && VarsBelow(aig.nodes, first) && first > 0
      ensures NodesOk(aig.nodes) && next >= first
      ensures forall b: Assign :: SatCnf(cnf, b) ==> Value(construction, Eval(aig.nodes, e, b))
      ensures forall a: Assign :: Value(construction, Eval(aig.nodes, e, a)) ==> Extendable(a, cnf, first)
      ensures PartOk(Part(kind, cnf), Accepted(construction, aig.nodes, e), first, next)
    {
      hide SatCnf, Eval, Extendable, VarsBelow;
      GraphNodes(aig);
      kind, cnf, next := CreateCnf(aig.nodes, e, first);
      if construction == DualSymmetric {
        match kind {
          case Constant1 =>
            kind, cnf := Constant0, [[]];
            EmptyCnfs(first);
          case Constant0 =>
            kind, cnf := Constant1, [];
            EmptyCnfs(first);
          case Normal =>
            ghost var gates, l := cnf[..|cnf| - 1], cnf[|cnf| - 1][0];
            DefinesEncodes(aig.nodes, e, gates, l, first);
            cnf := cnf[|cnf| - 1 := [-cnf[|cnf| - 1][0]]];
            assert cnf == gates + [[-l]] && Gates(Part(Normal, cnf)) == gates;
        }
      }
    }

    lemma EmptyCnfs(first: int)
      ensures forall a: Assign :: Extendable(a, [], first) && !SatCnf([[]], a)
    {
      forall a: Assign
        ensures Extendable(a, [], first) && !SatCnf([[]], a)
      {
        EmptyCnf(a, first);
      }
    }
  }

  /** Over the same proof, the graph of the dual symmetric construction holds the negation of the symmetric one at every
      clause. */
  lemma DualNegates(s: CraigTracer, d: CraigTracer, id: nat)
    requires s.Valid() && d.Valid() && s.construction == Symmetric && d.construction == DualSymmetric
    requires s.labels == d.labels && s.proof == d.proof && id < |s.proof|
    ensures EdgeIn(s.interpolants[id], |s.aig.nodes|) && EdgeIn(d.interpolants[id], |d.aig.nodes|)
    ensures forall a: Assign :: Eval(d.aig.nodes, d.interpolants[id], a) == !Eval(s.aig.nodes, s.interpolants[id], a)
  {
    hide Eval, Partial, Says, ProofOk;
    assert Means(Symmetric, s.labels, s.proof, id, s.aig.nodes, s.interpolants[id]);
    assert Means(DualSymmetric, d.labels, d.proof, id, d.aig.nodes, d.interpolants[id]);
    forall a: Assign
      ensures Eval(d.aig.nodes, d.interpolants[id], a) == !Eval(s.aig.nodes, s.interpolants[id], a)
    {
      DualSaysSame(s.labels, s.proof, id, a);
    }
  }
}
