/** What unit propagation computes, without the order in which it computes it: the least set of literals that contains
    level 0 and the assumptions and is closed under what the constraints force.  On a propagated node the native engine
    shows exactly this set, so its answers depend on the assumptions alone, and they meet the contract of cube
    generation (assumeAndPropagate and backtrack, CubeConquerAPI.cpp; generate_cubes_rec, cubePB.cpp). */
module UnitClosure {
  import opened PBCore
  import opened Trail
  import opened Watches
  import opened Engine
  import opened Repair
  import opened Closure
  import opened ClauseVisit
  import opened PropagateLoop
  import opened LemmaShortening
  import opened Database
  import opened Roots
  import opened ConflictAnalysis
  import opened Coverage
  import opened Search
  import opened Lookahead
  import Cubes = CubeGeneration

  // ----- what a set of true literals forces -----

  predicate Negated(l: int, T: set<int>) {
    -l in T
  }

  /** The literals that are not false when those of T are true. */
  ghost function Open(T: set<int>): Lits {
    iset l: int | !Negated(l, T)
  }

  /** Without l the constraint is out of reach. */
  ghost predicate PBForces(c: PB, l: int, T: set<int>) {
    (exists i :: 0 <= i < |c.lhs| && c.lhs[i].lit == l) && Slack(c, Open(T) - iset{l}) < 0
  }

  ghost predicate ClauseForces(cl: seq<int>, l: int, T: set<int>) {
    l in cl && forall m :: m in cl && m != l ==> Negated(m, T)
  }

  predicate Binary(d: Db, n: nat, l: int, o: int) {
    1 <= Var(l) <= n && l in d.gen && Bin(o) in d.gen[l]
  }

  ghost predicate ClosedUnder(d: Db, n: nat, T: set<int>) {
    && (forall k, l :: 0 <= k < |d.pbs| && PBForces(d.pbs[k], l, T) ==> l in T)
    && (forall k, l :: 0 <= k < |d.clauses| && ClauseForces(d.clauses[k], l, T) ==> l in T)
    && (forall l, o :: Binary(d, n, l, o) && Negated(l, T) ==> o in T)
  }

  /** T makes both literals of a variable true, or falsifies something. */
  ghost predicate Clashes(d: Db, n: nat, T: set<int>) {
    || (exists l :: l != 0 && l in T && Negated(l, T))
    || (exists k :: 0 <= k < |d.pbs| && Slack(d.pbs[k], Open(T)) < 0)
    || (exists k :: 0 <= k < |d.clauses| && forall m :: m in d.clauses[k] ==> Negated(m, T))
    || (exists l, o :: Binary(d, n, l, o) && Negated(l, T) && Negated(o, T))
  }

  /** The database as it is stored: terms, clauses and binary clauses over variables up to n. */
  ghost predicate DbOk(d: Db, n: nat) {
    && (forall k :: 0 <= k < |d.pbs| ==> Stored(d.pbs[k], n))
    && (forall k :: 0 <= k < |d.clauses| ==> ClauseOk(d.clauses[k], 2, n))
    && (forall l, o :: Binary(d, n, l, o) ==> 1 <= Var(o) <= n)
  }

  lemma PBForcesMono(c: PB, l: int, S: set<int>, T: set<int>)
    requires Positive(c.lhs) && S <= T && PBForces(c, l, S)
    ensures PBForces(c, l, T)
  {
    WeightMono(c.lhs, Open(T) - iset{l}, Open(S) - iset{l});
  }

  lemma ClashesMono(d: Db, n: nat, S: set<int>, T: set<int>)
    requires DbOk(d, n) && S <= T && Clashes(d, n, S)
    ensures Clashes(d, n, T)
  {
    if k :| 0 <= k < |d.pbs| && Slack(d.pbs[k], Open(S)) < 0 {
      WeightMono(d.pbs[k].lhs, Open(T), Open(S));
      assert Slack(d.pbs[k], Open(T)) < 0;
    } else if k :| 0 <= k < |d.clauses| && forall m :: m in d.clauses[k] ==> Negated(m, S) {
      assert forall m :: m in d.clauses[k] ==> Negated(m, T);
    } else if l :| l != 0 && l in S && Negated(l, S) {
      assert l in T && Negated(l, T);
    } else {
      var l, o :| Binary(d, n, l, o) && Negated(l, S) && Negated(o, S);
      assert Negated(l, T) && Negated(o, T);
    }
  }

  // ----- the closure -----

  ghost predicate InEvery(d: Db, n: nat, base: set<int>, l: int) {
    forall S: set<int> :: base <= S && ClosedUnder(d, n, S) ==> l in S
  }

  predicate Known(l: int, n: nat) {
    1 <= Var(l) <= n
  }

  ghost function Range(n: nat, base: set<int>): set<int> {
    (set l: int | -(n as int) <= l <= n && Known(l, n)) + base
  }

  lemma InRange(n: nat, base: set<int>)
    ensures base <= Range(n, base) && forall l :: 1 <= Var(l) <= n ==> l in Range(n, base)
  {
    assert forall l :: 1 <= Var(l) <= n ==> Known(l, n);
  }

  ghost function LeastClosed(d: Db, n: nat, base: set<int>): set<int> {
    set l | l in Range(n, base) && InEvery(d, n, base, l)
  }

  lemma ClosureLeast(d: Db, n: nat, base: set<int>, S: set<int>)
    requires base <= S && ClosedUnder(d, n, S)
    ensures LeastClosed(d, n, base) <= S
  {
    hide ClosedUnder;
    forall l | l in LeastClosed(d, n, base)
      ensures l in S
    {
      assert InEvery(d, n, base, l);
    }
  }

  lemma ClosureIsClosed(d: Db, n: nat, base: set<int>)
    requires DbOk(d, n)
    ensures base <= LeastClosed(d, n, base) && ClosedUnder(d, n, LeastClosed(d, n, base))
  {
    var T := LeastClosed(d, n, base);
    forall l | l in base
      ensures l in T
    {
      assert InEvery(d, n, base, l);
    }
    forall k, l | 0 <= k < |d.pbs| && PBForces(d.pbs[k], l, T)
      ensures l in T
    {
      ForcedByPB(d, n, base, k, l);
    }
    forall k, l | 0 <= k < |d.clauses| && ClauseForces(d.clauses[k], l, T)
      ensures l in T
    {
      ForcedByClause(d, n, base, k, l);
    }
    forall l, o | Binary(d, n, l, o) && Negated(l, T)
      ensures o in T
    {
      ForcedByBinary(d, n, base, l, o);
    }
  }

  lemma ForcedByPB(d: Db, n: nat, base: set<int>, k: nat, l: int)
    requires DbOk(d, n) && k < |d.pbs| && PBForces(d.pbs[k], l, LeastClosed(d, n, base))
    ensures l in LeastClosed(d, n, base)
  {
    forall S: set<int> | base <= S && ClosedUnder(d, n, S)
      ensures l in S
    {
      ClosureLeast(d, n, base, S);
      PBForcesMono(d.pbs[k], l, LeastClosed(d, n, base), S);
    }
    InRange(n, base);
    assert Stored(d.pbs[k], n);
    assert InEvery(d, n, base, l);
  }

  lemma ForcedByClause(d: Db, n: nat, base: set<int>, k: nat, l: int)
    requires DbOk(d, n) && k < |d.clauses| && ClauseForces(d.clauses[k], l, LeastClosed(d, n, base))
    ensures l in LeastClosed(d, n, base)
  {
    forall S: set<int> | base <= S && ClosedUnder(d, n, S)
      ensures l in S
    {
      ClosureLeast(d, n, base, S);
      assert ClauseForces(d.clauses[k], l, S);
    }
    InRange(n, base);
    assert ClauseOk(d.clauses[k], 2, n);
    assert InEvery(d, n, base, l);
  }

  lemma ForcedByBinary(d: Db, n: nat, base: set<int>, l: int, o: int)
    requires DbOk(d, n) && Binary(d, n, l, o) && Negated(l, LeastClosed(d, n, base))
    ensures o in LeastClosed(d, n, base)
  {
    forall S: set<int> | base <= S && ClosedUnder(d, n, S)
      ensures o in S
    {
      ClosureLeast(d, n, base, S);
      assert Negated(l, S);
    }
    InRange(n, base);
    assert InEvery(d, n, base, o);
  }

  // ----- the answers it gives meet the contract of the splitter -----

  function Elements(path: seq<int>): set<int> {
    set i | 0 <= i < |path| :: path[i]
  }

  ghost function NodeAnswer(d: Db, n: nat, roots: set<int>, path: seq<int>): Cubes.Answer {
    var T := LeastClosed(d, n, roots + Elements(path));
    if Clashes(d, n, T) then Cubes.InConflict else Cubes.Assigned(T)
  }

  /** The configuration answers as unit propagation does. */
  ghost predicate Propagates(cfg: Cubes.Config, d: Db, n: nat, roots: set<int>) {
    && (forall path: seq<int> :: cfg.answer(path) == NodeAnswer(d, n, roots, path))
    && (forall i :: 0 <= i < |cfg.vars| ==> cfg.vars[i] > 0)
    && (forall v: int :: 1 <= v <= n ==> v in cfg.vars)
  }

  lemma LongerPath(d: Db, n: nat, roots: set<int>, path: seq<int>, l: int)
    requires DbOk(d, n)
    ensures var T, T' := LeastClosed(d, n, roots + Elements(path)), LeastClosed(d, n, roots + Elements(path + [l]));
            T <= T' && l in T'
  {
    var p := path + [l];
    assert forall i :: 0 <= i < |path| ==> p[i] == path[i];
    assert p[|path|] == l && l in Elements(p);
    ClosureIsClosed(d, n, roots + Elements(p));
    ClosureLeast(d, n, roots + Elements(path), LeastClosed(d, n, roots + Elements(p)));
  }

  /** The literals of a model, as far as they are in range. */
  ghost function ModelLits(a: Lits, R: set<int>): set<int> {
    set l | l in R && l in a
  }

  /** What F implies and a respects is closed and does not clash. */
  ghost predicate ModelOf(d: Db, n: nat, a: Lits) {
    && Total(a)
    && (forall k :: 0 <= k < |d.pbs| ==> Sat(d.pbs[k], a))
    && (forall k :: 0 <= k < |d.clauses| ==> Sat(ClausePB(d.clauses[k]), a))
    && (forall l, o :: Binary(d, n, l, o) ==> Sat(ClausePB([l, o]), a))
  }

  lemma ModelOpen(a: Lits, R: set<int>, s: seq<Term>)
    requires Total(a) && Positive(s)
    ensures forall i :: 0 <= i < |s| ==> (s[i].lit in a ==> s[i].lit in Open(ModelLits(a, R)))
  {
  }

  lemma ModelIsClosed(d: Db, n: nat, a: Lits, base: set<int>)
    requires DbOk(d, n) && ModelOf(d, n, a)
    ensures ClosedUnder(d, n, ModelLits(a, Range(n, base))) && !Clashes(d, n, ModelLits(a, Range(n, base)))
  {
    hide Slack, Stored, ClauseOk, Range;
    InRange(n, base);
    var T := ModelLits(a, Range(n, base));
    forall k, l | 0 <= k < |d.pbs|
      ensures PBForces(d.pbs[k], l, T) ==> l in T
    {
      ModelPB(d.pbs[k], n, a, Range(n, base), l);
    }
    forall k, l | 0 <= k < |d.clauses|
      ensures ClauseForces(d.clauses[k], l, T) ==> l in T
    {
      ModelClause(d.clauses[k], n, a, Range(n, base), l);
    }
    forall l, o | Binary(d, n, l, o) && Negated(l, T)
      ensures o in T && !Negated(o, T)
    {
      ClauseSat([l, o], a);
    }
    forall k | 0 <= k < |d.pbs|
      ensures Slack(d.pbs[k], Open(T)) >= 0
    {
      ModelPB(d.pbs[k], n, a, Range(n, base), 0);
    }
    forall k | 0 <= k < |d.clauses|
      ensures !forall m :: m in d.clauses[k] ==> Negated(m, T)
    {
      ModelClause(d.clauses[k], n, a, Range(n, base), 0);
    }
    assert forall l :: l != 0 && l in T ==> !Negated(l, T);
  }

  lemma ModelPB(c: PB, n: nat, a: Lits, R: set<int>, l: int)
    requires Stored(c, n) && Total(a) && Sat(c, a) && forall v :: 1 <= Var(v) <= n ==> v in R
    ensures PBForces(c, l, ModelLits(a, R)) ==> l in ModelLits(a, R)
    ensures Slack(c, Open(ModelLits(a, R))) >= 0
  {
    ModelOpen(a, R, c.lhs);
    WeightMono(c.lhs, a, Open(ModelLits(a, R)));
    if l !in a {
      WeightMono(c.lhs, a, Open(ModelLits(a, R)) - iset{l});
    }
  }

  lemma ModelClause(cl: seq<int>, n: nat, a: Lits, R: set<int>, l: int)
    requires ClauseOk(cl, 2, n) && Total(a) && Sat(ClausePB(cl), a) && forall v :: 1 <= Var(v) <= n ==> v in R
    ensures ClauseForces(cl, l, ModelLits(a, R)) ==> l in ModelLits(a, R)
    ensures exists m :: m in cl && !Negated(m, ModelLits(a, R))
  {
    ClauseSat(cl, a);
    var x :| x in cl && x in a;
    assert !Negated(x, ModelLits(a, R));
  }

  /** A conflict is right: a model of the formula on the path would be closed. */
  lemma ClosureRefutes(d: Db, n: nat, roots: set<int>, path: seq<int>, a: Lits)
    requires DbOk(d, n) && ModelOf(d, n, a) && (forall l :: l in roots ==> l in a) && Cubes.AllTrue(path, a)
    ensures NodeAnswer(d, n, roots, path).Assigned?
  {
    hide ClosedUnder, Clashes, ModelOf;
    var base := roots + Elements(path);
    var S := ModelLits(a, Range(n, base));
    ModelIsClosed(d, n, a, base);
    InRange(n, base);
    forall l | l in base
      ensures l in S
    {
      if l !in roots {
        var i :| 0 <= i < |path| && path[i] == l;
        assert path[i] in a;
      }
    }
    ClosureLeast(d, n, base, S);
    if Clashes(d, n, LeastClosed(d, n, base)) {
      ClashesMono(d, n, LeastClosed(d, n, base), S);
    }
  }

  /** The assignment of a set without contradictions. */
  ghost function AssignmentOf(T: set<int>): Lits {
    iset l: int | l in T || (!Negated(l, T) && l > 0)
  }

  /** With every variable assigned and no conflict the closure is a model. */
  lemma ClosureCompletes(d: Db, n: nat, roots: set<int>, T: set<int>)
    requires DbOk(d, n) && !Clashes(d, n, T) && roots <= T
    requires forall v: int :: 1 <= v <= n ==> v in T || Negated(v, T)
    ensures Total(AssignmentOf(T)) && DbSat(d, roots, n, AssignmentOf(T))
  {
    var a := AssignmentOf(T);
    assert forall l :: l != 0 && l in T ==> !Negated(l, T);
    forall l | 1 <= Var(l) <= n
      ensures l in a <==> l in Open(T)
    {
      assert Var(l) in T || Negated(Var(l), T);
    }
    forall k | 0 <= k < |d.pbs|
      ensures Sat(d.pbs[k], a)
    {
      assert Stored(d.pbs[k], n) && Slack(d.pbs[k], Open(T)) >= 0;
      WeightAgree(d.pbs[k].lhs, a, Open(T));
    }
    forall k | 0 <= k < |d.clauses|
      ensures Sat(ClausePB(d.clauses[k]), a)
    {
      var m :| m in d.clauses[k] && !Negated(m, T);
      assert ClauseOk(d.clauses[k], 2, n);
      ClauseSat(d.clauses[k], a);
    }
    forall l, o | 1 <= Var(l) <= n && l in d.gen && Bin(o) in d.gen[l]
      ensures Sat(ClausePB([l, o]), a)
    {
      assert Binary(d, n, l, o);
      ClauseSat([l, o], a);
      assert [l, o][0] == l && [l, o][1] == o;
    }
  }

  /** The native engine as a backend of cube generation: trustworthy on every path. */
  lemma NativeIsTrustworthy(s: Solver, F: iset<PB>, cfg: Cubes.Config)
    requires Sound(s) && Knows(s, F) && Covers(s, F)
    requires Propagates(cfg, DbOf(s), s.model.numVars, RootLits(s.model.modelStack))
    ensures Cubes.Trustworthy(cfg, F)
  {
    var d, n, roots := DbOf(s), s.model.numVars, RootLits(s.model.modelStack);
    DbIsOk(s);
    hide LeastClosed, Clashes, DbOk, Sound, Covers, Knows, NodeAnswer, Cubes.Extending, Cubes.Monotone, Cubes.Refutes,
         Cubes.Completes, RootLits;
    forall path: seq<int>, l: int
      ensures Cubes.Monotone(cfg, path, l)
    {
      PathMonotone(cfg, d, n, roots, path, l);
    }
    forall path: seq<int>
      ensures Cubes.Refutes(cfg, F, path)
      ensures Cubes.Completes(cfg, F, path)
    {
      PathRefutes(s, F, cfg, path);
      PathCompletes(s, F, cfg, path);
    }
  }

  lemma PathMonotone(cfg: Cubes.Config, d: Db, n: nat, roots: set<int>, path: seq<int>, l: int)
    requires DbOk(d, n) && Propagates(cfg, d, n, roots)
    ensures Cubes.Monotone(cfg, path, l)
  {
    hide LeastClosed, Clashes, DbOk;
    LongerPath(d, n, roots, path, l);
  }

  lemma PathRefutes(s: Solver, F: iset<PB>, cfg: Cubes.Config, path: seq<int>)
    requires DbOk(DbOf(s), s.model.numVars) && Knows(s, F)
    requires Propagates(cfg, DbOf(s), s.model.numVars, RootLits(s.model.modelStack))
    ensures Cubes.Refutes(cfg, F, path)
  {
    hide NodeAnswer, DbOk, Holds, Slack;
    var d, n, roots := DbOf(s), s.model.numVars, RootLits(s.model.modelStack);
    forall a: Lits | Cubes.Extending(F, path, a)
      ensures cfg.answer(path).Assigned?
    {
      assert ModelOf(d, n, a);
      forall i | 0 <= i < |s.model.modelStack| && s.model.modelStack[i].dl == 0
        ensures s.model.modelStack[i].lit in a
      {
        var l := s.model.modelStack[i].lit;
        assert Sat(ClausePB([l]), a);
        ClauseSat([l], a);
      }
      ClosureRefutes(d, n, roots, path, a);
    }
  }

  lemma PathCompletes(s: Solver, F: iset<PB>, cfg: Cubes.Config, path: seq<int>)
    requires DbOk(DbOf(s), s.model.numVars) && Covers(s, F)
    requires Propagates(cfg, DbOf(s), s.model.numVars, RootLits(s.model.modelStack))
    ensures Cubes.Completes(cfg, F, path)
  {
    hide Clashes, DbOk, Holds, LeastClosed;
    var d, n, roots := DbOf(s), s.model.numVars, RootLits(s.model.modelStack);
    var T := LeastClosed(d, n, roots + Elements(path));
    if cfg.answer(path).Assigned? && forall i :: 0 <= i < |cfg.vars| ==> !Cubes.IsUndef(T, cfg.vars[i]) {
      ClosureIsClosed(d, n, roots + Elements(path));
      forall v: int | 1 <= v <= n
        ensures v in T || Negated(v, T)
      {
        assert v in cfg.vars;
        var i :| 0 <= i < |cfg.vars| && cfg.vars[i] == v;
        assert !Cubes.IsUndef(T, cfg.vars[i]);
      }
      ClosureCompletes(d, n, roots, T);
      assert forall i :: 0 <= i < |path| ==> path[i] in Elements(path);
      assert Cubes.Extending(F, path, AssignmentOf(T));
    }
  }

  lemma DbIsOk(s: Solver)
    requires Sound(s)
    ensures DbOk(DbOf(s), s.model.numVars)
  {
    var d, n := DbOf(s), s.model.numVars;
    forall k | 0 <= k < |d.clauses|
      ensures ClauseOk(d.clauses[k], 2, n)
    {
      assert ClauseOk(d.clauses[k], s.store.watchIdx[k], n);
    }
  }

  // ----- the engine computes it -----

  lemma TrailIsOpen(tr: seq<Elem>)
    ensures Open(TrueLits(tr)) == NonFalse(tr)
    ensures forall l :: Negated(l, TrueLits(tr)) <==> l in FalseLits(tr)
  {
    forall l: int
      ensures Negated(l, TrueLits(tr)) <==> l in FalseLits(tr)
    {
      if l in FalseLits(tr) {
        var i :| 0 <= i < |tr| && -tr[i].lit == l;
        assert tr[i].lit == -l;
      }
      if Negated(l, TrueLits(tr)) {
        var i :| 0 <= i < |tr| && tr[i].lit == -l;
        assert -tr[i].lit == l;
      }
    }
  }

  /** Everything on the trail lies in every closed set around level 0 and the assumptions. */
  lemma {:induction false} TrailInside(d: Db, n: nat, tr: seq<Elem>, cleaned: nat, S: set<int>, m: nat)
    requires DbOk(d, n) && OneEach(tr) && ReasonsOk(tr, cleaned, d.pbs, d.clauses, d.gen) && m <= |tr|
    requires forall i :: 0 <= i < |tr| ==> 1 <= Var(tr[i].lit) <= n
    requires RootLits(tr) <= S && Elements(PathOf(tr)) <= S && ClosedUnder(d, n, S)
    ensures TrueLits(tr[..m]) <= S
  {
    if m > 0 {
      hide DbOk, ReasonsOk, ClosedUnder, RootLits, Elements, PathOf, OneEach;
      TrailInside(d, n, tr, cleaned, S, m - 1);
      var e, before := tr[m - 1], tr[..m - 1];
      ElementInside(d, n, tr, cleaned, S, m - 1);
      forall l | l in TrueLits(tr[..m])
        ensures l in S
      {
        var i :| 0 <= i < m && tr[..m][i].lit == l;
        assert i < m - 1 ==> before[i].lit == l;
      }
    }
  }

  lemma ElementInside(d: Db, n: nat, tr: seq<Elem>, cleaned: nat, S: set<int>, i: nat)
    requires DbOk(d, n) && OneEach(tr) && ReasonsOk(tr, cleaned, d.pbs, d.clauses, d.gen) && i < |tr|
    requires forall j :: 0 <= j < |tr| ==> 1 <= Var(tr[j].lit) <= n
    requires RootLits(tr) <= S && Elements(PathOf(tr)) <= S && ClosedUnder(d, n, S) && TrueLits(tr[..i]) <= S
    ensures tr[i].lit in S
  {
    hide Stored, ClauseOk, PBForces, ClauseForces;
    var e, before := tr[i], tr[..i];
    TrailIsOpen(before);
    if e.dl == 0 {
      assert e.lit in RootLits(tr);
    } else if e.reason == NoReason {
      AssumptionOnPath(tr, i);
      var k :| 0 <= k < |PathOf(tr)| && PathOf(tr)[k] == e.lit;
      assert e.lit in Elements(PathOf(tr));
    } else {
      assert ReasonOk(e, before, d.pbs, d.clauses, d.gen);
      ReasonInside(d, n, tr, S, i);
    }
  }

  lemma ReasonInside(d: Db, n: nat, tr: seq<Elem>, S: set<int>, i: nat)
    requires DbOk(d, n) && OneEach(tr) && i < |tr| && ReasonOk(tr[i], tr[..i], d.pbs, d.clauses, d.gen)
    requires forall j :: 0 <= j < |tr| ==> 1 <= Var(tr[j].lit) <= n
    requires tr[i].reason != NoReason && ClosedUnder(d, n, S) && TrueLits(tr[..i]) <= S
    ensures tr[i].lit in S
  {
    hide Stored, ClauseOk, PBForces, ClauseForces, TrueLits, FalseLits;
    var e, before := tr[i], tr[..i];
    TrailIsOpen(before);
    if e.reason.ByConstraint? {
      ReasonForces(d.pbs[e.reason.id], n, tr, i, S);
    } else if e.reason.ByClause? {
      assert forall x :: x in FalseLits(before) ==> Negated(x, S);
      ReasonUnit(d.clauses[e.reason.id], before, e.lit, S);
    } else {
      var o := e.reason.other;
      assert Negated(o, TrueLits(before)) && Negated(o, S);
      FalseKnown(tr, i, o, n);
      assert Binary(d, n, o, e.lit);
    }
  }

  lemma FalseKnown(tr: seq<Elem>, i: nat, o: int, n: nat)
    requires i <= |tr| && o in FalseLits(tr[..i]) && forall j :: 0 <= j < |tr| ==> 1 <= Var(tr[j].lit) <= n
    ensures 1 <= Var(o) <= n
  {
    var j :| 0 <= j < i && -tr[..i][j].lit == o;
  }

  lemma ReasonUnit(cl: seq<int>, before: seq<Elem>, l: int, S: set<int>)
    requires UnitUnder(cl, l, before) && forall x :: x in FalseLits(before) ==> Negated(x, S)
    ensures ClauseForces(cl, l, S)
  {
  }

  lemma ReasonForces(c: PB, n: nat, tr: seq<Elem>, i: nat, S: set<int>)
    requires Stored(c, n) && OneEach(tr) && i < |tr| && Forces(c, tr[i].lit, tr[..i]) && TrueLits(tr[..i]) <= S
    ensures PBForces(c, tr[i].lit, S)
  {
    var l, before := tr[i].lit, tr[..i];
    var j :| 0 <= j < |c.lhs| && c.lhs[j].lit == l && Slack(c, NonFalse(before)) < c.lhs[j].coef;
    TrailIsOpen(before);
    forall h | 0 <= h < |before|
      ensures -before[h].lit != l
    {
      assert Var(tr[h].lit) != Var(tr[i].lit);
    }
    WeightRemoveLit(c.lhs, j, NonFalse(before));
    WeightMono(c.lhs, Open(S) - iset{l}, NonFalse(before) - iset{l});
  }

  lemma NodeFacts(s: Solver)
    requires Ready(s)
    ensures s.model.Valid() && OneEach(s.model.modelStack) && DbOk(DbOf(s), s.model.numVars)
  {
    DbIsOk(s);
    SoundIsValid(s);
    OneEachTrail(s);
  }

  /** A propagated node without conflict is closed. */
  lemma NodeIsClosed(s: Solver)
    requires Ready(s) && s.model.AllPropagated()
    ensures ClosedUnder(DbOf(s), s.model.numVars, TrueLits(s.model.modelStack))
  {
    NodeFacts(s);
    var d, n, tr := DbOf(s), s.model.numVars, s.model.modelStack;
    var T := TrueLits(tr);
    TrailIsOpen(tr);
    hide Ready, Solver.Valid, Model.Valid, Stored, ClauseOk, TrueLits, FalseLits, Slack, PBForces, ClauseForces, Open;
    forall k, l | 0 <= k < |d.pbs| && PBForces(d.pbs[k], l, T)
      ensures l in T
    {
      NodePB(s, k, l);
    }
    forall k, l | 0 <= k < |d.clauses| && ClauseForces(d.clauses[k], l, T)
      ensures l in T
    {
      NodeClause(s, k, l);
    }
    forall l, o | Binary(d, n, l, o) && Negated(l, T)
      ensures o in T
    {
      BinsPropagated(s, l, o);
    }
  }

  /** And clashes with nothing. */
  lemma NodeDoesNotClash(s: Solver)
    requires Ready(s) && s.model.AllPropagated()
    ensures !Clashes(DbOf(s), s.model.numVars, TrueLits(s.model.modelStack))
  {
    NodeFacts(s);
    var d, n, tr := DbOf(s), s.model.numVars, s.model.modelStack;
    var T := TrueLits(tr);
    TrailIsOpen(tr);
    hide Ready, Solver.Valid, Model.Valid, Stored, ClauseOk, TrueLits, FalseLits, Slack, PBForces, ClauseForces, Open;
    forall k | 0 <= k < |d.pbs|
      ensures Slack(d.pbs[k], Open(T)) >= 0
    {
      NodePB(s, k, 0);
    }
    forall k | 0 <= k < |d.clauses|
      ensures !forall m :: m in d.clauses[k] ==> Negated(m, T)
    {
      NodeClause(s, k, 0);
    }
    forall l, o | Binary(d, n, l, o) && Negated(l, T)
      ensures !Negated(o, T)
    {
      BinsPropagated(s, l, o);
      NeverBoth(tr, o);
    }
    forall l | l in T
      ensures !Negated(l, T)
    {
      NeverBoth(tr, l);
    }
  }

  lemma OneEachTrail(s: Solver)
    requires s.model.Valid()
    ensures OneEach(s.model.modelStack)
    ensures forall i :: 0 <= i < |s.model.modelStack| ==> 1 <= Var(s.model.modelStack[i].lit) <= s.model.numVars
  {
  }

  lemma NeverBoth(tr: seq<Elem>, l: int)
    requires OneEach(tr) && l in TrueLits(tr)
    ensures l != 0 && !Negated(l, TrueLits(tr))
  {
    var i :| 0 <= i < |tr| && tr[i].lit == l;
    forall j | 0 <= j < |tr|
      ensures tr[j].lit != -l
    {
      assert i == j || Var(tr[i].lit) != Var(tr[j].lit);
    }
  }

  lemma NodePB(s: Solver, k: nat, l: int)
    requires Ready(s) && s.model.AllPropagated() && k < |s.constraintsPB| && Stored(s.constraintsPB[k], s.model.numVars)
    requires OneEach(s.model.modelStack)
    ensures PBForces(s.constraintsPB[k], l, TrueLits(s.model.modelStack)) ==> l in TrueLits(s.model.modelStack)
    ensures Slack(s.constraintsPB[k], Open(TrueLits(s.model.modelStack))) >= 0
  {
    hide Ready;
    var c, tr := s.constraintsPB[k], s.model.modelStack;
    var N := NonFalse(tr);
    TrailIsOpen(tr);
    PBsPropagated(s, k, 0);
    assert l !in N ==> N - iset{l} == N;
    if PBForces(c, l, TrueLits(tr)) {
      var i :| 0 <= i < |c.lhs| && c.lhs[i].lit == l;
      PBsPropagated(s, k, i);
      WeightRemoveLit(c.lhs, i, N);
    }
  }

  lemma NodeClause(s: Solver, k: nat, l: int)
    requires Ready(s) && s.model.AllPropagated() && k < |s.store.clauses| && OneEach(s.model.modelStack)
    requires ClauseOk(s.store.clauses[k], 2, s.model.numVars)
    ensures ClauseForces(s.store.clauses[k], l, TrueLits(s.model.modelStack)) ==> l in TrueLits(s.model.modelStack)
    ensures exists m :: m in s.store.clauses[k] && !Negated(m, TrueLits(s.model.modelStack))
  {
    hide Ready;
    var cl, tr := s.store.clauses[k], s.model.modelStack;
    var T := TrueLits(tr);
    TrailIsOpen(tr);
    ClausesPropagated(s, k);
    if x :| x in cl && x in T {
      NeverBoth(tr, x);
    } else {
      assert cl[0] in cl && cl[1] in cl && !Negated(cl[0], T) && !Negated(cl[1], T) && cl[0] != cl[1];
    }
  }

  /** At a node, in conflict or propagated, the engine shows what the assumptions determine. */
  lemma AnswerIsDetermined(s: Solver)
    requires Sound(s)
    requires if s.conflict == NoConflict then Ready(s) && s.model.AllPropagated() else ConflictIsReal(s)
    ensures Answer(s)
         == NodeAnswer(DbOf(s), s.model.numVars, RootLits(s.model.modelStack), PathOf(s.model.modelStack))
  {
    var d, n, tr := DbOf(s), s.model.numVars, s.model.modelStack;
    var T, base := TrueLits(tr), RootLits(tr) + Elements(PathOf(tr));
    hide *;
    DbIsOk(s);
    TrailInClosure(s);
    if s.conflict == NoConflict {
      NodeIsClosed(s);
      NodeDoesNotClash(s);
      BaseOnTrail(tr);
      ClosureLeast(d, n, base, T);
      AnswerOfClosed(s, LeastClosed(d, n, base));
    } else {
      ConflictClashes(s);
      ClashesMono(d, n, T, LeastClosed(d, n, base));
      AnswerOfConflict(s);
    }
  }

  lemma AnswerOfClosed(s: Solver, T: set<int>)
    requires s.conflict == NoConflict
    requires T == LeastClosed(DbOf(s), s.model.numVars, RootLits(s.model.modelStack)
                              + Elements(PathOf(s.model.modelStack)))
    requires TrueLits(s.model.modelStack) <= T <= TrueLits(s.model.modelStack)
    requires !Clashes(DbOf(s), s.model.numVars, TrueLits(s.model.modelStack))
    ensures Answer(s)
         == NodeAnswer(DbOf(s), s.model.numVars, RootLits(s.model.modelStack), PathOf(s.model.modelStack))
  {
    hide Clashes, LeastClosed;
    assert T == TrueLits(s.model.modelStack);
  }

  lemma AnswerOfConflict(s: Solver)
    requires s.conflict != NoConflict
    requires var base := RootLits(s.model.modelStack) + Elements(PathOf(s.model.modelStack));
             Clashes(DbOf(s), s.model.numVars, LeastClosed(DbOf(s), s.model.numVars, base))
    ensures Answer(s)
         == NodeAnswer(DbOf(s), s.model.numVars, RootLits(s.model.modelStack), PathOf(s.model.modelStack))
  {
    hide Clashes, LeastClosed;
  }

  lemma TrailInClosure(s: Solver)
    requires Sound(s)
    ensures var base := RootLits(s.model.modelStack) + Elements(PathOf(s.model.modelStack));
            TrueLits(s.model.modelStack) <= LeastClosed(DbOf(s), s.model.numVars, base)
  {
    var d, n, tr := DbOf(s), s.model.numVars, s.model.modelStack;
    var base := RootLits(tr) + Elements(PathOf(tr));
    DbIsOk(s);
    SoundIsValid(s);
    OneEachTrail(s);
    ReasonsOfSound(s);
    hide Sound, Solver.Valid, Model.Valid, DbOk, ClosedUnder, LeastClosed, ReasonsOk, PathOf;
    ClosureIsClosed(d, n, base);
    TrailInside(d, n, tr, s.cleaned, LeastClosed(d, n, base), |tr|);
    assert tr[..|tr|] == tr;
  }

  lemma ReasonsOfSound(s: Solver)
    requires Sound(s)
    ensures ReasonsOk(s.model.modelStack, s.cleaned, s.constraintsPB, s.store.clauses, s.genWatchList)
  {
  }

  lemma {:induction false} BaseOnTrail(tr: seq<Elem>)
    ensures RootLits(tr) + Elements(PathOf(tr)) <= TrueLits(tr)
  {
    if |tr| > 0 {
      var u := tr[..|tr| - 1];
      BaseOnTrail(u);
      PrefixTrueLits(u, tr);
      forall l | l in Elements(PathOf(tr))
        ensures l in TrueLits(tr)
      {
        var i :| 0 <= i < |PathOf(tr)| && PathOf(tr)[i] == l;
        assert tr[|tr| - 1].lit in TrueLits(tr);
        if i < |PathOf(u)| {
          assert PathOf(u)[i] == l && l in Elements(PathOf(u));
        }
      }
    }
  }

  lemma ConflictClashes(s: Solver)
    requires Sound(s) && ConflictIsReal(s)
    ensures Clashes(DbOf(s), s.model.numVars, TrueLits(s.model.modelStack))
  {
    hide Sound, Slack;
    var d, n, tr := DbOf(s), s.model.numVars, s.model.modelStack;
    TrailIsOpen(tr);
    match s.conflict
    case PBConflict(k) => assert Slack(d.pbs[k], Open(TrueLits(tr))) < 0;
    case ClauseConflict(k) => assert forall m :: m in d.clauses[k] ==> Negated(m, TrueLits(tr));
    case BinConflict(l1, l2) => assert Binary(d, n, l1, l2);
  }

  // ----- the database only reorders its clauses -----

  lemma ReorderClosed(d: Db, e: Db, n: nat, T: set<int>)
    requires e == d.(clauses := e.clauses) && SameClauses(d.clauses, e.clauses)
    ensures ClosedUnder(d, n, T) ==> ClosedUnder(e, n, T)
    ensures Clashes(d, n, T) ==> Clashes(e, n, T)
  {
    hide PBForces, Slack;
    forall l, o | Binary(e, n, l, o)
      ensures Binary(d, n, l, o)
    {
    }
    if ClosedUnder(d, n, T) {
      forall k, l | 0 <= k < |e.clauses| && ClauseForces(e.clauses[k], l, T)
        ensures l in T
      {
        assert ClauseForces(d.clauses[k], l, T);
      }
      forall l, o | Binary(e, n, l, o) && Negated(l, T)
        ensures o in T
      {
        assert Binary(d, n, l, o);
      }
    }
    if k :| 0 <= k < |d.clauses| && forall m :: m in d.clauses[k] ==> Negated(m, T) {
      assert forall m :: m in e.clauses[k] ==> Negated(m, T);
    } else if l, o :| Binary(d, n, l, o) && Negated(l, T) && Negated(o, T) {
      assert Binary(e, n, l, o);
    }
  }

  /** So the answers on all paths stay the same. */
  lemma ReorderAnswers(d: Db, e: Db, n: nat, roots: set<int>, path: seq<int>)
    requires e == d.(clauses := e.clauses) && SameClauses(d.clauses, e.clauses)
    ensures NodeAnswer(d, n, roots, path) == NodeAnswer(e, n, roots, path)
  {
    hide ClosedUnder, Clashes;
    var base := roots + Elements(path);
    forall l: int
      ensures InEvery(d, n, base, l) <==> InEvery(e, n, base, l)
    {
      forall T: set<int>
        ensures ClosedUnder(d, n, T) <==> ClosedUnder(e, n, T)
      {
        ReorderClosed(d, e, n, T);
        ReorderClosed(e, d, n, T);
      }
    }
    assert LeastClosed(d, n, base) == LeastClosed(e, n, base);
    ReorderClosed(d, e, n, LeastClosed(d, n, base));
    ReorderClosed(e, d, n, LeastClosed(d, n, base));
  }

  // ----- the calls, seen from the configuration -----

  /** The engine at a node where it answers as the configuration does. */
  ghost predicate AtNode(s: Solver, F: iset<PB>, cfg: Cubes.Config)
    reads s, s.model, s.store
  {
    && Ready(s) && s.model.AllPropagated() && Knows(s, F) && Covers(s, F)
    && Propagates(cfg, DbOf(s), s.model.numVars, RootLits(s.model.modelStack))
  }

  lemma NodeAnswers(s: Solver, F: iset<PB>, cfg: Cubes.Config)
    requires AtNode(s, F, cfg)
    ensures cfg.answer(PathOf(s.model.modelStack)) == Cubes.Assigned(TrueLits(s.model.modelStack))
  {
    hide Knows, Covers, Sound, NodeAnswer, PathOf, TrueLits;
    AnswerIsDetermined(s);
  }

  lemma StillPropagates(cfg: Cubes.Config, d: Db, e: Db, n: nat, roots: set<int>)
    requires Propagates(cfg, d, n, roots) && e == d.(clauses := e.clauses) && SameClauses(d.clauses, e.clauses)
    ensures Propagates(cfg, e, n, roots)
  {
    hide NodeAnswer, SameClauses;
    forall path: seq<int>
      ensures cfg.answer(path) == NodeAnswer(e, n, roots, path)
    {
      ReorderAnswers(d, e, n, roots, path);
    }
  }

  /** What the splitter expects of assumeAndPropagate: it succeeds exactly when the configuration says so on the longer
      path, and then the engine is at that node. */
  method Assume(s: Solver, lit: int, ghost F: iset<PB>, ghost cfg: Cubes.Config) returns (ok: bool)
    requires AtNode(s, F, cfg) && s.model.HasVar(lit) && s.model.IsUndefLit(lit)
    modifies s`maxWIdx, s`stamp, s`sumOfWatches, s`conflict, s.model, s.store
    ensures PathOf(s.model.modelStack) == PathOf(old(s.model.modelStack)) + [lit]
    ensures ok <==> cfg.answer(PathOf(s.model.modelStack)).Assigned?
    ensures ok ==> AtNode(s, F, cfg)
    ensures Sound(s) && Knows(s, F) && Covers(s, F)
    ensures Propagates(cfg, DbOf(s), s.model.numVars, RootLits(s.model.modelStack))
    ensures Extends(old(s.model.modelStack) + [Elem(lit, old(s.model.decisionLevel) + 1, NoReason)], s.model.modelStack)
  {
    hide Sound, Solver.Valid, Model.Valid, PathOf, Knows, Covers, Falsified, TrueLits, RootLits, Ready, Extends,
         SameClauses;
    hide NodeAnswer, Propagates;
    SoundOf(s);
    ghost var d, roots := DbOf(s), RootLits(s.model.modelStack);
    ok := AssumeAndPropagate(s, lit, F);
    StillPropagates(cfg, d, DbOf(s), s.model.numVars, roots);
    AnswerIsDetermined(s);
    PropagatesAt(cfg, DbOf(s), s.model.numVars, roots, PathOf(s.model.modelStack));
  }

  lemma SoundOf(s: Solver)
    requires Ready(s)
    ensures Sound(s) && s.model.Valid()
  {
  }

  lemma PropagatesAt(cfg: Cubes.Config, d: Db, n: nat, roots: set<int>, path: seq<int>)
    requires Propagates(cfg, d, n, roots)
    ensures cfg.answer(path) == NodeAnswer(d, n, roots, path)
  {
  }

  /** And of an assumption followed by backtrack(1): the same node again, with the same answers everywhere. */
  method Probe(s: Solver, lit: int, ghost F: iset<PB>, ghost cfg: Cubes.Config) returns (ok: bool)
    requires AtNode(s, F, cfg) && s.model.HasVar(lit) && s.model.IsUndefLit(lit)
    modifies s`maxWIdx, s`stamp, s`sumOfWatches, s`numOfBackjump, s`conflict, s.model, s.store
    ensures AtNode(s, F, cfg) && s.model.modelStack == old(s.model.modelStack)
    ensures ok <==> cfg.answer(PathOf(s.model.modelStack) + [lit]).Assigned?
  {
    hide Sound, Solver.Valid, Solver.Closed, Model.Valid, PathOf, Knows, Covers, LevelPrefix, Ready, Extends,
         Propagates, RootLits;
    ghost var tr := s.model.modelStack;
    ReadyLevel(s);
    ghost var tr1 := tr + [Elem(lit, LevelOf(tr) + 1, NoReason)];
    ok := Assume(s, lit, F, cfg);
    SameLevels(tr1, s.model.modelStack);
    assert LevelOf(tr1) == LevelOf(tr) + 1;
    JumpRestores(tr1, s.model.modelStack, LevelOf(tr));
    PopDecision(tr, tr1);
    RootsJump(s.model.modelStack, LevelOf(tr));
    Backtrack(s, 1, F);
  }

  /** So the cubes that any number of native workers generate from a propagated level 0 cover every solution. */
  lemma NativeWorkersCover(s: Solver, F: iset<PB>, cfg: Cubes.Config, workers: nat, a: Lits) returns (worker: nat)
    requires AtNode(s, F, cfg) && PathOf(s.model.modelStack) == [] && workers >= 1 && Total(a) && Holds(F, a)
    ensures cfg.answer([]).Assigned? && Cubes.Trustworthy(cfg, F)
    ensures worker < workers && Cubes.CoveredBy(cfg, [], [], 1000.0, worker, workers, a)
  {
    hide Sound, Knows, Covers, PathOf, Holds, Total, Propagates, Cubes.Trustworthy;
    NodeAnswers(s, F, cfg);
    SoundOf(s);
    NativeIsTrustworthy(s, F, cfg);
    OnEmptyPath(F, a);
    worker := Cubes.WorkersCover(cfg, F, [], [], 1000.0, workers, a);
  }

  lemma OnEmptyPath(F: iset<PB>, a: Lits)
    requires Total(a) && Holds(F, a)
    ensures Cubes.OnPath([], []) && Cubes.Extending(F, [], a)
  {
  }
}
