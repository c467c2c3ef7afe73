/** What the database and the literals of level 0 say together: at least what the input formula says. */
module Coverage {
  import opened PBCore
  import opened Trail
  import opened Watches
  import opened Engine
  import opened ClauseVisit
  import opened LemmaShortening
  import opened Database

  function RootLits(tr: seq<Elem>): set<int> {
    set i | 0 <= i < |tr| && tr[i].dl == 0 :: tr[i].lit
  }

  /** The initial constraints and clauses, all binary clauses and the literals of level 0 are true. */
  ghost predicate DbSat(d: Db, roots: set<int>, n: nat, a: Lits) {
    && (forall k :: 0 <= k < |d.pbs| && k !in d.learnedPB ==> Sat(d.pbs[k], a))
    && (forall k :: 0 <= k < |d.clauses| && k !in d.learnedClauses ==> Sat(ClausePB(d.clauses[k]), a))
    && (forall l, o :: 1 <= Var(l) <= n && l in d.gen && Bin(o) in d.gen[l] ==> Sat(ClausePB([l, o]), a))
    && (forall l :: l in roots ==> l in a)
  }

  ghost predicate DbCovers(d: Db, roots: set<int>, n: nat, F: iset<PB>) {
    forall a: Lits :: Total(a) && DbSat(d, roots, n, a) ==> Holds(F, a)
  }

  /** Whatever satisfies the initial constraints and the literals of level 0 satisfies F. */
  ghost predicate Covers(s: Solver, F: iset<PB>)
    reads s`constraintsPB, s`genWatchList, s`learnedPB, s`learnedClauses, s.store`clauses, s.model`modelStack
  {
    DbCovers(DbOf(s), RootLits(s.model.modelStack), s.model.numVars, F)
  }

  lemma ClausesOfSame(cs: seq<seq<int>>, ds: seq<seq<int>>, learned: set<nat>, a: Lits)
    requires SameClauses(cs, ds)
    requires forall k :: 0 <= k < |ds| && k !in learned ==> Sat(ClausePB(ds[k]), a)
    ensures forall k :: 0 <= k < |cs| && k !in learned ==> Sat(ClausePB(cs[k]), a)
  {
    forall k | 0 <= k < |cs| && k !in learned
      ensures Sat(ClausePB(cs[k]), a)
    {
      ClauseSat(cs[k], a);
      ClauseSat(ds[k], a);
      assert Sat(ClausePB(ds[k]), a);
    }
  }

  /** Propagation reorders clauses and adds literals of level 0. */
  lemma CoversPropagated(s: Solver, F: iset<PB>, d: Db, roots: set<int>)
    requires DbCovers(d, roots, s.model.numVars, F)
    requires DbOf(s) == d.(clauses := s.store.clauses)
    requires SameClauses(d.clauses, s.store.clauses) && roots <= RootLits(s.model.modelStack)
    ensures Covers(s, F)
  {
    forall a: Lits | Total(a) && DbSat(DbOf(s), RootLits(s.model.modelStack), s.model.numVars, a)
      ensures DbSat(d, roots, s.model.numVars, a)
    {
      ClausesOfSame(d.clauses, s.store.clauses, d.learnedClauses, a);
    }
  }

  lemma CoversGrown(s: Solver, F: iset<PB>, d: Db, roots: set<int>)
    requires DbCovers(d, roots, s.model.numVars, F)
    requires DatabaseGrew(s, d) && roots <= RootLits(s.model.modelStack)
    ensures Covers(s, F)
  {
    forall a: Lits | Total(a) && DbSat(DbOf(s), RootLits(s.model.modelStack), s.model.numVars, a)
      ensures DbSat(d, roots, s.model.numVars, a)
    {
    }
  }

  lemma RootsExtended(tr: seq<Elem>, tr': seq<Elem>)
    requires tr <= tr'
    ensures RootLits(tr) <= RootLits(tr')
  {
    forall i | 0 <= i < |tr| && tr[i].dl == 0
      ensures tr[i].lit in RootLits(tr')
    {
      assert tr'[i] == tr[i];
    }
  }

  /** A backjump keeps level 0. */
  lemma {:induction false} RootsJump(tr: seq<Elem>, d: nat)
    ensures RootLits(tr) == RootLits(LevelPrefix(tr, d))
  {
    if |tr| > 0 && tr[|tr| - 1].dl > d {
      RootsJump(tr[..|tr| - 1], d);
      var u := tr[..|tr| - 1];
      forall i | 0 <= i < |tr| && tr[i].dl == 0
        ensures tr[i].lit in RootLits(u)
      {
        assert u[i] == tr[i];
      }
      forall i | 0 <= i < |u| && u[i].dl == 0
        ensures u[i].lit in RootLits(tr)
      {
        assert u[i] == tr[i];
      }
    }
  }
}
