/** Database cleanup at level 0 (doCleanup, Cleanup.cpp): satisfied constraints, bad lemmas and old objective
    constraints go, the rest is cleaned, classified and entered into a fresh database. */
module Cleanup {
  import opened Arith
  import opened PBCore
  import opened Trail
  import opened Watches
  import opened Engine
  import opened Repair
  import opened BackjumpLevel
  import opened Closure
  import opened PropagateLoop
  import opened LemmaShortening
  import opened Database
  import opened ClauseLearning
  import opened Roots
  import opened Units
  import opened ConflictAnalysis
  import opened Coverage
  import opened Cleaning

  // ----- the temporary lists -----

  datatype Temp = Temp(pbs: seq<PB>, clauses: seq<seq<int>>, bins: seq<(int, int)>,
                       learnedPB: set<nat>, learnedClauses: set<nat>)

  function Add(t: Temp, k: Kept, learned: bool): Temp {
    match k
    case KeptPB(c) =>
      t.(pbs := t.pbs + [c], learnedPB := if learned then t.learnedPB + {|t.pbs|} else t.learnedPB)
    case KeptClause(lits) =>
      t.(clauses := t.clauses + [lits],
         learnedClauses := if learned then t.learnedClauses + {|t.clauses|} else t.learnedClauses)
    case KeptBin(l1, l2) => t.(bins := t.bins + [(l1, l2)])
  }

  ghost predicate TempOk(t: Temp, tr: seq<Elem>, n: nat) {
    && (forall i :: 0 <= i < |t.pbs| ==> KeptOk(KeptPB(t.pbs[i]), tr, n))
    && (forall i :: 0 <= i < |t.clauses| ==> KeptOk(KeptClause(t.clauses[i]), tr, n))
    && (forall i :: 0 <= i < |t.bins| ==> KeptOk(KeptBin(t.bins[i].0, t.bins[i].1), tr, n))
    && (forall k :: k in t.learnedPB ==> k < |t.pbs|)
    && (forall k :: k in t.learnedClauses ==> k < |t.clauses|)
  }

  ghost predicate TempSat(t: Temp, a: Lits) {
    && (forall k :: 0 <= k < |t.pbs| && k !in t.learnedPB ==> Sat(t.pbs[k], a))
    && (forall k :: 0 <= k < |t.clauses| && k !in t.learnedClauses ==> Sat(ClausePB(t.clauses[k]), a))
    && (forall i :: 0 <= i < |t.bins| ==> Sat(ClausePB([t.bins[i].0, t.bins[i].1]), a))
  }

  ghost predicate TempImplied(t: Temp, F: iset<PB>) {
    && (forall k :: 0 <= k < |t.pbs| ==> Implied(F, t.pbs[k]))
    && (forall k :: 0 <= k < |t.clauses| ==> Implied(F, ClausePB(t.clauses[k])))
    && (forall i :: 0 <= i < |t.bins| ==> Implied(F, ClausePB([t.bins[i].0, t.bins[i].1])))
  }

  /** t says at least what u says. */
  ghost predicate Stronger(t: Temp, u: Temp) {
    forall a: Lits :: TempSat(t, a) ==> TempSat(u, a)
  }

  /** With the literals of level 0, the lists say at least c. */
  ghost predicate Covered(t: Temp, c: PB, tr: seq<Elem>) {
    forall a: Lits :: RootAgree(tr, a) && TempSat(t, a) ==> Sat(c, a)
  }

  lemma AddFits(t: Temp, k: Kept, learned: bool, tr: seq<Elem>, n: nat)
    requires TempOk(t, tr, n) && KeptOk(k, tr, n)
    ensures TempOk(Add(t, k, learned), tr, n)
  {
    hide KeptOk;
  }

  lemma AddStronger(t: Temp, k: Kept, learned: bool, tr: seq<Elem>, n: nat)
    requires TempOk(t, tr, n)
    ensures Stronger(Add(t, k, learned), t)
  {
    hide KeptOk, Sat, ClausePB;
    var u := Add(t, k, learned);
    forall a: Lits | TempSat(u, a)
      ensures TempSat(t, a)
    {
      assert forall i :: 0 <= i < |t.pbs| ==> u.pbs[i] == t.pbs[i];
      assert forall i :: 0 <= i < |t.clauses| ==> u.clauses[i] == t.clauses[i];
      assert forall i :: 0 <= i < |t.bins| ==> u.bins[i] == t.bins[i];
    }
  }

  lemma AddCovers(t: Temp, k: Kept, c: PB, tr: seq<Elem>, n: nat)
    requires TempOk(t, tr, n) && SameUnder(k, c, tr)
    ensures Covered(Add(t, k, false), c, tr)
  {
    hide KeptOk, Sat, ClausePB;
    var u := Add(t, k, false);
    forall a: Lits | RootAgree(tr, a) && TempSat(u, a)
      ensures Sat(c, a)
    {
      match k
      case KeptPB(_) => assert u.pbs[|t.pbs|] == Meaning(k);
      case KeptClause(_) => assert ClausePB(u.clauses[|t.clauses|]) == Meaning(k);
      case KeptBin(l1, l2) => assert u.bins[|t.bins|] == (l1, l2);
    }
  }

  lemma AddImplied(t: Temp, k: Kept, learned: bool, c: PB, tr: seq<Elem>, F: iset<PB>)
    requires TempImplied(t, F) && SameUnder(k, c, tr) && Implied(F, c) && RootsImplied(tr, F) && OneEach(tr)
    ensures TempImplied(Add(t, k, learned), F)
  {
    MeaningImplied(k, c, tr, F);
    hide Implied;
  }

  lemma MeaningImplied(k: Kept, c: PB, tr: seq<Elem>, F: iset<PB>)
    requires SameUnder(k, c, tr) && Implied(F, c) && RootsImplied(tr, F) && OneEach(tr)
    ensures Implied(F, Meaning(k))
  {
    hide Meaning, Sat;
    forall a: Lits | Total(a) && Holds(F, a)
      ensures Sat(Meaning(k), a)
    {
      ModelsAgree(tr, F, a);
      assert Sat(c, a);
    }
  }

  lemma CoveredMore(t: Temp, u: Temp, c: PB, tr: seq<Elem>)
    requires Covered(u, c, tr) && Stronger(t, u)
    ensures Covered(t, c, tr)
  {
  }

  lemma StrongerTrans(t: Temp, u: Temp, w: Temp)
    requires Stronger(t, u) && Stronger(u, w)
    ensures Stronger(t, w)
  {
  }

  /** The same constraint, untouched. */
  lemma Untouched(c: PB, tr: seq<Elem>)
    ensures SameUnder(KeptPB(c), c, tr)
  {
  }

  // ----- marking -----

  /** The lists hold what became of a constraint, as a lemma exactly when it was one. */
  ghost predicate InLists(t: Temp, k: Kept, learned: bool) {
    match k
    case KeptPB(c) => exists i :: 0 <= i < |t.pbs| && t.pbs[i] == c && (i in t.learnedPB <==> learned)
    case KeptClause(lits) =>
      exists i :: 0 <= i < |t.clauses| && t.clauses[i] == lits && (i in t.learnedClauses <==> learned)
    case KeptBin(l1, l2) => (l1, l2) in t.bins
  }

  /** The constraint is in the lists, stripped of level 0 and classified. */
  ghost predicate Entered(t: Temp, c: PB, learned: bool, tr: seq<Elem>, n: nat) {
    exists k: Kept :: KeptOk(k, tr, n) && SameUnder(k, c, tr) && InLists(t, k, learned)
  }

  lemma AddEnters(t: Temp, k: Kept, c: PB, learned: bool, tr: seq<Elem>, n: nat)
    requires TempOk(t, tr, n) && KeptOk(k, tr, n) && SameUnder(k, c, tr)
    ensures Entered(Add(t, k, learned), c, learned, tr, n)
  {
    hide KeptOk, SameUnder;
    var u := Add(t, k, learned);
    match k
    case KeptPB(p) => assert u.pbs[|t.pbs|] == p;
    case KeptClause(lits) => assert u.clauses[|t.clauses|] == lits;
    case KeptBin(l1, l2) => assert u.bins[|t.bins|] == (l1, l2);
  }

  /** What was in the lists is still there. */
  ghost predicate ListsGrew(t: Temp, u: Temp) {
    forall k: Kept, learned: bool :: InLists(t, k, learned) ==> InLists(u, k, learned)
  }

  lemma AddGrows(t: Temp, k: Kept, learned: bool, tr: seq<Elem>, n: nat)
    requires TempOk(t, tr, n)
    ensures ListsGrew(t, Add(t, k, learned))
  {
    hide KeptOk;
    var u := Add(t, k, learned);
    forall m: Kept, l: bool | InLists(t, m, l)
      ensures InLists(u, m, l)
    {
      match m
      case KeptPB(c) =>
        var i :| 0 <= i < |t.pbs| && t.pbs[i] == c && (i in t.learnedPB <==> l);
        assert u.pbs[i] == c;
      case KeptClause(lits) =>
        var i :| 0 <= i < |t.clauses| && t.clauses[i] == lits && (i in t.learnedClauses <==> l);
        assert u.clauses[i] == lits;
      case KeptBin(_, _) =>
    }
  }

  lemma EnteredMore(t: Temp, u: Temp, c: PB, learned: bool, tr: seq<Elem>, n: nat)
    requires Entered(t, c, learned, tr, n) && ListsGrew(t, u)
    ensures Entered(u, c, learned, tr, n)
  {
  }

  lemma GrewTwice(t: Temp, u: Temp, w: Temp)
    requires ListsGrew(t, u) && ListsGrew(u, w)
    ensures ListsGrew(t, w)
  {
    hide InLists;
  }

  /** At level 0, without a conflict, everything propagated. */
  ghost predicate Rooted(s: Solver)
    reads s`constraintsPB, s`maxWIdx, s`stamp, s`sumOfWatches, s`occurLists, s`genWatchList, s`numOfBackjump, s`cleaned,
          s`conflict, s.model, s.store
  {
    Ready(s) && s.model.AllPropagated() && AtRoot(s.model.modelStack)
  }

  /** Constraints first, then clauses, as ctrIsRemoved numbers them. */
  ghost predicate SatisfiedCtr(d: Db, k: nat, tr: seq<Elem>)
    requires k < |d.pbs| + |d.clauses|
  {
    if k < |d.pbs| then Weight(d.pbs[k].lhs, TrueSet(tr)) >= d.pbs[k].rhs
    else exists x :: x in d.clauses[k - |d.pbs|] && x in TrueLits(tr)
  }

  predicate LearnedCtr(d: Db, k: nat) {
    if k < |d.pbs| then k in d.learnedPB else k - |d.pbs| in d.learnedClauses
  }

  /** What may go: older objective constraints, satisfied constraints and lemmas.  What stays is not satisfied. */
  ghost predicate Marked(d: Db, removed: set<nat>, older: set<nat>, newest: int, tr: seq<Elem>) {
    && (forall k :: k in removed && k < |d.pbs| + |d.clauses| && k != newest ==>
          k in older || SatisfiedCtr(d, k, tr) || LearnedCtr(d, k))
    && (forall k :: 0 <= k < |d.pbs| + |d.clauses| && k != newest && k !in removed ==> !SatisfiedCtr(d, k, tr))
  }

  /** The counter of the marking loop: it stops as soon as the true literals suffice. */
  method TrueSuffices(model: Model, c: PB) returns (b: bool)
    requires model.Valid() && Stored(c, model.numVars)
    ensures b <==> Weight(c.lhs, TrueSet(model.modelStack)) >= c.rhs
  {
    hide TrailOk, Mirrors, FalseLits, TrueLits, Weight, TrueSet, DecreasingCoefs;
    ghost var T := TrueSet(model.modelStack);
    var counter, j := -c.rhs, 0;
    assert c.lhs[..0] == [];
    WeightOfNone(T);
    while counter < 0 && j < |c.lhs|
      invariant j <= |c.lhs| && counter == Weight(c.lhs[..j], T) - c.rhs
    {
      StoredTerm(c, j, model.numVars);
      UndefMeans(model, c.lhs[j].lit);
      WeightStep(c.lhs, j, T);
      if model.IsTrueLit(c.lhs[j].lit) {
        counter := counter + c.lhs[j].coef;
      }
      j := j + 1;
    }
    PrefixWeighsLess(c.lhs, j, T);
    assert j == |c.lhs| ==> c.lhs[..j] == c.lhs;
    b := counter >= 0;
  }

  lemma WeightOfNone(L: Lits)
    ensures Weight([], L) == 0
  {
  }

  lemma PrefixWeighsLess(s: seq<Term>, j: nat, L: Lits)
    requires Positive(s) && j <= |s|
    ensures Weight(s[..j], L) <= Weight(s, L)
  {
    assert s == s[..j] + s[j..];
    WeightAppend(s[..j], s[j..], L);
    WeightAtMostSum(s[j..], L);
  }

  method SomeTrue(model: Model, cl: seq<int>) returns (b: bool)
    requires model.Valid() && forall i :: 0 <= i < |cl| ==> 1 <= Var(cl[i]) <= model.numVars
    ensures b <==> exists x :: x in cl && x in TrueLits(model.modelStack)
  {
    hide TrailOk, Mirrors, TrueLits;
    for i := 0 to |cl|
      invariant forall j :: 0 <= j < i ==> cl[j] !in TrueLits(model.modelStack)
    {
      if model.IsTrueLit(cl[i]) {
        return true;
      }
    }
    b := false;
  }

  method IsSatisfied(s: Solver, k: nat) returns (b: bool)
    requires s.Valid() && k < |s.constraintsPB| + |s.store.clauses|
    ensures b <==> SatisfiedCtr(DbOf(s), k, s.model.modelStack)
  {
    hide ListsOk, Mirrors, ListsWatch, ReasonsOk, TrailOk, BinsKnown, Weight, TrueSet, TrueLits;
    if k < |s.constraintsPB| {
      assert Stored(s.constraintsPB[k], s.model.numVars);
      b := TrueSuffices(s.model, s.constraintsPB[k]);
    } else {
      var i := k - |s.constraintsPB|;
      assert ClauseOk(s.store.clauses[i], s.store.watchIdx[i], s.store.numVars);
      b := SomeTrue(s.model, s.store.clauses[i]);
    }
  }

  /** The first k constraints after the marking loop. */
  ghost predicate MarkedUpTo(d: Db, removed: set<nat>, older: set<nat>, newest: int, tr: seq<Elem>, k: nat)
    requires k <= |d.pbs| + |d.clauses|
  {
    && (forall j :: j in removed && j != newest && j < |d.pbs| + |d.clauses| ==> j in older || SatisfiedCtr(d, j, tr))
    && (forall j :: 0 <= j < k && j != newest && j !in removed ==> !SatisfiedCtr(d, j, tr))
  }

  lemma MarkStep(d: Db, removed: set<nat>, older: set<nat>, newest: int, tr: seq<Elem>, k: nat)
    requires k < |d.pbs| + |d.clauses| && MarkedUpTo(d, removed, older, newest, tr, k)
    ensures k == newest || k in removed || !SatisfiedCtr(d, k, tr) ==> MarkedUpTo(d, removed, older, newest, tr, k + 1)
    ensures SatisfiedCtr(d, k, tr) ==> MarkedUpTo(d, removed + {k}, older, newest, tr, k + 1)
  {
    hide SatisfiedCtr;
  }

  lemma MarkBad(d: Db, removed: set<nat>, older: set<nat>, newest: int, tr: seq<Elem>, bad: set<nat>)
    requires MarkedUpTo(d, removed, older, newest, tr, |d.pbs| + |d.clauses|) && forall k :: k in bad ==>
               LearnedCtr(d, k)
    ensures Marked(d, removed + bad, older, newest, tr)
  {
    hide SatisfiedCtr, LearnedCtr;
  }

  /** The lemmas that are neither satisfied nor old objective constraints. */
  ghost function Lemmas(d: Db, older: set<nat>, newest: int, tr: seq<Elem>): set<nat> {
    set k: nat | k < |d.pbs| + |d.clauses| && k != newest && k !in older && LearnedCtr(d, k) && !SatisfiedCtr(d, k, tr)
  }

  /** Mark what goes.  Which lemmas count as bad (LBD and activity) is left open; at most half of those that are
      neither satisfied nor old objective constraints go. */
  method MarkRemoved(s: Solver, older: set<nat>, newest: int)
    returns (removed: set<nat>, ghost learnts: set<nat>, ghost bad: set<nat>)
    requires Rooted(s)
    ensures Marked(DbOf(s), removed, older, newest, s.model.modelStack)
    ensures bad <= learnts && |bad| <= |learnts| / 2
    ensures learnts == Lemmas(DbOf(s), older, newest, s.model.modelStack)
    ensures forall k :: k in removed - bad && k < |s.constraintsPB| + |s.store.clauses| && k != newest ==>
              k in older || SatisfiedCtr(DbOf(s), k, s.model.modelStack)
  {
    hide Ready, SatisfiedCtr, Marked, MarkedUpTo, Solver.Valid, Model.Valid, LearnedCtr;
    ReadyIsValid(s);
    ghost var d, tr := DbOf(s), s.model.modelStack;
    removed := older;
    var totalLearnts: set<nat>, worst: set<nat> := {}, {};
    MarkNothing(d, older, newest, tr);
    for k := 0 to |s.constraintsPB| + |s.store.clauses|
      invariant MarkedUpTo(d, removed, older, newest, tr, k) && older <= removed
      invariant worst <= totalLearnts
      invariant forall j :: j in totalLearnts ==>
                  j < k && j != newest && LearnedCtr(d, j) && j !in older && !SatisfiedCtr(d, j, tr)
      invariant forall j: nat :: j < k && j in Lemmas(d, older, newest, tr) ==> j in totalLearnts
    {
      MarkStep(d, removed, older, newest, tr, k);
      MarkedReason(d, removed, older, newest, tr, k);
      if k != newest && k !in removed {
        var satisfied := IsSatisfied(s, k);
        if satisfied {
          removed := removed + {k};
        } else if LearnedCtr(DbOf(s), k) {
          totalLearnts := totalLearnts + {k};
          if * {
            worst := worst + {k};
          }
        }
      }
    }
    ghost var before := removed;
    var numDelete := Min(|totalLearnts| / 2, |worst|);
    var deleted: set<nat> := {};
    while |deleted| < numDelete
      invariant deleted <= worst && |deleted| <= numDelete
      decreases numDelete - |deleted|
    {
      SomeLeft(deleted, worst);
      var k :| k in worst - deleted;
      deleted := deleted + {k};
    }
    learnts, bad := totalLearnts, deleted;
    MarkBad(d, removed, older, newest, tr, deleted);
    MarkedSource(d, removed, older, newest, tr);
    removed := removed + deleted;
  }

  lemma MarkedReason(d: Db, removed: set<nat>, older: set<nat>, newest: int, tr: seq<Elem>, k: nat)
    requires k < |d.pbs| + |d.clauses| && MarkedUpTo(d, removed, older, newest, tr, k)
    ensures k in removed && k != newest ==> k in older || SatisfiedCtr(d, k, tr)
  {
  }

  lemma NothingLeft(a: set<nat>, b: set<nat>)
    requires a <= b && b - a == {}
    ensures a == b
  {
    forall x | x in b
      ensures x in a
    {
      assert x !in b - a;
    }
  }

  lemma SomeLeft(a: set<nat>, b: set<nat>)
    requires a <= b && |a| < |b|
    ensures b - a != {}
  {
    if b - a == {} {
      NothingLeft(a, b);
    }
  }

  lemma MarkNothing(d: Db, older: set<nat>, newest: int, tr: seq<Elem>)
    ensures MarkedUpTo(d, older, older, newest, tr, 0)
  {
  }

  lemma MarkedSource(d: Db, removed: set<nat>, older: set<nat>, newest: int, tr: seq<Elem>)
    requires MarkedUpTo(d, removed, older, newest, tr, |d.pbs| + |d.clauses|)
    ensures forall k :: k in removed && k != newest && k < |d.pbs| + |d.clauses| ==>
              k in older || SatisfiedCtr(d, k, tr)
  {
  }

  // ----- from the database to the temporary lists -----

  lemma RootedAt(s: Solver)
    requires Rooted(s)
    ensures s.Valid() && s.model.Valid() && TrailOk(s.model.modelStack)
    ensures SettledAt(s.constraintsPB, s.model.modelStack)
  {
    ReadyParts(s);
  }

  lemma RootedPB(s: Solver, k: nat)
    requires Rooted(s) && k < |s.constraintsPB|
    ensures var c, tr := s.constraintsPB[k], s.model.modelStack;
            Stored(c, s.model.numVars) && Settled(c, Slack(c, NonFalse(tr)), tr)
  {
    RootedAt(s);
  }

  /** Every constraint up to i that stays, and the newest objective constraint, is covered when it is initial ... */
  ghost predicate DonePBs(t: Temp, d: Db, i: nat, removed: set<nat>, newest: int, tr: seq<Elem>)
    requires i <= |d.pbs|
  {
    forall j :: 0 <= j < i && j !in d.learnedPB && (j == newest || j !in removed) ==> Covered(t, d.pbs[j], tr)
  }

  /** ... and entered in any case. */
  ghost predicate EnteredPBs(t: Temp, d: Db, i: nat, removed: set<nat>, newest: int, tr: seq<Elem>, n: nat)
    requires i <= |d.pbs|
  {
    forall j :: 0 <= j < i && (j == newest || j !in removed) ==> Entered(t, d.pbs[j], j in d.learnedPB, tr, n)
  }

  lemma EnteredPBsMore(t: Temp, u: Temp, d: Db, i: nat, removed: set<nat>, newest: int, tr: seq<Elem>, n: nat)
    requires i <= |d.pbs| && EnteredPBs(t, d, i, removed, newest, tr, n) && ListsGrew(t, u)
    ensures EnteredPBs(u, d, i, removed, newest, tr, n)
  {
    hide Entered, ListsGrew;
    forall j | 0 <= j < i && (j == newest || j !in removed)
      ensures Entered(u, d.pbs[j], j in d.learnedPB, tr, n)
    {
      EnteredMore(t, u, d.pbs[j], j in d.learnedPB, tr, n);
    }
  }

  lemma DonePBsMore(t: Temp, u: Temp, d: Db, i: nat, removed: set<nat>, newest: int, tr: seq<Elem>)
    requires i <= |d.pbs| && DonePBs(u, d, i, removed, newest, tr) && Stronger(t, u)
    ensures DonePBs(t, d, i, removed, newest, tr)
  {
    hide Covered, Stronger;
    forall j | 0 <= j < i && j !in d.learnedPB && (j == newest || j !in removed)
      ensures Covered(t, d.pbs[j], tr)
    {
      CoveredMore(t, u, d.pbs[j], tr);
    }
  }

  /** One constraint enters the lists. */
  lemma KeepPB(t: Temp, d: Db, i: nat, removed: set<nat>, newest: int, tr: seq<Elem>, n: nat, k: Kept, F: iset<PB>)
    requires i < |d.pbs| && TempOk(t, tr, n) && TempImplied(t, F) && DonePBs(t, d, i, removed, newest, tr)
    requires EnteredPBs(t, d, i, removed, newest, tr, n)
    requires KeptOk(k, tr, n) && SameUnder(k, d.pbs[i], tr) && Implied(F, d.pbs[i]) && RootsImplied(tr, F)
             && OneEach(tr)
    ensures var u := Add(t, k, i in d.learnedPB);
            TempOk(u, tr, n) && TempImplied(u, F) && DonePBs(u, d, i + 1, removed, newest, tr)
            && EnteredPBs(u, d, i + 1, removed, newest, tr, n)
  {
    hide TempOk, TempImplied, Covered, Stronger, KeptOk, SameUnder, Implied, RootsImplied, Add, Entered, ListsGrew;
    var learned := i in d.learnedPB;
    AddFits(t, k, learned, tr, n);
    AddStronger(t, k, learned, tr, n);
    AddImplied(t, k, learned, d.pbs[i], tr, F);
    AddGrows(t, k, learned, tr, n);
    AddEnters(t, k, d.pbs[i], learned, tr, n);
    EnteredPBsMore(t, Add(t, k, learned), d, i, removed, newest, tr, n);
    DonePBsMore(Add(t, k, learned), t, d, i, removed, newest, tr);
    if !learned {
      AddCovers(t, k, d.pbs[i], tr, n);
    }
  }

  lemma SkipPB(t: Temp, d: Db, i: nat, removed: set<nat>, newest: int, tr: seq<Elem>, n: nat)
    requires i < |d.pbs| && DonePBs(t, d, i, removed, newest, tr) && i != newest && i in removed
    requires EnteredPBs(t, d, i, removed, newest, tr, n)
    ensures DonePBs(t, d, i + 1, removed, newest, tr) && EnteredPBs(t, d, i + 1, removed, newest, tr, n)
  {
  }

  lemma StaysUnsatisfied(d: Db, removed: set<nat>, older: set<nat>, newest: int, tr: seq<Elem>, k: nat)
    requires Marked(d, removed, older, newest, tr) && k < |d.pbs| + |d.clauses| && k != newest && k !in removed
    ensures !SatisfiedCtr(d, k, tr)
  {
  }

  /** cleanupPBConstraints. */
  method CleanupPBs(s: Solver, removed: set<nat>, ghost older: set<nat>, newest: int, ghost F: iset<PB>)
    returns (t: Temp, objNum: int)
    requires Rooted(s) && Knows(s, F) && Marked(DbOf(s), removed, older, newest, s.model.modelStack)
    ensures TempOk(t, s.model.modelStack, s.model.numVars) && TempImplied(t, F)
    ensures DonePBs(t, DbOf(s), |s.constraintsPB|, removed, newest, s.model.modelStack)
    ensures EnteredPBs(t, DbOf(s), |s.constraintsPB|, removed, newest, s.model.modelStack, s.model.numVars)
    ensures if 0 <= newest < |s.constraintsPB| then 0 <= objNum < |t.pbs| && t.pbs[objNum] == s.constraintsPB[newest]
            else objNum == -1
  {
    hide Ready, Knows, Marked, Solver.Valid, Model.Valid, TempOk, TempImplied, DonePBs, EnteredPBs, KeptOk, SameUnder,
         Add, Implied,
         RootsImplied, SatisfiedCtr, Weight, NonFalse, Settled, Stored;
    ghost var d, tr, n := DbOf(s), s.model.modelStack, s.model.numVars;
    RootedAt(s);
    KnowsParts(s, F);
    t, objNum := Temp([], [], [], {}, {}), -1;
    NothingDone(t, d, removed, newest, tr, n, F);
    for k := 0 to |s.constraintsPB|
      invariant TempOk(t, tr, n) && TempImplied(t, F) && DonePBs(t, d, k, removed, newest, tr)
      invariant EnteredPBs(t, d, k, removed, newest, tr, n)
      invariant if 0 <= newest < k then 0 <= objNum < |t.pbs| && t.pbs[objNum] == s.constraintsPB[newest]
                else objNum == -1
    {
      RootedPB(s, k);
      var c := s.constraintsPB[k];
      if k == newest {
        Untouched(c, tr);
        UntouchedOk(c, tr, n);
        KeepPB(t, d, k, removed, newest, tr, n, KeptPB(c), F);
        objNum := |t.pbs|;
        AddedPB(t, c, k in s.learnedPB);
        t := Add(t, KeptPB(c), k in s.learnedPB);
      } else if k !in removed {
        StaysUnsatisfied(d, removed, older, newest, tr, k);
        UnsatisfiedPB(d, k, tr);
        var kept := CleanPB(s.model, c);
        KeepPB(t, d, k, removed, newest, tr, n, kept, F);
        AddKeepsPlace(t, kept, k in s.learnedPB);
        t := Add(t, kept, k in s.learnedPB);
      } else {
        SkipPB(t, d, k, removed, newest, tr, n);
      }
    }
  }

  lemma NothingDone(t: Temp, d: Db, removed: set<nat>, newest: int, tr: seq<Elem>, n: nat, F: iset<PB>)
    requires t == Temp([], [], [], {}, {})
    ensures TempOk(t, tr, n) && TempImplied(t, F) && DonePBs(t, d, 0, removed, newest, tr)
    ensures EnteredPBs(t, d, 0, removed, newest, tr, n)
  {
  }

  lemma UntouchedOk(c: PB, tr: seq<Elem>, n: nat)
    requires Stored(c, n) && Settled(c, Slack(c, NonFalse(tr)), tr)
    ensures KeptOk(KeptPB(c), tr, n)
  {
  }

  lemma AddedPB(t: Temp, c: PB, learned: bool)
    ensures var u := Add(t, KeptPB(c), learned);
            |u.pbs| == |t.pbs| + 1 && u.pbs[|t.pbs|] == c
  {
  }

  lemma AddKeepsPlace(t: Temp, k: Kept, learned: bool)
    ensures t.pbs <= Add(t, k, learned).pbs
  {
  }

  lemma UnsatisfiedPB(d: Db, k: nat, tr: seq<Elem>)
    requires k < |d.pbs| && !SatisfiedCtr(d, k, tr)
    ensures Weight(d.pbs[k].lhs, TrueSet(tr)) < d.pbs[k].rhs
  {
  }

  ghost predicate DoneClauses(t: Temp, d: Db, i: nat, removed: set<nat>, tr: seq<Elem>)
    requires i <= |d.clauses|
  {
    forall j :: 0 <= j < i && j !in d.learnedClauses && |d.pbs| + j !in removed ==>
          Covered(t, ClausePB(d.clauses[j]), tr)
  }

  ghost predicate EnteredClauses(t: Temp, d: Db, i: nat, removed: set<nat>, tr: seq<Elem>, n: nat)
    requires i <= |d.clauses|
  {
    forall j :: 0 <= j < i && |d.pbs| + j !in removed ==>
          Entered(t, ClausePB(d.clauses[j]), j in d.learnedClauses, tr, n)
  }

  lemma EnteredClausesMore(t: Temp, u: Temp, d: Db, i: nat, removed: set<nat>, tr: seq<Elem>, n: nat)
    requires i <= |d.clauses| && EnteredClauses(t, d, i, removed, tr, n) && ListsGrew(t, u)
    ensures EnteredClauses(u, d, i, removed, tr, n)
  {
    hide Entered, ListsGrew, ClausePB;
    forall j | 0 <= j < i && |d.pbs| + j !in removed
      ensures Entered(u, ClausePB(d.clauses[j]), j in d.learnedClauses, tr, n)
    {
      EnteredMore(t, u, ClausePB(d.clauses[j]), j in d.learnedClauses, tr, n);
    }
  }

  lemma DoneClausesMore(t: Temp, u: Temp, d: Db, i: nat, removed: set<nat>, tr: seq<Elem>)
    requires i <= |d.clauses| && DoneClauses(u, d, i, removed, tr) && Stronger(t, u)
    ensures DoneClauses(t, d, i, removed, tr)
  {
    hide Covered, Stronger, ClausePB;
    forall j | 0 <= j < i && j !in d.learnedClauses && |d.pbs| + j !in removed
      ensures Covered(t, ClausePB(d.clauses[j]), tr)
    {
      CoveredMore(t, u, ClausePB(d.clauses[j]), tr);
    }
  }

  lemma KeepClause(t: Temp, t0: Temp, d: Db, i: nat, removed: set<nat>, tr: seq<Elem>, n: nat, k: Kept, F: iset<PB>)
    requires i < |d.clauses| && TempOk(t, tr, n) && TempImplied(t, F) && DoneClauses(t, d, i, removed, tr)
    requires KeptOk(k, tr, n) && SameUnder(k, ClausePB(d.clauses[i]), tr) && Implied(F, ClausePB(d.clauses[i]))
    requires RootsImplied(tr, F) && OneEach(tr) && Stronger(t, t0) && ListsGrew(t0, t)
    requires EnteredClauses(t, d, i, removed, tr, n)
    ensures var u := Add(t, k, i in d.learnedClauses);
            TempOk(u, tr, n) && TempImplied(u, F) && DoneClauses(u, d, i + 1, removed, tr) && Stronger(u, t0)
            && EnteredClauses(u, d, i + 1, removed, tr, n) && ListsGrew(t0, u)
  {
    hide TempOk, TempImplied, Covered, Stronger, KeptOk, SameUnder, Implied, RootsImplied, Add, ClausePB, Entered,
         ListsGrew;
    AddGrows(t, k, i in d.learnedClauses, tr, n);
    GrewTwice(t0, t, Add(t, k, i in d.learnedClauses));
    AddEnters(t, k, ClausePB(d.clauses[i]), i in d.learnedClauses, tr, n);
    EnteredClausesMore(t, Add(t, k, i in d.learnedClauses), d, i, removed, tr, n);
    var learned := i in d.learnedClauses;
    var c := ClausePB(d.clauses[i]);
    AddFits(t, k, learned, tr, n);
    AddStronger(t, k, learned, tr, n);
    StrongerTrans(Add(t, k, learned), t, t0);
    AddImplied(t, k, learned, c, tr, F);
    DoneClausesMore(Add(t, k, learned), t, d, i, removed, tr);
    if !learned {
      AddCovers(t, k, c, tr, n);
    }
  }

  /** A clause that stays has no true literal, and so both its watches are unassigned. */
  lemma StayingClause(s: Solver, removed: set<nat>, older: set<nat>, newest: int, i: nat)
    requires Rooted(s) && Marked(DbOf(s), removed, older, newest, s.model.modelStack)
    requires i < |s.store.clauses| && |s.constraintsPB| + i !in removed && newest < |s.constraintsPB|
    ensures var cl, tr := s.store.clauses[i], s.model.modelStack;
            ClauseOk(cl, 2, s.model.numVars) && (forall x :: x in cl ==> x !in TrueLits(tr))
            && !Assigned(cl[0], tr) && !Assigned(cl[1], tr)
  {
    hide Sound, Solver.Closed, TrueLits, FalseLits, Assigned, ListsOk, ReasonsOk, Mirrors, ListsWatch, TrailOk;
    StaysUnsatisfied(DbOf(s), removed, older, newest, s.model.modelStack, |s.constraintsPB| + i);
    ClausesPropagated(s, i);
    ReadyIsValid(s);
    assert ClauseOk(s.store.clauses[i], s.store.watchIdx[i], s.store.numVars);
  }

  /** cleanupClauses. */
  method CleanupClauses(s: Solver, t0: Temp, removed: set<nat>, ghost older: set<nat>, ghost newest: int,
                        ghost F: iset<PB>)
    returns (t: Temp)
    requires Rooted(s) && Knows(s, F) && Marked(DbOf(s), removed, older, newest, s.model.modelStack)
    requires newest < |s.constraintsPB| && TempOk(t0, s.model.modelStack, s.model.numVars) && TempImplied(t0, F)
    ensures TempOk(t, s.model.modelStack, s.model.numVars) && TempImplied(t, F) && Stronger(t, t0)
    ensures DoneClauses(t, DbOf(s), |s.store.clauses|, removed, s.model.modelStack)
    ensures EnteredClauses(t, DbOf(s), |s.store.clauses|, removed, s.model.modelStack, s.model.numVars)
    ensures t.pbs == t0.pbs && ListsGrew(t0, t)
  {
    hide Ready, Knows, Marked, Solver.Valid, Model.Valid, TempOk, TempImplied, DoneClauses, KeptOk, SameUnder, Implied,
         EnteredClauses, ListsGrew,
         RootsImplied, ClausePB, Stronger, TrueLits, Assigned;
    ghost var d, tr, n := DbOf(s), s.model.modelStack, s.model.numVars;
    RootedAt(s);
    KnowsParts(s, F);
    t := t0;
    NoClauseDone(t, d, removed, tr, n);
    for i := 0 to |s.store.clauses|
      invariant TempOk(t, tr, n) && TempImplied(t, F) && Stronger(t, t0) && DoneClauses(t, d, i, removed, tr)
      invariant t.pbs == t0.pbs && ListsGrew(t0, t) && EnteredClauses(t, d, i, removed, tr, n)
    {
      if |s.constraintsPB| + i !in removed {
        StayingClause(s, removed, older, newest, i);
        var kept := CleanClause(s.model, s.store.clauses[i]);
        KeepClause(t, t0, d, i, removed, tr, n, kept, F);
        t := Add(t, kept, i in s.learnedClauses);
      } else {
        SkipClause(t, d, i, removed, tr, n);
      }
    }
  }

  lemma NoClauseDone(t: Temp, d: Db, removed: set<nat>, tr: seq<Elem>, n: nat)
    ensures DoneClauses(t, d, 0, removed, tr) && Stronger(t, t)
    ensures EnteredClauses(t, d, 0, removed, tr, n) && ListsGrew(t, t)
  {
  }

  lemma SkipClause(t: Temp, d: Db, i: nat, removed: set<nat>, tr: seq<Elem>, n: nat)
    requires i < |d.clauses| && DoneClauses(t, d, i, removed, tr) && |d.pbs| + i in removed
    requires EnteredClauses(t, d, i, removed, tr, n)
    ensures DoneClauses(t, d, i + 1, removed, tr) && EnteredClauses(t, d, i + 1, removed, tr, n)
  {
  }

  ghost predicate Smaller(l: int, o: int, tr: seq<Elem>) {
    !Assigned(l, tr) && !Assigned(o, tr) && Var(l) < Var(o)
  }

  /** Binary clauses of l with a larger second variable, both literals unassigned. */
  ghost predicate DoneLit(t: Temp, list: seq<GenElem>, l: int, tr: seq<Elem>) {
    forall j :: 0 <= j < |list| && list[j].Bin? && Smaller(l, list[j].other, tr) ==> (l, list[j].other) in t.bins
  }

  /** What the loops over the binary lists keep. */
  ghost predicate BinsSoFar(t: Temp, t0: Temp, tr: seq<Elem>, n: nat, F: iset<PB>) {
    TempOk(t, tr, n) && TempImplied(t, F) && t == t0.(bins := t.bins) && t0.bins <= t.bins
  }

  lemma KeepBin(t: Temp, t0: Temp, tr: seq<Elem>, n: nat, F: iset<PB>, l: int, o: int)
    requires BinsSoFar(t, t0, tr, n, F) && 1 <= Var(l) <= n && 1 <= Var(o) <= n && l != o
    requires !Assigned(l, tr) && !Assigned(o, tr) && Implied(F, ClausePB([l, o]))
    ensures BinsSoFar(t.(bins := t.bins + [(l, o)]), t0, tr, n, F)
  {
    hide Implied, Assigned, ClausePB;
  }

  lemma DoneLitMore(t: Temp, u: Temp, list: seq<GenElem>, l: int, tr: seq<Elem>)
    requires DoneLit(u, list, l, tr) && u.bins <= t.bins
    ensures DoneLit(t, list, l, tr)
  {
  }

  lemma BinKnown(s: Solver, l: int, j: nat, F: iset<PB>)
    requires s.Valid() && s.model.HasVar(l) && Knows(s, F) && l in s.genWatchList && j < |s.genWatchList[l]|
    requires s.genWatchList[l][j].Bin?
    ensures var o := s.genWatchList[l][j].other;
            s.model.HasVar(o) && o != l && Implied(F, ClausePB([l, o]))
  {
    hide Implied;
    assert s.genWatchList[l][j] in s.genWatchList[l];
    assert BinLitsKnown(s.genWatchList[l], s.model.numVars);
    KnowsParts(s, F);
  }

  /** The binary clauses of one literal. */
  method CleanupBinaryList(s: Solver, t1: Temp, l: int, ghost t0: Temp, ghost F: iset<PB>) returns (t: Temp)
    requires Rooted(s) && Knows(s, F) && s.model.HasVar(l) && s.model.Valid() && s.model.IsUndefLit(l)
             && l in s.genWatchList
    requires BinsSoFar(t1, t0, s.model.modelStack, s.model.numVars, F)
    ensures BinsSoFar(t, t0, s.model.modelStack, s.model.numVars, F) && t1.bins <= t.bins
    ensures DoneLit(t, s.genWatchList[l], l, s.model.modelStack)
  {
    hide Ready, Knows, Solver.Valid, Model.Valid, BinsSoFar, Implied, ClausePB, Assigned;
    ghost var tr, n := s.model.modelStack, s.model.numVars;
    RootedAt(s);
    t := t1;
    var list := s.genWatchList[l];
    UndefMeans(s.model, l);
    for j := 0 to |list|
      invariant BinsSoFar(t, t0, tr, n, F) && t1.bins <= t.bins
      invariant DoneLit(t, list[..j], l, tr)
    {
      ghost var u := t;
      if list[j].Bin? {
        var o := list[j].other;
        BinKnown(s, l, j, F);
        UndefMeans(s.model, o);
        if s.model.IsUndefLit(o) && Var(l) < Var(o) {
          KeepBin(t, t0, tr, n, F, l, o);
          t := t.(bins := t.bins + [(l, o)]);
        }
      }
      DoneLitMore(t, u, list[..j], l, tr);
      assert list[..j + 1] == list[..j] + [list[j]];
    }
    assert list[..|list|] == list;
  }

  /** Every binary clause that is still open is in the list from its smaller variable. */
  ghost predicate DoneBins(t: Temp, gen: map<int, seq<GenElem>>, n: nat, tr: seq<Elem>) {
    forall l: int :: 1 <= Var(l) <= n && l in gen ==> DoneLit(t, gen[l], l, tr)
  }

  lemma AssignedDone(t: Temp, list: seq<GenElem>, l: int, tr: seq<Elem>)
    requires Assigned(l, tr)
    ensures DoneLit(t, list, l, tr)
  {
  }

  /** cleanupBinaryClauses: the second loop may stop one variable early. */
  method CleanupBinaries(s: Solver, t0: Temp, ghost F: iset<PB>) returns (t: Temp)
    requires Rooted(s) && Knows(s, F) && TempOk(t0, s.model.modelStack, s.model.numVars) && TempImplied(t0, F)
    ensures BinsSoFar(t, t0, s.model.modelStack, s.model.numVars, F)
    ensures DoneBins(t, s.genWatchList, s.model.numVars, s.model.modelStack)
  {
    hide Ready, Knows, Solver.Valid, Model.Valid, BinsSoFar, Implied, ClausePB, Assigned, DoneLit;
    ghost var tr, n, gen := s.model.modelStack, s.model.numVars, s.genWatchList;
    RootedAt(s);
    t := t0;
    NoBinYet(t0, tr, n, F);
    for v := 1 to s.model.numVars + 1
      invariant BinsSoFar(t, t0, tr, n, F)
      invariant forall l: int :: 1 <= l < v && l in gen ==> DoneLit(t, gen[l], l, tr)
    {
      t := CleanupLit(s, t, v, t0, F, 1, v);
    }
    var v := 1;
    while v < s.model.numVars
      invariant 1 <= v && (v <= n || n == 0)
      invariant BinsSoFar(t, t0, tr, n, F)
      invariant forall l: int :: 1 <= l <= n && l in gen ==> DoneLit(t, gen[l], l, tr)
      invariant forall l: int :: -v < l <= -1 && l in gen ==> DoneLit(t, gen[l], l, tr)
    {
      ghost var u := t;
      t := CleanupLit(s, t, -v, t0, F, -v + 1, 0);
      forall l: int | 1 <= l <= n && l in gen
        ensures DoneLit(t, gen[l], l, tr)
      {
        DoneLitMore(t, u, gen[l], l, tr);
      }
      v := v + 1;
    }
    LargestVariable(s, t, -(n as int));
  }

  lemma NoBinYet(t0: Temp, tr: seq<Elem>, n: nat, F: iset<PB>)
    requires TempOk(t0, tr, n) && TempImplied(t0, F)
    ensures BinsSoFar(t0, t0, tr, n, F)
  {
    assert t0 == t0.(bins := t0.bins);
  }

  /** One step of either loop; the literals from lo up to hi are done before. */
  method CleanupLit(s: Solver, t1: Temp, l: int, ghost t0: Temp, ghost F: iset<PB>, ghost lo: int, ghost hi: int)
    returns (t: Temp)
    requires Rooted(s) && Knows(s, F) && s.model.HasVar(l)
    requires BinsSoFar(t1, t0, s.model.modelStack, s.model.numVars, F)
    requires forall m: int :: lo <= m < hi && m in s.genWatchList ==>
               DoneLit(t1, s.genWatchList[m], m, s.model.modelStack)
    ensures BinsSoFar(t, t0, s.model.modelStack, s.model.numVars, F) && t1.bins <= t.bins
    ensures l in s.genWatchList && DoneLit(t, s.genWatchList[l], l, s.model.modelStack)
    ensures forall m: int :: lo <= m < hi && m in s.genWatchList ==>
              DoneLit(t, s.genWatchList[m], m, s.model.modelStack)
  {
    hide Ready, Knows, Solver.Valid, Model.Valid, BinsSoFar, Implied, ClausePB, Assigned, DoneLit;
    ghost var tr, gen := s.model.modelStack, s.genWatchList;
    RootedAt(s);
    KnownList(s, l);
    UndefMeans(s.model, l);
    t := t1;
    if s.model.IsUndefLit(l) {
      t := CleanupBinaryList(s, t1, l, t0, F);
    } else {
      AssignedDone(t, gen[l], l, tr);
    }
    forall m: int | lo <= m < hi && m in gen
      ensures DoneLit(t, gen[m], m, tr)
    {
      DoneLitMore(t, t1, gen[m], m, tr);
    }
  }

  /** No second variable is larger than the largest. */
  lemma LargestVariable(s: Solver, t: Temp, l: int)
    requires s.Valid() && l == -(s.model.numVars as int)
    ensures l in s.genWatchList && l != 0 ==> DoneLit(t, s.genWatchList[l], l, s.model.modelStack)
  {
    if l in s.genWatchList && l != 0 {
      assert BinLitsKnown(s.genWatchList[l], s.model.numVars);
    }
  }

  // ----- the temporary lists say what the database said -----

  /** The database without the obligation to satisfy the constraints ids. */
  function Without(d: Db, ids: set<nat>): Db {
    d.(learnedPB := d.learnedPB + ids)
  }

  lemma RootsAgree(tr: seq<Elem>, a: Lits)
    requires OneEach(tr) && AtRoot(tr) && Total(a) && forall l :: l in RootLits(tr) ==> l in a
    ensures RootAgree(tr, a)
  {
    forall i | 0 <= i < |tr| && tr[i].dl == 0
      ensures tr[i].lit in a && -tr[i].lit !in a
    {
      assert tr[i].lit in RootLits(tr) && tr[i].lit != 0;
    }
  }

  lemma SatisfiedHolds(d: Db, k: nat, tr: seq<Elem>, a: Lits, n: nat)
    requires k < |d.pbs| + |d.clauses| && SatisfiedCtr(d, k, tr) && AtRoot(tr) && RootAgree(tr, a)
    requires k < |d.pbs| ==> Positive(d.pbs[k].lhs)
    ensures k < |d.pbs| ==> Sat(d.pbs[k], a)
    ensures k >= |d.pbs| ==> Sat(ClausePB(d.clauses[k - |d.pbs|]), a)
  {
    hide ClausePB;
    TrueInAgreeing(tr, a);
    if k < |d.pbs| {
      WeightMono(d.pbs[k].lhs, TrueSet(tr), a);
    } else {
      ClauseSat(d.clauses[k - |d.pbs|], a);
    }
  }

  lemma TrueInAgreeing(tr: seq<Elem>, a: Lits)
    requires AtRoot(tr) && RootAgree(tr, a)
    ensures forall l :: l in TrueLits(tr) ==> l in a
    ensures forall l :: l in FalseLits(tr) ==> l !in a
  {
  }

  /** Everything the cleanup has to remember. */
  ghost predicate Remembered(t: Temp, d: Db, removed: set<nat>, older: set<nat>, newest: int, tr: seq<Elem>, n: nat) {
    && Marked(d, removed, older, newest, tr) && newest < |d.pbs|
    && DonePBs(t, d, |d.pbs|, removed, newest, tr)
    && DoneClauses(t, d, |d.clauses|, removed, tr)
    && DoneBins(t, d.gen, n, tr)
  }

  lemma OldPBHolds(t: Temp, d: Db, removed: set<nat>, older: set<nat>, newest: int, tr: seq<Elem>, n: nat, a: Lits,
                   k: nat)
    requires Remembered(t, d, removed, older, newest, tr, n) && AtRoot(tr) && RootAgree(tr, a) && TempSat(t, a)
    requires k < |d.pbs| && Positive(d.pbs[k].lhs) && k !in d.learnedPB && k !in older
    ensures Sat(d.pbs[k], a)
  {
    hide TempSat, Sat, DoneClauses, DoneBins, SatisfiedCtr;
    if k == newest || k !in removed {
      assert Covered(t, d.pbs[k], tr);
    } else {
      SatisfiedHolds(d, k, tr, a, n);
    }
  }

  lemma OldClauseHolds(t: Temp, d: Db, removed: set<nat>, older: set<nat>, newest: int, tr: seq<Elem>, n: nat, a: Lits,
                       k: nat)
    requires Remembered(t, d, removed, older, newest, tr, n) && AtRoot(tr) && RootAgree(tr, a) && TempSat(t, a)
    requires k < |d.clauses| && k !in d.learnedClauses && forall j :: j in older ==> j < |d.pbs|
    ensures Sat(ClausePB(d.clauses[k]), a)
  {
    hide TempSat, Sat, DonePBs, DoneBins, SatisfiedCtr, ClausePB;
    if |d.pbs| + k !in removed {
      assert Covered(t, ClausePB(d.clauses[k]), tr);
    } else {
      SatisfiedHolds(d, |d.pbs| + k, tr, a, n);
    }
  }

  lemma PairHolds(l: int, o: int, a: Lits)
    requires l in a || o in a
    ensures Sat(ClausePB([l, o]), a)
  {
    ClauseSat([l, o], a);
    assert l in [l, o] && o in [l, o];
  }

  lemma PairSwaps(l: int, o: int, a: Lits)
    requires Sat(ClausePB([o, l]), a)
    ensures Sat(ClausePB([l, o]), a)
  {
    SwapClause(l, o);
  }

  /** A pair in the list is a satisfied pair. */
  lemma ListedPair(t: Temp, list: seq<GenElem>, l: int, o: int, tr: seq<Elem>, a: Lits)
    requires DoneLit(t, list, l, tr) && Bin(o) in list && Smaller(l, o, tr) && TempSat(t, a)
    ensures Sat(ClausePB([l, o]), a)
  {
    var j :| 0 <= j < |list| && list[j] == Bin(o);
    assert (l, list[j].other) in t.bins;
    var i :| 0 <= i < |t.bins| && t.bins[i] == (l, o);
  }

  lemma OldBinHolds(s: Solver, t: Temp, removed: set<nat>, older: set<nat>, newest: int, a: Lits, l: int, o: int)
    requires Rooted(s) && Total(a) && RootAgree(s.model.modelStack, a) && TempSat(t, a)
    requires Remembered(t, DbOf(s), removed, older, newest, s.model.modelStack, s.model.numVars)
    requires s.model.HasVar(l) && l in s.genWatchList && Bin(o) in s.genWatchList[l]
    ensures Sat(ClausePB([l, o]), a)
  {
    hide Sound, Solver.Closed, TempSat, Sat, DonePBs, DoneClauses, ClausePB, ListsOk, ReasonsOk, Mirrors, ListsWatch,
         TrailOk, ClausesOk, Stored, DoneLit, TrueLits, FalseLits, Marked;
    var tr := s.model.modelStack;
    ReadyIsValid(s);
    TrueInAgreeing(tr, a);
    assert BinLitsKnown(s.genWatchList[l], s.model.numVars);
    if l in FalseLits(tr) {
      BinsPropagated(s, l, o);
      PairHolds(l, o, a);
    } else if l in TrueLits(tr) || o in TrueLits(tr) {
      PairHolds(l, o, a);
    } else if o in FalseLits(tr) {
      BinsPropagated(s, o, l);
      PairHolds(l, o, a);
    } else if Var(l) < Var(o) {
      ListedPair(t, s.genWatchList[l], l, o, tr, a);
    } else if Var(o) < Var(l) {
      ListedPair(t, s.genWatchList[o], o, l, tr, a);
      PairSwaps(l, o, a);
    } else {
      assert o == -l;
      PairHolds(l, o, a);
    }
  }

  /** Nothing the cleanup had to remember is lost. */
  lemma NothingLost(s: Solver, t: Temp, removed: set<nat>, older: set<nat>, newest: int, a: Lits)
    requires Rooted(s) && Total(a) && TempSat(t, a) && forall l :: l in RootLits(s.model.modelStack) ==> l in a
    requires Remembered(t, DbOf(s), removed, older, newest, s.model.modelStack, s.model.numVars)
    requires forall j :: j in older ==> j < |s.constraintsPB|
    ensures DbSat(Without(DbOf(s), older), RootLits(s.model.modelStack), s.model.numVars, a)
  {
    hide Ready, TempSat, Sat, ClausePB, Remembered, Total, Solver.Valid, Model.Valid, RootLits, Stored, AtRoot,
         RootAgree;
    var tr, n, d := s.model.modelStack, s.model.numVars, DbOf(s);
    RootedAt(s);
    TrailIsOneEach(s.model);
    RootsAgree(tr, a);
    forall k | 0 <= k < |d.pbs| && k !in d.learnedPB + older
      ensures Sat(d.pbs[k], a)
    {
      RootedPB(s, k);
      StoredIsPositive(d.pbs[k], n);
      OldPBHolds(t, d, removed, older, newest, tr, n, a, k);
    }
    forall k | 0 <= k < |d.clauses| && k !in d.learnedClauses
      ensures Sat(ClausePB(d.clauses[k]), a)
    {
      OldClauseHolds(t, d, removed, older, newest, tr, n, a, k);
    }
    forall l, o | s.model.HasVar(l) && l in d.gen && Bin(o) in d.gen[l]
      ensures Sat(ClausePB([l, o]), a)
    {
      OldBinHolds(s, t, removed, older, newest, a, l, o);
    }
  }

  // ----- rebuilding -----

  /** The binary clauses in the lists are those of the pairs. */
  ghost predicate BinsAre(gen: map<int, seq<GenElem>>, bins: seq<(int, int)>) {
    && (forall l, o :: l in gen && Bin(o) in gen[l] ==> (l, o) in bins || (o, l) in bins)
    && (forall i :: 0 <= i < |bins| ==> bins[i].0 in gen && Bin(bins[i].1) in gen[bins[i].0])
  }

  lemma BinsAreStep(gen: map<int, seq<GenElem>>, bins: seq<(int, int)>, l1: int, l2: int)
    requires BinsAre(gen, bins) && l1 in gen && l2 in gen && l1 != l2
    ensures BinsAre(BinAdded(gen, l1, l2), bins + [(l1, l2)])
  {
    var gen', bins' := BinAdded(gen, l1, l2), bins + [(l1, l2)];
    assert bins'[|bins|] == (l1, l2);
    assert forall p :: p in bins ==> p in bins';
    forall l, o | l in gen' && Bin(o) in gen'[l]
      ensures (l, o) in bins' || (o, l) in bins'
    {
      if !(l in gen && Bin(o) in gen[l]) {
        assert (l == l1 && o == l2) || (l == l2 && o == l1);
      }
    }
  }

  lemma NoNewBin(gen: map<int, seq<GenElem>>, gen': map<int, seq<GenElem>>, l: int, o: int)
    requires GenGrows(gen, gen') && l in gen' && Bin(o) in gen'[l]
    ensures l in gen && Bin(o) in gen[l]
  {
    var j :| 0 <= j < |gen'[l]| && gen'[l][j] == Bin(o);
    assert ListGrows(gen[l], gen'[l]);
    assert j < |gen[l]| && gen'[l][..|gen[l]|][j] == gen[l][j];
  }

  lemma BinStays(gen: map<int, seq<GenElem>>, gen': map<int, seq<GenElem>>, l: int, o: int)
    requires BinsGrow(gen, gen') && l in gen && Bin(o) in gen[l]
    ensures l in gen' && Bin(o) in gen'[l]
  {
  }

  lemma BinsAreGrow(gen: map<int, seq<GenElem>>, gen': map<int, seq<GenElem>>, bins: seq<(int, int)>)
    requires BinsAre(gen, bins) && GenGrows(gen, gen')
    ensures BinsAre(gen', bins)
  {
    hide GenGrows;
    GenGrowsBins(gen, gen');
    forall l, o | l in gen' && Bin(o) in gen'[l]
      ensures (l, o) in bins || (o, l) in bins
    {
      NoNewBin(gen, gen', l, o);
      assert Bin(o) in gen[l];
    }
    forall i | 0 <= i < |bins|
      ensures bins[i].0 in gen' && Bin(bins[i].1) in gen'[bins[i].0]
    {
      BinStays(gen, gen', bins[i].0, bins[i].1);
    }
  }

  /** Clearing every list.  The literals of level 0 stay, without their reasons. */
  method ClearDatabase(s: Solver)
    requires s.Valid() && AtRoot(s.model.modelStack)
    modifies s, s.store
    ensures s.Valid() && s.constraintsPB == [] && s.maxWIdx == [] && s.stamp == [] && s.sumOfWatches == []
    ensures s.store.clauses == [] && s.learnedPB == {} && s.learnedClauses == {} && s.numOfBackjump == 0
    ensures BinsAre(s.genWatchList, []) && s.conflict == old(s.conflict)
  {
    hide ListsOk, Mirrors, ListsWatch, ReasonsOk, TrailOk, BinsKnown, BinsPaired, ClausesOk, EmptyLists, Stored;
    s.occurLists := EmptyLists(s.model.numVars);
    s.store.Clear(EmptyLists(s.model.numVars));
    s.genWatchList := EmptyLists(s.model.numVars);
    s.sumOfWatches, s.constraintsPB, s.maxWIdx, s.stamp := [], [], [], [];
    s.learnedPB, s.learnedClauses := {}, {};
    s.numOfBackjump := 0;
    s.cleaned := |s.model.modelStack|;
    EmptyDatabase(s.occurLists, s.genWatchList, s.model.numVars);
    NoReasonLeft(s.model.modelStack, s.genWatchList);
  }

  lemma NoReasonLeft(tr: seq<Elem>, gen: map<int, seq<GenElem>>)
    requires AtRoot(tr)
    ensures ReasonsOk(tr, |tr|, [], [], gen)
  {
  }

  /** buildBinaryClauses. */
  method BuildBinaries(s: Solver, bins: seq<(int, int)>)
    requires s.Valid() && BinsAre(s.genWatchList, [])
    requires forall i :: 0 <= i < |bins| ==>
               s.model.HasVar(bins[i].0) && s.model.HasVar(bins[i].1) && bins[i].0 != bins[i].1
    modifies s`genWatchList
    ensures s.Valid() && BinsAre(s.genWatchList, bins)
  {
    hide Solver.Valid, BinsAre, BinAdded;
    for i := 0 to |bins|
      invariant s.Valid() && BinsAre(s.genWatchList, bins[..i])
    {
      ghost var gen := s.genWatchList;
      assert bins[..i + 1] == bins[..i] + [bins[i]];
      AddBinaryClause(s, bins[i].0, bins[i].1);
      BinsAreStep(gen, bins[..i], bins[i].0, bins[i].1);
      assert bins[i] == (bins[i].0, bins[i].1);
    }
    assert bins[..|bins|] == bins;
  }

  /** The new clauses, with buildWatchLists. */
  method BuildClauses(s: Solver, clauses: seq<seq<int>>, ghost bins: seq<(int, int)>)
    requires s.Valid() && s.store.clauses == [] && BinsAre(s.genWatchList, bins)
    requires forall i :: 0 <= i < |clauses| ==> ClauseOk(clauses[i], 2, s.model.numVars)
    modifies s`genWatchList, s.store
    ensures s.Valid() && s.store.clauses == clauses && BinsAre(s.genWatchList, bins)
  {
    hide Solver.Valid, BinsAre, ClauseOk, GenGrows;
    for i := 0 to |clauses|
      invariant s.Valid() && s.store.clauses == clauses[..i] && BinsAre(s.genWatchList, bins)
    {
      ghost var gen := s.genWatchList;
      AddClause(s, clauses[i]);
      BinsAreGrow(gen, s.genWatchList, bins);
      assert clauses[..i + 1] == clauses[..i] + [clauses[i]];
    }
    assert clauses[..|clauses|] == clauses;
  }

  /** Clauses over unassigned literals are watched correctly. */
  lemma OpenClausesWatched(tr: seq<Elem>, clauses: seq<seq<int>>)
    requires forall k :: 0 <= k < |clauses| ==> Open(clauses[k], tr)
    ensures WatchesOk(tr, |tr|, clauses)
  {
    forall i | 0 <= i < |tr|
      ensures WatchOkAt(tr, i, clauses)
    {
      assert -tr[i].lit in FalseLits(tr);
      forall k | 0 <= k < |clauses|
        ensures !Watches.Watches(clauses[k], -tr[i].lit)
      {
        assert Open(clauses[k], tr);
      }
    }
  }

  /** Binary clauses over unassigned literals are propagated. */
  lemma OpenBinsDone(tr: seq<Elem>, gen: map<int, seq<GenElem>>, bins: seq<(int, int)>)
    requires BinsAre(gen, bins) && forall i :: 0 <= i < |bins| ==> Open([bins[i].0, bins[i].1], tr)
    requires forall i :: 0 <= i < |tr| ==> -tr[i].lit in gen
    ensures BinsOk(tr, |tr|, gen)
  {
    forall i | 0 <= i < |tr|
      ensures BinOkAt(tr, i, gen)
    {
      var l := -tr[i].lit;
      assert l in FalseLits(tr);
      forall j | 0 <= j < |gen[l]|
        ensures !gen[l][j].Bin?
      {
        if gen[l][j].Bin? {
          NotListed(tr, gen, bins, l, gen[l][j].other);
        }
      }
    }
  }

  lemma NotListed(tr: seq<Elem>, gen: map<int, seq<GenElem>>, bins: seq<(int, int)>, l: int, o: int)
    requires BinsAre(gen, bins) && forall i :: 0 <= i < |bins| ==> Open([bins[i].0, bins[i].1], tr)
    requires l in gen && Bin(o) in gen[l]
    ensures !Assigned(l, tr)
  {
    if (l, o) in bins {
      var i :| 0 <= i < |bins| && bins[i] == (l, o);
      assert !Assigned([bins[i].0, bins[i].1][0], tr);
    } else {
      var i :| 0 <= i < |bins| && bins[i] == (o, l);
      assert !Assigned([bins[i].0, bins[i].1][1], tr);
    }
  }

  /** After binary clauses and clauses: sound and settled, with no PB constraint yet. */
  lemma SoundWithoutPBs(s: Solver, bins: seq<(int, int)>)
    requires s.Valid() && s.model.AllPropagated() && AtRoot(s.model.modelStack)
    requires s.constraintsPB == [] && s.maxWIdx == [] && s.stamp == [] && s.sumOfWatches == []
    requires BinsAre(s.genWatchList, bins) && forall i :: 0 <= i < |bins| ==>
               Open([bins[i].0, bins[i].1], s.model.modelStack)
    requires forall k :: 0 <= k < |s.store.clauses| ==> Open(s.store.clauses[k], s.model.modelStack)
    ensures Sound(s) && SettledAt(s.constraintsPB, s.model.modelStack)
  {
    hide ListsOk, Mirrors, ListsWatch, ReasonsOk, BinsKnown, ClausesOk, BinsAre, Open, BinsOk, WatchesOk, LevelsStart;
    var tr := s.model.modelStack;
    OpenClausesWatched(tr, s.store.clauses);
    TrailComplementsListed(s);
    OpenBinsDone(tr, s.genWatchList, bins);
    NothingPending(tr);
    RootLevel(tr);
  }

  lemma RootLevel(tr: seq<Elem>)
    requires AtRoot(tr)
    ensures LevelOf(tr) == 0
  {
  }

  lemma TrailComplementsListed(s: Solver)
    requires s.Valid()
    ensures forall i :: 0 <= i < |s.model.modelStack| ==> -s.model.modelStack[i].lit in s.genWatchList
  {
    forall i | 0 <= i < |s.model.modelStack|
      ensures -s.model.modelStack[i].lit in s.genWatchList
    {
      assert Recorded(s.model.modelStack[i].lit, i, s.model.truthValue, s.model.stackHeight, s.model.numVars);
      KnownList(s, -s.model.modelStack[i].lit);
    }
  }

  lemma SettledSnoc(pbs: seq<PB>, c: PB, tr: seq<Elem>)
    requires SettledAt(pbs, tr) && Settled(c, Slack(c, NonFalse(tr)), tr)
    ensures SettledAt(pbs + [c], tr)
  {
    forall k | 0 <= k < |pbs + [c]|
      ensures Settled((pbs + [c])[k], Slack((pbs + [c])[k], NonFalse(tr)), tr)
    {
      assert k < |pbs| ==> Settled(pbs[k], Slack(pbs[k], NonFalse(tr)), tr);
    }
  }

  lemma TempPB(t: Temp, tr: seq<Elem>, n: nat, i: nat)
    requires TempOk(t, tr, n) && i < |t.pbs|
    ensures Stored(t.pbs[i], n) && Settled(t.pbs[i], Slack(t.pbs[i], NonFalse(tr)), tr)
  {
    assert KeptOk(KeptPB(t.pbs[i]), tr, n);
  }

  /** The new constraints with their counters and occurrence lists (buildOccurListsAndPBWatches). */
  method BuildPBs(s: Solver, t: Temp)
    requires Sound(s) && s.constraintsPB == [] && s.model.decisionLevel == 0
    requires TempOk(t, s.model.modelStack, s.model.numVars) && BinsAre(s.genWatchList, t.bins)
    modifies s`occurLists, s`genWatchList, s`sumOfWatches, s`constraintsPB, s`maxWIdx, s`stamp
    ensures Sound(s) && s.constraintsPB == t.pbs && BinsAre(s.genWatchList, t.bins)
    ensures SettledAt(s.constraintsPB, s.model.modelStack)
  {
    hide Sound, Solver.Valid, BinsAre, TempOk, GenGrows, BinsGrow, Stored, Settled, SettledAt;
    NoneSettled(s.model.modelStack);
    for i := 0 to |t.pbs|
      invariant Sound(s) && s.constraintsPB == t.pbs[..i] && BinsAre(s.genWatchList, t.bins)
      invariant SettledAt(s.constraintsPB, s.model.modelStack)
    {
      ghost var gen := s.genWatchList;
      TempPB(t, s.model.modelStack, s.model.numVars, i);
      SettledSnoc(s.constraintsPB, t.pbs[i], s.model.modelStack);
      AddPBConstraintCounter(s, t.pbs[i]);
      BinsAreGrow(gen, s.genWatchList, t.bins);
      assert t.pbs[..i + 1] == t.pbs[..i] + [t.pbs[i]];
    }
    assert t.pbs[..|t.pbs|] == t.pbs;
  }

  lemma NoneSettled(tr: seq<Elem>)
    ensures SettledAt([], tr)
  {
  }

  lemma TempShape(t: Temp, tr: seq<Elem>, n: nat)
    requires TempOk(t, tr, n)
    ensures forall i :: 0 <= i < |t.clauses| ==> ClauseOk(t.clauses[i], 2, n) && Open(t.clauses[i], tr)
    ensures forall i :: 0 <= i < |t.bins| ==>
              1 <= Var(t.bins[i].0) <= n && 1 <= Var(t.bins[i].1) <= n && t.bins[i].0 != t.bins[i].1
              && Open([t.bins[i].0, t.bins[i].1], tr)
  {
    forall i | 0 <= i < |t.clauses|
      ensures ClauseOk(t.clauses[i], 2, n) && Open(t.clauses[i], tr)
    {
      assert KeptOk(KeptClause(t.clauses[i]), tr, n);
    }
  }

  /** From the temporary lists to a fresh database. */
  method Rebuild(s: Solver, t: Temp)
    requires Rooted(s) && TempOk(t, s.model.modelStack, s.model.numVars)
    modifies s, s.store
    ensures Rooted(s) && s.constraintsPB == t.pbs && s.store.clauses == t.clauses && BinsAre(s.genWatchList, t.bins)
    ensures s.learnedPB == t.learnedPB && s.learnedClauses == t.learnedClauses
  {
    hide Ready, Sound, Solver.Valid, Solver.Closed, BinsAre, TempOk, ClauseOk, Open, SettledAt, Model.Valid;
    RootedAt(s);
    WithoutConflict(s);
    TempShape(t, s.model.modelStack, s.model.numVars);
    ClearDatabase(s);
    BuildBinaries(s, t.bins);
    BuildClauses(s, t.clauses, t.bins);
    SoundWithoutPBs(s, t.bins);
    RootLevel(s.model.modelStack);
    SoundLevel(s);
    BuildPBs(s, t);
    s.learnedPB, s.learnedClauses := t.learnedPB, t.learnedClauses;
    ReadyAgain(s);
  }

  lemma WithoutConflict(s: Solver)
    requires Ready(s)
    ensures s.conflict == NoConflict
  {
  }

  lemma SoundLevel(s: Solver)
    requires Sound(s)
    ensures s.model.decisionLevel == LevelOf(s.model.modelStack) && s.Valid() && s.model.Valid()
  {
  }

  lemma ReadyAgain(s: Solver)
    requires Sound(s) && SettledAt(s.constraintsPB, s.model.modelStack) && s.model.AllPropagated()
             && s.conflict == NoConflict
    ensures Ready(s)
  {
    FullPrefix(s.model.modelStack);
  }

  // ----- the cleanup -----

  lemma RebuiltImplied(s: Solver, t: Temp, F: iset<PB>)
    requires s.constraintsPB == t.pbs && s.store.clauses == t.clauses && BinsAre(s.genWatchList, t.bins)
    requires TempImplied(t, F)
    ensures DatabaseImplied(s, F)
  {
    hide Implied, ClausePB;
    forall l, o | l in s.genWatchList && Bin(o) in s.genWatchList[l]
      ensures Implied(F, ClausePB([l, o]))
    {
      if (l, o) in t.bins {
        var i :| 0 <= i < |t.bins| && t.bins[i] == (l, o);
      } else {
        var i :| 0 <= i < |t.bins| && t.bins[i] == (o, l);
        assert Implied(F, ClausePB([t.bins[i].0, t.bins[i].1]));
        SwapImplied(F, l, o);
      }
    }
  }

  lemma SwapImplied(F: iset<PB>, l: int, o: int)
    requires Implied(F, ClausePB([o, l]))
    ensures Implied(F, ClausePB([l, o]))
  {
    SwapClause(l, o);
  }

  lemma RebuiltSat(s: Solver, t: Temp, a: Lits, tr: seq<Elem>)
    requires s.constraintsPB == t.pbs && s.store.clauses == t.clauses && BinsAre(s.genWatchList, t.bins)
    requires s.learnedPB == t.learnedPB && s.learnedClauses == t.learnedClauses
    requires TempOk(t, tr, s.model.numVars) && DbSat(DbOf(s), RootLits(s.model.modelStack), s.model.numVars, a)
    ensures TempSat(t, a)
  {
    hide ClausePB, Sat;
    forall i | 0 <= i < |t.bins|
      ensures Sat(ClausePB([t.bins[i].0, t.bins[i].1]), a)
    {
      assert KeptOk(KeptBin(t.bins[i].0, t.bins[i].1), tr, s.model.numVars);
    }
  }

  /** A formula that knows and covers the database is exactly what the database says. */
  lemma SaysExactly(s: Solver, F: iset<PB>, a: Lits)
    requires s.model.Valid() && Knows(s, F) && Total(a)
    ensures Holds(F, a) ==> DbSat(DbOf(s), RootLits(s.model.modelStack), s.model.numVars, a)
  {
    if Holds(F, a) {
      KnowsParts(s, F);
      forall i | 0 <= i < |s.model.modelStack| && s.model.modelStack[i].dl == 0
        ensures s.model.modelStack[i].lit in a
      {
        RootIsTrue(s.model.modelStack, F, a, i);
      }
    }
  }

  /** With the literals of level 0, the lists say at least what the database says. */
  ghost predicate LosesNothing(t: Temp, d: Db, roots: set<int>, n: nat) {
    forall a: Lits :: Total(a) && TempSat(t, a) && (forall l :: l in roots ==> l in a) ==> DbSat(d, roots, n, a)
  }

  lemma RememberedAll(t: Temp, t2: Temp, t1: Temp, d: Db, removed: set<nat>, older: set<nat>, newest: int,
                      tr: seq<Elem>, n: nat, F: iset<PB>)
    requires Marked(d, removed, older, newest, tr) && newest < |d.pbs|
    requires DonePBs(t1, d, |d.pbs|, removed, newest, tr) && t2.pbs == t1.pbs && Stronger(t2, t1)
    requires DoneClauses(t2, d, |d.clauses|, removed, tr)
    requires BinsSoFar(t, t2, tr, n, F) && DoneBins(t, d.gen, n, tr)
    ensures Remembered(t, d, removed, older, newest, tr, n) && TempOk(t, tr, n) && TempImplied(t, F) && t.pbs == t1.pbs
  {
    hide Marked, DonePBs, DoneClauses, DoneBins, Stronger, TempOk, TempImplied;
    BinsStronger(t, t2, tr, n, F);
    StrongerTrans(t, t2, t1);
    DonePBsMore(t, t1, d, |d.pbs|, removed, newest, tr);
    DoneClausesMore(t, t2, d, |d.clauses|, removed, tr);
  }

  lemma BinsStronger(t: Temp, t2: Temp, tr: seq<Elem>, n: nat, F: iset<PB>)
    requires BinsSoFar(t, t2, tr, n, F)
    ensures Stronger(t, t2)
  {
    hide Sat, ClausePB;
    forall a: Lits | TempSat(t, a)
      ensures TempSat(t2, a)
    {
      assert forall i :: 0 <= i < |t2.bins| ==> t.bins[i] == t2.bins[i];
    }
  }

  lemma NothingLostAnywhere(s: Solver, t: Temp, removed: set<nat>, older: set<nat>, newest: int)
    requires Rooted(s) && forall j :: j in older ==> j < |s.constraintsPB|
    requires Remembered(t, DbOf(s), removed, older, newest, s.model.modelStack, s.model.numVars)
    ensures LosesNothing(t, Without(DbOf(s), older), RootLits(s.model.modelStack), s.model.numVars)
  {
    hide Ready, TempSat, DbSat, Remembered, Total, RootLits;
    forall a: Lits | Total(a) && TempSat(t, a) && forall l :: l in RootLits(s.model.modelStack) ==> l in a
      ensures DbSat(Without(DbOf(s), older), RootLits(s.model.modelStack), s.model.numVars, a)
    {
      NothingLost(s, t, removed, older, newest, a);
    }
  }

  /** The rebuilt database d' keeps the 0/1 points of d. */
  ghost predicate KeepsPoints(d': Db, d: Db, roots: set<int>, n: nat) {
    forall a: Lits :: Total(a) && DbSat(d', roots, n, a) ==> DbSat(d, roots, n, a)
  }

  ghost predicate KeepsPointsExactly(d': Db, d: Db, roots: set<int>, n: nat) {
    forall a: Lits :: Total(a) ==> (DbSat(d', roots, n, a) <==> DbSat(d, roots, n, a))
  }

  lemma RebuiltKeeps(s: Solver, t: Temp, d: Db, tr: seq<Elem>)
    requires s.constraintsPB == t.pbs && s.store.clauses == t.clauses && BinsAre(s.genWatchList, t.bins)
    requires s.learnedPB == t.learnedPB && s.learnedClauses == t.learnedClauses && TempOk(t, tr, s.model.numVars)
    requires LosesNothing(t, d, RootLits(s.model.modelStack), s.model.numVars)
    ensures KeepsPoints(DbOf(s), d, RootLits(s.model.modelStack), s.model.numVars)
  {
    hide BinsAre, TempOk, TempSat, Total, RootLits;
    var roots := RootLits(s.model.modelStack);
    forall a: Lits | Total(a) && DbSat(DbOf(s), roots, s.model.numVars, a)
      ensures DbSat(d, roots, s.model.numVars, a)
    {
      RebuiltSat(s, t, a, tr);
      assert forall l :: l in roots ==> l in a;
      hide DbSat;
    }
  }

  lemma KeepsCovers(d': Db, d: Db, roots: set<int>, n: nat, F0: iset<PB>)
    requires KeepsPoints(d', d, roots, n) && DbCovers(d, roots, n, F0)
    ensures DbCovers(d', roots, n, F0)
  {
    hide DbSat, Total;
  }

  lemma KeepsExactly(s: Solver, d: Db, F: iset<PB>)
    requires s.model.Valid() && Knows(s, F) && KeepsPoints(DbOf(s), d, RootLits(s.model.modelStack), s.model.numVars)
    ensures DbCovers(d, RootLits(s.model.modelStack), s.model.numVars, F) ==>
              KeepsPointsExactly(DbOf(s), d, RootLits(s.model.modelStack), s.model.numVars)
  {
    hide DbSat, Total, RootLits, Knows, Model.Valid, Holds;
    var roots := RootLits(s.model.modelStack);
    if DbCovers(d, roots, s.model.numVars, F) {
      forall a: Lits | Total(a) && DbSat(d, roots, s.model.numVars, a)
        ensures DbSat(DbOf(s), roots, s.model.numVars, a)
      {
        SaysExactly(s, F, a);
      }
    }
  }

  /** What became of a constraint is in the database, as a lemma exactly when it was one. */
  ghost predicate InDatabase(d: Db, k: Kept, learned: bool) {
    match k
    case KeptPB(c) => exists i :: 0 <= i < |d.pbs| && d.pbs[i] == c && (i in d.learnedPB <==> learned)
    case KeptClause(lits) =>
      exists i :: 0 <= i < |d.clauses| && d.clauses[i] == lits && (i in d.learnedClauses <==> learned)
    case KeptBin(l1, l2) => l1 in d.gen && Bin(l2) in d.gen[l1]
  }

  ghost predicate Survives(d: Db, c: PB, learned: bool, tr: seq<Elem>, n: nat) {
    exists k: Kept :: KeptOk(k, tr, n) && SameUnder(k, c, tr) && InDatabase(d, k, learned)
  }

  function CtrOf(d: Db, k: nat): PB
    requires k < |d.pbs| + |d.clauses|
  {
    if k < |d.pbs| then d.pbs[k] else ClausePB(d.clauses[k - |d.pbs|])
  }

  /** The constraint stays: it is the newest objective constraint, or neither an older one, nor satisfied, nor bad. */
  ghost predicate Stays(d: Db, older: set<nat>, newest: int, bad: set<nat>, tr: seq<Elem>, k: nat)
    requires k < |d.pbs| + |d.clauses|
  {
    k == newest || (k !in older && k !in bad && !SatisfiedCtr(d, k, tr))
  }

  /** At most half of the lemmas are bad, and everything that stays is in the new database. */
  ghost predicate DropsHalfAtMost(d': Db, d: Db, older: set<nat>, newest: int, bad: set<nat>, tr: seq<Elem>, n: nat) {
    && bad <= Lemmas(d, older, newest, tr) && |bad| <= |Lemmas(d, older, newest, tr)| / 2
    && forall k: nat :: k < |d.pbs| + |d.clauses| && Stays(d, older, newest, bad, tr, k) ==>
         Survives(d', CtrOf(d, k), LearnedCtr(d, k), tr, n)
  }

  lemma BinsGrewLists(t: Temp, t2: Temp, tr: seq<Elem>, n: nat, F: iset<PB>)
    requires BinsSoFar(t, t2, tr, n, F)
    ensures ListsGrew(t2, t)
  {
    hide TempOk, TempImplied;
  }

  lemma RebuiltHas(d': Db, t: Temp, c: PB, learned: bool, tr: seq<Elem>, n: nat)
    requires d'.pbs == t.pbs && d'.clauses == t.clauses && BinsAre(d'.gen, t.bins)
    requires d'.learnedPB == t.learnedPB && d'.learnedClauses == t.learnedClauses && Entered(t, c, learned, tr, n)
    ensures Survives(d', c, learned, tr, n)
  {
    hide KeptOk, SameUnder;
    var k: Kept :| KeptOk(k, tr, n) && SameUnder(k, c, tr) && InLists(t, k, learned);
    assert InDatabase(d', k, learned);
  }

  lemma OthersSurvive(d': Db, d: Db, t: Temp, t2: Temp, t1: Temp, removed: set<nat>, older: set<nat>, newest: int,
                      bad: set<nat>, tr: seq<Elem>, n: nat, F: iset<PB>)
    requires newest < |d.pbs| && bad <= Lemmas(d, older, newest, tr) && |bad| <= |Lemmas(d, older, newest, tr)| / 2
    requires forall k :: k in removed - bad && k < |d.pbs| + |d.clauses| && k != newest ==>
               k in older || SatisfiedCtr(d, k, tr)
    requires EnteredPBs(t1, d, |d.pbs|, removed, newest, tr, n) && ListsGrew(t1, t2)
    requires EnteredClauses(t2, d, |d.clauses|, removed, tr, n) && BinsSoFar(t, t2, tr, n, F)
    requires d'.pbs == t.pbs && d'.clauses == t.clauses && BinsAre(d'.gen, t.bins)
    requires d'.learnedPB == t.learnedPB && d'.learnedClauses == t.learnedClauses
    ensures DropsHalfAtMost(d', d, older, newest, bad, tr, n)
  {
    hide Entered, ListsGrew, BinsSoFar, Survives, SatisfiedCtr, BinsAre, ClausePB;
    BinsGrewLists(t, t2, tr, n, F);
    GrewTwice(t1, t2, t);
    EnteredPBsMore(t1, t, d, |d.pbs|, removed, newest, tr, n);
    EnteredClausesMore(t2, t, d, |d.clauses|, removed, tr, n);
    forall k: nat | k < |d.pbs| + |d.clauses| && Stays(d, older, newest, bad, tr, k)
      ensures Survives(d', CtrOf(d, k), LearnedCtr(d, k), tr, n)
    {
      assert k == newest || k !in removed;
      assert k >= |d.pbs| ==> |d.pbs| + (k - |d.pbs|) !in removed;
      RebuiltHas(d', t, CtrOf(d, k), LearnedCtr(d, k), tr, n);
    }
  }

  /** The objective constraints that are no longer the newest. */
  function Older(objectiveFunctions: seq<nat>): set<nat> {
    set i | 0 <= i < |objectiveFunctions| - 1 :: objectiveFunctions[i]
  }

  /** The newest objective constraint, or -1. */
  function Newest(objectiveFunctions: seq<nat>): int {
    if |objectiveFunctions| > 0 then objectiveFunctions[|objectiveFunctions| - 1] else -1
  }

  /** doCleanup.  The 0/1 points that satisfy level 0, the initial constraints other than the older objective
      constraints, and the binary clauses are kept exactly; all invariants of propagation hold again, the newest
      objective constraint is where objNum says, and everything still follows from F.  At most half of the lemmas go
      for being bad; all other constraints that are not satisfied are in the new database, lemmas as lemmas. */
  method DoCleanup(s: Solver, objectiveFunctions: seq<nat>, ghost F: iset<PB>, ghost F0: iset<PB>)
    returns (objNum: int, objectiveFunctions': seq<nat>, ghost bad: set<nat>)
    requires Rooted(s) && Knows(s, F)
    requires forall i :: 0 <= i < |objectiveFunctions| ==> objectiveFunctions[i] < |s.constraintsPB|
    requires DbCovers(Without(DbOf(s), Older(objectiveFunctions)), RootLits(s.model.modelStack), s.model.numVars, F0)
    modifies s, s.store
    ensures Rooted(s) && Knows(s, F) && Covers(s, F0)
    ensures s.model.modelStack == old(s.model.modelStack)
    ensures KeepsPoints(DbOf(s), old(Without(DbOf(s), Older(objectiveFunctions))), RootLits(s.model.modelStack),
                        s.model.numVars)
    ensures var before, roots := old(Without(DbOf(s), Older(objectiveFunctions))), RootLits(s.model.modelStack);
            DbCovers(before, roots, s.model.numVars, F) ==>
              KeepsPointsExactly(DbOf(s), before, roots, s.model.numVars)
    ensures if objectiveFunctions == [] then objNum == -1 && objectiveFunctions' == []
            else 0 <= objNum < |s.constraintsPB| && objectiveFunctions' == [objNum]
                 && s.constraintsPB[objNum] == old(s.constraintsPB)[objectiveFunctions[|objectiveFunctions| - 1]]
    ensures DropsHalfAtMost(DbOf(s), old(DbOf(s)), Older(objectiveFunctions), Newest(objectiveFunctions), bad,
                            s.model.modelStack, s.model.numVars)
  {
    hide DropsHalfAtMost, EnteredPBs, EnteredClauses, ListsGrew, Lemmas, SatisfiedCtr;
    hide Ready, Knows, Marked, Solver.Valid, Model.Valid, TempOk, TempImplied, DonePBs, DoneClauses, DoneBins,
         BinsSoFar, BinsAre, DbCovers, RootLits, Remembered, Stronger, DatabaseImplied, RootsImplied, LosesNothing,
         KeepsPoints, KeepsPointsExactly, Older;
    ghost var d, tr, n := DbOf(s), s.model.modelStack, s.model.numVars;
    var older := Older(objectiveFunctions);
    ghost var w := Without(d, older);
    OlderInRange(objectiveFunctions, |s.constraintsPB|);
    var newest: int := -1;
    if |objectiveFunctions| > 0 {
      newest := objectiveFunctions[|objectiveFunctions| - 1];
    }
    var removed;
    ghost var learnts;
    removed, learnts, bad := MarkRemoved(s, older, newest);
    var t1;
    t1, objNum := CleanupPBs(s, removed, older, newest, F);
    var t2 := CleanupClauses(s, t1, removed, older, newest, F);
    var t := CleanupBinaries(s, t2, F);
    RememberedAll(t, t2, t1, d, removed, older, newest, tr, n, F);
    NothingLostAnywhere(s, t, removed, older, newest);
    RootsKnown(s, F);
    Rebuild(s, t);
    RootedAt(s);
    RebuiltImplied(s, t, F);
    KnownAgain(s, F);
    RebuiltKeeps(s, t, w, tr);
    OthersSurvive(DbOf(s), d, t, t2, t1, removed, older, newest, bad, tr, n, F);
    KeepsCovers(DbOf(s), w, RootLits(tr), n, F0);
    KeepsExactly(s, w, F);
    objectiveFunctions' := if objNum == -1 then [] else [objNum];
  }

  lemma OlderInRange(objectiveFunctions: seq<nat>, n: nat)
    requires forall i :: 0 <= i < |objectiveFunctions| ==> objectiveFunctions[i] < n
    ensures forall j :: j in Older(objectiveFunctions) ==> j < n
  {
  }

  lemma RootsKnown(s: Solver, F: iset<PB>)
    requires Knows(s, F)
    ensures RootsImplied(s.model.modelStack, F)
  {
  }

  lemma KnownAgain(s: Solver, F: iset<PB>)
    requires DatabaseImplied(s, F) && RootsImplied(s.model.modelStack, F)
    ensures Knows(s, F)
  {
  }
}
