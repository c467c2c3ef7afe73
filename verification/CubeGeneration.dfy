/** The recursive lookahead splitter (generate_cubes_rec and generate_cubes, cubePB.cpp).

    The backend is seen through what it answers on a path of assumed literals; being a function of the path it is
    deterministic, and undoing assumptions restores its earlier answers. */
module CubeGeneration {
  import opened PBCore

  const MAX_CUBE_GENERATION_DEPTH := 11

  /** The state of the backend after a path of assumptions: in conflict, or with these literals true. */
  datatype Answer = InConflict | Assigned(lits: set<int>)

  /** The backend, the part of the ranking that depends on the objective, and the fixed arguments. */
  datatype Config = Config(answer: seq<int> -> Answer, bonus: (nat, int, int, int) -> nat, vars: seq<int>, nVars: nat,
                           optimizing: bool)

  predicate IsUndef(lits: set<int>, l: int) {
    l !in lits && -l !in lits
  }

  ghost predicate AllTrue(path: seq<int>, a: Lits) {
    forall i :: 0 <= i < |path| ==> path[i] in a
  }

  /** a satisfies the formula and everything assumed. */
  ghost predicate Extending(F: iset<PB>, path: seq<int>, a: Lits) {
    Total(a) && Holds(F, a) && AllTrue(path, a)
  }

  /** Assuming an undefined literal either fails, or keeps what was assigned and adds the literal. */
  ghost predicate Monotone(cfg: Config, path: seq<int>, l: int) {
    cfg.answer(path).Assigned? && l != 0 && IsUndef(cfg.answer(path).lits, l) ==>
      cfg.answer(path + [l]).InConflict?
      || (cfg.answer(path).lits <= cfg.answer(path + [l]).lits && l in cfg.answer(path + [l]).lits)
  }

  ghost predicate WellBehaved(cfg: Config) {
    && (forall i :: 0 <= i < |cfg.vars| ==> cfg.vars[i] > 0)
    && (forall path: seq<int>, l: int :: Monotone(cfg, path, l))
  }

  /** A conflict means that formula and path exclude each other. */
  ghost predicate Refutes(cfg: Config, F: iset<PB>, path: seq<int>) {
    cfg.answer(path).InConflict? ==> forall a: Lits :: !Extending(F, path, a)
  }

  /** With every variable assigned and no conflict there is a solution. */
  ghost predicate Completes(cfg: Config, F: iset<PB>, path: seq<int>) {
    cfg.answer(path).Assigned? && (forall i :: 0 <= i < |cfg.vars| ==> !IsUndef(cfg.answer(path).lits, cfg.vars[i])) ==>
      exists a: Lits :: Extending(F, path, a)
  }

  ghost predicate Trustworthy(cfg: Config, F: iset<PB>) {
    && WellBehaved(cfg)
    && (forall path: seq<int> :: Refutes(cfg, F, path))
    && (forall path: seq<int> :: Completes(cfg, F, path))
  }

  // ----- lookahead -----

  /** The best branching variable so far; variable 0 is none. */
  datatype Best = Best(v: int, score: int, tie: int, evalPos: int, evalNeg: int)

  const NOTHING := Best(0, -1, -1, 0, 0)

  datatype Scanned = BothFail | OneFails(lit: int) | Ranked(best: Best)

  function Eval(cfg: Config, path: seq<int>, l: int): int
    requires cfg.answer(path).Assigned?
  {
    match cfg.answer(path + [l])
    case InConflict => cfg.nVars + 10
    case Assigned(lits) => |lits| - |cfg.answer(path).lits|
  }

  function Better(cfg: Config, depth: nat, best: Best, v: int, pos: int, neg: int): Best {
    var score := pos * neg + cfg.bonus(depth, v, pos, neg);
    var tie := pos + neg;
    if score > best.score || (score == best.score && tie > best.tie) then Best(v, score, tie, pos, neg) else best
  }

  /** One pass over the undefined variables, stopping at the first failed literal. */
  function Scan(cfg: Config, path: seq<int>, depth: nat, i: nat, best: Best): Scanned
    requires cfg.answer(path).Assigned? && i <= |cfg.vars|
    decreases |cfg.vars| - i
  {
    if i == |cfg.vars| then Ranked(best)
    else
      var v := cfg.vars[i];
      if !IsUndef(cfg.answer(path).lits, v) then Scan(cfg, path, depth, i + 1, best)
      else
        var okPos, okNeg := cfg.answer(path + [v]).Assigned?, cfg.answer(path + [-v]).Assigned?;
        if !okPos && !okNeg then BothFail
        else if !okPos || !okNeg then OneFails(if okPos then v else -v)
        else
          Scan(cfg, path, depth, i + 1, Better(cfg, depth, best, v, Eval(cfg, path, v), Eval(cfg, path, -v)))
  }

  function Undefined(cfg: Config, path: seq<int>): set<int>
    requires cfg.answer(path).Assigned?
  {
    set i | 0 <= i < |cfg.vars| && IsUndef(cfg.answer(path).lits, cfg.vars[i]) :: cfg.vars[i]
  }

  /** A failed literal is undefined here and its complement refuted; assuming it leaves fewer undefined variables. */
  lemma {:induction false} FailedLiteral(cfg: Config, path: seq<int>, depth: nat, i: nat, best: Best)
    requires WellBehaved(cfg) && cfg.answer(path).Assigned? && i <= |cfg.vars|
    requires Scan(cfg, path, depth, i, best).OneFails?
    ensures var l := Scan(cfg, path, depth, i, best).lit;
            && l != 0 && IsUndef(cfg.answer(path).lits, l)
            && cfg.answer(path + [l]).Assigned? && cfg.answer(path + [-l]).InConflict?
            && Undefined(cfg, path + [l]) < Undefined(cfg, path)
    decreases |cfg.vars| - i
  {
    var v := cfg.vars[i];
    if IsUndef(cfg.answer(path).lits, v) && (cfg.answer(path + [v]).InConflict?
                                             || cfg.answer(path + [-v]).InConflict?) {
      var l := if cfg.answer(path + [v]).Assigned? then v else -v;
      assert Monotone(cfg, path, l);
      assert v in Undefined(cfg, path) && v !in Undefined(cfg, path + [l]);
    } else if IsUndef(cfg.answer(path).lits, v) {
      FailedLiteral(cfg, path, depth, i + 1, Better(cfg, depth, best, v, Eval(cfg, path, v), Eval(cfg, path, -v)));
    } else {
      FailedLiteral(cfg, path, depth, i + 1, best);
    }
  }

  /** Failed literals are assumed until a pass finds none: the node is refuted, or a variable is ranked first. */
  datatype Looked = Dead(failed: nat) | Alive(path: seq<int>, best: Best)

  function Look(cfg: Config, path: seq<int>, depth: nat, failed: nat): (r: Looked)
    requires WellBehaved(cfg) && cfg.answer(path).Assigned?
    ensures r.Alive? ==> cfg.answer(r.path).Assigned?
    decreases Undefined(cfg, path)
  {
    match Scan(cfg, path, depth, 0, NOTHING)
    case BothFail => Dead(failed)
    case Ranked(best) => Alive(path, best)
    case OneFails(l) =>
      FailedLiteral(cfg, path, depth, 0, NOTHING);
      Look(cfg, path + [l], depth, failed + 1)
  }

  // ----- the cubes of a subtree -----

  datatype Out = Out(cubes: seq<seq<int>>, theta: real, sat: bool)

  /** Where a branch is not entered the threshold drops. */
  function Child(cfg: Config, path: seq<int>, current: seq<int>, l: int, theta: real, sat: bool,
                 distributed: bool, worker: int, workers: nat): Out
    requires WellBehaved(cfg) && cfg.answer(path).Assigned? && |current| < MAX_CUBE_GENERATION_DEPTH
    decreases MAX_CUBE_GENERATION_DEPTH - |current|, 0
  {
    if cfg.answer(path + [l]).Assigned? then
      Gen(cfg, path + [l], current + [l], theta, sat, distributed, worker, workers)
    else Out([], theta * 0.7, sat)
  }

  function FirstLit(best: Best): int {
    if best.evalPos < best.evalNeg then best.v else -best.v
  }

  function Gen(cfg: Config, path: seq<int>, current: seq<int>, theta0: real, sat: bool,
               distributed: bool, worker: int, workers: nat): Out
    requires WellBehaved(cfg) && cfg.answer(path).Assigned? && |current| <= MAX_CUBE_GENERATION_DEPTH
    decreases MAX_CUBE_GENERATION_DEPTH - |current|, 2
  {
    if sat && !cfg.optimizing then Out([], theta0, sat)
    else
      var theta1 := theta0 * 1.05;
      var numDec := |current|;
      if numDec >= MAX_CUBE_GENERATION_DEPTH then
        Out(if !distributed || workers == 1 || worker == 0 then [current] else [], theta1, sat)
      else
        var theta := if numDec > 20 then theta1 * 0.7 else theta1;
        if (numDec * |cfg.answer(path).lits|) as real > theta * cfg.nVars as real then Out([current], theta, sat)
        else
          match Look(cfg, path, numDec, 0)
          case Dead(_) => Out([], theta, sat)
          case Alive(p, best) =>
            if best.v == 0 then (if cfg.optimizing then Out([current], theta, sat) else Out([], theta, true))
            else
              Branch(cfg, p, current, best, theta, sat, distributed, worker, workers)
  }

  /** Both branches, or with several workers the one of this worker's group. */
  function Branch(cfg: Config, p: seq<int>, current: seq<int>, best: Best, theta: real, sat: bool,
                  distributed: bool, worker: int, workers: nat): Out
    requires WellBehaved(cfg) && cfg.answer(p).Assigned? && |current| < MAX_CUBE_GENERATION_DEPTH
    decreases MAX_CUBE_GENERATION_DEPTH - |current|, 1
  {
    var l := FirstLit(best);
    if distributed && workers > 1 then
      var left := workers / 2;
      if worker < left then Child(cfg, p, current, l, theta, sat, true, worker, left)
      else Child(cfg, p, current, -l, theta, sat, true, worker - left, workers - left)
    else
      var first := Child(cfg, p, current, l, theta, sat, distributed, worker, workers);
      if first.sat && !cfg.optimizing then first
      else
        var second := Child(cfg, p, current, -l, first.theta, first.sat, distributed, worker, workers);
        Out(first.cubes + second.cubes, second.theta, second.sat)
  }

  // ----- what a pass finds -----

  /** A ranked variable is undefined and neither of its literals fails. */
  ghost predicate Open(cfg: Config, path: seq<int>, best: Best)
    requires cfg.answer(path).Assigned?
  {
    best == NOTHING
    || (best.v > 0 && best.score >= 0 && IsUndef(cfg.answer(path).lits, best.v)
        && cfg.answer(path + [best.v]).Assigned? && cfg.answer(path + [-best.v]).Assigned?)
  }

  lemma EvalPositive(cfg: Config, path: seq<int>, l: int)
    requires WellBehaved(cfg) && cfg.answer(path).Assigned? && l != 0 && IsUndef(cfg.answer(path).lits, l)
    ensures Eval(cfg, path, l) >= 0
  {
    assert Monotone(cfg, path, l);
    if cfg.answer(path + [l]).Assigned? {
      SubsetSize(cfg.answer(path).lits, cfg.answer(path + [l]).lits);
    }
  }

  lemma SubsetSize(S: set<int>, T: set<int>)
    requires S <= T
    ensures |S| <= |T|
  {
    assert T == S + (T - S);
  }

  lemma ProductNonNegative(x: int, y: int)
    requires x >= 0 && y >= 0
    ensures x * y >= 0
  {
  }

  lemma BetterIsOpen(cfg: Config, path: seq<int>, depth: nat, best: Best, v: int)
    requires WellBehaved(cfg) && cfg.answer(path).Assigned? && Open(cfg, path, best)
    requires v > 0 && IsUndef(cfg.answer(path).lits, v)
    requires cfg.answer(path + [v]).Assigned? && cfg.answer(path + [-v]).Assigned?
    ensures var b := Better(cfg, depth, best, v, Eval(cfg, path, v), Eval(cfg, path, -v));
            Open(cfg, path, b) && b.v > 0
  {
    EvalPositive(cfg, path, v);
    EvalPositive(cfg, path, -v);
    ProductNonNegative(Eval(cfg, path, v), Eval(cfg, path, -v));
  }

  /** Without a failed literal the pass ends with an open variable, or there was nothing undefined left. */
  lemma {:induction false} ScanRanks(cfg: Config, path: seq<int>, depth: nat, i: nat, best: Best)
    requires WellBehaved(cfg) && cfg.answer(path).Assigned? && i <= |cfg.vars| && Open(cfg, path, best)
    requires Scan(cfg, path, depth, i, best).Ranked?
    ensures var b := Scan(cfg, path, depth, i, best).best;
            Open(cfg, path, b) && (best.v > 0 ==> b.v > 0)
            && (b.v == 0 ==> forall k :: i <= k < |cfg.vars| ==> !IsUndef(cfg.answer(path).lits, cfg.vars[k]))
    decreases |cfg.vars| - i
  {
    if i < |cfg.vars| {
      var v := cfg.vars[i];
      if IsUndef(cfg.answer(path).lits, v) {
        BetterIsOpen(cfg, path, depth, best, v);
        ScanRanks(cfg, path, depth, i + 1, Better(cfg, depth, best, v, Eval(cfg, path, v), Eval(cfg, path, -v)));
      } else {
        ScanRanks(cfg, path, depth, i + 1, best);
      }
    }
  }

  /** When both literals of a variable fail, nothing extends the path. */
  lemma {:induction false} BothFailRefutes(cfg: Config, F: iset<PB>, path: seq<int>, depth: nat, i: nat, best: Best,
                                           a: Lits)
    requires Trustworthy(cfg, F) && cfg.answer(path).Assigned? && i <= |cfg.vars|
    requires Scan(cfg, path, depth, i, best).BothFail?
    ensures !Extending(F, path, a)
    decreases |cfg.vars| - i
  {
    var v := cfg.vars[i];
    if !IsUndef(cfg.answer(path).lits, v) {
      BothFailRefutes(cfg, F, path, depth, i + 1, best, a);
    } else if cfg.answer(path + [v]).InConflict? && cfg.answer(path + [-v]).InConflict? {
      assert Refutes(cfg, F, path + [v]) && Refutes(cfg, F, path + [-v]);
      if Extending(F, path, a) {
        ExtendByLiteral(F, path, v, a);
      }
    } else {
      BothFailRefutes(cfg, F, path, depth, i + 1,
                      Better(cfg, depth, best, v, Eval(cfg, path, v), Eval(cfg, path, -v)), a);
    }
  }

  /** A total assignment decides every variable. */
  lemma ExtendByLiteral(F: iset<PB>, path: seq<int>, l: int, a: Lits)
    requires Extending(F, path, a) && l != 0
    ensures Extending(F, path + [l], a) || Extending(F, path + [-l], a)
  {
    var m := if l in a then l else -l;
    assert m in a;
    var p := path + [m];
    forall i | 0 <= i < |p|
      ensures p[i] in a
    {
      assert i < |path| ==> p[i] == path[i];
    }
  }

  /** What lookahead does to the assignments that extend the path. */
  lemma {:induction false} LookKeeps(cfg: Config, F: iset<PB>, path: seq<int>, depth: nat, failed: nat, a: Lits)
    requires Trustworthy(cfg, F) && cfg.answer(path).Assigned? && Extending(F, path, a)
    ensures var r := Look(cfg, path, depth, failed);
            r.Alive? && Extending(F, r.path, a)
    decreases Undefined(cfg, path)
  {
    match Scan(cfg, path, depth, 0, NOTHING)
    case BothFail =>
      BothFailRefutes(cfg, F, path, depth, 0, NOTHING, a);
    case Ranked(best) =>
    case OneFails(l) =>
      FailedLiteral(cfg, path, depth, 0, NOTHING);
      assert Refutes(cfg, F, path + [-l]);
      ExtendByLiteral(F, path, l, a);
      LookKeeps(cfg, F, path + [l], depth, failed + 1, a);
  }

  lemma {:induction false} LookShape(cfg: Config, path: seq<int>, depth: nat, failed: nat)
    requires WellBehaved(cfg) && cfg.answer(path).Assigned?
    ensures var r := Look(cfg, path, depth, failed);
            r.Alive? ==> path <= r.path && Open(cfg, r.path, r.best)
                         && (r.best.v == 0 ==> forall k :: 0 <= k < |cfg.vars| ==>
                               !IsUndef(cfg.answer(r.path).lits, cfg.vars[k]))
    decreases Undefined(cfg, path)
  {
    match Scan(cfg, path, depth, 0, NOTHING)
    case BothFail =>
    case Ranked(best) =>
      ScanRanks(cfg, path, depth, 0, NOTHING);
    case OneFails(l) =>
      FailedLiteral(cfg, path, depth, 0, NOTHING);
      LookShape(cfg, path + [l], depth, failed + 1);
  }

  // ----- the cubes cover the subtree -----

  ghost predicate Covered(cubes: seq<seq<int>>, a: Lits) {
    exists k :: 0 <= k < |cubes| && AllTrue(cubes[k], a)
  }

  /** The decisions are part of the path; failed literals come in addition. */
  ghost predicate OnPath(current: seq<int>, path: seq<int>) {
    forall i :: 0 <= i < |current| ==> current[i] in path
  }

  lemma OnPathTrue(current: seq<int>, path: seq<int>, a: Lits)
    requires OnPath(current, path) && AllTrue(path, a)
    ensures AllTrue(current, a)
  {
    forall i | 0 <= i < |current|
      ensures current[i] in a
    {
      var j :| 0 <= j < |path| && path[j] == current[i];
    }
  }

  lemma OnPathStep(current: seq<int>, path: seq<int>, p: seq<int>, l: int)
    requires OnPath(current, path) && path <= p
    ensures OnPath(current + [l], p + [l])
  {
    forall i | 0 <= i < |current|
      ensures current[i] in p
    {
      var j :| 0 <= j < |path| && path[j] == current[i];
      assert p[j] == current[i];
    }
  }

  lemma CoveredAppend(x: seq<seq<int>>, y: seq<seq<int>>, a: Lits)
    requires Covered(x, a) || Covered(y, a)
    ensures Covered(x + y, a)
  {
    if Covered(x, a) {
      var k :| 0 <= k < |x| && AllTrue(x[k], a);
      assert (x + y)[k] == x[k];
    } else {
      var k :| 0 <= k < |y| && AllTrue(y[k], a);
      assert (x + y)[|x| + k] == y[k];
    }
  }

  /** One worker alone: unless it found the formula satisfiable, its cubes cover every solution of the subtree. */
  lemma {:induction false} GenCovers(cfg: Config, F: iset<PB>, path: seq<int>, current: seq<int>, theta0: real,
                                     sat: bool, distributed: bool, worker: int, workers: nat, a: Lits)
    requires Trustworthy(cfg, F) && cfg.answer(path).Assigned? && |current| <= MAX_CUBE_GENERATION_DEPTH
    requires !distributed || workers == 1
    requires OnPath(current, path) && Extending(F, path, a)
    ensures var out := Gen(cfg, path, current, theta0, sat, distributed, worker, workers);
            (out.sat && !cfg.optimizing) || Covered(out.cubes, a)
    decreases MAX_CUBE_GENERATION_DEPTH - |current|, 1
  {
    hide Scan, Better, Eval;
    OnPathTrue(current, path, a);
    assert AllTrue([current][0], a);
    assert Covered([current], a);
    if |current| < MAX_CUBE_GENERATION_DEPTH {
      LookKeeps(cfg, F, path, |current|, 0, a);
      LookShape(cfg, path, |current|, 0);
      var r := Look(cfg, path, |current|, 0);
      if r.best.v != 0 {
        var theta := if |current| > 20 then theta0 * 1.05 * 0.7 else theta0 * 1.05;
        BranchCovers(cfg, F, path, r.path, current, r.best, theta, sat, distributed, worker, workers, a);
      }
    }
  }

  lemma {:induction false} BranchCovers(cfg: Config, F: iset<PB>, path: seq<int>, p: seq<int>, current: seq<int>,
                                        best: Best, theta: real, sat: bool, distributed: bool, worker: int,
                                        workers: nat, a: Lits)
    requires Trustworthy(cfg, F) && cfg.answer(p).Assigned? && |current| < MAX_CUBE_GENERATION_DEPTH
    requires !distributed || workers == 1
    requires OnPath(current, path) && path <= p && Extending(F, p, a) && best.v != 0
    ensures var out := Branch(cfg, p, current, best, theta, sat, distributed, worker, workers);
            (out.sat && !cfg.optimizing) || Covered(out.cubes, a)
    decreases MAX_CUBE_GENERATION_DEPTH - |current|, 0
  {
    var l := FirstLit(best);
    var first := Child(cfg, p, current, l, theta, sat, distributed, worker, workers);
    OnPathStep(current, path, p, l);
    OnPathStep(current, path, p, -l);
    ExtendByLiteral(F, p, l, a);
    if Extending(F, p + [l], a) {
      assert Refutes(cfg, F, p + [l]);
      GenCovers(cfg, F, p + [l], current + [l], theta, sat, distributed, worker, workers, a);
      if !(first.sat && !cfg.optimizing) {
        CoveredAppend(first.cubes, Child(cfg, p, current, -l, first.theta, first.sat, distributed, worker,
                                         workers).cubes, a);
      }
    } else if !(first.sat && !cfg.optimizing) {
      assert Refutes(cfg, F, p + [-l]);
      GenCovers(cfg, F, p + [-l], current + [-l], first.theta, first.sat, distributed, worker, workers, a);
      var second := Child(cfg, p, current, -l, first.theta, first.sat, distributed, worker, workers);
      if !(second.sat && !cfg.optimizing) {
        CoveredAppend(first.cubes, second.cubes, a);
      }
    }
  }

  // ----- the cubes exclude each other -----

  ghost predicate Contradict(x: seq<int>, y: seq<int>) {
    exists i, j :: 0 <= i < |x| && 0 <= j < |y| && x[i] == -y[j]
  }

  ghost predicate PairwiseContradict(cubes: seq<seq<int>>) {
    forall i, j :: 0 <= i < j < |cubes| ==> Contradict(cubes[i], cubes[j])
  }

  ghost predicate AllExtend(cubes: seq<seq<int>>, current: seq<int>) {
    forall i :: 0 <= i < |cubes| ==> current <= cubes[i] && |cubes[i]| <= MAX_CUBE_GENERATION_DEPTH
  }

  lemma BranchesContradict(x: seq<seq<int>>, y: seq<seq<int>>, current: seq<int>, l: int)
    requires PairwiseContradict(x) && PairwiseContradict(y) && AllExtend(x, current + [l])
             && AllExtend(y, current + [-l])
    ensures PairwiseContradict(x + y) && AllExtend(x + y, current)
  {
    var n, s := |current|, x + y;
    forall i | 0 <= i < |s|
      ensures current <= s[i] && |s[i]| <= MAX_CUBE_GENERATION_DEPTH && n < |s[i]| && s[i][n] == if i < |x| then l
              else -l
    {
      var c := if i < |x| then current + [l] else current + [-l];
      assert c <= s[i] && c[n] == s[i][n] && c[..n] == current;
      assert s[i][..n] == s[i][..n + 1][..n];
    }
    forall i, j | 0 <= i < j < |s|
      ensures Contradict(s[i], s[j])
    {
      if i < |x| <= j {
        assert s[i][n] == -s[j][n];
      } else if j < |x| {
        assert s[i] == x[i] && s[j] == x[j];
      } else {
        assert s[i] == y[i - |x|] && s[j] == y[j - |x|];
      }
    }
  }

  lemma LongerExtend(cubes: seq<seq<int>>, current: seq<int>, l: int)
    requires AllExtend(cubes, current + [l])
    ensures AllExtend(cubes, current)
  {
    forall i | 0 <= i < |cubes|
      ensures current <= cubes[i]
    {
      assert (current + [l])[..|current|] == current;
      assert cubes[i][..|current|] == cubes[i][..|current| + 1][..|current|];
    }
  }

  /** The cubes of one call contradict each other pairwise and all extend the current decisions. */
  lemma {:induction false} GenContradicts(cfg: Config, path: seq<int>, current: seq<int>, theta0: real, sat: bool,
                                          distributed: bool, worker: int, workers: nat)
    requires WellBehaved(cfg) && cfg.answer(path).Assigned? && |current| <= MAX_CUBE_GENERATION_DEPTH
    ensures var out := Gen(cfg, path, current, theta0, sat, distributed, worker, workers);
            PairwiseContradict(out.cubes) && AllExtend(out.cubes, current)
    decreases MAX_CUBE_GENERATION_DEPTH - |current|, 2
  {
    hide Look, PairwiseContradict, AllExtend;
    AtMostOneCube(current);
    if |current| < MAX_CUBE_GENERATION_DEPTH {
      var theta := if |current| > 20 then theta0 * 1.05 * 0.7 else theta0 * 1.05;
      match Look(cfg, path, |current|, 0)
      case Dead(_) =>
      case Alive(p, best) =>
        BranchContradicts(cfg, p, current, best, theta, sat, distributed, worker, workers);
    }
  }

  lemma AtMostOneCube(current: seq<int>)
    requires |current| <= MAX_CUBE_GENERATION_DEPTH
    ensures PairwiseContradict([]) && AllExtend([], current) && PairwiseContradict([current])
            && AllExtend([current], current)
  {
  }

  lemma {:induction false} BranchContradicts(cfg: Config, p: seq<int>, current: seq<int>, best: Best, theta: real,
                                             sat: bool, distributed: bool, worker: int, workers: nat)
    requires WellBehaved(cfg) && cfg.answer(p).Assigned? && |current| < MAX_CUBE_GENERATION_DEPTH
    ensures var out := Branch(cfg, p, current, best, theta, sat, distributed, worker, workers);
            PairwiseContradict(out.cubes) && AllExtend(out.cubes, current)
    decreases MAX_CUBE_GENERATION_DEPTH - |current|, 1
  {
    hide PairwiseContradict, AllExtend;
    var l := FirstLit(best);
    if distributed && workers > 1 {
      var left := workers / 2;
      if worker < left {
        ChildContradicts(cfg, p, current, l, theta, sat, true, worker, left);
      } else {
        ChildContradicts(cfg, p, current, -l, theta, sat, true, worker - left, workers - left);
      }
      LongerExtendBoth(Branch(cfg, p, current, best, theta, sat, distributed, worker, workers).cubes, current, l);
    } else {
      var first := Child(cfg, p, current, l, theta, sat, distributed, worker, workers);
      var second := Child(cfg, p, current, -l, first.theta, first.sat, distributed, worker, workers);
      ChildContradicts(cfg, p, current, l, theta, sat, distributed, worker, workers);
      ChildContradicts(cfg, p, current, -l, first.theta, first.sat, distributed, worker, workers);
      LongerExtendBoth(first.cubes, current, l);
      BranchesContradict(first.cubes, second.cubes, current, l);
    }
  }

  lemma LongerExtendBoth(cubes: seq<seq<int>>, current: seq<int>, l: int)
    ensures AllExtend(cubes, current + [l]) || AllExtend(cubes, current + [-l]) ==> AllExtend(cubes, current)
  {
    if AllExtend(cubes, current + [l]) {
      LongerExtend(cubes, current, l);
    } else if AllExtend(cubes, current + [-l]) {
      LongerExtend(cubes, current, -l);
    }
  }

  lemma {:induction false} ChildContradicts(cfg: Config, p: seq<int>, current: seq<int>, l: int, theta: real, sat: bool,
                                            distributed: bool, worker: int, workers: nat)
    requires WellBehaved(cfg) && cfg.answer(p).Assigned? && |current| < MAX_CUBE_GENERATION_DEPTH
    ensures var out := Child(cfg, p, current, l, theta, sat, distributed, worker, workers);
            PairwiseContradict(out.cubes) && AllExtend(out.cubes, current + [l])
    decreases MAX_CUBE_GENERATION_DEPTH - |current|, 0
  {
    hide Gen;
    if cfg.answer(p + [l]).Assigned? {
      GenContradicts(cfg, p + [l], current + [l], theta, sat, distributed, worker, workers);
    }
  }

  // ----- the satisfiability flag -----

  /** The flag is raised only for a satisfiable formula, and never while optimising. */
  lemma {:induction false} GenSat(cfg: Config, F: iset<PB>, path: seq<int>, current: seq<int>, theta0: real, sat: bool,
                                  distributed: bool, worker: int, workers: nat)
    requires Trustworthy(cfg, F) && cfg.answer(path).Assigned? && |current| <= MAX_CUBE_GENERATION_DEPTH
    ensures var out := Gen(cfg, path, current, theta0, sat, distributed, worker, workers);
            && (sat ==> out.sat) && (cfg.optimizing ==> out.sat == sat)
            && (out.sat && !sat ==> exists a: Lits :: Total(a) && Holds(F, a))
    decreases MAX_CUBE_GENERATION_DEPTH - |current|, 2
  {
    hide Scan, Better, Eval;
    if |current| < MAX_CUBE_GENERATION_DEPTH {
      LookShape(cfg, path, |current|, 0);
      var theta := if |current| > 20 then theta0 * 1.05 * 0.7 else theta0 * 1.05;
      match Look(cfg, path, |current|, 0)
      case Dead(_) =>
      case Alive(p, best) =>
        if best.v == 0 {
          assert Completes(cfg, F, p);
          var a: Lits :| Extending(F, p, a);
        } else {
          BranchSat(cfg, F, p, current, best, theta, sat, distributed, worker, workers);
        }
    }
  }

  lemma {:induction false} BranchSat(cfg: Config, F: iset<PB>, p: seq<int>, current: seq<int>, best: Best, theta: real,
                                     sat: bool, distributed: bool, worker: int, workers: nat)
    requires Trustworthy(cfg, F) && cfg.answer(p).Assigned? && |current| < MAX_CUBE_GENERATION_DEPTH
    ensures var out := Branch(cfg, p, current, best, theta, sat, distributed, worker, workers);
            && (sat ==> out.sat) && (cfg.optimizing ==> out.sat == sat)
            && (out.sat && !sat ==> exists a: Lits :: Total(a) && Holds(F, a))
    decreases MAX_CUBE_GENERATION_DEPTH - |current|, 1
  {
    var l := FirstLit(best);
    if distributed && workers > 1 {
      var left := workers / 2;
      ChildSat(cfg, F, p, current, l, theta, sat, true, worker, left);
      ChildSat(cfg, F, p, current, -l, theta, sat, true, worker - left, workers - left);
    } else {
      var first := Child(cfg, p, current, l, theta, sat, distributed, worker, workers);
      ChildSat(cfg, F, p, current, l, theta, sat, distributed, worker, workers);
      ChildSat(cfg, F, p, current, -l, first.theta, first.sat, distributed, worker, workers);
    }
  }

  lemma {:induction false} ChildSat(cfg: Config, F: iset<PB>, p: seq<int>, current: seq<int>, l: int, theta: real,
                                    sat: bool, distributed: bool, worker: int, workers: nat)
    requires Trustworthy(cfg, F) && cfg.answer(p).Assigned? && |current| < MAX_CUBE_GENERATION_DEPTH
    ensures var out := Child(cfg, p, current, l, theta, sat, distributed, worker, workers);
            && (sat ==> out.sat) && (cfg.optimizing ==> out.sat == sat)
            && (out.sat && !sat ==> exists a: Lits :: Total(a) && Holds(F, a))
    decreases MAX_CUBE_GENERATION_DEPTH - |current|, 0
  {
    hide Gen;
    if cfg.answer(p + [l]).Assigned? {
      GenSat(cfg, F, p + [l], current + [l], theta, sat, distributed, worker, workers);
    }
  }

  // ----- several workers -----

  ghost predicate CoveredBy(cfg: Config, path: seq<int>, current: seq<int>, theta: real, worker: int, workers: nat,
                            a: Lits)
    requires WellBehaved(cfg) && cfg.answer(path).Assigned? && |current| <= MAX_CUBE_GENERATION_DEPTH
  {
    var out := Gen(cfg, path, current, theta, false, true, worker, workers);
    (out.sat && !cfg.optimizing) || Covered(out.cubes, a)
  }

  /** Whatever their number, the workers of a distributed call cover every solution between them. */
  lemma {:induction false} WorkersCover(cfg: Config, F: iset<PB>, path: seq<int>, current: seq<int>, theta0: real,
                                        workers: nat, a: Lits)
    returns (worker: nat)
    requires Trustworthy(cfg, F) && cfg.answer(path).Assigned? && |current| <= MAX_CUBE_GENERATION_DEPTH && workers >= 1
    requires OnPath(current, path) && Extending(F, path, a)
    ensures worker < workers && CoveredBy(cfg, path, current, theta0, worker, workers, a)
    decreases MAX_CUBE_GENERATION_DEPTH - |current|
  {
    hide Scan, Better, Eval;
    worker := 0;
    OnPathTrue(current, path, a);
    assert AllTrue([current][0], a);
    assert Covered([current], a);
    if workers == 1 {
      GenCovers(cfg, F, path, current, theta0, false, true, 0, 1, a);
    } else if |current| < MAX_CUBE_GENERATION_DEPTH {
      LookKeeps(cfg, F, path, |current|, 0, a);
      LookShape(cfg, path, |current|, 0);
      var r := Look(cfg, path, |current|, 0);
      if r.best.v != 0 {
        var theta := if |current| > 20 then theta0 * 1.05 * 0.7 else theta0 * 1.05;
        worker := GroupCovers(cfg, F, path, r.path, current, r.best, theta, workers, a);
      }
    }
  }

  lemma {:induction false} GroupCovers(cfg: Config, F: iset<PB>, path: seq<int>, p: seq<int>, current: seq<int>,
                                       best: Best, theta: real, workers: nat, a: Lits)
    returns (worker: nat)
    requires Trustworthy(cfg, F) && cfg.answer(p).Assigned? && |current| < MAX_CUBE_GENERATION_DEPTH && workers > 1
    requires OnPath(current, path) && path <= p && Extending(F, p, a) && best.v != 0
    ensures worker < workers
    ensures var out := Branch(cfg, p, current, best, theta, false, true, worker, workers);
            (out.sat && !cfg.optimizing) || Covered(out.cubes, a)
    decreases MAX_CUBE_GENERATION_DEPTH - |current|, 0
  {
    hide Gen;
    var l := FirstLit(best);
    var left := workers / 2;
    OnPathStep(current, path, p, l);
    OnPathStep(current, path, p, -l);
    ExtendByLiteral(F, p, l, a);
    assert Refutes(cfg, F, p + [l]) && Refutes(cfg, F, p + [-l]);
    if Extending(F, p + [l], a) {
      worker := WorkersCover(cfg, F, p + [l], current + [l], theta, left, a);
      assert CoveredBy(cfg, p + [l], current + [l], theta, worker, left, a);
    } else {
      var w := WorkersCover(cfg, F, p + [-l], current + [-l], theta, workers - left, a);
      worker := left + w;
      assert CoveredBy(cfg, p + [-l], current + [-l], theta, w, workers - left, a);
    }
  }

  /** Every cube of one list contradicts every cube of the other. */
  ghost predicate Apart(x: seq<seq<int>>, y: seq<seq<int>>) {
    forall i, j :: 0 <= i < |x| && 0 <= j < |y| ==> Contradict(x[i], y[j])
  }

  /** Both lists consist of one and the same node, at which two workers stopped together. */
  ghost predicate SameNode(x: seq<seq<int>>, y: seq<seq<int>>, current: seq<int>) {
    |x| == 1 && x == y && current <= x[0]
  }

  lemma OppositeSides(x: seq<seq<int>>, y: seq<seq<int>>, current: seq<int>, l: int)
    requires AllExtend(x, current + [l]) && AllExtend(y, current + [-l])
    ensures Apart(x, y) && Apart(y, x)
  {
    var n := |current|;
    forall i, j | 0 <= i < |x| && 0 <= j < |y|
      ensures Contradict(x[i], y[j]) && Contradict(y[j], x[i])
    {
      assert (current + [l])[n] == x[i][n] && (current + [-l])[n] == y[j][n];
    }
  }

  lemma SameNodeBelow(x: seq<seq<int>>, y: seq<seq<int>>, current: seq<int>, l: int)
    requires SameNode(x, y, current + [l])
    ensures SameNode(x, y, current)
  {
    assert (current + [l])[..|current|] == current;
    assert x[0][..|current| + 1][..|current|] == x[0][..|current|];
  }

  /** The work is distributed: two workers of one distributed call share no cube, unless both stop at a node they still
      have in common, because it is cut off or leaves nothing to decide while optimising; then each has this node. */
  lemma {:induction false} WorkersApart(cfg: Config, path: seq<int>, current: seq<int>, theta0: real, sat: bool,
                                        w1: nat, w2: nat, workers: nat)
    requires WellBehaved(cfg) && cfg.answer(path).Assigned? && |current| <= MAX_CUBE_GENERATION_DEPTH
    requires w1 < workers && w2 < workers && w1 != w2
    ensures var x := Gen(cfg, path, current, theta0, sat, true, w1, workers).cubes;
            var y := Gen(cfg, path, current, theta0, sat, true, w2, workers).cubes;
            Apart(x, y) || SameNode(x, y, current)
    decreases MAX_CUBE_GENERATION_DEPTH - |current|, 1
  {
    hide Look, Apart, Branch;
    NoneApart(Gen(cfg, path, current, theta0, sat, true, w1, workers).cubes,
              Gen(cfg, path, current, theta0, sat, true, w2, workers).cubes);
    assert current <= [current][0];
    if |current| < MAX_CUBE_GENERATION_DEPTH {
      var theta := if |current| > 20 then theta0 * 1.05 * 0.7 else theta0 * 1.05;
      match Look(cfg, path, |current|, 0)
      case Dead(_) =>
      case Alive(p, best) =>
        GroupsApart(cfg, p, current, best, theta, sat, w1, w2, workers);
    }
  }

  lemma NoneApart(x: seq<seq<int>>, y: seq<seq<int>>)
    ensures x == [] || y == [] ==> Apart(x, y)
  {
  }

  lemma {:induction false} GroupsApart(cfg: Config, p: seq<int>, current: seq<int>, best: Best, theta: real, sat: bool,
                                       w1: nat, w2: nat, workers: nat)
    requires WellBehaved(cfg) && cfg.answer(p).Assigned? && |current| < MAX_CUBE_GENERATION_DEPTH
    requires w1 < workers && w2 < workers && w1 != w2
    ensures var x := Branch(cfg, p, current, best, theta, sat, true, w1, workers).cubes;
            var y := Branch(cfg, p, current, best, theta, sat, true, w2, workers).cubes;
            Apart(x, y) || SameNode(x, y, current)
    decreases MAX_CUBE_GENERATION_DEPTH - |current|, 0
  {
    hide Gen, Apart, AllExtend, SameNode;
    var l := FirstLit(best);
    var left := workers / 2;
    var x := Branch(cfg, p, current, best, theta, sat, true, w1, workers).cubes;
    var y := Branch(cfg, p, current, best, theta, sat, true, w2, workers).cubes;
    NoneApart(x, y);
    if w1 < left <= w2 || w2 < left <= w1 {
      var v1, v2 := if w1 < left then w1 else w2, if w1 < left then w2 else w1;
      ChildContradicts(cfg, p, current, l, theta, sat, true, v1, left);
      ChildContradicts(cfg, p, current, -l, theta, sat, true, v2 - left, workers - left);
      OppositeSides(if w1 < left then x else y, if w1 < left then y else x, current, l);
    } else {
      var m := if w1 < left then l else -l;
      var off := if w1 < left then 0 else left;
      var group := if w1 < left then left else workers - left;
      if cfg.answer(p + [m]).Assigned? {
        WorkersApart(cfg, p + [m], current + [m], theta, sat, w1 - off, w2 - off, group);
        if SameNode(x, y, current + [m]) {
          SameNodeBelow(x, y, current, m);
        }
      }
    }
  }

  // ----- where the splitting stops -----

  ghost predicate NothingFails(cfg: Config) {
    forall path: seq<int> :: cfg.answer(path).Assigned?
  }

  /** The threshold only falls below low where an assumption fails. */
  ghost predicate Threshold(cfg: Config, low: real, t: real) {
    t > 0.0 && (NothingFails(cfg) ==> t >= low)
  }

  /** A node at which splitting may stop: the depth bound, the cutoff, or nothing left to decide while optimising. */
  ghost predicate Leaf(cfg: Config, p: seq<int>, c: seq<int>, t: real) {
    && cfg.answer(p).Assigned? && OnPath(c, p)
    && (|c| == MAX_CUBE_GENERATION_DEPTH
        || (|c| * |cfg.answer(p).lits|) as real > t * cfg.nVars as real
        || (cfg.optimizing && forall k :: 0 <= k < |cfg.vars| ==> !IsUndef(cfg.answer(p).lits, cfg.vars[k])))
  }

  ghost predicate AtLeaf(cfg: Config, low: real, c: seq<int>) {
    exists p: seq<int>, t: real :: Threshold(cfg, low, t) && Leaf(cfg, p, c, t)
  }

  ghost predicate AllLeaves(cfg: Config, low: real, cubes: seq<seq<int>>) {
    forall i :: 0 <= i < |cubes| ==> AtLeaf(cfg, low, cubes[i])
  }

  lemma OneLeaf(cfg: Config, low: real, p: seq<int>, c: seq<int>, t: real)
    requires Threshold(cfg, low, t)
    ensures AllLeaves(cfg, low, []) && (Leaf(cfg, p, c, t) ==> AllLeaves(cfg, low, [c]))
  {
  }

  lemma OnLongerPath(c: seq<int>, path: seq<int>, p: seq<int>)
    requires OnPath(c, path) && path <= p
    ensures OnPath(c, p)
  {
    forall i | 0 <= i < |c|
      ensures c[i] in p
    {
      var j :| 0 <= j < |path| && path[j] == c[i];
      assert p[j] == c[i];
    }
  }

  /** No cube is given up early: splitting goes on until a node is refuted or is a leaf. */
  lemma {:induction false} GenLeaves(cfg: Config, low: real, path: seq<int>, current: seq<int>, theta0: real,
                                     sat: bool, distributed: bool, worker: int, workers: nat)
    requires WellBehaved(cfg) && cfg.answer(path).Assigned? && |current| <= MAX_CUBE_GENERATION_DEPTH
    requires OnPath(current, path) && Threshold(cfg, low, theta0)
    ensures var out := Gen(cfg, path, current, theta0, sat, distributed, worker, workers);
            Threshold(cfg, low, out.theta) && AllLeaves(cfg, low, out.cubes)
    decreases MAX_CUBE_GENERATION_DEPTH - |current|, 2
  {
    hide Look, AllLeaves, Branch, NothingFails;
    var theta1 := theta0 * 1.05;
    OneLeaf(cfg, low, path, current, theta0);
    OneLeaf(cfg, low, path, current, theta1);
    if |current| < MAX_CUBE_GENERATION_DEPTH {
      LookShape(cfg, path, |current|, 0);
      match Look(cfg, path, |current|, 0)
      case Dead(_) =>
      case Alive(p, best) =>
        OnLongerPath(current, path, p);
        OneLeaf(cfg, low, p, current, theta1);
        BranchLeaves(cfg, low, path, p, current, best, theta1, sat, distributed, worker, workers);
    }
  }

  lemma {:induction false} BranchLeaves(cfg: Config, low: real, path: seq<int>, p: seq<int>, current: seq<int>,
                                        best: Best, theta: real, sat: bool, distributed: bool, worker: int,
                                        workers: nat)
    requires WellBehaved(cfg) && cfg.answer(p).Assigned? && |current| < MAX_CUBE_GENERATION_DEPTH
    requires OnPath(current, path) && path <= p && Threshold(cfg, low, theta)
    ensures var out := Branch(cfg, p, current, best, theta, sat, distributed, worker, workers);
            Threshold(cfg, low, out.theta) && AllLeaves(cfg, low, out.cubes)
    decreases MAX_CUBE_GENERATION_DEPTH - |current|, 1
  {
    hide Threshold, AtLeaf;
    var l := FirstLit(best);
    if distributed && workers > 1 {
      var left := workers / 2;
      if worker < left {
        ChildLeaves(cfg, low, path, p, current, l, theta, sat, true, worker, left);
      } else {
        ChildLeaves(cfg, low, path, p, current, -l, theta, sat, true, worker - left, workers - left);
      }
    } else {
      var first := Child(cfg, p, current, l, theta, sat, distributed, worker, workers);
      ChildLeaves(cfg, low, path, p, current, l, theta, sat, distributed, worker, workers);
      ChildLeaves(cfg, low, path, p, current, -l, first.theta, first.sat, distributed, worker, workers);
    }
  }

  lemma {:induction false} ChildLeaves(cfg: Config, low: real, path: seq<int>, p: seq<int>, current: seq<int>, l: int,
                                       theta: real, sat: bool, distributed: bool, worker: int, workers: nat)
    requires WellBehaved(cfg) && cfg.answer(p).Assigned? && |current| < MAX_CUBE_GENERATION_DEPTH
    requires OnPath(current, path) && path <= p && Threshold(cfg, low, theta)
    ensures var out := Child(cfg, p, current, l, theta, sat, distributed, worker, workers);
            Threshold(cfg, low, out.theta) && AllLeaves(cfg, low, out.cubes)
    decreases MAX_CUBE_GENERATION_DEPTH - |current|, 0
  {
    hide Gen, AtLeaf;
    OnPathStep(current, path, p, l);
    if cfg.answer(p + [l]).Assigned? {
      GenLeaves(cfg, low, p + [l], current + [l], theta, sat, distributed, worker, workers);
    }
  }

  /** The value by which a pass ranks a variable. */
  function Value(cfg: Config, path: seq<int>, depth: nat, v: int): (int, int)
    requires cfg.answer(path).Assigned?
  {
    var pos, neg := Eval(cfg, path, v), Eval(cfg, path, -v);
    (pos * neg + cfg.bonus(depth, v, pos, neg), pos + neg)
  }

  predicate AtLeast(x: (int, int), y: (int, int)) {
    x.0 > y.0 || (x.0 == y.0 && x.1 >= y.1)
  }

  /** The variable branched on has the highest value of all undefined ones. */
  lemma {:induction false} ScanIsBest(cfg: Config, path: seq<int>, depth: nat, i: nat, best: Best, k: nat)
    requires WellBehaved(cfg) && cfg.answer(path).Assigned? && i <= |cfg.vars| && k < |cfg.vars|
    requires Scan(cfg, path, depth, i, best).Ranked?
    ensures var b := Scan(cfg, path, depth, i, best).best;
            && AtLeast((b.score, b.tie), (best.score, best.tie))
            && (i <= k && IsUndef(cfg.answer(path).lits, cfg.vars[k]) ==>
                  AtLeast((b.score, b.tie), Value(cfg, path, depth, cfg.vars[k])))
            && (b == best || (b.v in cfg.vars && (b.score, b.tie) == Value(cfg, path, depth, b.v)))
    decreases |cfg.vars| - i
  {
    hide Eval;
    if i < |cfg.vars| {
      var v := cfg.vars[i];
      if IsUndef(cfg.answer(path).lits, v) {
        ScanIsBest(cfg, path, depth, i + 1, Better(cfg, depth, best, v, Eval(cfg, path, v), Eval(cfg, path, -v)), k);
      } else {
        ScanIsBest(cfg, path, depth, i + 1, best, k);
      }
    }
  }

  // ----- the algorithm, against the functions above -----

  class Backend {
    const answer: seq<int> -> Answer
    var path: seq<int>

    constructor (f: seq<int> -> Answer)
      ensures answer == f && path == []
    {
      answer := f;
      path := [];
    }

    method AssumeAndPropagate(l: int) returns (ok: bool)
      modifies this
      ensures path == old(path) + [l] && (ok <==> answer(path).Assigned?)
    {
      path := path + [l];
      ok := answer(path).Assigned?;
    }

    method Backtrack(levels: nat)
      requires levels <= |path|
      modifies this
      ensures path == old(path)[..|old(path)| - levels]
    {
      path := path[..|path| - levels];
    }

    function AssignedVars(): nat
      requires answer(path).Assigned?
      reads this
    {
      |answer(path).lits|
    }

    predicate IsUndefLit(l: int)
      requires answer(path).Assigned?
      reads this
    {
      IsUndef(answer(path).lits, l)
    }
  }

  /** The step of a pass from variable i to the next. */
  lemma ScanStep(cfg: Config, path: seq<int>, depth: nat, i: nat, best: Best)
    requires cfg.answer(path).Assigned? && i < |cfg.vars|
    ensures var v := cfg.vars[i];
            var okPos, okNeg := cfg.answer(path + [v]).Assigned?, cfg.answer(path + [-v]).Assigned?;
            Scan(cfg, path, depth, i, best) ==
              if !IsUndef(cfg.answer(path).lits, v) then Scan(cfg, path, depth, i + 1, best)
              else if !okPos && !okNeg then BothFail
              else if !okPos || !okNeg then OneFails(if okPos then v else -v)
              else Scan(cfg, path, depth, i + 1, Better(cfg, depth, best, v, Eval(cfg, path, v), Eval(cfg, path, -v)))
  {
  }

  class CubeSplitter {
    const cfg: Config
    const backend: Backend
    var theta: real
    var satFound: bool
    var current: seq<int>
    var cubes: seq<seq<int>>

    ghost predicate Valid()
      reads this, backend
    {
      WellBehaved(cfg) && backend.answer == cfg.answer && cfg.answer(backend.path).Assigned?
    }

    constructor (c: Config, b: Backend)
      requires WellBehaved(c) && b.answer == c.answer && c.answer(b.path).Assigned?
      ensures Valid() && cfg == c && backend == b && current == [] && cubes == [] && !satFound && theta == 1000.0
    {
      cfg, backend := c, b;
      theta, satFound, current, cubes := 1000.0, false, [], [];
    }

    /** Assume a literal, see how much it assigns, and take it back. */
    method TryLiteral(l: int) returns (ok: bool, eval: int)
      requires Valid()
      modifies backend
      ensures backend.path == old(backend.path)
      ensures ok <==> cfg.answer(backend.path + [l]).Assigned?
      ensures eval == Eval(cfg, backend.path, l)
    {
      var baseAssigned := backend.AssignedVars();
      ok := backend.AssumeAndPropagate(l);
      if !ok {
        eval := cfg.nVars + 10;
      } else {
        eval := backend.AssignedVars() - baseAssigned;
      }
      ghost var p := backend.path;
      backend.Backtrack(1);
      assert backend.path == old(backend.path);
    }

    /** The for loop over the variables. */
    method Pass() returns (r: Scanned)
      requires Valid()
      modifies backend
      ensures backend.path == old(backend.path)
      ensures r == Scan(cfg, backend.path, |current|, 0, NOTHING)
    {
      var best := NOTHING;
      ghost var path := backend.path;
      for i := 0 to |cfg.vars|
        invariant backend.path == path && Valid()
        invariant Scan(cfg, path, |current|, 0, NOTHING) == Scan(cfg, path, |current|, i, best)
      {
        var v := cfg.vars[i];
        ScanStep(cfg, path, |current|, i, best);
        if backend.IsUndefLit(v) {
          var okPos, evalPos := TryLiteral(v);
          var okNeg, evalNeg := TryLiteral(-v);
          if !okPos && !okNeg {
            return BothFail;
          } else if !okPos || !okNeg {
            return OneFails(if okPos then v else -v);
          }
          var score := evalPos * evalNeg + cfg.bonus(|current|, v, evalPos, evalNeg);
          var tie := evalPos + evalNeg;
          if score > best.score || (score == best.score && tie > best.tie) {
            best := Best(v, score, tie, evalPos, evalNeg);
          }
        }
      }
      r := Ranked(best);
    }

    /** The while loop: failed literals are assumed until a pass finds none. */
    method Lookahead() returns (dead: bool, best: Best, failedLits: nat)
      requires Valid()
      modifies backend
      ensures dead ==> backend.path == old(backend.path) && Look(cfg, backend.path, |current|, 0).Dead?
      ensures !dead ==> Valid() && Look(cfg, old(backend.path), |current|, 0) == Alive(backend.path, best)
      ensures !dead ==> |backend.path| == |old(backend.path)| + failedLits && old(backend.path) <= backend.path
    {
      failedLits := 0;
      ghost var path := backend.path;
      while true
        invariant Valid() && path <= backend.path && |backend.path| == |path| + failedLits
        invariant Look(cfg, path, |current|, 0) == Look(cfg, backend.path, |current|, failedLits)
        decreases Undefined(cfg, backend.path)
      {
        var r := Pass();
        match r {
          case BothFail =>
            backend.Backtrack(failedLits);
            return true, NOTHING, failedLits;
          case Ranked(b) =>
            return false, b, failedLits;
          case OneFails(l) =>
            FailedLiteral(cfg, backend.path, |current|, 0, NOTHING);
            var _ := backend.AssumeAndPropagate(l);
            failedLits := failedLits + 1;
        }
      }
    }

    /** One branch: assume, recurse or lower the threshold, undo. */
    method Descend(l: int, distributed: bool, worker: int, workers: nat)
      requires Valid() && |current| < MAX_CUBE_GENERATION_DEPTH
      modifies this, backend
      ensures Valid() && backend.path == old(backend.path) && current == old(current)
      ensures Out(cubes, theta, satFound) ==
              var out := Child(cfg, backend.path, current, l, old(theta), old(satFound), distributed, worker, workers);
              Out(old(cubes) + out.cubes, out.theta, out.sat)
      decreases MAX_CUBE_GENERATION_DEPTH - |current|, 0
    {
      current := current + [l];
      var ok := backend.AssumeAndPropagate(l);
      if ok {
        GenerateCubesRec(distributed, worker, workers);
      } else {
        theta := theta * 0.7;
      }
      backend.Backtrack(1);
      assert backend.path == old(backend.path);
      current := current[..|current| - 1];
    }

    /** generate_cubes_rec.  Every exit leaves the backend on the path, and the decisions, it was called with. */
    method GenerateCubesRec(distributed: bool, worker: int, workers: nat)
      requires Valid() && |current| <= MAX_CUBE_GENERATION_DEPTH
      modifies this, backend
      ensures Valid() && backend.path == old(backend.path) && current == old(current)
      ensures Out(cubes, theta, satFound) ==
              var out := Gen(cfg, backend.path, current, old(theta), old(satFound), distributed, worker, workers);
              Out(old(cubes) + out.cubes, out.theta, out.sat)
      decreases MAX_CUBE_GENERATION_DEPTH - |current|, 2
    {
      hide Look, Scan;
      if satFound && !cfg.optimizing {
        return;
      }
      theta := theta * 1.05;
      var numAssigned := backend.AssignedVars();
      var numDec := |current|;
      if numDec >= MAX_CUBE_GENERATION_DEPTH {
        if !distributed || workers == 1 || worker == 0 {
          cubes := cubes + [current];
        }
        return;
      }
      theta := if numDec > 20 then theta * 0.7 else theta;
      if (numDec * numAssigned) as real > theta * cfg.nVars as real {
        cubes := cubes + [current];
        return;
      }
      var dead, best, failedLits := Lookahead();
      if dead {
        return;
      }
      if best.v == 0 {
        if !cfg.optimizing {
          satFound := true;
        } else {
          cubes := cubes + [current];
        }
        backend.Backtrack(failedLits);
        assert backend.path == old(backend.path);
        return;
      }
      ExploreBranches(best, distributed, worker, workers);
      backend.Backtrack(failedLits);
      assert backend.path == old(backend.path);
    }

    /** The two branches below a ranked variable. */
    method ExploreBranches(best: Best, distributed: bool, worker: int, workers: nat)
      requires Valid() && |current| < MAX_CUBE_GENERATION_DEPTH
      modifies this, backend
      ensures Valid() && backend.path == old(backend.path) && current == old(current)
      ensures Out(cubes, theta, satFound) ==
              var out := Branch(cfg, backend.path, current, best, old(theta), old(satFound), distributed, worker,
                                workers);
              Out(old(cubes) + out.cubes, out.theta, out.sat)
      decreases MAX_CUBE_GENERATION_DEPTH - |current|, 1
    {
      hide Child;
      var firstLit := if best.evalPos < best.evalNeg then best.v else -best.v;
      if distributed && workers > 1 {
        var leftWorkers := workers / 2;
        var rightWorkers := workers - leftWorkers;
        if worker < leftWorkers {
          Descend(firstLit, true, worker, leftWorkers);
        } else {
          Descend(-firstLit, true, worker - leftWorkers, rightWorkers);
        }
        return;
      }
      Descend(firstLit, distributed, worker, workers);
      if satFound && !cfg.optimizing {
        return;
      }
      Descend(-firstLit, distributed, worker, workers);
    }

    /** generate_cubes: from a backend that is not in conflict, the cubes of this worker. */
    method GenerateCubes(distributed: bool, worker: int, workers: nat)
      requires Valid()
      modifies this, backend
      ensures Valid() && backend.path == old(backend.path)
      ensures Out(cubes, theta, satFound) ==
              Gen(cfg, backend.path, [], 1000.0, false, distributed, worker, workers)
    {
      hide Gen;
      theta, satFound, current, cubes := 1000.0, false, [], [];
      GenerateCubesRec(distributed, worker, workers);
    }
  }

  // ----- splitting a task -----

  /** split_cube puts the split cube in front of what the splitter found. */
  function Children(cube: seq<int>, sub: seq<seq<int>>): (r: seq<seq<int>>)
    ensures |r| == |sub|
  {
    seq(|sub|, i requires 0 <= i < |sub| => cube + sub[i])
  }

  /** The formula of a task: the base formula and the unit constraints of its cube. */
  ghost function WithCube(F: iset<PB>, cube: seq<int>): iset<PB> {
    F + iset i | 0 <= i < |cube| :: PB([Term(1, cube[i])], 1)
  }

  lemma UnitSat(l: int, a: Lits)
    ensures Sat(PB([Term(1, l)], 1), a) <==> l in a
  {
    WeightSnoc([], Term(1, l), a);
    assert [] + [Term(1, l)] == [Term(1, l)];
  }

  lemma WithCubeHolds(F: iset<PB>, cube: seq<int>, a: Lits)
    ensures Holds(WithCube(F, cube), a) <==> Holds(F, a) && AllTrue(cube, a)
  {
    forall i | 0 <= i < |cube|
      ensures Sat(PB([Term(1, cube[i])], 1), a) <==> cube[i] in a
      ensures PB([Term(1, cube[i])], 1) in WithCube(F, cube)
    {
      UnitSat(cube[i], a);
    }
  }

  lemma AllTrueAppend(x: seq<int>, y: seq<int>, a: Lits)
    ensures AllTrue(x + y, a) <==> AllTrue(x, a) && AllTrue(y, a)
  {
    if AllTrue(x + y, a) {
      forall i | 0 <= i < |x|
        ensures x[i] in a
      {
        assert (x + y)[i] == x[i];
      }
      forall i | 0 <= i < |y|
        ensures y[i] in a
      {
        assert (x + y)[|x| + i] == y[i];
      }
    }
  }

  /** The children of a split task contradict each other and cover the solutions of the parent. */
  lemma ChildrenCover(cfg: Config, F: iset<PB>, cube: seq<int>)
    requires Trustworthy(cfg, WithCube(F, cube)) && cfg.answer([]).Assigned?
    ensures var out := Gen(cfg, [], [], 1000.0, false, false, 0, 1);
            && PairwiseContradict(Children(cube, out.cubes))
            && ((out.sat && !cfg.optimizing) ||
                forall a: Lits :: Total(a) && Holds(F, a) && AllTrue(cube, a) ==> Covered(Children(cube, out.cubes), a))
  {
    hide Gen;
    var out := Gen(cfg, [], [], 1000.0, false, false, 0, 1);
    var kids := Children(cube, out.cubes);
    GenContradicts(cfg, [], [], 1000.0, false, false, 0, 1);
    forall i, j | 0 <= i < j < |kids|
      ensures Contradict(kids[i], kids[j])
    {
      assert Contradict(out.cubes[i], out.cubes[j]);
      var x, y := out.cubes[i], out.cubes[j];
      var m, n :| 0 <= m < |x| && 0 <= n < |y| && x[m] == -y[n];
      assert kids[i][|cube| + m] == x[m] && kids[j][|cube| + n] == y[n];
    }
    if !(out.sat && !cfg.optimizing) {
      forall a: Lits | Total(a) && Holds(F, a) && AllTrue(cube, a)
        ensures Covered(kids, a)
      {
        WithCubeHolds(F, cube, a);
        GenCovers(cfg, WithCube(F, cube), [], [], 1000.0, false, false, 0, 1, a);
        var k :| 0 <= k < |out.cubes| && AllTrue(out.cubes[k], a);
        AllTrueAppend(cube, out.cubes[k], a);
        assert AllTrue(kids[k], a);
      }
    }
  }
}
