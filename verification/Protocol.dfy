/** The master of the cube-and-conquer search as a state machine over its messages (run_master, cubePB.cpp), with
    the replies of the workers as contracts.  Minimisation; costs are looked up in a function over assignments. */
module Protocol {
  import opened PBCore
  import opened CubeGeneration

  /** A lower bound on the objective, or none. */
  datatype Lower = Unknown | AtLeast(v: int)

  function MaxLower(x: Lower, y: Lower): Lower {
    if x.Unknown? then y else if y.Unknown? then x else if x.v >= y.v then x else y
  }

  datatype Task = Task(lits: seq<int>, depth: nat, learned: set<PB>, lower: Lower)

  /** What a worker was told: its cube, constraints, incumbent and lower bound. */
  datatype Work = Work(lits: seq<int>, learned: set<PB>, hasBound: bool, bound: int, lower: Lower)

  const NO_WORK := Work([], {}, false, 0, Unknown)
  const IDLE := -1
  const INT_MAX := 0x7fff_ffff

  datatype State = State(
    optimizing: bool, tasks: seq<Task>, queue: seq<nat>,
    cubeOf: seq<int>, sent: seq<Work>, lbOf: seq<Lower>, active: nat,
    hasBest: bool, best: int, globalLower: Lower, globalLearned: set<PB>,
    originalActive: bool, satFound: bool, provedUnsat: bool, provedOptimum: bool,
    feasibleSeen: bool, unknownSeen: bool, stopped: bool)

  datatype Msg =
    | BestRequest
    | LearnedUpdate(cs: set<PB>)
    | OriginalBounds(lb: Lower, ub: int)
    | OriginalResult(code: int, extra: int)
    | WorkerBounds(w: nat, lb: Lower, ub: int)
    | WorkerResult(w: nat, code: int, extra: int)
    | WorkerSplit(w: nat, subcubes: seq<seq<int>>, new_: set<PB>)

  // ----- what the messages claim -----

  type Cost = Lits -> int

  ghost predicate Sol(F: iset<PB>, a: Lits) {
    Total(a) && Holds(F, a)
  }

  /** A solution that would improve on the incumbent. */
  ghost predicate Improving(F: iset<PB>, cost: Cost, s: State, a: Lits) {
    Sol(F, a) && (s.hasBest ==> cost(a) < s.best)
  }

  predicate Above(lower: Lower, c: int) {
    lower.AtLeast? ==> c >= lower.v
  }

  ghost predicate SatAll(cs: set<PB>, a: Lits) {
    forall c :: c in cs ==> Sat(c, a)
  }

  /** The assignments a worker looks for. */
  ghost predicate Left(F: iset<PB>, cost: Cost, work: Work, a: Lits) {
    && Sol(F, a) && AllTrue(work.lits, a) && SatAll(work.learned, a)
    && (work.hasBound ==> cost(a) < work.bound) && Above(work.lower, cost(a))
  }

  ghost predicate Attained(F: iset<PB>, cost: Cost, c: int) {
    c <= INT_MAX && exists a: Lits :: Sol(F, a) && cost(a) == c
  }

  ghost predicate LowerHolds(F: iset<PB>, cost: Cost, s: State, lower: Lower, lits: seq<int>) {
    s.optimizing ==> forall a: Lits :: Improving(F, cost, s, a) && AllTrue(lits, a) ==> Above(lower, cost(a))
  }

  ghost predicate LearnedHold(F: iset<PB>, cost: Cost, s: State, cs: set<PB>, lits: seq<int>) {
    forall a: Lits :: Improving(F, cost, s, a) && AllTrue(lits, a) ==> SatAll(cs, a)
  }

  predicate Busy(s: State, w: nat) {
    w < |s.cubeOf| && 0 <= s.cubeOf[w] < |s.tasks|
  }

  /** The worker has nothing left that improves on the incumbent and on c. */
  ghost predicate Exhausted(F: iset<PB>, cost: Cost, s: State, w: nat, below: Lower) {
    w < |s.sent| &&
    forall a: Lits :: Improving(F, cost, s, a) && Left(F, cost, s.sent[w], a) ==> below.AtLeast? && cost(a) >= below.v
  }

  /** The subcubes and the new constraints of a split lose no improving solution. */
  ghost predicate SplitCovers(F: iset<PB>, cost: Cost, s: State, w: nat, subcubes: seq<seq<int>>, cs: set<PB>) {
    && w < |s.sent| && (forall i :: 0 <= i < |subcubes| ==> s.sent[w].lits <= subcubes[i])
    && forall a: Lits :: Improving(F, cost, s, a) && Left(F, cost, s.sent[w], a) ==>
           SatAll(cs, a) && Covered(subcubes, a)
  }

  /** Nothing that would improve on the incumbent is better than c. */
  ghost predicate NothingBetter(F: iset<PB>, cost: Cost, s: State, c: int) {
    forall a: Lits :: Improving(F, cost, s, a) ==> cost(a) >= c
  }

  /** The contract of every message, in the state in which the master receives it.
      20: nothing improving is left in the cube.  10: nothing in it is better than the reported cost.
      15 is treated by the master like 10, so it must keep the same promise: a worker may not send it for a cube
      it has not finished.  30: the children cover the parent.  0, 25 and 26 promise nothing about the cube.
      The original worker's 15 takes it out of the search; when no worker has cubes, it is taken for final. */
  ghost predicate Truthful(F: iset<PB>, cost: Cost, s: State, m: Msg) {
    match m
    case BestRequest => true
    case LearnedUpdate(cs) => LearnedHold(F, cost, s, cs, [])
    case OriginalBounds(lb, ub) => LowerHolds(F, cost, s, lb, [])
        && (ub < INT_MAX ==> s.optimizing && Attained(F, cost, ub))
    case OriginalResult(code, c) =>
      if s.optimizing then
        && (code in {10, 15, 26} ==> Attained(F, cost, c))
        && (code == 10 || (code == 15 && |s.cubeOf| == 0) ==> NothingBetter(F, cost, s, c))
        && (code == 20 ==> forall a: Lits :: !Improving(F, cost, s, a))
      else
        code != 26 && (code == 10 ==> exists a: Lits :: Sol(F, a)) && (code == 20 ==> forall a: Lits :: !Sol(F, a))
    case WorkerBounds(w, lb, ub) =>
      Busy(s, w) && LowerHolds(F, cost, s, lb, s.tasks[s.cubeOf[w]].lits)
      && (ub < INT_MAX ==> s.optimizing && Attained(F, cost, ub))
    case WorkerResult(w, code, c) =>
      && Busy(s, w)
      && (if s.optimizing then code in {10, 15, 25, 26} ==> Attained(F, cost, c)
          else code in {0, 10, 20} && (code == 10 ==> exists a: Lits :: Sol(F, a)))
      && (code in {10, 15} && s.optimizing ==> Exhausted(F, cost, s, w, AtLeast(c)))
      && (code == 20 ==> Exhausted(F, cost, s, w, Unknown))
      && code in {0, 10, 15, 20, 25, 26}
    case WorkerSplit(w, subcubes, cs) => Busy(s, w) && SplitCovers(F, cost, s, w, subcubes, cs)
  }

  // ----- the master's reactions -----

  /** feasible_seen, bestSolution and global_has_best_cost. */
  function Improve(s: State, c: int): (r: State)
    ensures SameWork(s, r) && r.originalActive == s.originalActive && SameShared(s, r)
  {
    s.(feasibleSeen := true, hasBest := true, best := if c < s.best then c else s.best)
  }

  /** handle_bounds_report, the part about the upper bound. */
  function ReportUpper(s: State, ub: int): (r: State)
    ensures SameWork(s, r) && r.originalActive == s.originalActive && SameShared(s, r)
  {
    hide Improve;
    if ub >= INT_MAX then s
    else if !s.hasBest then s.(feasibleSeen := true, hasBest := true, best := ub)
    else Improve(s, ub)
  }

  /** Position of the queued task with the strongest lower bound. */
  function TopOf(s: State, i: nat): (p: nat)
    requires i < |s.queue| && QueueOk(s)
    ensures p <= i
  {
    if i == 0 then 0
    else
      var p := TopOf(s, i - 1);
      if LowerLess(s.tasks[s.queue[p]].lower, s.tasks[s.queue[i]].lower) then i else p
  }

  predicate LowerLess(x: Lower, y: Lower) {
    y.AtLeast? && (x.Unknown? || x.v < y.v)
  }

  predicate QueueOk(s: State) {
    forall i :: 0 <= i < |s.queue| ==> s.queue[i] < |s.tasks|
  }

  function WorkFor(s: State, t: Task): Work {
    var learned := t.learned + s.globalLearned;
    if s.optimizing then Work(t.lits, learned, s.hasBest, s.best, MaxLower(t.lower, s.globalLower))
    else Work(t.lits, learned, false, 0, Unknown)
  }

  /** send_work_to_worker with the top of the queue. */
  function Dispatch(s: State, w: nat): (r: State)
    requires QueueOk(s) && |s.queue| > 0 && w < |s.cubeOf| == |s.sent| == |s.lbOf|
    ensures |r.cubeOf| == |s.cubeOf|
  {
    var p := TopOf(s, |s.queue| - 1);
    var idx := s.queue[p];
    var work := WorkFor(s, s.tasks[idx]);
    s.(queue := s.queue[..p] + s.queue[p + 1..], cubeOf := s.cubeOf[w := idx], sent := s.sent[w := work],
       lbOf := s.lbOf[w := if s.optimizing then work.lower else s.lbOf[w]])
  }

  predicate Shape(s: State) {
    QueueOk(s) && |s.cubeOf| == |s.sent| == |s.lbOf|
  }

  /** Work for the idle workers from p on. */
  function FillIdle(s: State, p: nat): (r: State)
    requires Shape(s) && p <= |s.cubeOf|
    ensures Shape(r) && |r.cubeOf| == |s.cubeOf|
    decreases |s.cubeOf| - p
  {
    if p == |s.cubeOf| || |s.queue| == 0 then s
    else if s.cubeOf[p] != IDLE then FillIdle(s, p + 1)
    else FillIdle(Dispatch(s, p).(active := s.active + 1), p + 1)
  }

  function NewTasks(subcubes: seq<seq<int>>, depth: nat, learned: set<PB>, lower: Lower): (r: seq<Task>)
    ensures |r| == |subcubes|
  {
    seq(|subcubes|, i requires 0 <= i < |subcubes| => Task(subcubes[i], depth, learned, lower))
  }

  function Enqueue(s: State, new_: seq<Task>): (r: State)
    requires Shape(s)
    ensures Shape(r)
  {
    s.(tasks := s.tasks + new_, queue := s.queue + seq(|new_|, i requires 0 <= i < |new_| => |s.tasks| + i))
  }

  function Release(s: State, w: nat): (r: State)
    requires Shape(s) && w < |s.cubeOf| && s.active > 0
    ensures Shape(r)
  {
    s.(cubeOf := s.cubeOf[w := IDLE], active := s.active - 1)
  }

  function OnSplit(s: State, w: nat, subcubes: seq<seq<int>>, cs: set<PB>): (r: State)
    requires Shape(s) && Busy(s, w) && s.active > 0
    ensures |r.cubeOf| == |s.cubeOf|
  {
    var parent := s.tasks[s.cubeOf[w]];
    var kids := NewTasks(subcubes, parent.depth + 1, parent.learned + cs, MaxLower(s.lbOf[w], s.globalLower));
    FillIdle(Enqueue(Release(s, w), kids), 0)
  }

  /** The last busy worker has finished: the loop is left at once, whether or not the original worker still runs. */
  function StopWhenIdle(s: State): (r: State)
    ensures |r.cubeOf| == |s.cubeOf|
  {
    if s.active == 0 then s.(stopped := true) else s
  }

  /** The bookkeeping of a final reply. */
  function Noted(s: State, code: int, c: int): (r: State)
    ensures SameWork(s, r) && SameShared(s, r)
  {
    if code == 0 then s.(unknownSeen := true) else if code in {10, 15} then Improve(s, c) else s
  }

  function OnDone(s: State, w: nat, code: int, c: int): (r: State)
    requires Shape(s) && Busy(s, w) && s.active > 0
    ensures |r.cubeOf| == |s.cubeOf|
  {
    hide TopOf, WorkFor, Noted;
    var r := Noted(s, code, c);
    if |r.queue| > 0 then Dispatch(r, w) else StopWhenIdle(Release(r, w))
  }

  function OnWorker(s: State, w: nat, code: int, c: int): (r: State)
    requires Shape(s) && Busy(s, w) && s.active > 0
    ensures |r.cubeOf| == |s.cubeOf|
  {
    hide TopOf, WorkFor;
    if code == 25 then
      var r := Improve(s, c);
      r.(sent := r.sent[w := r.sent[w].(hasBound := true, bound := r.best)])
    else if code == 26 then Improve(s, c)
    else if code == 10 && !s.optimizing then s.(satFound := true)
    else OnDone(s, w, code, c)
  }

  /** The original worker's last word. */
  function Told(s: State, code: int, c: int): (r: State)
    ensures SameWork(s, r) && r.originalActive == s.originalActive && SameShared(s, r)
  {
    hide Improve;
    if !s.optimizing then
      if code == 10 then s.(satFound := true)
      else if code == 20 then s.(provedUnsat := true)
      else s.(unknownSeen := true)
    else if code == 10 then Improve(s, c).(provedOptimum := true)
    else if code == 15 then Improve(s, c)
    else if code == 20 then (if s.feasibleSeen then s.(provedOptimum := true) else s.(provedUnsat := true))
    else s.(unknownSeen := true)
  }

  /** What all workers are told is as before. */
  predicate SameShared(s: State, r: State) {
    r.globalLearned == s.globalLearned && r.globalLower == s.globalLower
  }

  /** Tasks, queue and workers are as before. */
  predicate SameWork(s: State, r: State) {
    && r.tasks == s.tasks && r.queue == s.queue && r.cubeOf == s.cubeOf && r.sent == s.sent && r.lbOf == s.lbOf
    && r.active == s.active && r.stopped == s.stopped && r.optimizing == s.optimizing
  }

  function OnOriginal(s: State, code: int, c: int): (r: State)
    ensures SameWork(s, r) && SameShared(s, r)
  {
    hide Told;
    if code == 26 then Improve(s, c) else Told(s, code, c).(originalActive := false)
  }

  /** handle_bounds_report for the original worker, whose lower bound is global. */
  function OnOriginalBounds(s: State, lb: Lower, ub: int): (r: State)
    ensures SameWork(s, r)
  {
    hide ReportUpper;
    ReportUpper(if LowerLess(s.globalLower, lb) then s.(globalLower := lb) else s, ub)
  }

  /** handle_bounds_report for a cube worker. */
  function OnWorkerBounds(s: State, w: nat, lb: Lower, ub: int): (r: State)
    requires Shape(s) && w < |s.cubeOf|
    ensures |r.cubeOf| == |s.cubeOf|
  {
    ReportUpper(s.(lbOf := s.lbOf[w := if lb.AtLeast? then lb else s.lbOf[w]]), ub)
  }

  function OnMessage(s: State, m: Msg): (r: State)
    requires Shape(s)
    requires m.WorkerResult? || m.WorkerSplit? ==> Busy(s, m.w) && s.active > 0
    requires m.WorkerBounds? ==> Busy(s, m.w)
    ensures |r.cubeOf| == |s.cubeOf|
  {
    hide FillIdle, Dispatch, OnWorker, OnSplit, OnOriginal, OnOriginalBounds, OnWorkerBounds, QueueOk;
    match m
    case BestRequest => s
    case LearnedUpdate(cs) => s.(globalLearned := s.globalLearned + cs)
    case OriginalBounds(lb, ub) => OnOriginalBounds(s, lb, ub)
    case WorkerBounds(w, lb, ub) => OnWorkerBounds(s, w, lb, ub)
    case OriginalResult(code, c) => OnOriginal(s, code, c)
    case WorkerResult(w, code, c) => OnWorker(s, w, code, c)
    case WorkerSplit(w, subcubes, cs) => OnSplit(s, w, subcubes, cs)
  }

  // ----- the invariant -----

  function CountBusy(cubeOf: seq<int>): nat {
    if |cubeOf| == 0 then 0 else CountBusy(cubeOf[..|cubeOf| - 1]) + (if cubeOf[|cubeOf| - 1] != IDLE then 1 else 0)
  }

  /** What is known globally: the incumbent's cost is that of a solution, and shared bounds and constraints hold in
      every solution that would improve on it. */
  ghost predicate Facts(F: iset<PB>, cost: Cost, s: State) {
    && (s.hasBest ==> s.optimizing && Attained(F, cost, s.best))
    && (!s.hasBest ==> s.best == INT_MAX)
    && (s.feasibleSeen <==> s.hasBest)
    && LowerHolds(F, cost, s, s.globalLower, [])
    && LearnedHold(F, cost, s, s.globalLearned, [])
    && (s.satFound ==> !s.optimizing && exists a: Lits :: Sol(F, a))
    && (s.provedUnsat ==> forall a: Lits :: !Sol(F, a))
    && (s.provedOptimum ==> s.hasBest && forall a: Lits :: !Improving(F, cost, s, a))
  }

  ghost predicate TaskOk(F: iset<PB>, cost: Cost, s: State, t: Task) {
    LowerHolds(F, cost, s, t.lower, t.lits) && LearnedHold(F, cost, s, t.learned, t.lits)
  }

  /** Every improving solution of a running cube is one its worker looks for. */
  ghost predicate SentOk(F: iset<PB>, cost: Cost, s: State, w: nat)
    requires w < |s.cubeOf| == |s.sent|
  {
    && 0 <= s.cubeOf[w] < |s.tasks| && s.sent[w].lits == s.tasks[s.cubeOf[w]].lits
    && forall a: Lits :: Improving(F, cost, s, a) && AllTrue(s.tasks[s.cubeOf[w]].lits, a) ==>
           Left(F, cost, s.sent[w], a)
  }

  ghost predicate Waiting(s: State, a: Lits) {
    exists i :: 0 <= i < |s.queue| && s.queue[i] < |s.tasks| && AllTrue(s.tasks[s.queue[i]].lits, a)
  }

  ghost predicate Running(s: State, a: Lits) {
    exists w :: 0 <= w < |s.cubeOf| && 0 <= s.cubeOf[w] < |s.tasks| && AllTrue(s.tasks[s.cubeOf[w]].lits, a)
  }

  /** Without cube workers only the original worker searches. */
  predicate OriginalAlone(s: State) {
    |s.cubeOf| == 0 && s.originalActive
  }

  ghost predicate Pending(s: State, a: Lits) {
    Waiting(s, a) || Running(s, a) || OriginalAlone(s)
  }

  /** Every improving solution lies in a queued or a running task, unless a task was given up or a solution of a
      decision problem is known. */
  ghost predicate Cover(F: iset<PB>, cost: Cost, s: State) {
    !s.unknownSeen && !s.satFound ==> forall a: Lits :: Improving(F, cost, s, a) ==> Pending(s, a)
  }

  ghost predicate WorkersOk(F: iset<PB>, cost: Cost, s: State)
    requires Shape(s)
  {
    forall w :: 0 <= w < |s.cubeOf| && s.cubeOf[w] != IDLE ==>
      SentOk(F, cost, s, w) && LowerHolds(F, cost, s, s.lbOf[w], s.tasks[s.cubeOf[w]].lits)
  }

  ghost predicate TasksOk(F: iset<PB>, cost: Cost, s: State) {
    forall k :: 0 <= k < |s.tasks| ==> TaskOk(F, cost, s, s.tasks[k])
  }

  /** An idle worker means an empty queue, and so does having no workers. */
  predicate NoIdleWork(s: State) {
    |s.queue| > 0 ==> |s.cubeOf| > 0 && forall w :: 0 <= w < |s.cubeOf| ==> s.cubeOf[w] != IDLE
  }

  predicate StoppedIdle(s: State) {
    s.stopped ==> |s.cubeOf| > 0 && s.active == 0
  }

  ghost predicate Core(F: iset<PB>, cost: Cost, s: State) {
    Shape(s) && Facts(F, cost, s) && TasksOk(F, cost, s) && WorkersOk(F, cost, s) && Cover(F, cost, s)
  }

  ghost predicate Inv(F: iset<PB>, cost: Cost, s: State) {
    Core(F, cost, s) && NoIdleWork(s) && s.active == CountBusy(s.cubeOf) && StoppedIdle(s)
  }

  // ----- counting workers -----

  lemma {:induction false} CountUpdate(cubeOf: seq<int>, w: nat, v: int)
    requires w < |cubeOf|
    ensures CountBusy(cubeOf[w := v]) == CountBusy(cubeOf) - (if cubeOf[w] != IDLE then 1 else 0)
            + (if v != IDLE then 1 else 0)
  {
    var u := cubeOf[..|cubeOf| - 1];
    if w < |cubeOf| - 1 {
      CountUpdate(u, w, v);
      assert cubeOf[w := v][..|cubeOf| - 1] == u[w := v];
    } else {
      assert cubeOf[w := v][..|cubeOf| - 1] == u;
    }
  }

  lemma {:induction false} CountZero(cubeOf: seq<int>)
    ensures CountBusy(cubeOf) == 0 <==> forall w :: 0 <= w < |cubeOf| ==> cubeOf[w] == IDLE
  {
    if |cubeOf| > 0 {
      CountZero(cubeOf[..|cubeOf| - 1]);
    }
  }

  // ----- fewer improving solutions keep everything -----

  /** Everything but the bookkeeping flags of s' is that of s, and fewer solutions improve. */
  ghost predicate Narrower(F: iset<PB>, cost: Cost, s: State, r: State) {
    && r.optimizing == s.optimizing && r.tasks == s.tasks && r.queue == s.queue && r.cubeOf == s.cubeOf
    && (s.unknownSeen ==> r.unknownSeen) && (s.satFound ==> r.satFound) && (OriginalAlone(s) ==> OriginalAlone(r))
    && forall a: Lits :: Improving(F, cost, r, a) ==> Improving(F, cost, s, a)
  }

  lemma NarrowerKeeps(F: iset<PB>, cost: Cost, s: State, r: State)
    requires Core(F, cost, s) && Narrower(F, cost, s, r) && Facts(F, cost, r) && r.sent == s.sent && r.lbOf == s.lbOf
    ensures Core(F, cost, r)
  {
    hide Improving, Left;
    forall k | 0 <= k < |r.tasks|
      ensures TaskOk(F, cost, r, r.tasks[k])
    {
      assert TaskOk(F, cost, s, s.tasks[k]);
    }
    forall w | 0 <= w < |r.cubeOf| && r.cubeOf[w] != IDLE
      ensures SentOk(F, cost, r, w) && LowerHolds(F, cost, r, r.lbOf[w], r.tasks[r.cubeOf[w]].lits)
    {
      assert SentOk(F, cost, s, w) && LowerHolds(F, cost, s, s.lbOf[w], s.tasks[s.cubeOf[w]].lits);
    }
    forall a: Lits | Improving(F, cost, r, a) && !r.unknownSeen && !r.satFound
      ensures Pending(r, a)
    {
      assert Pending(s, a);
    }
  }

  lemma ImproveFacts(F: iset<PB>, cost: Cost, s: State, c: int)
    requires Facts(F, cost, s) && s.optimizing && Attained(F, cost, c)
    ensures Facts(F, cost, Improve(s, c)) && Narrower(F, cost, s, Improve(s, c)) && Improve(s, c).hasBest
  {
    forall a: Lits | Improving(F, cost, Improve(s, c), a)
      ensures Improving(F, cost, s, a)
    {
    }
  }

  lemma ImproveKeeps(F: iset<PB>, cost: Cost, s: State, c: int)
    requires Core(F, cost, s) && s.optimizing && Attained(F, cost, c)
    ensures Core(F, cost, Improve(s, c))
  {
    hide Core;
    CoreFacts(F, cost, s);
    ImproveFacts(F, cost, s, c);
    NarrowerKeeps(F, cost, s, Improve(s, c));
  }

  lemma CoreFacts(F: iset<PB>, cost: Cost, s: State)
    requires Core(F, cost, s)
    ensures Shape(s) && Facts(F, cost, s)
  {
  }

  lemma ReportUpperKeeps(F: iset<PB>, cost: Cost, s: State, ub: int)
    requires Core(F, cost, s) && (ub < INT_MAX ==> s.optimizing && Attained(F, cost, ub))
    ensures Core(F, cost, ReportUpper(s, ub))
  {
    hide Core;
    CoreFacts(F, cost, s);
    if ub < INT_MAX {
      ImproveKeeps(F, cost, s, ub);
      assert !s.hasBest ==> ReportUpper(s, ub) == Improve(s, ub);
    }
  }

  // ----- handing out work -----

  lemma RemoveAt(q: seq<nat>, p: nat, i: nat)
    requires p < |q| && i < |q| && i != p
    ensures var r := q[..p] + q[p + 1..];
            var j := if i < p then i else i - 1;
            j < |r| && r[j] == q[i]
  {
  }

  lemma StillWaiting(s: State, w: nat, a: Lits)
    requires Shape(s) && |s.queue| > 0 && w < |s.cubeOf| && Waiting(s, a)
    ensures Waiting(Dispatch(s, w), a) || Running(Dispatch(s, w), a)
  {
    hide AllTrue;
    var p, r := TopOf(s, |s.queue| - 1), Dispatch(s, w);
    var i :| 0 <= i < |s.queue| && s.queue[i] < |s.tasks| && AllTrue(s.tasks[s.queue[i]].lits, a);
    if i == p {
      assert r.cubeOf[w] == s.queue[p];
    } else {
      RemoveAt(s.queue, p, i);
      assert r.queue[if i < p then i else i - 1] == s.queue[i];
    }
  }

  lemma StillRunning(s: State, w: nat, a: Lits)
    requires Shape(s) && |s.queue| > 0 && w < |s.cubeOf| && s.cubeOf[w] == IDLE && Running(s, a)
    ensures Running(Dispatch(s, w), a)
  {
    hide AllTrue;
    var r := Dispatch(s, w);
    var v :| 0 <= v < |s.cubeOf| && 0 <= s.cubeOf[v] < |s.tasks| && AllTrue(s.tasks[s.cubeOf[v]].lits, a);
    assert r.cubeOf[v] == s.cubeOf[v];
  }

  lemma DispatchShape(s: State, w: nat)
    requires Shape(s) && |s.queue| > 0 && w < |s.cubeOf|
    ensures Shape(Dispatch(s, w))
  {
  }

  /** What the worker is told holds in every improving solution of the task. */
  lemma WorkHolds(F: iset<PB>, cost: Cost, s: State, t: Task, a: Lits)
    requires Facts(F, cost, s) && TaskOk(F, cost, s, t) && Improving(F, cost, s, a) && AllTrue(t.lits, a)
    ensures Left(F, cost, WorkFor(s, t), a)
  {
    assert AllTrue([], a);
  }

  lemma DispatchKeeps(F: iset<PB>, cost: Cost, s: State, w: nat)
    requires Core(F, cost, s) && |s.queue| > 0 && w < |s.cubeOf| && s.cubeOf[w] == IDLE
    ensures Core(F, cost, Dispatch(s, w))
  {
    hide Improving, Left, AllTrue, WorkFor, Waiting, Running, LearnedHold, LowerHolds;
    var r := Dispatch(s, w);
    DispatchShape(s, w);
    SameFacts(F, cost, s, r);
    var idx := s.queue[TopOf(s, |s.queue| - 1)];
    forall k | 0 <= k < |r.tasks|
      ensures TaskOk(F, cost, r, r.tasks[k])
    {
      assert TaskOk(F, cost, s, s.tasks[k]);
      SameTask(F, cost, s, r, s.tasks[k]);
    }
    forall v | 0 <= v < |r.cubeOf| && r.cubeOf[v] != IDLE
      ensures SentOk(F, cost, r, v) && LowerHolds(F, cost, r, r.lbOf[v], r.tasks[r.cubeOf[v]].lits)
    {
      if v == w {
        assert TaskOk(F, cost, s, s.tasks[idx]);
        NewlySent(F, cost, s, w);
      } else {
        assert SentOk(F, cost, s, v) && LowerHolds(F, cost, s, s.lbOf[v], s.tasks[s.cubeOf[v]].lits);
        SameWorker(F, cost, s, r, v);
      }
    }
    forall a: Lits | Improving(F, cost, r, a) && !r.unknownSeen && !r.satFound
      ensures Pending(r, a)
    {
      SameImproving(F, cost, s, r, a);
      assert Pending(s, a);
      if Waiting(s, a) {
        StillWaiting(s, w, a);
      } else if Running(s, a) {
        StillRunning(s, w, a);
      }
    }
  }

  ghost predicate SameBest(s: State, r: State) {
    r.hasBest == s.hasBest && r.best == s.best && r.optimizing == s.optimizing
  }

  lemma SameImproving(F: iset<PB>, cost: Cost, s: State, r: State, a: Lits)
    requires SameBest(s, r)
    ensures Improving(F, cost, s, a) <==> Improving(F, cost, r, a)
  {
  }

  lemma SameFacts(F: iset<PB>, cost: Cost, s: State, r: State)
    requires Facts(F, cost, s) && SameBest(s, r) && r.optimizing == s.optimizing && r.feasibleSeen == s.feasibleSeen
    requires r.globalLower == s.globalLower && r.globalLearned == s.globalLearned
    requires r.satFound == s.satFound && r.provedUnsat == s.provedUnsat && r.provedOptimum == s.provedOptimum
    ensures Facts(F, cost, r)
  {
    forall a: Lits
      ensures Improving(F, cost, s, a) <==> Improving(F, cost, r, a)
    {
      SameImproving(F, cost, s, r, a);
    }
  }

  lemma SameTask(F: iset<PB>, cost: Cost, s: State, r: State, t: Task)
    requires TaskOk(F, cost, s, t) && SameBest(s, r)
    ensures TaskOk(F, cost, r, t)
  {
    forall a: Lits
      ensures Improving(F, cost, s, a) <==> Improving(F, cost, r, a)
    {
      SameImproving(F, cost, s, r, a);
    }
  }

  lemma SameWorker(F: iset<PB>, cost: Cost, s: State, r: State, v: nat)
    requires Shape(s) && Shape(r) && SameBest(s, r) && v < |s.cubeOf| == |r.cubeOf| && s.tasks <= r.tasks
    requires r.cubeOf[v] == s.cubeOf[v] && r.sent[v] == s.sent[v] && r.lbOf[v] == s.lbOf[v]
    requires SentOk(F, cost, s, v) && LowerHolds(F, cost, s, s.lbOf[v], s.tasks[s.cubeOf[v]].lits)
    ensures SentOk(F, cost, r, v) && LowerHolds(F, cost, r, r.lbOf[v], r.tasks[r.cubeOf[v]].lits)
  {
    forall a: Lits
      ensures Improving(F, cost, s, a) <==> Improving(F, cost, r, a)
    {
      SameImproving(F, cost, s, r, a);
    }
  }

  lemma NewlySent(F: iset<PB>, cost: Cost, s: State, w: nat)
    requires Core(F, cost, s) && |s.queue| > 0 && w < |s.cubeOf|
    requires TaskOk(F, cost, s, s.tasks[s.queue[TopOf(s, |s.queue| - 1)]])
    ensures var r := Dispatch(s, w);
            SentOk(F, cost, r, w) && LowerHolds(F, cost, r, r.lbOf[w], r.tasks[r.cubeOf[w]].lits)
  {
    var r := Dispatch(s, w);
    var t := s.tasks[s.queue[TopOf(s, |s.queue| - 1)]];
    forall a: Lits | Improving(F, cost, r, a) && AllTrue(t.lits, a)
      ensures Left(F, cost, r.sent[w], a)
    {
      SameImproving(F, cost, s, r, a);
      WorkHolds(F, cost, s, t, a);
    }
  }

  lemma FillIdleKeeps(F: iset<PB>, cost: Cost, s: State, p: nat)
    requires Core(F, cost, s) && p <= |s.cubeOf| && s.active == CountBusy(s.cubeOf) && !s.stopped
    requires |s.cubeOf| == 0 ==> |s.queue| == 0
    requires |s.queue| > 0 ==> forall w :: 0 <= w < p ==> s.cubeOf[w] != IDLE
    ensures Inv(F, cost, FillIdle(s, p))
    decreases |s.cubeOf| - p
  {
    hide Core, Dispatch;
    CoreFacts(F, cost, s);
    if p == |s.cubeOf| || |s.queue| == 0 {
    } else if s.cubeOf[p] != IDLE {
      FillIdleKeeps(F, cost, s, p + 1);
    } else {
      DispatchKeeps(F, cost, s, p);
      DispatchCount(s, p);
      var r := Dispatch(s, p).(active := s.active + 1);
      ActiveIrrelevant(F, cost, Dispatch(s, p), s.active + 1);
      CoreFacts(F, cost, r);
      FillIdleKeeps(F, cost, r, p + 1);
    }
  }

  lemma DispatchCount(s: State, w: nat)
    requires Shape(s) && |s.queue| > 0 && w < |s.cubeOf| && s.cubeOf[w] == IDLE
    ensures var r := Dispatch(s, w);
            CountBusy(r.cubeOf) == CountBusy(s.cubeOf) + 1 && |r.cubeOf| == |s.cubeOf| && r.cubeOf[w] != IDLE
            && |r.queue| == |s.queue| - 1 && r.stopped == s.stopped
            && forall v :: 0 <= v < |s.cubeOf| && v != w ==> r.cubeOf[v] == s.cubeOf[v]
  {
    CountUpdate(s.cubeOf, w, s.queue[TopOf(s, |s.queue| - 1)]);
  }

  lemma ActiveIrrelevant(F: iset<PB>, cost: Cost, s: State, n: nat)
    requires Core(F, cost, s)
    ensures Core(F, cost, s.(active := n))
  {
    var r := s.(active := n);
    SameFacts(F, cost, s, r);
    NarrowerKeeps(F, cost, s, r) by {
      forall a: Lits
        ensures Improving(F, cost, s, a) <==> Improving(F, cost, r, a)
      {
        SameImproving(F, cost, s, r, a);
      }
    }
  }

  /** Once nothing improving is left in its cube, the worker may be taken off it. */
  lemma ReleaseKeeps(F: iset<PB>, cost: Cost, s: State, w: nat)
    requires Core(F, cost, s) && Busy(s, w) && s.active > 0
    requires s.unknownSeen || forall a: Lits :: Improving(F, cost, s, a) ==> !AllTrue(s.tasks[s.cubeOf[w]].lits, a)
    ensures Core(F, cost, Release(s, w))
  {
    hide Improving, Left, AllTrue, Waiting, LearnedHold, LowerHolds;
    var r := Release(s, w);
    SameFacts(F, cost, s, r);
    forall k | 0 <= k < |r.tasks|
      ensures TaskOk(F, cost, r, r.tasks[k])
    {
      assert TaskOk(F, cost, s, s.tasks[k]);
      SameTask(F, cost, s, r, s.tasks[k]);
    }
    forall v | 0 <= v < |r.cubeOf| && r.cubeOf[v] != IDLE
      ensures SentOk(F, cost, r, v) && LowerHolds(F, cost, r, r.lbOf[v], r.tasks[r.cubeOf[v]].lits)
    {
      assert SentOk(F, cost, s, v) && LowerHolds(F, cost, s, s.lbOf[v], s.tasks[s.cubeOf[v]].lits);
      SameWorker(F, cost, s, r, v);
    }
    forall a: Lits | Improving(F, cost, r, a) && !r.unknownSeen && !r.satFound
      ensures Pending(r, a)
    {
      SameImproving(F, cost, s, r, a);
      assert Pending(s, a);
      if Waiting(s, a) {
        SameWaiting(s, r, a);
      } else if Running(s, a) {
        var v :| 0 <= v < |s.cubeOf| && 0 <= s.cubeOf[v] < |s.tasks| && AllTrue(s.tasks[s.cubeOf[v]].lits, a);
        assert r.cubeOf[v] == s.cubeOf[v];
      }
    }
  }

  lemma SameWaiting(s: State, r: State, a: Lits)
    requires Waiting(s, a) && s.queue <= r.queue && s.tasks <= r.tasks
    ensures Waiting(r, a)
  {
    var i :| 0 <= i < |s.queue| && s.queue[i] < |s.tasks| && AllTrue(s.tasks[s.queue[i]].lits, a);
    assert r.queue[i] == s.queue[i] && r.tasks[s.queue[i]] == s.tasks[s.queue[i]];
  }

  /** A finished cube holds no improving solution. */
  lemma ExhaustedMeans(F: iset<PB>, cost: Cost, s: State, w: nat, a: Lits)
    requires Core(F, cost, s) && Busy(s, w) && Exhausted(F, cost, s, w, Unknown)
    requires Improving(F, cost, s, a)
    ensures !AllTrue(s.tasks[s.cubeOf[w]].lits, a)
  {
    hide Improving, Left, AllTrue, Facts, TasksOk, Cover;
    assert SentOk(F, cost, s, w);
  }

  /** With the reported cost as incumbent, a cube that keeps nothing better keeps nothing improving. */
  lemma ReportedMeans(F: iset<PB>, cost: Cost, s: State, w: nat, c: int)
    requires Core(F, cost, s) && Busy(s, w) && Exhausted(F, cost, s, w, AtLeast(c))
    ensures Exhausted(F, cost, Improve(s, c), w, Unknown)
  {
    forall a: Lits | Improving(F, cost, Improve(s, c), a) && Left(F, cost, s.sent[w], a)
      ensures false
    {
      assert Improving(F, cost, s, a);
    }
  }

  /** After the bookkeeping nothing improving is left in the cube, unless the worker gave up. */
  lemma NotedKeeps(F: iset<PB>, cost: Cost, s: State, w: nat, code: int, c: int)
    requires Core(F, cost, s) && Busy(s, w) && code in {0, 10, 15, 20}
    requires Truthful(F, cost, s, WorkerResult(w, code, c)) && (code == 10 ==> s.optimizing)
    ensures Core(F, cost, Noted(s, code, c))
    ensures var r := Noted(s, code, c);
            r.unknownSeen || forall a: Lits :: Improving(F, cost, r, a) ==> !AllTrue(r.tasks[r.cubeOf[w]].lits, a)
  {
    hide Core, Improving, Left, AllTrue, Exhausted, Attained;
    var r := Noted(s, code, c);
    if code == 0 {
      GiveUp(F, cost, s);
    } else {
      if code in {10, 15} {
        ImproveKeeps(F, cost, s, c);
        ReportedMeans(F, cost, s, w, c);
      }
      forall a: Lits | Improving(F, cost, r, a)
        ensures !AllTrue(r.tasks[r.cubeOf[w]].lits, a)
      {
        ExhaustedMeans(F, cost, r, w, a);
      }
    }
  }

  lemma OnDoneKeeps(F: iset<PB>, cost: Cost, s: State, w: nat, code: int, c: int)
    requires Inv(F, cost, s) && Busy(s, w) && s.active > 0 && code in {0, 10, 15, 20}
    requires Truthful(F, cost, s, WorkerResult(w, code, c)) && (code == 10 ==> s.optimizing)
    ensures Inv(F, cost, OnDone(s, w, code, c))
  {
    hide Core, Improving, Left, AllTrue, Dispatch, Exhausted, Attained, Noted, Truthful;
    NotedKeeps(F, cost, s, w, code, c);
    CoreFacts(F, cost, Noted(s, code, c));
    NotedDone(F, cost, Noted(s, code, c), w);
  }

  /** The worker goes to the next task, or idles. */
  lemma NotedDone(F: iset<PB>, cost: Cost, r: State, w: nat)
    requires Core(F, cost, r) && Busy(r, w) && r.active > 0 && Shape(r) && !r.stopped
    requires NoIdleWork(r) && r.active == CountBusy(r.cubeOf)
    requires r.unknownSeen || forall a: Lits :: Improving(F, cost, r, a) ==> !AllTrue(r.tasks[r.cubeOf[w]].lits, a)
    ensures Inv(F, cost, if |r.queue| > 0 then Dispatch(r, w) else StopWhenIdle(Release(r, w)))
  {
    hide Core, Improving, Left, AllTrue, Dispatch;
    ReleaseKeeps(F, cost, r, w);
    CountUpdate(r.cubeOf, w, IDLE);
    if |r.queue| > 0 {
      NextTask(F, cost, r, w);
    } else {
      StoppedIrrelevant(F, cost, Release(r, w));
    }
  }

  lemma NextTask(F: iset<PB>, cost: Cost, r: State, w: nat)
    requires Shape(r) && Busy(r, w) && r.active > 0 && !r.stopped && |r.queue| > 0
    requires NoIdleWork(r) && r.active == CountBusy(r.cubeOf) && CountBusy(Release(r, w).cubeOf) == r.active - 1
    requires Core(F, cost, Release(r, w))
    ensures Inv(F, cost, Dispatch(r, w))
  {
    hide Core, Dispatch;
    var q := Release(r, w);
    DispatchKeeps(F, cost, q, w);
    DispatchCount(q, w);
    ActiveIrrelevant(F, cost, Dispatch(q, w), r.active);
    DispatchAfterRelease(r, w);
  }

  lemma StoppedIrrelevant(F: iset<PB>, cost: Cost, s: State)
    requires Core(F, cost, s)
    ensures Core(F, cost, StopWhenIdle(s))
  {
    var r := s.(stopped := true);
    SameFacts(F, cost, s, r);
    forall a: Lits
      ensures Improving(F, cost, s, a) <==> Improving(F, cost, r, a)
    {
      SameImproving(F, cost, s, r, a);
    }
    NarrowerKeeps(F, cost, s, r);
  }

  lemma DispatchAfterRelease(s: State, w: nat)
    requires Shape(s) && |s.queue| > 0 && w < |s.cubeOf| && s.active > 0
    ensures Dispatch(Release(s, w), w).(active := s.active) == Dispatch(s, w)
  {
    hide TopOf, WorkFor, LowerLess;
    TopAfterRelease(s, w, |s.queue| - 1);
    OrdersAfterRelease(s, w, s.tasks[s.queue[TopOf(s, |s.queue| - 1)]]);
    var p := TopOf(s, |s.queue| - 1);
    assert s.cubeOf[w := IDLE][w := s.queue[p] as int] == s.cubeOf[w := s.queue[p] as int];
  }

  lemma OrdersAfterRelease(s: State, w: nat, t: Task)
    requires Shape(s) && w < |s.cubeOf| && s.active > 0
    ensures WorkFor(Release(s, w), t) == WorkFor(s, t)
  {
  }

  lemma {:induction false} TopAfterRelease(s: State, w: nat, i: nat)
    requires Shape(s) && w < |s.cubeOf| && s.active > 0 && i < |s.queue|
    ensures TopOf(Release(s, w), i) == TopOf(s, i)
  {
    if i > 0 {
      TopAfterRelease(s, w, i - 1);
    }
  }

  /** After an unknown answer nothing is claimed about the remaining tasks. */
  lemma GiveUp(F: iset<PB>, cost: Cost, s: State)
    requires Core(F, cost, s)
    ensures Core(F, cost, s.(unknownSeen := true))
  {
    var r := s.(unknownSeen := true);
    SameFacts(F, cost, s, r);
    forall a: Lits
      ensures Improving(F, cost, s, a) <==> Improving(F, cost, r, a)
    {
      SameImproving(F, cost, s, r, a);
    }
    NarrowerKeeps(F, cost, s, r);
  }

  // ----- splitting -----

  /** A child of a split task: its solutions are the parent worker's, so its constraints hold in the improving ones. */
  lemma ChildOk(F: iset<PB>, cost: Cost, s: State, w: nat, subcubes: seq<seq<int>>, cs: set<PB>, i: nat)
    requires Core(F, cost, s) && Busy(s, w) && SplitCovers(F, cost, s, w, subcubes, cs) && i < |subcubes|
    ensures var parent := s.tasks[s.cubeOf[w]];
            TaskOk(F, cost, s, Task(subcubes[i], parent.depth + 1, parent.learned + cs,
                                    MaxLower(s.lbOf[w], s.globalLower)))
  {
    hide Improving, Left, Waiting, Running;
    var parent := s.tasks[s.cubeOf[w]];
    assert SentOk(F, cost, s, w) && LowerHolds(F, cost, s, s.lbOf[w], parent.lits) && TaskOk(F, cost, s, parent);
    forall a: Lits | Improving(F, cost, s, a) && AllTrue(subcubes[i], a)
      ensures SatAll(parent.learned + cs, a)
      ensures s.optimizing ==> Above(MaxLower(s.lbOf[w], s.globalLower), cost(a))
    {
      PrefixTrue(parent.lits, subcubes[i], a);
      assert AllTrue([], a);
    }
  }

  lemma PrefixTrue(x: seq<int>, y: seq<int>, a: Lits)
    requires x <= y && AllTrue(y, a)
    ensures AllTrue(x, a)
  {
    forall i | 0 <= i < |x|
      ensures x[i] in a
    {
      assert y[i] == x[i];
    }
  }

  lemma SplitCoverKept(F: iset<PB>, cost: Cost, s: State, w: nat, subcubes: seq<seq<int>>, cs: set<PB>, kids: seq<Task>,
                       a: Lits)
    requires Core(F, cost, s) && Busy(s, w) && s.active > 0 && SplitCovers(F, cost, s, w, subcubes, cs)
    requires |kids| == |subcubes| && forall i :: 0 <= i < |kids| ==> kids[i].lits == subcubes[i]
    requires Improving(F, cost, s, a) && !s.unknownSeen && !s.satFound
    ensures Pending(Enqueue(Release(s, w), kids), a)
  {
    hide Improving, Left, AllTrue, TaskOk, Facts, LowerHolds, LearnedHold;
    var r := Enqueue(Release(s, w), kids);
    assert SentOk(F, cost, s, w) && Pending(s, a);
    if Waiting(s, a) {
      SameWaiting(s, r, a);
    } else {
      var v :| 0 <= v < |s.cubeOf| && 0 <= s.cubeOf[v] < |s.tasks| && AllTrue(s.tasks[s.cubeOf[v]].lits, a);
      if v == w {
        var i :| 0 <= i < |subcubes| && AllTrue(subcubes[i], a);
        assert r.queue[|s.queue| + i] == |s.tasks| + i && r.tasks[|s.tasks| + i] == kids[i];
      } else {
        assert r.cubeOf[v] == s.cubeOf[v] && r.tasks[s.cubeOf[v]] == s.tasks[s.cubeOf[v]];
      }
    }
  }

  lemma EnqueueKeeps(F: iset<PB>, cost: Cost, s: State, w: nat, subcubes: seq<seq<int>>, cs: set<PB>)
    requires Core(F, cost, s) && Busy(s, w) && s.active > 0 && SplitCovers(F, cost, s, w, subcubes, cs)
    ensures var parent := s.tasks[s.cubeOf[w]];
            var kids := NewTasks(subcubes, parent.depth + 1, parent.learned + cs, MaxLower(s.lbOf[w], s.globalLower));
            Core(F, cost, Enqueue(Release(s, w), kids))
  {
    hide Improving, Left, AllTrue, Waiting, Running, LearnedHold, LowerHolds, SplitCovers;
    var parent := s.tasks[s.cubeOf[w]];
    var kids := NewTasks(subcubes, parent.depth + 1, parent.learned + cs, MaxLower(s.lbOf[w], s.globalLower));
    var r := Enqueue(Release(s, w), kids);
    SameFacts(F, cost, s, r);
    forall k | 0 <= k < |r.tasks|
      ensures TaskOk(F, cost, r, r.tasks[k])
    {
      if k < |s.tasks| {
        assert TaskOk(F, cost, s, s.tasks[k]);
      } else {
        ChildOk(F, cost, s, w, subcubes, cs, k - |s.tasks|);
      }
      SameTask(F, cost, s, r, r.tasks[k]);
    }
    forall v | 0 <= v < |r.cubeOf| && r.cubeOf[v] != IDLE
      ensures SentOk(F, cost, r, v) && LowerHolds(F, cost, r, r.lbOf[v], r.tasks[r.cubeOf[v]].lits)
    {
      assert SentOk(F, cost, s, v) && LowerHolds(F, cost, s, s.lbOf[v], s.tasks[s.cubeOf[v]].lits);
      SameWorker(F, cost, s, r, v);
    }
    forall a: Lits | Improving(F, cost, r, a) && !r.unknownSeen && !r.satFound
      ensures Pending(r, a)
    {
      SameImproving(F, cost, s, r, a);
      SplitCoverKept(F, cost, s, w, subcubes, cs, kids, a);
    }
  }

  lemma OnSplitKeeps(F: iset<PB>, cost: Cost, s: State, w: nat, subcubes: seq<seq<int>>, cs: set<PB>)
    requires Inv(F, cost, s) && Busy(s, w) && s.active > 0 && SplitCovers(F, cost, s, w, subcubes, cs)
    ensures Inv(F, cost, OnSplit(s, w, subcubes, cs))
  {
    hide Core, SplitCovers;
    CoreFacts(F, cost, s);
    EnqueueKeeps(F, cost, s, w, subcubes, cs);
    CountUpdate(s.cubeOf, w, IDLE);
    var parent := s.tasks[s.cubeOf[w]];
    var kids := NewTasks(subcubes, parent.depth + 1, parent.learned + cs, MaxLower(s.lbOf[w], s.globalLower));
    FillIdleKeeps(F, cost, Enqueue(Release(s, w), kids), 0);
  }

  // ----- every message keeps the invariant -----

  /** After a 25 the worker learns the incumbent it will split under. */
  lemma TellBest(F: iset<PB>, cost: Cost, s: State, w: nat)
    requires Core(F, cost, s) && Busy(s, w) && s.hasBest
    ensures Core(F, cost, s.(sent := s.sent[w := s.sent[w].(hasBound := true, bound := s.best)]))
  {
    hide AllTrue, Waiting, Running, LearnedHold, LowerHolds, SatAll;
    var r := s.(sent := s.sent[w := s.sent[w].(hasBound := true, bound := s.best)]);
    SameFacts(F, cost, s, r);
    forall a: Lits
      ensures Improving(F, cost, s, a) <==> Improving(F, cost, r, a)
    {
      SameImproving(F, cost, s, r, a);
    }
    forall k | 0 <= k < |r.tasks|
      ensures TaskOk(F, cost, r, r.tasks[k])
    {
      assert TaskOk(F, cost, s, s.tasks[k]);
      SameTask(F, cost, s, r, s.tasks[k]);
    }
    forall v | 0 <= v < |r.cubeOf| && r.cubeOf[v] != IDLE
      ensures SentOk(F, cost, r, v) && LowerHolds(F, cost, r, r.lbOf[v], r.tasks[r.cubeOf[v]].lits)
    {
      assert SentOk(F, cost, s, v) && LowerHolds(F, cost, s, s.lbOf[v], s.tasks[s.cubeOf[v]].lits);
      if v != w {
        SameWorker(F, cost, s, r, v);
      } else {
        SameLower(F, cost, s, r, s.lbOf[v], s.tasks[s.cubeOf[v]].lits);
      }
    }
    forall a: Lits | Improving(F, cost, r, a) && !r.unknownSeen && !r.satFound
      ensures Pending(r, a)
    {
      SamePlace(s, r, a);
    }
  }

  lemma SameLower(F: iset<PB>, cost: Cost, s: State, r: State, lower: Lower, lits: seq<int>)
    requires SameBest(s, r) && LowerHolds(F, cost, s, lower, lits)
    ensures LowerHolds(F, cost, r, lower, lits)
  {
    forall a: Lits
      ensures Improving(F, cost, s, a) <==> Improving(F, cost, r, a)
    {
      SameImproving(F, cost, s, r, a);
    }
  }

  lemma SamePlace(s: State, r: State, a: Lits)
    requires r.queue == s.queue && r.tasks == s.tasks && r.cubeOf == s.cubeOf && r.originalActive == s.originalActive
    ensures Pending(s, a) ==> Pending(r, a)
  {
    if Waiting(s, a) {
      SameWaiting(s, r, a);
    }
    if Running(s, a) {
      var w :| 0 <= w < |s.cubeOf| && 0 <= s.cubeOf[w] < |s.tasks| && AllTrue(s.tasks[s.cubeOf[w]].lits, a);
      assert r.cubeOf[w] == s.cubeOf[w];
    }
  }

  lemma OnWorkerKeeps(F: iset<PB>, cost: Cost, s: State, w: nat, code: int, c: int)
    requires Inv(F, cost, s) && s.active > 0 && Truthful(F, cost, s, WorkerResult(w, code, c))
    ensures Inv(F, cost, OnWorker(s, w, code, c))
  {
    hide Core, Exhausted, Attained;
    CoreFacts(F, cost, s);
    if code == 25 {
      ImproveKeeps(F, cost, s, c);
      TellBest(F, cost, Improve(s, c), w);
    } else if code == 26 {
      ImproveKeeps(F, cost, s, c);
    } else if code == 10 && !s.optimizing {
      FactsAgain(F, cost, s, s.(satFound := true));
      FlagKeeps(F, cost, s, s.(satFound := true));
    } else {
      OnDoneKeeps(F, cost, s, w, code, c);
    }
  }

  /** Flags and shared facts may change as long as the facts stay facts. */
  lemma FlagKeeps(F: iset<PB>, cost: Cost, s: State, r: State)
    requires Core(F, cost, s) && Facts(F, cost, r) && SameBest(s, r) && r.tasks == s.tasks && r.queue == s.queue
    requires r.cubeOf == s.cubeOf && r.sent == s.sent && r.lbOf == s.lbOf && (s.unknownSeen ==> r.unknownSeen)
    requires (s.satFound ==> r.satFound) && r.originalActive == s.originalActive
    ensures Core(F, cost, r)
  {
    forall a: Lits
      ensures Improving(F, cost, s, a) <==> Improving(F, cost, r, a)
    {
      SameImproving(F, cost, s, r, a);
    }
    NarrowerKeeps(F, cost, s, r);
  }

  /** Facts as they read when the incumbent is the same. */
  lemma FactsAgain(F: iset<PB>, cost: Cost, s: State, r: State)
    requires Facts(F, cost, s) && SameBest(s, r) && r.feasibleSeen == s.feasibleSeen
    requires LowerHolds(F, cost, s, r.globalLower, []) && LearnedHold(F, cost, s, r.globalLearned, [])
    requires r.satFound ==> s.satFound || (!s.optimizing && exists a: Lits :: Sol(F, a))
    requires r.provedUnsat ==> s.provedUnsat || forall a: Lits :: !Sol(F, a)
    requires r.provedOptimum ==> s.provedOptimum || (s.hasBest && forall a: Lits :: !Improving(F, cost, s, a))
    ensures Facts(F, cost, r)
  {
    forall a: Lits
      ensures Improving(F, cost, s, a) <==> Improving(F, cost, r, a)
    {
      SameImproving(F, cost, s, r, a);
    }
  }

  /** With the original worker gone, someone else must be searching, or nothing is left to find. */
  lemma Deactivate(F: iset<PB>, cost: Cost, s: State)
    requires Core(F, cost, s)
    requires |s.cubeOf| > 0 || s.unknownSeen || s.satFound || forall a: Lits :: !Improving(F, cost, s, a)
    ensures Core(F, cost, s.(originalActive := false))
  {
    hide AllTrue, LearnedHold, LowerHolds, Waiting, Running;
    var r := s.(originalActive := false);
    SameFacts(F, cost, s, r);
    forall a: Lits
      ensures Improving(F, cost, s, a) <==> Improving(F, cost, r, a)
    {
      SameImproving(F, cost, s, r, a);
    }
    if |s.cubeOf| > 0 {
      NarrowerKeeps(F, cost, s, r);
    } else {
      forall k | 0 <= k < |r.tasks|
        ensures TaskOk(F, cost, r, r.tasks[k])
      {
        assert TaskOk(F, cost, s, s.tasks[k]);
        SameTask(F, cost, s, r, s.tasks[k]);
      }
    }
  }

  lemma OnOriginalKeeps(F: iset<PB>, cost: Cost, s: State, code: int, c: int)
    requires Inv(F, cost, s) && Truthful(F, cost, s, OriginalResult(code, c))
    ensures Inv(F, cost, OnOriginal(s, code, c))
  {
    hide Core, Attained, NothingBetter, Told;
    CoreFacts(F, cost, s);
    if code == 26 {
      ImproveKeeps(F, cost, s, c);
    } else {
      ToldFacts(F, cost, s, code, c);
      NarrowerKeeps(F, cost, s, Told(s, code, c));
      if |s.cubeOf| == 0 {
        OriginalLeaves(F, cost, s, code, c);
      }
      Deactivate(F, cost, Told(s, code, c));
    }
  }

  /** The last word is a fact, and leaves no more to find than before. */
  lemma ToldFacts(F: iset<PB>, cost: Cost, s: State, code: int, c: int)
    requires Facts(F, cost, s) && code != 26 && Truthful(F, cost, s, OriginalResult(code, c))
    ensures Facts(F, cost, Told(s, code, c)) && Narrower(F, cost, s, Told(s, code, c))
  {
    hide Facts, Attained, Improve, Improving, LowerHolds, LearnedHold;
    if !s.optimizing {
      DecisionFacts(F, cost, s, code, c);
    } else if code == 10 {
      ImproveFacts(F, cost, s, c);
      BestReached(F, cost, s, c);
      OptimumFacts(F, cost, s, Improve(s, c));
    } else if code == 15 {
      ImproveFacts(F, cost, s, c);
    } else {
      EmptyFacts(F, cost, s, code, c);
    }
  }

  lemma FlagNarrower(F: iset<PB>, cost: Cost, s: State, r: State)
    requires SameWork(s, r) && SameBest(s, r) && r.originalActive == s.originalActive
    requires (s.unknownSeen ==> r.unknownSeen) && (s.satFound ==> r.satFound)
    ensures Narrower(F, cost, s, r)
  {
    forall a: Lits
      ensures Improving(F, cost, s, a) <==> Improving(F, cost, r, a)
    {
      SameImproving(F, cost, s, r, a);
    }
  }

  lemma DecisionFacts(F: iset<PB>, cost: Cost, s: State, code: int, c: int)
    requires Facts(F, cost, s) && code != 26 && Truthful(F, cost, s, OriginalResult(code, c)) && !s.optimizing
    ensures Facts(F, cost, Told(s, code, c)) && Narrower(F, cost, s, Told(s, code, c))
  {
    hide Attained;
    FactsAgain(F, cost, s, Told(s, code, c));
    FlagNarrower(F, cost, s, Told(s, code, c));
  }

  lemma OptimumFacts(F: iset<PB>, cost: Cost, s: State, r: State)
    requires Facts(F, cost, r) && Narrower(F, cost, s, r) && r.hasBest && forall a: Lits :: !Improving(F, cost, r, a)
    ensures Facts(F, cost, r.(provedOptimum := true)) && Narrower(F, cost, s, r.(provedOptimum := true))
  {
    hide Attained, LowerHolds, LearnedHold;
    FactsAgain(F, cost, r, r.(provedOptimum := true)) by {
      assert LowerHolds(F, cost, r, r.globalLower, []) && LearnedHold(F, cost, r, r.globalLearned, []);
    }
    FlagNarrower(F, cost, r, r.(provedOptimum := true));
  }

  lemma EmptyFacts(F: iset<PB>, cost: Cost, s: State, code: int, c: int)
    requires Facts(F, cost, s) && Truthful(F, cost, s, OriginalResult(code, c))
    requires s.optimizing && code !in {10, 15, 26}
    ensures Facts(F, cost, Told(s, code, c)) && Narrower(F, cost, s, Told(s, code, c))
  {
    hide Attained;
    NoneAtAll(F, cost, s);
    FactsAgain(F, cost, s, Told(s, code, c));
    FlagNarrower(F, cost, s, Told(s, code, c));
  }

  /** When nothing is better than c, nothing improves on it. */
  lemma BestReached(F: iset<PB>, cost: Cost, s: State, c: int)
    requires NothingBetter(F, cost, s, c)
    ensures forall a: Lits :: !Improving(F, cost, Improve(s, c), a)
  {
    forall a: Lits
      ensures !Improving(F, cost, Improve(s, c), a)
    {
      if Improving(F, cost, Improve(s, c), a) {
        assert Improving(F, cost, s, a);
      }
    }
  }

  /** Without an incumbent every solution improves. */
  lemma NoneAtAll(F: iset<PB>, cost: Cost, s: State)
    requires Facts(F, cost, s)
    ensures !s.feasibleSeen && (forall a: Lits :: !Improving(F, cost, s, a)) ==> forall a: Lits :: !Sol(F, a)
  {
    if !s.feasibleSeen && forall a: Lits :: !Improving(F, cost, s, a) {
      forall a: Lits
        ensures !Sol(F, a)
      {
        assert !Improving(F, cost, s, a);
      }
    }
  }

  /** Without cube workers the original worker leaves nothing behind, unless it gives up. */
  lemma OriginalLeaves(F: iset<PB>, cost: Cost, s: State, code: int, c: int)
    requires Facts(F, cost, s) && code != 26 && Truthful(F, cost, s, OriginalResult(code, c)) && |s.cubeOf| == 0
    ensures var out := Told(s, code, c);
            out.unknownSeen || out.satFound || forall a: Lits :: !Improving(F, cost, out, a)
  {
    hide Attained, NothingBetter, LowerHolds, LearnedHold;
    var out := Told(s, code, c);
    if s.optimizing && code in {10, 15} {
      BestReached(F, cost, s, c);
      forall a: Lits
        ensures Improving(F, cost, Improve(s, c), a) <==> Improving(F, cost, out, a)
      {
        SameImproving(F, cost, Improve(s, c), out, a);
      }
    } else {
      forall a: Lits
        ensures Improving(F, cost, s, a) <==> Improving(F, cost, out, a)
      {
        SameImproving(F, cost, s, out, a);
      }
    }
  }

  lemma OriginalBoundsKeep(F: iset<PB>, cost: Cost, s: State, lb: Lower, ub: int)
    requires Inv(F, cost, s) && Truthful(F, cost, s, OriginalBounds(lb, ub))
    ensures Inv(F, cost, OnOriginalBounds(s, lb, ub))
  {
    hide Core, Attained, ReportUpper;
    CoreFacts(F, cost, s);
    var r := if LowerLess(s.globalLower, lb) then s.(globalLower := lb) else s;
    FactsAgain(F, cost, s, r);
    FlagKeeps(F, cost, s, r);
    ReportUpperKeeps(F, cost, r, ub);
  }

  lemma WorkerBoundsKeep(F: iset<PB>, cost: Cost, s: State, w: nat, lb: Lower, ub: int)
    requires Inv(F, cost, s) && Truthful(F, cost, s, WorkerBounds(w, lb, ub))
    ensures Inv(F, cost, OnWorkerBounds(s, w, lb, ub))
  {
    hide Core, Attained, ReportUpper;
    CoreFacts(F, cost, s);
    LowerOfWorker(F, cost, s, w, lb);
    ReportUpperKeeps(F, cost, s.(lbOf := s.lbOf[w := if lb.AtLeast? then lb else s.lbOf[w]]), ub);
  }

  lemma LowerOfWorker(F: iset<PB>, cost: Cost, s: State, w: nat, lb: Lower)
    requires Core(F, cost, s) && Busy(s, w) && LowerHolds(F, cost, s, lb, s.tasks[s.cubeOf[w]].lits)
    ensures Core(F, cost, s.(lbOf := s.lbOf[w := if lb.AtLeast? then lb else s.lbOf[w]]))
  {
    hide Improving, Left, AllTrue, Waiting, Running, LearnedHold, LowerHolds;
    var r := s.(lbOf := s.lbOf[w := if lb.AtLeast? then lb else s.lbOf[w]]);
    SameFacts(F, cost, s, r);
    forall k | 0 <= k < |r.tasks|
      ensures TaskOk(F, cost, r, r.tasks[k])
    {
      assert TaskOk(F, cost, s, s.tasks[k]);
      SameTask(F, cost, s, r, s.tasks[k]);
    }
    forall v | 0 <= v < |r.cubeOf| && r.cubeOf[v] != IDLE
      ensures SentOk(F, cost, r, v) && LowerHolds(F, cost, r, r.lbOf[v], r.tasks[r.cubeOf[v]].lits)
    {
      assert SentOk(F, cost, s, v) && LowerHolds(F, cost, s, s.lbOf[v], s.tasks[s.cubeOf[v]].lits);
      SameSent(F, cost, s, r, v);
      SameLower(F, cost, s, r, r.lbOf[v], r.tasks[r.cubeOf[v]].lits);
    }
    forall a: Lits | Improving(F, cost, r, a) && !r.unknownSeen && !r.satFound
      ensures Pending(r, a)
    {
      SameImproving(F, cost, s, r, a);
      SamePlace(s, r, a);
    }
  }

  lemma SameSent(F: iset<PB>, cost: Cost, s: State, r: State, v: nat)
    requires v < |s.cubeOf| == |s.sent| && r.cubeOf == s.cubeOf && r.sent == s.sent && r.tasks == s.tasks
             && SameBest(s, r)
    requires SentOk(F, cost, s, v)
    ensures SentOk(F, cost, r, v)
  {
    forall a: Lits
      ensures Improving(F, cost, s, a) <==> Improving(F, cost, r, a)
    {
      SameImproving(F, cost, s, r, a);
    }
  }

  lemma LearnedKeeps(F: iset<PB>, cost: Cost, s: State, cs: set<PB>)
    requires Inv(F, cost, s) && LearnedHold(F, cost, s, cs, [])
    ensures Inv(F, cost, s.(globalLearned := s.globalLearned + cs))
  {
    hide Core;
    CoreFacts(F, cost, s);
    var r := s.(globalLearned := s.globalLearned + cs);
    FactsAgain(F, cost, s, r);
    FlagKeeps(F, cost, s, r);
  }

  lemma BusyActive(s: State, w: nat)
    requires s.active == CountBusy(s.cubeOf) && Busy(s, w)
    ensures s.active > 0
  {
    CountZero(s.cubeOf);
  }

  /** Every truthful message, in any order, keeps the invariant. */
  lemma MessageKeeps(F: iset<PB>, cost: Cost, s: State, m: Msg)
    requires Inv(F, cost, s) && Truthful(F, cost, s, m)
    ensures Shape(s) && (m.WorkerResult? || m.WorkerSplit? ==> Busy(s, m.w) && s.active > 0)
    ensures Inv(F, cost, OnMessage(s, m))
  {
    hide Core, Attained, Exhausted, SplitCovers, LowerHolds, LearnedHold;
    CoreFacts(F, cost, s);
    match m
    case BestRequest =>
    case LearnedUpdate(cs) => LearnedKeeps(F, cost, s, cs);
    case OriginalBounds(lb, ub) => OriginalBoundsKeep(F, cost, s, lb, ub);
    case WorkerBounds(w, lb, ub) => WorkerBoundsKeep(F, cost, s, w, lb, ub);
    case OriginalResult(code, c) => OnOriginalKeeps(F, cost, s, code, c);
    case WorkerResult(w, code, c) =>
      BusyActive(s, w);
      OnWorkerKeeps(F, cost, s, w, code, c);
    case WorkerSplit(w, subcubes, cs) =>
      BusyActive(s, w);
      OnSplitKeeps(F, cost, s, w, subcubes, cs);
  }

  // ----- runs and verdicts -----

  /** The loop ends: a verdict, nobody left to wait for, or the break after the last finished cube. */
  predicate Finished(s: State) {
    s.satFound || s.provedUnsat || s.provedOptimum || s.stopped || (s.active == 0 && !s.originalActive)
  }

  /** A run: every message is truthful when it arrives, and none is read after the end. */
  ghost predicate HonestRun(F: iset<PB>, cost: Cost, s: State, msgs: seq<Msg>)
    requires Inv(F, cost, s)
    decreases |msgs|
  {
    |msgs| > 0 ==>
      && !Finished(s) && Truthful(F, cost, s, msgs[0])
      && (MessageKeeps(F, cost, s, msgs[0]); HonestRun(F, cost, OnMessage(s, msgs[0]), msgs[1..]))
  }

  ghost function Run(F: iset<PB>, cost: Cost, s: State, msgs: seq<Msg>): (r: State)
    requires Inv(F, cost, s) && HonestRun(F, cost, s, msgs)
    ensures Inv(F, cost, r)
    decreases |msgs|
  {
    if |msgs| == 0 then s
    else
      MessageKeeps(F, cost, s, msgs[0]);
      Run(F, cost, OnMessage(s, msgs[0]), msgs[1..])
  }

  datatype Verdict = Satisfiable | Unsatisfiable | Optimum(cost: int) | BestKnown(cost: int) | NoVerdict

  /** The final global result as printed. */
  function Announce(s: State): Verdict {
    if !s.optimizing then
      if s.satFound then Satisfiable else if s.unknownSeen then NoVerdict else Unsatisfiable
    else if !s.feasibleSeen then (if s.unknownSeen then NoVerdict else Unsatisfiable)
    else if s.unknownSeen then BestKnown(s.best) else Optimum(s.best)
  }

  ghost predicate VerdictOk(F: iset<PB>, cost: Cost, v: Verdict) {
    match v
    case Satisfiable => exists a: Lits :: Sol(F, a)
    case Unsatisfiable => forall a: Lits :: !Sol(F, a)
    case Optimum(c) => Attained(F, cost, c) && forall a: Lits :: Sol(F, a) ==> cost(a) >= c
    case BestKnown(c) => Attained(F, cost, c)
    case NoVerdict => true
  }

  lemma FinishedCover(F: iset<PB>, cost: Cost, s: State)
    requires Inv(F, cost, s) && Finished(s) && !s.satFound && !s.unknownSeen
    ensures forall a: Lits :: !Improving(F, cost, s, a)
  {
    hide TasksOk, WorkersOk, LowerHolds, LearnedHold, AllTrue;
    if !s.provedUnsat && !s.provedOptimum {
      CountZero(s.cubeOf);
      assert |s.cubeOf| > 0 ==> s.cubeOf[0] == IDLE;
      assert |s.queue| == 0;
      forall a: Lits
        ensures !Improving(F, cost, s, a)
      {
        assert !Pending(s, a);
      }
    }
  }

  /** Whatever is announced at the end of a run is right. */
  lemma AnnouncementIsRight(F: iset<PB>, cost: Cost, s: State)
    requires Inv(F, cost, s) && Finished(s)
    ensures VerdictOk(F, cost, Announce(s))
  {
    hide TasksOk, WorkersOk, Cover;
    if !s.satFound && !s.unknownSeen {
      FinishedCover(F, cost, s);
      forall a: Lits | Sol(F, a)
        ensures s.hasBest && cost(a) >= s.best
      {
        assert !Improving(F, cost, s, a);
      }
    }
  }

  // ----- the start -----

  /** The master before the first dispatch: only global facts. */
  ghost predicate BeforeStart(F: iset<PB>, cost: Cost, s: State) {
    && Shape(s) && Facts(F, cost, s) && s.tasks == [] && s.queue == [] && s.active == 0 && !s.stopped
    && forall w :: 0 <= w < |s.cubeOf| ==> s.cubeOf[w] == IDLE
  }

  function Start(s: State, cubes: seq<seq<int>>): State
    requires Shape(s)
  {
    FillIdle(Enqueue(s, NewTasks(cubes, 0, {}, Unknown)), 0)
  }

  lemma StartKeeps(F: iset<PB>, cost: Cost, s: State, cubes: seq<seq<int>>)
    requires BeforeStart(F, cost, s) && (|s.cubeOf| == 0 ==> cubes == [])
    requires forall a: Lits :: Sol(F, a) ==> Covered(cubes, a) || OriginalAlone(s)
    ensures Inv(F, cost, Start(s, cubes))
  {
    hide AllTrue, LearnedHold, LowerHolds;
    var kids := NewTasks(cubes, 0, {}, Unknown);
    var r := Enqueue(s, kids);
    SameFacts(F, cost, s, r);
    forall k | 0 <= k < |r.tasks|
      ensures TaskOk(F, cost, r, r.tasks[k])
    {
      FreshTask(F, cost, r, r.tasks[k]);
    }
    forall a: Lits | Improving(F, cost, r, a)
      ensures Pending(r, a)
    {
      if Covered(cubes, a) {
        var i :| 0 <= i < |cubes| && AllTrue(cubes[i], a);
        assert r.queue[i] == i && r.tasks[i].lits == cubes[i];
        assert Waiting(r, a);
      }
    }
    CountZero(s.cubeOf);
    FillIdleKeeps(F, cost, r, 0);
  }

  lemma FreshTask(F: iset<PB>, cost: Cost, s: State, t: Task)
    requires t.learned == {} && t.lower == Unknown
    ensures TaskOk(F, cost, s, t)
  {
  }

  /** Safety of whole runs: from the first dispatch on, over any honest interleaving of messages, the final announcement
      is right. */
  lemma RunIsRight(F: iset<PB>, cost: Cost, s: State, cubes: seq<seq<int>>, msgs: seq<Msg>)
    requires BeforeStart(F, cost, s) && (|s.cubeOf| == 0 ==> cubes == [])
    requires forall a: Lits :: Sol(F, a) ==> Covered(cubes, a) || OriginalAlone(s)
    ensures Inv(F, cost, Start(s, cubes))
    ensures HonestRun(F, cost, Start(s, cubes), msgs) ==>
              var r := Run(F, cost, Start(s, cubes), msgs);
              Finished(r) ==> VerdictOk(F, cost, Announce(r))
  {
    hide Inv, Start, VerdictOk, FillIdle;
    StartKeeps(F, cost, s, cubes);
    if HonestRun(F, cost, Start(s, cubes), msgs) {
      var r := Run(F, cost, Start(s, cubes), msgs);
      if Finished(r) {
        AnnouncementIsRight(F, cost, r);
      }
    }
  }

  // ----- where the contracts come from -----

  /** A split by the splitter keeps the promise of message 30: its backend works on a formula G that every assignment
      the worker looks for satisfies. */
  lemma SplitKeepsPromise(cfg: Config, F: iset<PB>, G: iset<PB>, cost: Cost, s: State, w: nat, cs: set<PB>)
    requires Trustworthy(cfg, G) && cfg.answer([]).Assigned? && w < |s.sent|
    requires forall a: Lits :: Improving(F, cost, s, a) && Left(F, cost, s.sent[w], a) ==> SatAll(cs, a) && Holds(G, a)
    requires var out := Gen(cfg, [], [], 1000.0, false, false, 0, 1); !out.sat || cfg.optimizing
    ensures SplitCovers(F, cost, s, w,
                        Children(s.sent[w].lits, Gen(cfg, [], [], 1000.0, false, false, 0, 1).cubes), cs)
  {
    hide Gen;
    var out := Gen(cfg, [], [], 1000.0, false, false, 0, 1);
    var kids := Children(s.sent[w].lits, out.cubes);
    forall a: Lits | Improving(F, cost, s, a) && Left(F, cost, s.sent[w], a)
      ensures SatAll(cs, a) && Covered(kids, a)
    {
      GenCovers(cfg, G, [], [], 1000.0, false, false, 0, 1, a);
      var k :| 0 <= k < |out.cubes| && AllTrue(out.cubes[k], a);
      AllTrueAppend(s.sent[w].lits, out.cubes[k], a);
      assert AllTrue(kids[k], a);
    }
  }

  // ----- the first loop -----

  /** The master before it has heard anything. */
  function Initial(optimizing: bool, workers: nat): State {
    State(optimizing, [], [], seq(workers, _ => IDLE), seq(workers, _ => NO_WORK), seq(workers, _ => Unknown), 0,
          false, INT_MAX, Unknown, {}, true, false, false, false, false, false, false)
  }

  /** The initial cubes arrive between the messages of the original worker. */
  datatype Gathering = Gathering(s: State, reported: set<nat>, cubes: seq<seq<int>>, sat: bool)

  datatype EarlyMsg = FromOriginal(m: Msg) | InitResult(w: nat, sat: bool, cubes: seq<seq<int>>)

  predicate OriginalMsg(m: Msg) {
    m.BestRequest? || m.LearnedUpdate? || m.OriginalBounds? || m.OriginalResult?
  }

  predicate WellFormedEarly(e: EarlyMsg) {
    e.FromOriginal? ==> OriginalMsg(e.m)
  }

  function OnEarly(g: Gathering, e: EarlyMsg): (r: Gathering)
    requires Shape(g.s) && WellFormedEarly(e)
    ensures |r.s.cubeOf| == |g.s.cubeOf|
  {
    hide OnMessage;
    match e
    case FromOriginal(m) => g.(s := OnMessage(g.s, m))
    case InitResult(w, sat, cubes) => g.(reported := g.reported + {w}, cubes := g.cubes + cubes, sat := g.sat || sat)
  }

  /** What worker w of the initial generation finds. */
  function Found(cfg: Config, w: int, workers: nat): Out
    requires WellBehaved(cfg) && cfg.answer([]).Assigned?
  {
    Gen(cfg, [], [], 1000.0, false, true, w, workers)
  }

  /** The original worker is truthful; every other worker reports once, what it found. */
  ghost predicate TruthfulEarly(cfg: Config, F: iset<PB>, cost: Cost, g: Gathering, e: EarlyMsg)
    requires WellBehaved(cfg) && cfg.answer([]).Assigned?
  {
    match e
    case FromOriginal(m) => OriginalMsg(m) && Truthful(F, cost, g.s, m)
    case InitResult(w, sat, cubes) =>
      w < |g.s.cubeOf| && w !in g.reported
      && var out := Found(cfg, w, |g.s.cubeOf|); sat == out.sat && cubes == out.cubes
  }

  /** All workers have reported. */
  predicate Gathered(g: Gathering) {
    |g.reported| == |g.s.cubeOf|
  }

  ghost predicate Reported(cfg: Config, g: Gathering, w: nat)
    requires WellBehaved(cfg) && cfg.answer([]).Assigned?
  {
    var out := Found(cfg, w, |g.s.cubeOf|);
    (out.sat ==> g.sat) && forall a: Lits :: Covered(out.cubes, a) ==> Covered(g.cubes, a)
  }

  ghost predicate GatherInv(cfg: Config, F: iset<PB>, cost: Cost, g: Gathering)
    requires WellBehaved(cfg) && cfg.answer([]).Assigned?
  {
    && BeforeStart(F, cost, g.s) && g.s.optimizing == cfg.optimizing
    && (forall w :: w in g.reported ==> w < |g.s.cubeOf|)
    && (forall w :: w in g.reported ==> Reported(cfg, g, w))
    && (g.sat && !cfg.optimizing ==> exists a: Lits :: Sol(F, a))
    && (|g.s.cubeOf| == 0 ==> g.cubes == [])
  }

  lemma BoundsFacts(F: iset<PB>, cost: Cost, s: State, lb: Lower, ub: int)
    requires Facts(F, cost, s) && Truthful(F, cost, s, OriginalBounds(lb, ub))
    ensures Facts(F, cost, OnOriginalBounds(s, lb, ub))
  {
    hide Attained, Improving;
    var r := if LowerLess(s.globalLower, lb) then s.(globalLower := lb) else s;
    FactsAgain(F, cost, s, r);
    hide Facts;
    if ub < INT_MAX {
      ImproveFacts(F, cost, r, ub);
      FirstBest(F, cost, r, ub);
    }
  }

  /** Without an incumbent every cost is taken. */
  lemma FirstBest(F: iset<PB>, cost: Cost, s: State, ub: int)
    requires Facts(F, cost, s) && ub < INT_MAX
    ensures ReportUpper(s, ub) == Improve(s, ub)
  {
    hide LowerHolds, LearnedHold, Attained;
  }

  /** What the original worker says before the first dispatch are facts. */
  lemma OriginalFacts(F: iset<PB>, cost: Cost, s: State, m: Msg)
    requires Facts(F, cost, s) && Shape(s) && OriginalMsg(m) && Truthful(F, cost, s, m)
    ensures Facts(F, cost, OnMessage(s, m)) && SameWork(s, OnMessage(s, m))
  {
    hide Attained, Told, Improve, OnOriginalBounds;
    match m
    case BestRequest =>
    case LearnedUpdate(cs) => FactsAgain(F, cost, s, s.(globalLearned := s.globalLearned + cs));
    case OriginalBounds(lb, ub) => BoundsFacts(F, cost, s, lb, ub);
    case OriginalResult(code, c) =>
      if code == 26 {
        ImproveFacts(F, cost, s, c);
      } else {
        ToldFacts(F, cost, s, code, c);
        SameFacts(F, cost, Told(s, code, c), Told(s, code, c).(originalActive := false));
      }
  }

  /** ... so its messages keep what holds before the first dispatch. */
  lemma EarlyKeeps(F: iset<PB>, cost: Cost, s: State, m: Msg)
    requires BeforeStart(F, cost, s) && OriginalMsg(m) && Truthful(F, cost, s, m)
    ensures BeforeStart(F, cost, OnMessage(s, m)) && SameWork(s, OnMessage(s, m))
  {
    hide Facts, Truthful, OnMessage;
    OriginalFacts(F, cost, s, m);
  }

  lemma GatherStep(cfg: Config, F: iset<PB>, cost: Cost, g: Gathering, e: EarlyMsg)
    requires Trustworthy(cfg, F) && cfg.answer([]).Assigned?
    requires GatherInv(cfg, F, cost, g) && TruthfulEarly(cfg, F, cost, g, e)
    ensures WellFormedEarly(e) && Shape(g.s) && GatherInv(cfg, F, cost, OnEarly(g, e))
    ensures |OnEarly(g, e).reported| == |g.reported| + (if e.InitResult? then 1 else 0)
  {
    hide Found, Covered, Truthful, OnMessage, BeforeStart;
    GatherShape(F, cost, g.s);
    var r := OnEarly(g, e);
    match e
    case FromOriginal(m) =>
      EarlyKeeps(F, cost, g.s, m);
      forall w | w in r.reported
        ensures Reported(cfg, r, w)
      {
        assert Reported(cfg, g, w);
      }
    case InitResult(w, sat, cubes) =>
      FoundSat(cfg, F, w, |g.s.cubeOf|);
      forall v | v in r.reported
        ensures Reported(cfg, r, v)
      {
        assert v != w ==> Reported(cfg, g, v);
        forall a: Lits
          ensures Covered(g.cubes, a) || Covered(cubes, a) ==> Covered(r.cubes, a)
        {
          if Covered(g.cubes, a) || Covered(cubes, a) {
            CoveredAppend(g.cubes, cubes, a);
          }
        }
      }
  }

  lemma GatherShape(F: iset<PB>, cost: Cost, s: State)
    requires BeforeStart(F, cost, s)
    ensures Shape(s)
  {
  }

  /** A worker that reports SAT for a decision problem has found a solution. */
  lemma FoundSat(cfg: Config, F: iset<PB>, w: nat, workers: nat)
    requires Trustworthy(cfg, F) && cfg.answer([]).Assigned?
    ensures Found(cfg, w, workers).sat ==> exists a: Lits :: Sol(F, a)
  {
    GenSat(cfg, F, [], [], 1000.0, false, true, w, workers);
    if Found(cfg, w, workers).sat {
      var a: Lits :| Total(a) && Holds(F, a);
      assert Sol(F, a);
    }
  }

  lemma {:induction false} SmallSet(S: set<nat>, n: nat)
    requires forall w :: w in S ==> w < n
    ensures |S| <= n && (|S| == n ==> forall w: nat :: w < n ==> w in S)
  {
    if n > 0 {
      SmallSet(S - {n - 1}, n - 1);
    } else {
      assert forall w :: w !in S;
      assert S == {};
    }
  }

  /** Once all have reported, every solution is covered, or one has been found; alone, the original worker has all. */
  lemma GatheredCovers(cfg: Config, F: iset<PB>, cost: Cost, g: Gathering, a: Lits)
    requires Trustworthy(cfg, F) && cfg.answer([]).Assigned?
    requires GatherInv(cfg, F, cost, g) && Gathered(g) && Sol(F, a) && |g.s.cubeOf| > 0
    ensures (g.sat && !cfg.optimizing) || Covered(g.cubes, a)
  {
    hide Gen, Covered, BeforeStart;
    var workers := |g.s.cubeOf|;
    var w := WorkersCover(cfg, F, [], [], 1000.0, workers, a);
    assert CoveredBy(cfg, [], [], 1000.0, w, workers, a);
    SmallSet(g.reported, workers);
    assert Reported(cfg, g, w);
  }

  /** The three exits before the first dispatch. */
  predicate ExitsEarly(g: Gathering) {
    g.s.satFound || g.s.provedUnsat || g.s.provedOptimum || (g.sat && !g.s.optimizing)
    || (g.cubes == [] && |g.s.cubeOf| > 0)
  }

  function EarlyVerdict(g: Gathering): Verdict
    requires ExitsEarly(g)
  {
    if g.s.satFound || g.s.provedUnsat || g.s.provedOptimum then
      if !g.s.optimizing then (if g.s.satFound then Satisfiable else Unsatisfiable)
      else if g.s.provedOptimum then Optimum(g.s.best) else Unsatisfiable
    else if g.sat && !g.s.optimizing then Satisfiable
    else Unsatisfiable
  }

  lemma EarlyVerdictIsRight(cfg: Config, F: iset<PB>, cost: Cost, g: Gathering)
    requires Trustworthy(cfg, F) && cfg.answer([]).Assigned?
    requires GatherInv(cfg, F, cost, g) && Gathered(g) && ExitsEarly(g)
    ensures VerdictOk(F, cost, EarlyVerdict(g))
  {
    hide Found, Reported, LowerHolds, LearnedHold;
    if g.s.satFound || g.s.provedUnsat || g.s.provedOptimum {
      ProvedMeans(F, cost, g.s);
    } else if !(g.sat && !g.s.optimizing) {
      forall a: Lits
        ensures !Sol(F, a)
      {
        if Sol(F, a) {
          GatheredCovers(cfg, F, cost, g, a);
        }
      }
    }
  }

  lemma ProvedMeans(F: iset<PB>, cost: Cost, s: State)
    requires Facts(F, cost, s)
    ensures s.provedOptimum ==> Attained(F, cost, s.best) && forall a: Lits :: Sol(F, a) ==> cost(a) >= s.best
    ensures s.satFound ==> exists a: Lits :: Sol(F, a)
    ensures s.provedUnsat ==> forall a: Lits :: !Sol(F, a)
  {
    hide LowerHolds, LearnedHold, Attained;
    if s.provedOptimum {
      forall a: Lits | Sol(F, a)
        ensures cost(a) >= s.best
      {
        assert !Improving(F, cost, s, a);
      }
    }
  }

  // ----- from the first message to the announcement -----

  ghost predicate HonestGathering(cfg: Config, F: iset<PB>, cost: Cost, g: Gathering, early: seq<EarlyMsg>)
    requires Trustworthy(cfg, F) && cfg.answer([]).Assigned? && GatherInv(cfg, F, cost, g)
    decreases |early|
  {
    |early| > 0 ==>
      && !Gathered(g) && TruthfulEarly(cfg, F, cost, g, early[0])
      && (GatherStep(cfg, F, cost, g, early[0]); HonestGathering(cfg, F, cost, OnEarly(g, early[0]), early[1..]))
  }

  ghost function Gather(cfg: Config, F: iset<PB>, cost: Cost, g: Gathering, early: seq<EarlyMsg>): (r: Gathering)
    requires Trustworthy(cfg, F) && cfg.answer([]).Assigned? && GatherInv(cfg, F, cost, g)
    requires HonestGathering(cfg, F, cost, g, early)
    ensures GatherInv(cfg, F, cost, r) && |r.s.cubeOf| == |g.s.cubeOf|
    decreases |early|
  {
    if |early| == 0 then g
    else
      GatherStep(cfg, F, cost, g, early[0]);
      Gather(cfg, F, cost, OnEarly(g, early[0]), early[1..])
  }

  function Nothing(optimizing: bool, workers: nat): Gathering {
    Gathering(Initial(optimizing, workers), {}, [], false)
  }

  lemma NothingGathered(cfg: Config, F: iset<PB>, cost: Cost, workers: nat)
    requires WellBehaved(cfg) && cfg.answer([]).Assigned?
    ensures GatherInv(cfg, F, cost, Nothing(cfg.optimizing, workers))
  {
  }

  /** The original worker is the only one, and it is still searching. */
  lemma AloneAtStart(cfg: Config, F: iset<PB>, cost: Cost, workers: nat, early: seq<EarlyMsg>)
    requires Trustworthy(cfg, F) && cfg.answer([]).Assigned? && workers == 0
    requires GatherInv(cfg, F, cost, Nothing(cfg.optimizing, workers))
    requires HonestGathering(cfg, F, cost, Nothing(cfg.optimizing, workers), early)
    ensures early == [] && OriginalAlone(Gather(cfg, F, cost, Nothing(cfg.optimizing, workers), early).s)
  {
  }

  /** End to end: from a fresh master with any number of cube workers, over every honest interleaving, every verdict is
      right, whether it is announced before the first dispatch or after the last message. */
  lemma VerdictsAreRight(cfg: Config, F: iset<PB>, cost: Cost, workers: nat, early: seq<EarlyMsg>, msgs: seq<Msg>)
    requires Trustworthy(cfg, F) && cfg.answer([]).Assigned?
    ensures GatherInv(cfg, F, cost, Nothing(cfg.optimizing, workers))
    ensures HonestGathering(cfg, F, cost, Nothing(cfg.optimizing, workers), early) ==>
              var g := Gather(cfg, F, cost, Nothing(cfg.optimizing, workers), early);
              Gathered(g) ==>
                if ExitsEarly(g) then VerdictOk(F, cost, EarlyVerdict(g))
                else Inv(F, cost, Start(g.s, g.cubes))
                     && (HonestRun(F, cost, Start(g.s, g.cubes), msgs) ==>
                           var r := Run(F, cost, Start(g.s, g.cubes), msgs);
                           Finished(r) ==> VerdictOk(F, cost, Announce(r)))
  {
    hide Inv, Start, VerdictOk, Gather, HonestGathering, HonestRun, Run, Covered, Found, Reported, BeforeStart;
    NothingGathered(cfg, F, cost, workers);
    if HonestGathering(cfg, F, cost, Nothing(cfg.optimizing, workers), early) {
      var g := Gather(cfg, F, cost, Nothing(cfg.optimizing, workers), early);
      if Gathered(g) {
        if ExitsEarly(g) {
          EarlyVerdictIsRight(cfg, F, cost, g);
        } else {
          forall a: Lits | Sol(F, a)
            ensures Covered(g.cubes, a) || OriginalAlone(g.s)
          {
            if workers == 0 {
              AloneAtStart(cfg, F, cost, workers, early);
            } else {
              GatheredCovers(cfg, F, cost, g, a);
            }
          }
          RunIsRight(F, cost, g.s, g.cubes, msgs);
        }
      }
    }
  }

  // ----- what is handed out -----

  lemma {:induction false} TopIsStrongest(s: State, i: nat, k: nat)
    requires i < |s.queue| && QueueOk(s) && k <= i
    ensures !LowerLess(s.tasks[s.queue[TopOf(s, i)]].lower, s.tasks[s.queue[k]].lower)
  {
    if k < i {
      TopIsStrongest(s, i - 1, k);
    } else if i > 0 {
      TopIsStrongest(s, i - 1, i - 1);
    }
  }

  /** A free worker gets a queued task, none of which has a stronger lower bound, with everything that is known: the
      task's and the shared constraints, and while optimising the incumbent and the stronger of the two lower bounds.
      Only this entry leaves the queue, and no other worker is concerned. */
  lemma DispatchSends(s: State, w: nat) returns (p: nat)
    requires Shape(s) && |s.queue| > 0 && w < |s.cubeOf|
    ensures p < |s.queue| && s.queue[p] < |s.tasks|
    ensures forall k :: 0 <= k < |s.queue| ==> !LowerLess(s.tasks[s.queue[p]].lower, s.tasks[s.queue[k]].lower)
    ensures var r, t := Dispatch(s, w), s.tasks[s.queue[p]];
            && r.queue == s.queue[..p] + s.queue[p + 1..] && r.cubeOf[w] == s.queue[p]
            && (forall v :: 0 <= v < |s.cubeOf| && v != w ==> r.cubeOf[v] == s.cubeOf[v] && r.sent[v] == s.sent[v])
            && r.sent[w].lits == t.lits && t.learned <= r.sent[w].learned && s.globalLearned <= r.sent[w].learned
            && r.sent[w].hasBound == (s.optimizing && s.hasBest) && (r.sent[w].hasBound ==> r.sent[w].bound == s.best)
            && (s.optimizing ==> !LowerLess(r.sent[w].lower, t.lower) && !LowerLess(r.sent[w].lower, s.globalLower))
            && (s.optimizing ==> r.sent[w].lower == t.lower || r.sent[w].lower == s.globalLower)
  {
    p := TopOf(s, |s.queue| - 1);
    forall k | 0 <= k < |s.queue|
      ensures !LowerLess(s.tasks[s.queue[p]].lower, s.tasks[s.queue[k]].lower)
    {
      TopIsStrongest(s, |s.queue| - 1, k);
    }
  }

  lemma {:induction false} FillIdleTasks(s: State, p: nat)
    requires Shape(s) && p <= |s.cubeOf|
    ensures FillIdle(s, p).tasks == s.tasks
    decreases |s.cubeOf| - p
  {
    hide TopOf, WorkFor;
    if p < |s.cubeOf| && |s.queue| > 0 {
      if s.cubeOf[p] != IDLE {
        FillIdleTasks(s, p + 1);
      } else {
        FillIdleTasks(Dispatch(s, p).(active := s.active + 1), p + 1);
      }
    }
  }

  /** The children of a split cube are new tasks, one level deeper, that inherit the parent's constraints, the new ones,
      and the stronger of the worker's and the global lower bound. */
  lemma SplitInherits(s: State, w: nat, subcubes: seq<seq<int>>, cs: set<PB>, i: nat)
    requires Shape(s) && Busy(s, w) && s.active > 0 && i < |subcubes|
    ensures var r, parent := OnSplit(s, w, subcubes, cs), s.tasks[s.cubeOf[w]];
            && |r.tasks| == |s.tasks| + |subcubes| && s.tasks <= r.tasks
            && var t := r.tasks[|s.tasks| + i];
               t.lits == subcubes[i] && t.depth == parent.depth + 1
               && parent.learned <= t.learned && cs <= t.learned
               && !LowerLess(t.lower, s.lbOf[w]) && !LowerLess(t.lower, s.globalLower)
               && (t.lower == s.lbOf[w] || t.lower == s.globalLower)
  {
    hide FillIdle;
    var parent := s.tasks[s.cubeOf[w]];
    var kids := NewTasks(subcubes, parent.depth + 1, parent.learned + cs, MaxLower(s.lbOf[w], s.globalLower));
    FillIdleTasks(Enqueue(Release(s, w), kids), 0);
  }

  lemma {:induction false} FillIdleShared(s: State, p: nat)
    requires Shape(s) && p <= |s.cubeOf|
    ensures FillIdle(s, p).globalLearned == s.globalLearned && FillIdle(s, p).globalLower == s.globalLower
    decreases |s.cubeOf| - p
  {
    hide TopOf, WorkFor;
    if p < |s.cubeOf| && |s.queue| > 0 {
      if s.cubeOf[p] != IDLE {
        FillIdleShared(s, p + 1);
      } else {
        FillIdleShared(Dispatch(s, p).(active := s.active + 1), p + 1);
      }
    }
  }

  lemma DispatchShares(s: State, w: nat)
    requires Shape(s) && |s.queue| > 0 && w < |s.cubeOf|
    ensures SameShared(s, Dispatch(s, w))
  {
    hide TopOf, WorkFor;
  }

  lemma ReleaseShares(s: State, w: nat)
    requires Shape(s) && w < |s.cubeOf| && s.active > 0
    ensures SameShared(s, StopWhenIdle(Release(s, w)))
  {
  }

  lemma DoneShares(s: State, w: nat, code: int, c: int)
    requires Shape(s) && Busy(s, w) && s.active > 0
    ensures SameShared(s, OnDone(s, w, code, c))
  {
    hide Noted, Dispatch, Release, StopWhenIdle;
    var r := Noted(s, code, c);
    if |r.queue| > 0 {
      DispatchShares(r, w);
    } else {
      ReleaseShares(r, w);
    }
  }

  lemma WorkerShares(s: State, w: nat, code: int, c: int)
    requires Shape(s) && Busy(s, w) && s.active > 0
    ensures SameShared(s, OnWorker(s, w, code, c))
  {
    hide Improve, OnDone, QueueOk;
    DoneShares(s, w, code, c);
  }

  lemma SplitShares(s: State, w: nat, subcubes: seq<seq<int>>, cs: set<PB>)
    requires Shape(s) && Busy(s, w) && s.active > 0
    ensures SameShared(s, OnSplit(s, w, subcubes, cs))
  {
    hide FillIdle;
    var parent := s.tasks[s.cubeOf[w]];
    var kids := NewTasks(subcubes, parent.depth + 1, parent.learned + cs, MaxLower(s.lbOf[w], s.globalLower));
    FillIdleShared(Enqueue(Release(s, w), kids), 0);
  }

  lemma BoundsShare(s: State, lb: Lower, ub: int)
    ensures var r := OnOriginalBounds(s, lb, ub);
            && r.globalLearned == s.globalLearned && !LowerLess(r.globalLower, s.globalLower)
            && !LowerLess(r.globalLower, lb) && (r.globalLower == s.globalLower || r.globalLower == lb)
  {
    hide ReportUpper;
  }

  lemma WorkerBoundsShare(s: State, w: nat, lb: Lower, ub: int)
    requires Shape(s) && w < |s.cubeOf|
    ensures SameShared(s, OnWorkerBounds(s, w, lb, ub))
  {
    hide ReportUpper, QueueOk;
  }

  /** Nothing that was told is forgotten: shared constraints stay and lower bounds never fall. */
  lemma NothingForgotten(s: State, m: Msg)
    requires Shape(s)
    requires m.WorkerResult? || m.WorkerSplit? ==> Busy(s, m.w) && s.active > 0
    requires m.WorkerBounds? ==> Busy(s, m.w)
    ensures var r := OnMessage(s, m);
            && r.globalLearned == s.globalLearned + (if m.LearnedUpdate? then m.cs else {})
            && !LowerLess(r.globalLower, s.globalLower) && (m.OriginalBounds? ==> !LowerLess(r.globalLower, m.lb))
            && (r.globalLower == s.globalLower || (m.OriginalBounds? && r.globalLower == m.lb))
  {
    hide OnWorker, OnOriginal, OnSplit, OnOriginalBounds, OnWorkerBounds, QueueOk;
    match m
    case BestRequest =>
    case LearnedUpdate(cs) =>
    case OriginalBounds(lb, ub) => BoundsShare(s, lb, ub);
    case WorkerBounds(w, lb, ub) => WorkerBoundsShare(s, w, lb, ub);
    case OriginalResult(code, c) =>
    case WorkerResult(w, code, c) => WorkerShares(s, w, code, c);
    case WorkerSplit(w, subcubes, cs) => SplitShares(s, w, subcubes, cs);
  }

  // ----- the work is distributed -----

  ghost predicate FromReport(cfg: Config, g: Gathering, cube: seq<int>)
    requires WellBehaved(cfg) && cfg.answer([]).Assigned?
  {
    exists w :: w in g.reported && cube in Found(cfg, w, |g.s.cubeOf|).cubes
  }

  /** Any two cubes gathered contradict each other, or are the node at which two workers stopped together. */
  ghost predicate CubesApart(cfg: Config, g: Gathering)
    requires WellBehaved(cfg) && cfg.answer([]).Assigned?
  {
    && (forall i :: 0 <= i < |g.cubes| ==> FromReport(cfg, g, g.cubes[i]))
    && forall i, j :: 0 <= i < j < |g.cubes| ==> Contradict(g.cubes[i], g.cubes[j]) || g.cubes[i] == g.cubes[j]
  }

  lemma FoundApart(cfg: Config, v: nat, w: nat, workers: nat, x: seq<int>, y: seq<int>)
    requires WellBehaved(cfg) && cfg.answer([]).Assigned? && v < workers && w < workers && v != w
    requires x in Found(cfg, v, workers).cubes && y in Found(cfg, w, workers).cubes
    ensures Contradict(x, y) || x == y
  {
    hide Gen, Contradict;
    WorkersApart(cfg, [], [], 1000.0, false, v, w, workers);
  }

  lemma GatherStepApart(cfg: Config, F: iset<PB>, cost: Cost, g: Gathering, e: EarlyMsg)
    requires Trustworthy(cfg, F) && cfg.answer([]).Assigned?
    requires GatherInv(cfg, F, cost, g) && TruthfulEarly(cfg, F, cost, g, e) && CubesApart(cfg, g)
    ensures WellFormedEarly(e) && Shape(g.s) && CubesApart(cfg, OnEarly(g, e))
  {
    hide Found, Covered, Truthful, OnMessage, BeforeStart, Contradict, Reported;
    GatherStep(cfg, F, cost, g, e);
    var r := OnEarly(g, e);
    forall i | 0 <= i < |g.cubes|
      ensures FromReport(cfg, r, g.cubes[i])
    {
      var w :| w in g.reported && g.cubes[i] in Found(cfg, w, |g.s.cubeOf|).cubes;
      assert w in r.reported;
    }
    if e.InitResult? {
      FoundPairwise(cfg, e.w, |g.s.cubeOf|);
      forall j | 0 <= j < |e.cubes|
        ensures FromReport(cfg, r, e.cubes[j])
      {
        assert e.w in r.reported;
      }
      forall i, j | 0 <= i < |g.cubes| && 0 <= j < |e.cubes|
        ensures Contradict(g.cubes[i], e.cubes[j]) || g.cubes[i] == e.cubes[j]
      {
        var v :| v in g.reported && g.cubes[i] in Found(cfg, v, |g.s.cubeOf|).cubes;
        FoundApart(cfg, v, e.w, |g.s.cubeOf|, g.cubes[i], e.cubes[j]);
      }
      assert forall i :: 0 <= i < |r.cubes| ==>
          r.cubes[i] == if i < |g.cubes| then g.cubes[i] else e.cubes[i - |g.cubes|];
    }
  }

  lemma FoundPairwise(cfg: Config, w: nat, workers: nat)
    requires WellBehaved(cfg) && cfg.answer([]).Assigned?
    ensures PairwiseContradict(Found(cfg, w, workers).cubes)
  {
    hide Gen;
    GenContradicts(cfg, [], [], 1000.0, false, true, w, workers);
  }

  lemma {:induction false} GatherKeepsApart(cfg: Config, F: iset<PB>, cost: Cost, g: Gathering, early: seq<EarlyMsg>)
    requires Trustworthy(cfg, F) && cfg.answer([]).Assigned? && GatherInv(cfg, F, cost, g)
    requires HonestGathering(cfg, F, cost, g, early) && CubesApart(cfg, g)
    ensures CubesApart(cfg, Gather(cfg, F, cost, g, early))
    decreases |early|
  {
    hide OnMessage, Truthful, Found, Reported, Facts, Covered, CubesApart;
    if |early| > 0 {
      GatherStep(cfg, F, cost, g, early[0]);
      GatherStepApart(cfg, F, cost, g, early[0]);
      GatherKeepsApart(cfg, F, cost, OnEarly(g, early[0]), early[1..]);
    }
  }

  /** Whatever the number of workers and the order of their reports, no part of the search is queued twice, except
      for a node at which workers stopped together. */
  lemma QueuedApart(cfg: Config, F: iset<PB>, cost: Cost, workers: nat, early: seq<EarlyMsg>)
    requires Trustworthy(cfg, F) && cfg.answer([]).Assigned?
    ensures GatherInv(cfg, F, cost, Nothing(cfg.optimizing, workers))
    ensures HonestGathering(cfg, F, cost, Nothing(cfg.optimizing, workers), early) ==>
              CubesApart(cfg, Gather(cfg, F, cost, Nothing(cfg.optimizing, workers), early))
  {
    hide HonestGathering, Gather, Found, Contradict, BeforeStart, Reported;
    NothingGathered(cfg, F, cost, workers);
    if HonestGathering(cfg, F, cost, Nothing(cfg.optimizing, workers), early) {
      GatherKeepsApart(cfg, F, cost, Nothing(cfg.optimizing, workers), early);
    }
  }

  // ----- the announcement in terms of the messages -----

  /** A cube, or the whole problem for the original worker, was given up without an answer. */
  predicate GivesUp(optimizing: bool, m: Msg) {
    match m
    case WorkerResult(_, code, _) => code == 0
    case OriginalResult(code, _) => code != 10 && code != 20 && code != 26 && !(optimizing && code == 15)
    case _ => false
  }

  /** A solution of a decision problem. */
  predicate FindsModel(optimizing: bool, m: Msg) {
    !optimizing && ((m.WorkerResult? && m.code == 10) || (m.OriginalResult? && m.code == 10))
  }

  /** The message tells the cost of a solution. */
  predicate Reports(optimizing: bool, m: Msg) {
    match m
    case OriginalBounds(_, ub) => ub < INT_MAX
    case WorkerBounds(_, _, ub) => ub < INT_MAX
    case OriginalResult(code, _) => code == 26 || (optimizing && (code == 10 || code == 15))
    case WorkerResult(_, code, _) => code == 15 || code == 25 || code == 26 || (optimizing && code == 10)
    case _ => false
  }

  function CostIn(m: Msg): int {
    match m
    case OriginalBounds(_, ub) => ub
    case WorkerBounds(_, _, ub) => ub
    case OriginalResult(_, c) => c
    case WorkerResult(_, _, c) => c
    case _ => INT_MAX
  }

  ghost predicate SomeGivesUp(optimizing: bool, msgs: seq<Msg>) {
    exists i :: 0 <= i < |msgs| && GivesUp(optimizing, msgs[i])
  }

  ghost predicate SomeFindsModel(optimizing: bool, msgs: seq<Msg>) {
    exists i :: 0 <= i < |msgs| && FindsModel(optimizing, msgs[i])
  }

  ghost predicate SomeReports(optimizing: bool, msgs: seq<Msg>) {
    exists i :: 0 <= i < |msgs| && Reports(optimizing, msgs[i])
  }

  /** c is reported by one of the messages. */
  ghost predicate ReportedCost(optimizing: bool, msgs: seq<Msg>, c: int) {
    exists i :: 0 <= i < |msgs| && Reports(optimizing, msgs[i]) && CostIn(msgs[i]) == c
  }

  ghost predicate NoneLess(optimizing: bool, msgs: seq<Msg>, c: int) {
    forall i :: 0 <= i < |msgs| && Reports(optimizing, msgs[i]) ==> c <= CostIn(msgs[i]) <= INT_MAX
  }

  /** What r has recorded beyond s is what the messages say, and nothing else. */
  ghost predicate Records(s: State, msgs: seq<Msg>, r: State) {
    && r.optimizing == s.optimizing
    && (r.unknownSeen <==> s.unknownSeen || SomeGivesUp(s.optimizing, msgs))
    && (r.satFound <==> s.satFound || SomeFindsModel(s.optimizing, msgs))
    && (r.feasibleSeen <==> s.feasibleSeen || SomeReports(s.optimizing, msgs))
    && r.best <= s.best && NoneLess(s.optimizing, msgs, r.best)
    && (r.best == s.best || ReportedCost(s.optimizing, msgs, r.best))
  }

  /** The record of what was heard is untouched. */
  predicate SameRecord(s: State, r: State) {
    && r.optimizing == s.optimizing && r.unknownSeen == s.unknownSeen && r.satFound == s.satFound
    && r.feasibleSeen == s.feasibleSeen && r.hasBest == s.hasBest && r.best == s.best
  }

  lemma {:induction false} FillIdleRecord(s: State, p: nat)
    requires Shape(s) && p <= |s.cubeOf|
    ensures SameRecord(s, FillIdle(s, p))
    decreases |s.cubeOf| - p
  {
    hide TopOf, WorkFor;
    if p < |s.cubeOf| && |s.queue| > 0 {
      if s.cubeOf[p] != IDLE {
        FillIdleRecord(s, p + 1);
      } else {
        FillIdleRecord(Dispatch(s, p).(active := s.active + 1), p + 1);
      }
    }
  }

  lemma RecordsOne(s: State, m: Msg, r: State)
    requires r.optimizing == s.optimizing
    requires r.unknownSeen <==> s.unknownSeen || GivesUp(s.optimizing, m)
    requires r.satFound <==> s.satFound || FindsModel(s.optimizing, m)
    requires r.feasibleSeen <==> s.feasibleSeen || Reports(s.optimizing, m)
    requires if Reports(s.optimizing, m) then CostIn(m) <= INT_MAX
                                              && r.best == (if CostIn(m) < s.best then CostIn(m) else s.best)
             else r.best == s.best
    ensures Records(s, [m], r)
  {
    hide GivesUp, FindsModel, Reports, CostIn;
    assert [m][0] == m;
  }

  lemma RecordsNothing(s: State, r: State)
    requires SameRecord(s, r)
    ensures Records(s, [], r)
  {
  }

  lemma RecordsAppend(s: State, a: seq<Msg>, r: State, b: seq<Msg>, t: State)
    requires Records(s, a, r) && Records(r, b, t)
    ensures Records(s, a + b, t)
  {
    hide GivesUp, FindsModel, Reports, CostIn;
    var all := a + b;
    assert forall i :: 0 <= i < |a| ==> all[i] == a[i];
    assert forall i :: 0 <= i < |b| ==> all[|a| + i] == b[i];
    assert forall i :: 0 <= i < |all| ==> all[i] == if i < |a| then a[i] else b[i - |a|];
  }

  lemma RecordsSame(s: State, msgs: seq<Msg>, r: State, t: State)
    requires Records(s, msgs, r) && SameRecord(r, t)
    ensures Records(s, msgs, t)
  {
  }

  lemma DispatchRecord(s: State, w: nat)
    requires Shape(s) && |s.queue| > 0 && w < |s.cubeOf|
    ensures SameRecord(s, Dispatch(s, w))
  {
    hide TopOf, WorkFor;
  }

  lemma NotedRecords(s: State, w: nat, code: int, c: int)
    requires code in {0, 10, 15, 20} && (code == 10 ==> s.optimizing) && (code in {10, 15} ==> c <= INT_MAX)
    ensures Records(s, [WorkerResult(w, code, c)], Noted(s, code, c))
  {
    hide Records;
    RecordsOne(s, WorkerResult(w, code, c), Noted(s, code, c));
  }

  lemma ReleaseRecord(s: State, w: nat)
    requires Shape(s) && w < |s.cubeOf| && s.active > 0
    ensures SameRecord(s, StopWhenIdle(Release(s, w)))
  {
  }

  /** The final reply of a cube worker. */
  lemma DoneRecords(s: State, w: nat, code: int, c: int)
    requires Shape(s) && Busy(s, w) && s.active > 0 && code in {0, 10, 15, 20}
    requires (code == 10 ==> s.optimizing) && (code in {10, 15} ==> c <= INT_MAX)
    ensures Records(s, [WorkerResult(w, code, c)], OnDone(s, w, code, c))
  {
    hide Records, Noted, Dispatch, Release, StopWhenIdle, SameRecord;
    var r := Noted(s, code, c);
    NotedRecords(s, w, code, c);
    if |r.queue| > 0 {
      DispatchRecord(r, w);
    } else {
      ReleaseRecord(r, w);
    }
    RecordsSame(s, [WorkerResult(w, code, c)], r, OnDone(s, w, code, c));
  }

  lemma WorkerRecords(F: iset<PB>, cost: Cost, s: State, w: nat, code: int, c: int)
    requires Shape(s) && Busy(s, w) && s.active > 0 && Truthful(F, cost, s, WorkerResult(w, code, c))
    ensures Records(s, [WorkerResult(w, code, c)], OnWorker(s, w, code, c))
  {
    hide Records, OnDone, Exhausted, QueueOk, Improve;
    if code == 25 || code == 26 {
      ImproveRecords(s, WorkerResult(w, code, c), c);
      RecordsSame(s, [WorkerResult(w, code, c)], Improve(s, c), OnWorker(s, w, code, c));
    } else if code == 10 && !s.optimizing {
      RecordsOne(s, WorkerResult(w, code, c), s.(satFound := true));
    } else {
      DoneRecords(s, w, code, c);
    }
  }

  lemma ImproveRecords(s: State, m: Msg, c: int)
    requires Reports(s.optimizing, m) && CostIn(m) == c <= INT_MAX
    requires !GivesUp(s.optimizing, m) && !FindsModel(s.optimizing, m)
    ensures Records(s, [m], Improve(s, c))
  {
    hide Records;
    RecordsOne(s, m, Improve(s, c));
  }

  lemma SplitRecords(s: State, w: nat, subcubes: seq<seq<int>>, cs: set<PB>)
    requires Shape(s) && Busy(s, w) && s.active > 0
    ensures Records(s, [WorkerSplit(w, subcubes, cs)], OnSplit(s, w, subcubes, cs))
  {
    hide Records, FillIdle;
    var parent := s.tasks[s.cubeOf[w]];
    var kids := NewTasks(subcubes, parent.depth + 1, parent.learned + cs, MaxLower(s.lbOf[w], s.globalLower));
    FillIdleRecord(Enqueue(Release(s, w), kids), 0);
    RecordsOne(s, WorkerSplit(w, subcubes, cs), OnSplit(s, w, subcubes, cs));
  }

  /** Two states with the same incumbent; the rest of the record is as told. */
  predicate RecordIs(r: State, s: State, unknownSeen: bool, satFound: bool) {
    && r.optimizing == s.optimizing && r.feasibleSeen == s.feasibleSeen && r.hasBest == s.hasBest && r.best == s.best
    && r.unknownSeen == unknownSeen && r.satFound == satFound
  }

  lemma ToldDecision(s: State, code: int, c: int)
    requires !s.optimizing
    ensures RecordIs(Told(s, code, c), s, s.unknownSeen || (code != 10 && code != 20), s.satFound || code == 10)
  {
  }

  lemma ToldCost(s: State, c: int)
    requires s.optimizing
    ensures SameRecord(Improve(s, c), Told(s, 10, c)) && SameRecord(Improve(s, c), Told(s, 15, c))
  {
    hide Improve;
  }

  lemma ToldNoCost(s: State, code: int, c: int)
    requires s.optimizing && code != 10 && code != 15
    ensures RecordIs(Told(s, code, c), s, s.unknownSeen || code != 20, s.satFound)
  {
    hide Improve;
  }

  lemma DecisionRecords(s: State, code: int, c: int)
    requires !s.optimizing && code != 26
    ensures Records(s, [OriginalResult(code, c)], Told(s, code, c))
  {
    hide Records, Told;
    ToldDecision(s, code, c);
    RecordsOne(s, OriginalResult(code, c), Told(s, code, c));
  }

  lemma NoCostRecords(s: State, code: int, c: int)
    requires s.optimizing && code != 10 && code != 15 && code != 26
    ensures Records(s, [OriginalResult(code, c)], Told(s, code, c))
  {
    hide Records, Told;
    ToldNoCost(s, code, c);
    RecordsOne(s, OriginalResult(code, c), Told(s, code, c));
  }

  lemma ReportedAtMost(F: iset<PB>, cost: Cost, s: State, code: int, c: int)
    requires Truthful(F, cost, s, OriginalResult(code, c))
    ensures code == 26 ==> s.optimizing
    ensures s.optimizing && (code == 10 || code == 15 || code == 26) ==> c <= INT_MAX
  {
    hide NothingBetter, Improving;
  }

  lemma Departed(s: State)
    ensures SameRecord(s, s.(originalActive := false))
  {
  }

  lemma OriginalRecords(F: iset<PB>, cost: Cost, s: State, code: int, c: int)
    requires Truthful(F, cost, s, OriginalResult(code, c))
    ensures Records(s, [OriginalResult(code, c)], OnOriginal(s, code, c))
  {
    ReportedAtMost(F, cost, s, code, c);
    hide Records, Improve, Told, Truthful, SameRecord;
    var m := OriginalResult(code, c);
    Departed(Told(s, code, c));
    if code == 26 {
      ImproveRecords(s, m, c);
    } else {
      if !s.optimizing {
        DecisionRecords(s, code, c);
      } else if code == 10 || code == 15 {
        ToldCost(s, c);
        ImproveRecords(s, m, c);
        RecordsSame(s, [m], Improve(s, c), Told(s, code, c));
      } else {
        NoCostRecords(s, code, c);
      }
      RecordsSame(s, [m], Told(s, code, c), OnOriginal(s, code, c));
    }
  }

  lemma BoundRecords(s: State, m: Msg, r: State, ub: int)
    requires (m.OriginalBounds? || m.WorkerBounds?) && m.ub == ub && SameRecord(s, r)
    requires !s.hasBest ==> s.best == INT_MAX
    ensures Records(s, [m], ReportUpper(r, ub))
  {
    hide Records;
    RecordsOne(s, m, ReportUpper(r, ub));
  }

  lemma OriginalBoundsRecord(s: State, lb: Lower, ub: int)
    requires !s.hasBest ==> s.best == INT_MAX
    ensures Records(s, [OriginalBounds(lb, ub)], OnOriginalBounds(s, lb, ub))
  {
    hide Records, ReportUpper;
    BoundRecords(s, OriginalBounds(lb, ub), if LowerLess(s.globalLower, lb) then s.(globalLower := lb) else s, ub);
  }

  lemma WorkerBoundsRecord(s: State, w: nat, lb: Lower, ub: int)
    requires Shape(s) && w < |s.cubeOf| && (!s.hasBest ==> s.best == INT_MAX)
    ensures Records(s, [WorkerBounds(w, lb, ub)], OnWorkerBounds(s, w, lb, ub))
  {
    hide Records, ReportUpper;
    BoundRecords(s, WorkerBounds(w, lb, ub), s.(lbOf := s.lbOf[w := if lb.AtLeast? then lb else s.lbOf[w]]), ub);
  }

  lemma FirstCost(F: iset<PB>, cost: Cost, s: State)
    requires Facts(F, cost, s)
    ensures !s.hasBest ==> s.best == INT_MAX
  {
  }

  /** Every truthful message is recorded as what it says. */
  lemma MessageRecords(F: iset<PB>, cost: Cost, s: State, m: Msg)
    requires Shape(s) && Facts(F, cost, s) && Truthful(F, cost, s, m)
    requires m.WorkerResult? || m.WorkerSplit? ==> Busy(s, m.w) && s.active > 0
    ensures m.WorkerBounds? ==> Busy(s, m.w)
    ensures Records(s, [m], OnMessage(s, m))
  {
    FirstCost(F, cost, s);
    hide LowerHolds, LearnedHold, Records, OnWorkerBounds, OnOriginalBounds, OnWorker, OnSplit, OnOriginal, Exhausted,
         SplitCovers, QueueOk, Attained, Facts;
    match m
    case BestRequest => RecordsOne(s, m, s);
    case LearnedUpdate(cs) => RecordsOne(s, m, OnMessage(s, m));
    case OriginalBounds(lb, ub) => OriginalBoundsRecord(s, lb, ub);
    case WorkerBounds(w, lb, ub) => WorkerBoundsRecord(s, w, lb, ub);
    case OriginalResult(code, c) => OriginalRecords(F, cost, s, code, c);
    case WorkerResult(w, code, c) => WorkerRecords(F, cost, s, w, code, c);
    case WorkerSplit(w, subcubes, cs) => SplitRecords(s, w, subcubes, cs);
  }

  lemma {:induction false} RunRecords(F: iset<PB>, cost: Cost, s: State, msgs: seq<Msg>)
    requires Inv(F, cost, s) && HonestRun(F, cost, s, msgs)
    ensures Records(s, msgs, Run(F, cost, s, msgs))
    decreases |msgs|
  {
    hide Core, OnMessage, Truthful, Records;
    if |msgs| == 0 {
      RecordsNothing(s, s);
      assert msgs == [];
    } else {
      CoreFacts(F, cost, s);
      MessageKeeps(F, cost, s, msgs[0]);
      MessageRecords(F, cost, s, msgs[0]);
      RunRecords(F, cost, OnMessage(s, msgs[0]), msgs[1..]);
      RecordsAppend(s, [msgs[0]], OnMessage(s, msgs[0]), msgs[1..], Run(F, cost, s, msgs));
      assert [msgs[0]] + msgs[1..] == msgs;
    }
  }

  /** The messages of the original worker among the early ones. */
  function Heard(early: seq<EarlyMsg>): seq<Msg> {
    if |early| == 0 then []
    else (if early[0].FromOriginal? then [early[0].m] else []) + Heard(early[1..])
  }

  lemma {:induction false} GatherRecords(cfg: Config, F: iset<PB>, cost: Cost, g: Gathering, early: seq<EarlyMsg>)
    requires Trustworthy(cfg, F) && cfg.answer([]).Assigned? && GatherInv(cfg, F, cost, g)
    requires HonestGathering(cfg, F, cost, g, early)
    ensures Records(g.s, Heard(early), Gather(cfg, F, cost, g, early).s)
    decreases |early|
  {
    hide OnMessage, Truthful, Records, Found, Reported, Facts, Covered;
    if |early| == 0 {
      RecordsNothing(g.s, g.s);
    } else {
      var e := early[0];
      GatherStep(cfg, F, cost, g, e);
      var r := OnEarly(g, e);
      if e.FromOriginal? {
        MessageRecords(F, cost, g.s, e.m);
      } else {
        RecordsNothing(g.s, r.s);
      }
      GatherRecords(cfg, F, cost, r, early[1..]);
      RecordsAppend(g.s, if e.FromOriginal? then [e.m] else [], r.s, Heard(early[1..]),
                    Gather(cfg, F, cost, g, early).s);
    }
  }

  /** The final announcement, decided by the messages alone.  It is inconclusive exactly when something was given up,
      unless a decision problem was found satisfiable; the cost announced is the least one reported. */
  ghost predicate SaysWhatWasHeard(v: Verdict, optimizing: bool, heard: seq<Msg>) {
    && (v.NoVerdict? || v.BestKnown? <==> SomeGivesUp(optimizing, heard) && !SomeFindsModel(optimizing, heard))
    && (v.Satisfiable? <==> SomeFindsModel(optimizing, heard))
    && (v.Optimum? || v.BestKnown? <==> optimizing && SomeReports(optimizing, heard))
    && (v.Optimum? || v.BestKnown? ==> ReportedCost(optimizing, heard, v.cost) && NoneLess(optimizing, heard, v.cost))
  }

  lemma AnnouncementFromRecord(s: State, heard: seq<Msg>, r: State)
    requires Records(s, heard, r) && !s.unknownSeen && !s.satFound && !s.feasibleSeen && s.best == INT_MAX
    ensures SaysWhatWasHeard(Announce(r), s.optimizing, heard)
  {
    hide GivesUp, Reports, CostIn;
    if SomeReports(s.optimizing, heard) && r.best == s.best {
      var i :| 0 <= i < |heard| && Reports(s.optimizing, heard[i]);
      assert CostIn(heard[i]) == r.best;
    }
  }

  /** No early exit is inconclusive, and after the main loop the messages of both loops decide the announcement. */
  lemma VerdictFromMessages(cfg: Config, F: iset<PB>, cost: Cost, workers: nat, early: seq<EarlyMsg>, msgs: seq<Msg>)
    requires Trustworthy(cfg, F) && cfg.answer([]).Assigned?
    ensures GatherInv(cfg, F, cost, Nothing(cfg.optimizing, workers))
    ensures HonestGathering(cfg, F, cost, Nothing(cfg.optimizing, workers), early) ==>
              var g := Gather(cfg, F, cost, Nothing(cfg.optimizing, workers), early);
              Gathered(g) ==>
                if ExitsEarly(g) then !EarlyVerdict(g).NoVerdict? && !EarlyVerdict(g).BestKnown?
                else Inv(F, cost, Start(g.s, g.cubes))
                     && (HonestRun(F, cost, Start(g.s, g.cubes), msgs) ==>
                           SaysWhatWasHeard(Announce(Run(F, cost, Start(g.s, g.cubes), msgs)), cfg.optimizing,
                                            Heard(early) + msgs))
  {
    hide Inv, VerdictOk, Gather, HonestGathering, HonestRun, Run, Covered, Found, Reported, Records, Announce,
         SaysWhatWasHeard, FillIdle, Facts;
    VerdictsAreRight(cfg, F, cost, workers, early, msgs);
    var start := Nothing(cfg.optimizing, workers);
    if HonestGathering(cfg, F, cost, start, early) {
      var g := Gather(cfg, F, cost, start, early);
      if Gathered(g) && !ExitsEarly(g) && HonestRun(F, cost, Start(g.s, g.cubes), msgs) {
        GatherRecords(cfg, F, cost, start, early);
        RunRecords(F, cost, Start(g.s, g.cubes), msgs);
        var r := Run(F, cost, Start(g.s, g.cubes), msgs);
        FillIdleRecord(Enqueue(g.s, NewTasks(g.cubes, 0, {}, Unknown)), 0);
        RecordsNothing(g.s, Start(g.s, g.cubes));
        RecordsAppend(g.s, [], Start(g.s, g.cubes), msgs, r);
        assert [] + msgs == msgs;
        RecordsAppend(start.s, Heard(early), g.s, msgs, r);
        AnnouncementFromRecord(start.s, Heard(early) + msgs, r);
      }
    }
  }

  // ----- what the promise of 15 is for -----

  /** The last busy worker sends 15, with nothing queued and nothing given up: what the master announces is right
      exactly when the cube holds nothing better. */
  lemma FifteenMustBeFinal(F: iset<PB>, cost: Cost, s: State, w: nat, c: int)
    requires Inv(F, cost, s) && s.optimizing && Busy(s, w) && s.active == 1 && s.queue == [] && !s.unknownSeen
    requires Attained(F, cost, c)
    ensures var r := OnMessage(s, WorkerResult(w, 15, c));
            Finished(r) && (VerdictOk(F, cost, Announce(r)) <==> Exhausted(F, cost, s, w, AtLeast(c)))
  {
    hide AllTrue, LearnedHold, LowerHolds;
    BusyActive(s, w);
    var r := OnMessage(s, WorkerResult(w, 15, c));
    assert Announce(r) == Optimum(r.best);
    if Exhausted(F, cost, s, w, AtLeast(c)) {
      MessageKeeps(F, cost, s, WorkerResult(w, 15, c));
      AnnouncementIsRight(F, cost, r);
    }
    if VerdictOk(F, cost, Announce(r)) {
      forall a: Lits | Improving(F, cost, s, a) && Left(F, cost, s.sent[w], a)
        ensures cost(a) >= c
      {
        assert cost(a) >= r.best;
      }
    }
  }
}
