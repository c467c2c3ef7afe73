/** The master process with its fields and loops (run_master, bestSolution, handle_bounds_report and
    send_work_to_worker, cubePB.cpp), proved against the state machine of module Protocol. */
module Master {
  import opened PBCore
  import opened CubeGeneration
  import opened Protocol

  class MasterProcess {
    const optimizing: bool
    var tasks: seq<Task>
    var queue: seq<nat>
    var cubeOf: seq<int>
    var sent: seq<Work>
    var lbOf: seq<Lower>
    var active: nat
    var hasBest: bool
    var best: int
    var globalLower: Lower
    var globalLearned: set<PB>
    var originalActive: bool
    var satFound: bool
    var provedUnsat: bool
    var provedOptimum: bool
    var feasibleSeen: bool
    var unknownSeen: bool
    var stopSent: bool
    var pending: nat
    var cubes: seq<seq<int>>
    var satDuringGeneration: bool
    ghost var reported: set<nat>

    function View(): State
      reads this
    {
      State(optimizing, tasks, queue, cubeOf, sent, lbOf, active, hasBest, best, globalLower, globalLearned,
            originalActive, satFound, provedUnsat, provedOptimum, feasibleSeen, unknownSeen, stopSent)
    }

    /** The first loop's view: who has reported, and with what. */
    ghost function Early(): Gathering
      reads this
    {
      Gathering(View(), reported, cubes, satDuringGeneration)
    }

    constructor (opt: bool, workers: nat)
      ensures optimizing == opt && Early() == Nothing(opt, workers) && pending == workers
    {
      optimizing := opt;
      tasks, queue, active := [], [], 0;
      cubeOf, sent, lbOf := seq(workers, _ => IDLE), seq(workers, _ => NO_WORK), seq(workers, _ => Lower.Unknown);
      hasBest, best := false, INT_MAX;
      globalLower, globalLearned := Lower.Unknown, {};
      originalActive, satFound, provedUnsat, provedOptimum, feasibleSeen, unknownSeen, stopSent :=
        true, false, false, false, false, false, false;
      pending, cubes, satDuringGeneration, reported := workers, [], false, {};
    }

    /** top() and pop() of the priority queue. */
    method PopTop() returns (idx: nat)
      requires QueueOk(View()) && |queue| > 0
      modifies this`queue
      ensures var p := TopOf(old(View()), |old(queue)| - 1);
              idx == old(queue)[p] && View() == old(View()).(queue := old(queue)[..p] + old(queue)[p + 1..])
    {
      var p: nat := 0;
      for i := 1 to |queue|
        invariant p < |queue| && p == TopOf(View(), i - 1)
      {
        if LowerLess(tasks[queue[p]].lower, tasks[queue[i]].lower) {
          p := i;
        }
      }
      idx := queue[p];
      queue := queue[..p] + queue[p + 1..];
    }

    /** What a worker is told about a task. */
    method OrdersFor(idx: nat) returns (work: Work)
      requires idx < |tasks|
      ensures work == WorkFor(View(), tasks[idx])
    {
      var learned := tasks[idx].learned + globalLearned;
      if optimizing {
        var cubeLb := MaxLower(tasks[idx].lower, globalLower);
        work := Work(tasks[idx].lits, learned, hasBest, best, cubeLb);
      } else {
        work := Work(tasks[idx].lits, learned, false, 0, Lower.Unknown);
      }
    }

    method HandOut(w: nat, idx: nat, work: Work)
      requires w < |cubeOf| == |sent| == |lbOf|
      modifies this`cubeOf, this`sent, this`lbOf
      ensures View() == old(View()).(cubeOf := old(cubeOf)[w := idx], sent := old(sent)[w := work],
                                     lbOf := old(lbOf)[w := if optimizing then work.lower else old(lbOf)[w]])
    {
      cubeOf := cubeOf[w := idx];
      sent := sent[w := work];
      lbOf := lbOf[w := if optimizing then work.lower else lbOf[w]];
    }

    /** Take the top of the queue and send it to worker w. */
    method SendWork(w: nat)
      requires Shape(View()) && |queue| > 0 && w < |cubeOf|
      modifies this`queue, this`cubeOf, this`sent, this`lbOf
      ensures View() == Dispatch(old(View()), w) && Shape(View())
    {
      hide TopOf, WorkFor, QueueOk;
      DispatchShape(View(), w);
      TopQueued(View());
      DispatchFields(View(), w);
      hide Dispatch;
      var idx := PopTop();
      WorkIgnoresQueue(old(View()), queue, tasks[idx]);
      var work := OrdersFor(idx);
      HandOut(w, idx, work);
    }

    /** Hand out queued tasks to the idle workers. */
    method FillWorkers()
      requires Shape(View())
      modifies this`queue, this`cubeOf, this`sent, this`lbOf, this`active
      ensures View() == FillIdle(old(View()), 0) && Shape(View())
    {
      hide Dispatch;
      var p: nat := 0;
      while p < |cubeOf|
        invariant Shape(View()) && p <= |cubeOf| && |cubeOf| == |old(cubeOf)|
        invariant FillIdle(View(), p) == FillIdle(old(View()), 0)
        decreases |cubeOf| - p
      {
        if |queue| == 0 {
          return;
        }
        if cubeOf[p] == IDLE {
          SendWork(p);
          active := active + 1;
        }
        p := p + 1;
      }
    }

    method BestSolution(c: int) returns (better: bool)
      modifies this`best
      ensures better <==> c < old(best)
      ensures best == if better then c else old(best)
    {
      better := c < best;
      if better {
        best := c;
      }
    }

    method Incumbent(c: int)
      modifies this`feasibleSeen, this`hasBest, this`best
      ensures View() == Improve(old(View()), c)
    {
      feasibleSeen := true;
      var _ := BestSolution(c);
      hasBest := true;
    }

    method ReportUB(ub: int)
      modifies this`feasibleSeen, this`hasBest, this`best
      ensures View() == ReportUpper(old(View()), ub)
    {
      if ub < INT_MAX {
        feasibleSeen := true;
        if !hasBest {
          best := ub;
          hasBest := true;
        } else {
          var _ := BestSolution(ub);
        }
      }
    }

    /** Push one queued task per cube. */
    method PushTasks(cubes: seq<seq<int>>, depth: nat, learned: set<PB>, lower: Lower)
      requires Shape(View())
      modifies this`tasks, this`queue
      ensures View() == Enqueue(old(View()), NewTasks(cubes, depth, learned, lower)) && Shape(View())
    {
      ghost var kids := NewTasks(cubes, depth, learned, lower);
      ghost var n := |tasks|;
      for i := 0 to |cubes|
        invariant tasks == old(tasks) + kids[..i]
        invariant |queue| == |old(queue)| + i && old(queue) <= queue
        invariant forall j :: |old(queue)| <= j < |queue| ==> queue[j] == n + j - |old(queue)|
      {
        var child := Task(cubes[i], depth, learned, lower);
        assert kids[..i + 1] == kids[..i] + [child];
        tasks := tasks + [child];
        queue := queue + [|tasks| - 1];
      }
      assert kids[..|kids|] == kids;
      assert queue == old(queue) + seq(|kids|, j requires 0 <= j < |kids| => n + j);
    }

    /** A reply that asks for a split: the children inherit constraints and the strongest lower bound. */
    method HandleSplit(w: nat, subcubes: seq<seq<int>>, cs: set<PB>)
      requires Shape(View()) && Busy(View(), w) && active > 0
      modifies this`tasks, this`queue, this`cubeOf, this`sent, this`lbOf, this`active
      ensures View() == OnSplit(old(View()), w, subcubes, cs)
    {
      hide FillIdle, Enqueue;
      var parent := tasks[cubeOf[w]];
      var childLb := MaxLower(lbOf[w], globalLower);
      cubeOf := cubeOf[w := IDLE];
      active := active - 1;
      PushTasks(subcubes, parent.depth + 1, parent.learned + cs, childLb);
      FillWorkers();
    }

    /** The bookkeeping of a final reply. */
    method NoteResult(code: int, extra: int)
      modifies this`unknownSeen, this`feasibleSeen, this`hasBest, this`best
      ensures View() == Noted(old(View()), code, extra)
    {
      hide Improve;
      if code == 0 {
        unknownSeen := true;
      } else if code == 10 || code == 15 {
        Incumbent(extra);
      }
    }

    method FreeWorker(w: nat)
      requires Shape(View()) && Busy(View(), w) && active > 0
      modifies this`queue, this`cubeOf, this`sent, this`lbOf, this`active, this`stopSent
      ensures View() == (if |old(queue)| > 0 then Dispatch(old(View()), w) else StopWhenIdle(Release(old(View()), w)))
    {
      hide Dispatch;
      if |queue| > 0 {
        SendWork(w);
      } else {
        cubeOf := cubeOf[w := IDLE];
        active := active - 1;
        if active == 0 {
          stopSent := true;
        }
      }
    }

    /** A final reply for a cube: the worker gets the next task, or idles; the last one to idle ends the loop. */
    method HandleDone(w: nat, code: int, extra: int)
      requires Shape(View()) && Busy(View(), w) && active > 0
      modifies this`queue, this`cubeOf, this`sent, this`lbOf, this`active, this`stopSent, this`unknownSeen,
               this`feasibleSeen, this`hasBest, this`best
      ensures View() == OnDone(old(View()), w, code, extra)
    {
      hide Dispatch, Noted, StopWhenIdle, Release;
      NoteResult(code, extra);
      FreeWorker(w);
    }

    /** The original worker's last word on a decision problem. */
    method OriginalDecided(code: int, ghost extra: int)
      requires !optimizing
      modifies this`satFound, this`provedUnsat, this`unknownSeen
      ensures View() == Told(old(View()), code, extra)
    {
      if code == 10 {
        satFound := true;
      } else if code == 20 {
        provedUnsat := true;
      } else {
        unknownSeen := true;
      }
    }

    /** And on an optimization problem. */
    method OriginalOptimized(code: int, extra: int)
      requires optimizing
      modifies this`feasibleSeen, this`hasBest, this`best, this`provedOptimum, this`provedUnsat, this`unknownSeen
      ensures View() == Told(old(View()), code, extra)
    {
      hide Improve;
      if code == 10 {
        Incumbent(extra);
        provedOptimum := true;
      } else if code == 15 {
        Incumbent(extra);
      } else if code == 20 {
        if feasibleSeen {
          provedOptimum := true;
        } else {
          provedUnsat := true;
        }
      } else {
        unknownSeen := true;
      }
    }

    method HandleOriginal(code: int, extra: int)
      modifies this`feasibleSeen, this`hasBest, this`best, this`provedOptimum, this`provedUnsat, this`unknownSeen,
               this`satFound, this`originalActive
      ensures View() == OnOriginal(old(View()), code, extra)
    {
      hide Improve, Told;
      if code == 26 {
        Incumbent(extra);
        return;
      }
      if optimizing {
        OriginalOptimized(code, extra);
      } else {
        OriginalDecided(code, extra);
      }
      originalActive := false;
    }

    method HandleWorker(w: nat, code: int, extra: int)
      requires Shape(View()) && Busy(View(), w) && active > 0
      modifies this`queue, this`cubeOf, this`sent, this`lbOf, this`active, this`stopSent, this`unknownSeen,
               this`feasibleSeen, this`hasBest, this`best, this`satFound
      ensures View() == OnWorker(old(View()), w, code, extra)
    {
      hide OnDone, Improve;
      if code == 25 {
        Incumbent(extra);
        sent := sent[w := sent[w].(hasBound := true, bound := best)];
      } else if code == 26 {
        Incumbent(extra);
      } else if code == 10 && !optimizing {
        satFound := true;
      } else {
        HandleDone(w, code, extra);
      }
    }

    /** handle_bounds_report for the original worker. */
    method OriginalBound(lb: Lower, ub: int)
      modifies this`globalLower, this`feasibleSeen, this`hasBest, this`best
      ensures View() == OnOriginalBounds(old(View()), lb, ub)
    {
      hide ReportUpper;
      if LowerLess(globalLower, lb) {
        globalLower := lb;
      }
      ReportUB(ub);
    }

    /** ... and for a cube worker. */
    method WorkerBound(w: nat, lb: Lower, ub: int)
      requires Shape(View()) && w < |cubeOf|
      modifies this`lbOf, this`feasibleSeen, this`hasBest, this`best
      ensures View() == OnWorkerBounds(old(View()), w, lb, ub)
    {
      hide ReportUpper;
      if lb.AtLeast? {
        lbOf := lbOf[w := lb];
      }
      assert lbOf == old(lbOf)[w := if lb.AtLeast? then lb else old(lbOf)[w]];
      ReportUB(ub);
    }

    /** The dispatch on the tag of a message. */
    method Handle(m: Msg)
      requires Shape(View())
      requires m.WorkerResult? || m.WorkerSplit? ==> Busy(View(), m.w) && active > 0
      requires m.WorkerBounds? ==> Busy(View(), m.w)
      modifies this`tasks, this`queue, this`cubeOf, this`sent, this`lbOf, this`active, this`stopSent, this`unknownSeen,
               this`feasibleSeen, this`hasBest, this`best, this`satFound, this`globalLower, this`globalLearned,
               this`originalActive, this`provedUnsat, this`provedOptimum
      ensures View() == OnMessage(old(View()), m)
    {
      hide OnSplit, OnWorker, OnOriginal, OnOriginalBounds, OnWorkerBounds;
      match m {
        case BestRequest =>
        case LearnedUpdate(cs) =>
          globalLearned := globalLearned + cs;
        case OriginalBounds(lb, ub) => OriginalBound(lb, ub);
        case WorkerBounds(w, lb, ub) => WorkerBound(w, lb, ub);
        case OriginalResult(code, extra) => HandleOriginal(code, extra);
        case WorkerResult(w, code, extra) => HandleWorker(w, code, extra);
        case WorkerSplit(w, subcubes, cs) => HandleSplit(w, subcubes, cs);
      }
    }

    /** A message of the first loop. */
    method HandleEarly(e: EarlyMsg)
      requires Shape(View()) && WellFormedEarly(e) && (e.InitResult? ==> pending > 0)
      modifies this
      ensures Early() == OnEarly(old(Early()), e)
      ensures pending == old(pending) - (if e.InitResult? then 1 else 0)
    {
      hide OnMessage;
      match e {
        case FromOriginal(m) => Handle(m);
        case InitResult(w, sat, newCubes) =>
          pending := pending - 1;
          reported := reported + {w};
          if sat {
            satDuringGeneration := true;
          }
          cubes := cubes + newCubes;
      }
    }

    /** The exits between the two loops. */
    method LeaveEarly() returns (exits: bool, v: Verdict)
      ensures exits <==> ExitsEarly(Early())
      ensures exits ==> v == EarlyVerdict(Early())
    {
      exits, v := true, Unsatisfiable;
      if satFound || provedUnsat || provedOptimum {
        if !optimizing {
          return true, if satFound then Satisfiable else Unsatisfiable;
        }
        return true, if provedOptimum then Optimum(best) else Unsatisfiable;
      }
      if satDuringGeneration && !optimizing {
        return true, Satisfiable;
      }
      exits := |cubes| == 0 && |cubeOf| > 0;
    }

    /** The first dispatch. */
    method Begin()
      requires Shape(View())
      modifies this`tasks, this`queue, this`cubeOf, this`sent, this`lbOf, this`active
      ensures View() == Start(old(View()), cubes)
    {
      hide FillIdle, Enqueue;
      PushTasks(cubes, 0, {}, Lower.Unknown);
      FillWorkers();
    }

    /** The final output. */
    method Conclude() returns (v: Verdict)
      ensures v == Announce(View())
    {
      if !optimizing {
        if satFound {
          return Satisfiable;
        }
        return if unknownSeen then NoVerdict else Unsatisfiable;
      }
      if !feasibleSeen {
        return if unknownSeen then NoVerdict else Unsatisfiable;
      }
      return if unknownSeen then BestKnown(best) else Optimum(best);
    }

    /** The loop over the initial reports; false when the messages run out before all workers have reported. */
    method GatherCubes(early: seq<EarlyMsg>, ghost cfg: Config, ghost F: iset<PB>, ghost cost: Cost)
      returns (done: bool)
      requires Trustworthy(cfg, F) && cfg.answer([]).Assigned? && GatherInv(cfg, F, cost, Early())
      requires pending == |cubeOf| - |reported| && HonestGathering(cfg, F, cost, Early(), early)
      modifies this
      ensures old(HonestGathering(cfg, F, cost, Early(), early)) && Early() == old(Gather(cfg, F, cost, Early(), early))
      ensures done <==> Gathered(Early())
    {
      hide GatherInv, HonestGathering, Gather, OnEarly, TruthfulEarly;
      var i: nat := 0;
      ghost var g0 := Early();
      assert early[0..] == early;
      while i < |early|
        invariant i <= |early| && GatherInv(cfg, F, cost, Early()) && |cubeOf| == |old(cubeOf)|
        invariant pending == |cubeOf| - |reported| && HonestGathering(cfg, F, cost, Early(), early[i..])
        invariant Gather(cfg, F, cost, Early(), early[i..]) == Gather(cfg, F, cost, g0, early)
      {
        HonestNext(cfg, F, cost, Early(), early[i..]);
        assert early[i..][0] == early[i] && early[i..][1..] == early[i + 1..];
        GatherStep(cfg, F, cost, Early(), early[i]);
        HandleEarly(early[i]);
        i := i + 1;
      }
      GatherNothing(cfg, F, cost, Early(), early[i..]);
      done := pending == 0;
    }

    /** The main loop; it stops at the end of the run, or when the messages run out. */
    method Receive(msgs: seq<Msg>, ghost F: iset<PB>, ghost cost: Cost) returns (done: bool)
      requires Inv(F, cost, View()) && HonestRun(F, cost, View(), msgs)
      modifies this
      ensures old(HonestRun(F, cost, View(), msgs)) && View() == old(Run(F, cost, View(), msgs)) && Inv(F, cost, View())
      ensures done <==> Finished(View())
    {
      hide Inv, HonestRun, Run, OnMessage, Truthful;
      var i: nat := 0;
      ghost var s0 := View();
      assert msgs[0..] == msgs;
      while i < |msgs|
        invariant i <= |msgs| && Inv(F, cost, View()) && HonestRun(F, cost, View(), msgs[i..])
        invariant Run(F, cost, View(), msgs[i..]) == Run(F, cost, s0, msgs)
      {
        RunNext(F, cost, View(), msgs[i..]);
        assert msgs[i..][0] == msgs[i] && msgs[i..][1..] == msgs[i + 1..];
        MessageKeeps(F, cost, View(), msgs[i]);
        HonestBounds(F, cost, View(), msgs[i]);
        Handle(msgs[i]);
        i := i + 1;
      }
      RunNothing(F, cost, View(), msgs[i..]);
      done := satFound || provedUnsat || provedOptimum || stopSent || (active == 0 && !originalActive);
    }

    /** run_master: from the constructor to the announcement, over every honest interleaving of messages. */
    method RunMaster(early: seq<EarlyMsg>, msgs: seq<Msg>, ghost cfg: Config, ghost F: iset<PB>, ghost cost: Cost)
      returns (announced: bool, v: Verdict)
      requires Trustworthy(cfg, F) && cfg.answer([]).Assigned? && optimizing == cfg.optimizing
      requires Early() == Nothing(optimizing, |cubeOf|) && pending == |cubeOf|
      requires GatherInv(cfg, F, cost, Early()) && HonestGathering(cfg, F, cost, Early(), early)
      requires var g := Gather(cfg, F, cost, Early(), early);
               Gathered(g) && !ExitsEarly(g) ==>
                 (VerdictsAreRight(cfg, F, cost, |cubeOf|, early, msgs); HonestRun(F, cost, Start(g.s, g.cubes), msgs))
      modifies this
      ensures announced ==> VerdictOk(F, cost, v)
      ensures announced <==>
                var g := old(Gather(cfg, F, cost, Early(), early));
                Gathered(g) && (ExitsEarly(g) || Finished(Run(F, cost, Start(g.s, g.cubes), msgs)))
      ensures announced ==>
                if ExitsEarly(old(Gather(cfg, F, cost, Early(), early))) then !v.NoVerdict? && !v.BestKnown?
                else SaysWhatWasHeard(v, cfg.optimizing, Heard(early) + msgs)
    {
      hide GatherInv, HonestGathering, Gather, Inv, HonestRun, Run, VerdictOk, Start, SaysWhatWasHeard;
      VerdictsAreRight(cfg, F, cost, |cubeOf|, early, msgs);
      VerdictFromMessages(cfg, F, cost, |cubeOf|, early, msgs);
      announced, v := false, NoVerdict;
      var gathered := GatherCubes(early, cfg, F, cost);
      if !gathered {
        return;
      }
      announced, v := LeaveEarly();
      if announced {
        return;
      }
      GatherIsShaped(cfg, F, cost, Early());
      Begin();
      var finished := Receive(msgs, F, cost);
      if finished {
        announced := true;
        v := Conclude();
      }
    }
  }

  lemma TopQueued(s: State)
    requires QueueOk(s) && |s.queue| > 0
    ensures s.queue[TopOf(s, |s.queue| - 1)] < |s.tasks|
  {
  }

  lemma WorkIgnoresQueue(s: State, queue: seq<nat>, t: Task)
    ensures WorkFor(s.(queue := queue), t) == WorkFor(s, t)
  {
  }

  /** The fields that a dispatch changes. */
  lemma DispatchFields(s: State, w: nat)
    requires Shape(s) && |s.queue| > 0 && w < |s.cubeOf|
    requires s.queue[TopOf(s, |s.queue| - 1)] < |s.tasks|
    ensures var p := TopOf(s, |s.queue| - 1);
            var idx := s.queue[p];
            var work := WorkFor(s, s.tasks[idx]);
            Dispatch(s, w) == s.(queue := s.queue[..p] + s.queue[p + 1..], cubeOf := s.cubeOf[w := idx],
                                 sent := s.sent[w := work],
                                 lbOf := s.lbOf[w := if s.optimizing then work.lower else s.lbOf[w]])
  {
    hide TopOf, WorkFor, QueueOk;
  }

  lemma HonestBounds(F: iset<PB>, cost: Cost, s: State, m: Msg)
    requires Truthful(F, cost, s, m)
    ensures m.WorkerBounds? ==> Busy(s, m.w)
  {
  }

  lemma GatherIsShaped(cfg: Config, F: iset<PB>, cost: Cost, g: Gathering)
    requires WellBehaved(cfg) && cfg.answer([]).Assigned? && GatherInv(cfg, F, cost, g)
    ensures Shape(g.s)
  {
  }

  lemma HonestNext(cfg: Config, F: iset<PB>, cost: Cost, g: Gathering, early: seq<EarlyMsg>)
    requires Trustworthy(cfg, F) && cfg.answer([]).Assigned? && GatherInv(cfg, F, cost, g)
    requires HonestGathering(cfg, F, cost, g, early) && |early| > 0
    ensures !Gathered(g) && |g.reported| < |g.s.cubeOf| && TruthfulEarly(cfg, F, cost, g, early[0])
    ensures WellFormedEarly(early[0]) && Shape(g.s) && GatherInv(cfg, F, cost, OnEarly(g, early[0]))
    ensures HonestGathering(cfg, F, cost, OnEarly(g, early[0]), early[1..])
    ensures Gather(cfg, F, cost, g, early) == Gather(cfg, F, cost, OnEarly(g, early[0]), early[1..])
  {
    hide TruthfulEarly, OnEarly;
    GatherStep(cfg, F, cost, g, early[0]);
    SmallSet(g.reported, |g.s.cubeOf|);
  }

  lemma GatherNothing(cfg: Config, F: iset<PB>, cost: Cost, g: Gathering, early: seq<EarlyMsg>)
    requires Trustworthy(cfg, F) && cfg.answer([]).Assigned? && GatherInv(cfg, F, cost, g)
    requires HonestGathering(cfg, F, cost, g, early) && |early| == 0
    ensures Gather(cfg, F, cost, g, early) == g
  {
  }

  lemma RunNext(F: iset<PB>, cost: Cost, s: State, msgs: seq<Msg>)
    requires Inv(F, cost, s) && HonestRun(F, cost, s, msgs) && |msgs| > 0
    ensures !Finished(s) && Truthful(F, cost, s, msgs[0])
    ensures Shape(s) && (msgs[0].WorkerResult? || msgs[0].WorkerSplit? ==> Busy(s, msgs[0].w) && s.active > 0)
    ensures msgs[0].WorkerBounds? ==> Busy(s, msgs[0].w)
    ensures Inv(F, cost, OnMessage(s, msgs[0])) && HonestRun(F, cost, OnMessage(s, msgs[0]), msgs[1..])
    ensures Run(F, cost, s, msgs) == Run(F, cost, OnMessage(s, msgs[0]), msgs[1..])
  {
    hide Inv, OnMessage;
    MessageKeeps(F, cost, s, msgs[0]);
  }

  lemma RunNothing(F: iset<PB>, cost: Cost, s: State, msgs: seq<Msg>)
    requires Inv(F, cost, s) && HonestRun(F, cost, s, msgs) && |msgs| == 0
    ensures Run(F, cost, s, msgs) == s
  {
  }
}
