# A cube-and-conquer pseudo-Boolean solver: what its algorithms guarantee

The project models three layers of the solver and proves properties of them.

**The native cutting-planes engine** (`src/`). The state is the one the program keeps: a trail of literals with levels and
reasons, a list of pseudo-Boolean constraints with one counter each, occurrence and watch lists, clauses with two watches,
binary clauses. `Trail.Model`, `Watches.ClauseStore` and `Engine.Solver` are classes with these fields, and the algorithms are
methods that change them in place: propagation, cuts and their repair, backjump levels, lemma shortening, learning, database
cleanup, loading and the search loop. A constraint is a sequence of (coefficient, literal) with a right-hand side. Its meaning
is given over total 0/1 assignments, its slack over the non-false literals of a trail; both are one function of a set of
literals, so that most laws hold for both at once.

**Cube and conquer** (`src/cubePB.cpp`). The recursive lookahead splitter is a method on a backend that is specified by contract
(`CubeGeneration.Trustworthy`), and the native engine is shown to meet that contract from a propagated level 0 on
(`Lookahead`, `UnitClosure`). The
protocol between master and workers is a transition system whose replies are contracts on the messages
(`Protocol.Truthful`, `Protocol.TruthfulEarly`); `Master.MasterProcess` is the master with its fields.

**The vendored solvers**. RoundingSat's constraint expressions (`CuttingPlanes.Expr`), its watched and counting propagation and
its core-guided objective rewriting; CaDiCaL's interpolation tracer with its and-inverter graphs.

## How the parts fit together

- From the input to the answer: `Loading.SolveProblem` normalises and loads the constraints, sets the objective, and calls
  `Search.Solve`, which cleans the database, propagates, analyses conflicts, restarts, stores solutions and asks for better ones.
- One conflict: `ConflictAnalysis.AnalyseAndBackjump` pops, resolves (`Resolution.Resolve`, on `Cut.ApplyCut` and
  `Repair.FixRoundingProblem`), never reaches a decision (`QuietBelow`), finds the level (`BackjumpLevel.LowestLevel`), shortens
  (`LemmaShortening.Shorten`), and stores.
- From the master's constructor to the announcement: `Protocol.VerdictsAreRight` over every honest interleaving of messages, and
  `Master.MasterProcess.RunMaster` for the loops themselves. The cover it starts from is `CubeGeneration.WorkersCover`.

## Where the code does less than it promises

- A constraint with cancelling literals can be merged to a right-hand side of 0 or less. The assertions that exclude this are
  compiled out in release builds. `Loading.EnteredExactly` says exactly when what is entered is equivalent,
  `Loading.TautologyBecomesUnit` is an input that turns a tautology into a unit.
- `weakenDivideRound` asserts that the propagated literal survives. With both `slackdiv` and `weakenFull` on it need not:
  `CuttingPlanes.Expr.WeakenDivideRound`, `Refine` and `GenericResolve` say exactly when it does,
  `CuttingPlanes.PivotLost` is a step of conflict analysis that fails for it.
- The width argument of `applyCut` asks for saturated parents (its own comment wonders about an assertion). The objective
  constraint and constraints stripped of units need not be saturated: `Cut.UnsaturatedOverflows` leaves 32 bits on the int path,
  `Cut.CutFitsExactly` says when the coefficients stay within a limit, `Cut.CutWidth` is the saturated case.
- The master handles reply 15 (time-out with a best cost) like reply 10 (best cost of the cube). `Protocol.FifteenMustBeFinal`
  says that the announcement is then right exactly when the cube holds nothing better. Workers solve cubes without a time
  limit (src/cubePB.cpp:863), so they have no occasion to send it.
- `removeDuplicates` asserts a strictly increasing order of variables, which its input with duplicates cannot have; the model
  asks for the non-strict order that the sort before it gives.
- `doCleanup` comments that it deletes 75% of the lemmas; the code deletes at most half of them, and so does the model.

## Model

| member | source | states |
|---|---|---|
| Loading.SolveProblem | src/main.cpp:196-210 | from the constraints and the objective as they are written, through their normal forms, to the verdict: whenever every merged constraint keeps a positive right-hand side, infeasible, optimal and satisfiable answers are right about the problem as written; when no constraint repeats a variable (and each has one), loading succeeds and the answer is right without further condition; an answer is withheld only after as many decisions and solutions as the budget allows |
| Loading.ParseProblem | src/Parser.cpp:3-23 | over all written constraints, the normal forms that are kept have together exactly the 0/1 points of the written problem |
| Loading.MergedAsIs | src/WConstraint.h:302-332 | over distinct variables the least slack is minus the right-hand side, so merging cannot change the right-hand side |
| Loading.AddConstraint | src/Parser.cpp:3-23 | the normal form has positive coefficients and exactly the 0/1 points of the written constraint, and it is dropped exactly when its bound is below 1, in which case every assignment satisfies it |
| Loading.LoadFormula | src/main.cpp:197-202 | loading stops short exactly at a constraint merged to nothing or to bound 0; otherwise the engine has every representation invariant, and it is consistent with exactly the input when all merged bounds are positive |
| Loading.LoadConstraint | src/NativeBackend.cpp:24-29 | sorting, merging, simplifying, entering and propagating one constraint keeps the engine consistent with the formula plus what was entered, which is equivalent to the input constraint exactly when the merged bound is at least 1 |
| Loading.EnteredExactly | src/Constraint.h:19-36 | what simplify enters has the 0/1 points of the merged constraint if and only if the right-hand side is at least 1 |
| Loading.TautologyBecomesUnit | src/Parser.cpp:3-23 | witness: written 3x1 - 3x1 + x2 >= -1, which holds everywhere, has the normal form 3x1 + 3(not x1) + x2 >= 2, is merged to x2 >= -1 and entered as x2 >= 1 |
| Loading.AddObjectiveFunction | src/Solver.cpp:52-108 | the stored objective plus its constant is the written one, negated when minimising, on every assignment that agrees with level 0; no coefficients means a feasibility problem |
| Search.Solve | src/Solver.cpp:136-273 | the whole loop, with cleanups and restarts at any time and any decisions: infeasible means no solution, optimum means the stored solution satisfies the initial formula and no solution has a larger objective, satisfiable means the stored solution is one; the loop gives up only when the budget of decisions and solutions is used up, and then in a propagated state without a conflict, and has no solution to show exactly when none was found |
| Search.ResolveConflicts | src/Solver.cpp:160-174 | the inner loop ends conflict-free with everything propagated and the formula still represented, or having refuted it |
| Search.OnSolution | src/Solver.cpp:211-268 | each stored solution satisfies the formula and is strictly better than the last; the improving constraint is in force afterwards, or the formula with it is refuted |
| Search.SolutionHolds | src/Solver.cpp:211-219 | all variables assigned, everything propagated and no conflict: the copied assignment satisfies every constraint of the formula |
| Search.CleanupRound | src/Solver.cpp:185-192 | cleaning between rounds keeps formula, incumbent and improving constraint; only the number of the objective constraint changes |
| Cleanup.DoCleanup | src/Cleanup.cpp:105-253 | at a propagated level 0 the rebuilt database has exactly the total assignments that level 0, the initial constraints and the newest objective constraint had, every counter, index, watch, binary and occurrence invariant holds again, the trail is untouched, and the objective constraint is found under its new number; at most half of the lemmas that are neither satisfied nor old objective constraints go, and every other unsatisfied constraint is in the new database, stripped and reclassified, lemmas as lemmas |
| Cleanup.MarkRemoved | src/Cleanup.cpp:115-189 | what is marked is satisfied at level 0, an old objective constraint, or one of at most half of the remaining lemmas; every satisfied constraint is marked, and no initial one is for any other reason than being satisfied or an old objective |
| Cleaning.CleanPB | src/Cleanup.cpp:3-54 | a stripped and reclassified constraint has the truth value of the old one wherever level 0 is respected, and is settled as a constraint, or has two unassigned watches as a clause, or is a binary clause |
| Cleaning.CleanClause | src/Cleanup.cpp:56-89 | the same for a clause whose watches are unassigned |
| Cleanup.Rebuild | src/Cleanup.cpp:200-252 | the new lists, counters and watches are those of the temporary lists, and the engine is propagated and conflict-free again |
| ConflictAnalysis.AnalyseAndBackjump | src/ConflictAnalysis.cpp:38-269 | for any reasons and any trail: no decision ever has to be explained, so the exit of lines 102-106 is never taken; each round cuts with the reason of a popped literal and jumps exactly when its cut conflicts or propagates at a lower level, then to the least such level; the run ends at the first cut that is 0 >= 1 or falsified at level 0 (the formula is refuted) or that is not falsified at its level (it is learned there, and the engine is ready on a whole-level prefix of the trail extended by something new); what is shared with other workers follows from the formula |
| ConflictAnalysis.ResolveRound | src/ConflictAnalysis.cpp:51-176 | above level 0 one round gives a constraint that follows from the formula, is falsified again and has a positive bound, on a strictly shorter trail still above level 0, and that without a clash neither conflicts nor propagates below; at level 0 the formula is refuted |
| ConflictAnalysis.LearnConstraint | src/ConflictAnalysis.cpp:237-265 | a learned constraint is stored at the least level where it conflicts or propagates and asserts something there, or the analysis goes on with a constraint that is still falsified |
| ConflictAnalysis.MakeLemma | src/ConflictAnalysis.cpp:182-211 | with a single literal of the highest level, the shortened clause follows from the formula and is ranked to jump to the computed level: UIP first, a literal of that level second |
| Resolution.Resolve | src/ConflictAnalysis.cpp:118-168 | the cut always succeeds: implied by the two parents, falsified, saturated, without the pivot; it is the plain one whenever that fits and is falsified, otherwise the longer parent is repaired, and the other one only if needed; the flag tells whether the constraints finally cut share a second variable |
| QuietBelow.CutIsQuiet | src/ConflictAnalysis.cpp:601-654 | two constraints that neither conflict nor propagate below the current level and share no variable but the pivot have a cut, with or without repairs, that does not either: without a clash there is no level to look for |
| QuietBelow.ReasonIsQuiet | src/ConflictAnalysis.cpp:90-101 | every reason, of any kind, neither conflicts nor propagates below the current level |
| QuietBelow.PoppedHasReason | src/ConflictAnalysis.cpp:57-82 | the literal that ends the popping is no decision when the constraint neither conflicts nor propagates below the current level |
| Cut.ApplyCut | src/ConflictAnalysis.cpp:565-695 | pivot search, multipliers, merging loops, refusals and normalisation compute the cut the next lemmas are about, and the clash flag says whether the parents share a second variable |
| Cut.AcceptedCutIsImplied | src/ConflictAnalysis.cpp:654-694 | an accepted cut, after gcd division, rounding and shaving, is implied by the parents, ordered, positive, saturated, at most 2^30, without the pivot, and falsified by exactly the trails that falsify the plain sum |
| Cut.CutIsImplied | src/ConflictAnalysis.cpp:616-654 | every 0/1 point of both parents satisfies the plain sum k1*c1 + k2*c2 after cancellation (AcceptedCutIsImplied adds the normalisation) |
| Cut.CutSlack | src/ConflictAnalysis.cpp:616-654 | over a trail that leaves the pivot open, the slack of the sum is at most k1*slack1 + k2*slack2 minus the least common multiple of the pivot coefficients |
| Cut.CutSlackApart | src/ConflictAnalysis.cpp:616-654 | if the parents share no variable but the pivot, the slack of the sum is exactly k1*slack1 + k2*slack2 minus the least common multiple of the pivot coefficients |
| Cut.CutBound | src/ConflictAnalysis.cpp:572-597 | with or without saturation, every merged coefficient is at most k1*b1 + k2*b2 where b1 and b2 bound the parents, and k1 <= b2, k2 <= b1 |
| Cut.CutWidth | src/ConflictAnalysis.cpp:572-597 | saturated parents: merged coefficients and k1*rhs1 + k2*rhs2 fit in 32 bits when rhs1*rhs2 < 2^30, in 64 bits otherwise |
| Cut.CutFitsExactly | src/ConflictAnalysis.cpp:616-654 | for any parents and any limit: everything the loops compute before and after merging stays within the limit if and only if each multiplier times its parent's largest coefficient does, and the sum for every literal of both parents does |
| Cut.UnsaturatedOverflows | src/ConflictAnalysis.cpp:569-580 | witness: two constraints that simplify leaves as they are; one loses a level-0 literal and with it its saturation; the int path is chosen, and a product leaves 32 bits |
| Repair.FixRoundingProblem | src/ConflictAnalysis.cpp:516-562 | if the constraint has the literal open and slack below its coefficient, the loop stays in bounds and gives an implied clause of slack 0 that contains the literal |
| BackjumpLevel.LowestLevel | src/ConflictAnalysis.cpp:271-349 | for a falsified constraint the result is the least level at which it conflicts or propagates, -1 exactly when that is the current level, whichever of the two algorithms is taken |
| BackjumpLevel.LowestLevelClause | src/ConflictAnalysis.cpp:271-298 | above level 0 the clause shortcut meets the specification of the general algorithm |
| LemmaShortening.Shorten | src/ConflictAnalysis.cpp:353-499 | with any mix of reasons the shortened lemma follows from the formula and the long one, keeps the UIP first, keeps a literal of every level above 0 and orders the rest by level; nothing is left to drop: every other literal is a decision or cannot be shown redundant within the shortened lemma |
| LemmaShortening.TestRedundant | src/ConflictAnalysis.cpp:402-480 | a literal is dropped if and only if some set of variables, without decisions and not below the lowest level, shows that it rests on marked literals and level 0 alone, although reasons list literals assigned after it |
| AssertionLevel.UniqueUip | src/ConflictAnalysis.cpp:187-207 | with one literal at the highest level, all others lie at or below the backjump level, which is attained, and the UIP is above it unless the clause is a unit of level 0 |
| Units.UnitsImplied | src/ConflictAnalysis.cpp:23-36 | the constraint without its level-0 literals still follows from the formula |
| PropagateLoop.Propagate | src/Propagate.cpp:135-145 | propagation only extends the trail and ends either with a constraint, clause or binary clause that the trail really falsifies, or with everything propagated and all invariants |
| PropagateLoop.PBsPropagated | src/Propagate.cpp:150-204 | after a conflict-free propagation no constraint is falsified, none has an unassigned literal it forces, and each counter is slack minus largest coefficient |
| PropagateLoop.ClausesPropagated | src/Propagate.cpp:336-349 | every clause is satisfied or has both watches unassigned |
| PropagateLoop.BinsPropagated | src/Propagate.cpp:113-132 | when one literal of a binary clause is false the other is true |
| Propagation.PropagatePBCtrCounter | src/Propagate.cpp:264-282 | scanning from the saved index settles the constraint as a scan from 0 would |
| Propagation.VisitPBCounterLists | src/Propagate.cpp:76-111 | all counters are updated for the new false literal and all constraints settled, or a constraint is falsified and every counter is as before the visit |
| ClauseVisit.VisitClauseWatchList | src/Propagate.cpp:4-73 | the compacting traversal loses no watcher: every clause keeps its literals and its two watches, and is satisfied, propagated or rewatched; a conflict is a clause that is false |
| ClauseVisit.FindReplacement | src/Propagate.cpp:25-41 | the circular search finds a non-false literal exactly when there is one behind the watches |
| ClauseVisit.CloseGap | src/Propagate.cpp:68-72 | after a conflict the unread entries follow the kept ones, in order, in the same array |
| Closure.BackjumpKeepsClauses | src/Solver.cpp:388-392 | jumping to any lower level restores the clause and binary invariants, and what is left was propagated |
| Closure.BackjumpKeepsLevels | src/Solver.cpp:388-392 | jumping to any lower level lands where all constraints are settled |
| Engine.Solver.PopAndUnassign | src/Solver.cpp:395-406 | the counters fit the shorter trail, whether or not the literal was propagated |
| Database.AddAndPropagate | src/DBAddition.cpp:37-60 | a constraint entered in the middle of the search gets the right counter, propagates completely, and conflicts exactly when its slack is negative |
| Database.TightenObjective | src/Solver.cpp:238-244 | a larger right-hand side keeps every counter right |
| Normalise.WConstraint.RemoveDuplicates | src/WConstraint.h:302-332 | the merged constraint has the same slack on every 0/1 point, positive coefficients and strictly increasing variables |
| Normalise.SimplifiedExact | src/Constraint.h:19-36 | for a positive bound, saturation and rounded division change neither the 0/1 points nor, over any set of literals, whether the constraint is falsified |
| Normalise.SimplifiedIsPrimitive | src/Constraint.h:19-36 | what simplify gives is a clause when no coefficient was below the bound, and otherwise no number above 1 divides all coefficients below its bound |
| Normalise.NothingLeftToDivide | src/ConflictAnalysis.cpp:671-690 | the same for the division of a cut, which takes the coefficients up to the bound |
| CubeGeneration.WorkersCover | src/cubePB.cpp:578-800 | for any number of workers, every solution that extends the path satisfies a cube of some worker, or that worker reports satisfiability |
| CubeGeneration.GenCovers | src/cubePB.cpp:578-800 | one worker alone: every solution of formula and path satisfies a cube, unless satisfiability was found |
| CubeGeneration.GenContradicts | src/cubePB.cpp:578-800 | the cubes of one call contradict each other pairwise and all extend the current decisions |
| CubeGeneration.WorkersApart | src/cubePB.cpp:717-758 | the work is distributed: for two different workers of one distributed call every cube of one contradicts every cube of the other, unless both stop at a node they still share, and then each has exactly this node |
| CubeGeneration.GenLeaves | src/cubePB.cpp:590-706 | no cube is given up early: each is at the depth bound, above a positive threshold that is below the initial one only if some assumption fails, or has nothing left to decide while optimising |
| CubeGeneration.ScanIsBest | src/cubePB.cpp:637-694 | the variable branched on has the highest score of all undefined ones, with the sum of the evaluations as tie-break |
| CubeGeneration.GenSat | src/cubePB.cpp:578-800 | the flag is raised only for a satisfiable formula and never while optimising |
| CubeGeneration.FailedLiteral | src/cubePB.cpp:630-677 | when one literal of an open variable fails, the complement of the reported literal is refuted, the literal itself can be assumed, and assuming it leaves strictly fewer undefined variables (with the remaining depth, the termination measure) |
| CubeGeneration.CubeSplitter.GenerateCubesRec | src/cubePB.cpp:578-800 | the imperative splitter appends exactly the cubes of the recursive specification, and every exit leaves the backend at the level, and the decisions, it was called with |
| CubeGeneration.ChildrenCover | src/cubePB.cpp:875-920 | the children of a split cube contradict each other and cover the solutions of the parent |
| Lookahead.AssumeAndPropagate | src/CubeConquerAPI.cpp:78-88 | at a propagated node: true means the literal and everything before it stay true and all is propagated, false means no solution of the formula extends the longer path |
| Lookahead.TryLiteral | src/CubeConquerAPI.cpp:78-96 | an assumption followed by backtrack(1) leaves the trail as it was, failed or not |
| Lookahead.AnswersTrustworthy | src/CubeConquerAPI.cpp:62-96 | what the native engine answers at a node meets the backend contract there: conflicts refute, complete assignments are solutions |
| UnitClosure.AnswerIsDetermined | src/CubeConquerAPI.cpp:62-88 | at every node, propagated or in conflict, what the engine shows is determined by level 0 and the assumptions alone: the least closed set of literals, whatever the order of propagation |
| UnitClosure.NativeIsTrustworthy | src/CubeConquerAPI.cpp:62-96 | the native engine, seen through these answers, meets the whole backend contract of the splitter, on every path |
| UnitClosure.Assume | src/CubeConquerAPI.cpp:78-88 | assumeAndPropagate on the engine succeeds exactly when the configuration says so on the longer path, and the engine is then at that node, with the same answers on all paths |
| UnitClosure.Probe | src/cubePB.cpp:637-659 | an assumption and backtrack(1) tell the configuration's answer and leave the engine at the node it was at |
| UnitClosure.NativeWorkersCover | src/cubePB.cpp:578-800 | from a propagated level 0 the cubes of any number of native workers cover every solution |
| Protocol.MessageKeeps | src/cubePB.cpp:1391-1582 | every truthful message in any order keeps the invariant: each improving solution lies in a queued or running task or with the lone original worker, an idle cube worker means an empty queue, learned constraints hold in their cubes, bounds hold |
| Protocol.RunIsRight | src/cubePB.cpp:1357-1614 | after the first dispatch, over every honest interleaving until the loop ends, what is announced is right |
| Protocol.VerdictsAreRight | src/cubePB.cpp:1185-1617 | from a fresh master with any number of cube workers, none included: the verdict before the first dispatch and the verdict after the last message are right |
| Protocol.VerdictFromMessages | src/cubePB.cpp:1383-1617 | the final announcement in terms of the messages of both loops: it is inconclusive if and only if a worker gave up (0, or an original result other than 10, 20, 26 and, when optimising, 15), unless a decision problem was found satisfiable; satisfiable if and only if a decision problem got a 10; and the cost announced is the least one reported |
| Protocol.EarlyVerdictIsRight | src/cubePB.cpp:1319-1355 | every early exit after cube generation (a result of the original worker, satisfiability met by the splitters, no cube at all) announces what holds |
| Protocol.GatheredCovers | src/cubePB.cpp:1200-1314 | when all workers have reported, every solution lies in a gathered cube or satisfiability was found |
| Protocol.QueuedApart | src/cubePB.cpp:1200-1314 | whatever the number of workers and the order of their reports, any two gathered cubes contradict each other or are the node at which workers stopped together |
| Protocol.DispatchSends | src/cubePB.cpp:1357-1388 | a free worker gets the queued task with the strongest lower bound, with all constraints of the task and all shared ones, the incumbent and the stronger lower bound when optimising; nothing else changes hands |
| Protocol.SplitInherits | src/cubePB.cpp:1483-1517 | the children of a split are new tasks, one level deeper, with the parent's and the new constraints and the stronger of the worker's and the global lower bound |
| Protocol.NothingForgotten | src/cubePB.cpp:1395-1424 | no message loses a shared constraint or lowers the global bound, and what the original worker reports is taken over |
| Protocol.SplitKeepsPromise | src/cubePB.cpp:875-920 | the splitter's children keep the promise of reply 30, on a formula strengthened by bounds and learned constraints |
| Protocol.FifteenMustBeFinal | src/cubePB.cpp:1544-1579 | if the last busy worker sends 15, the announcement is right if and only if its cube holds nothing better |
| Master.MasterProcess.RunMaster | src/cubePB.cpp:1185-1617 | the master with its fields and its two loops announces exactly when the run of the transition system ends, and only right verdicts; what it announces after the main loop is decided by the messages as in VerdictFromMessages, and no early exit is inconclusive |
| Master.MasterProcess.Receive | src/cubePB.cpp:1391-1582 | the in-place handlers refine the transition system: the state after the loop is that of the run, and it stops exactly at the loop's guard or break |
| CuttingPlanes.Expr.AddLhs | roundingsat-dev-ipasir/src/ConstrExp.cpp:354-375 | the slack of every 0/1 point grows by the added term, with degree and right-hand side still consistent |
| CuttingPlanes.Expr.SaturateAndFixOverflow | roundingsat-dev-ipasir/src/ConstrExp.cpp:579-604 | the constraint stays implied, stays falsified over what is left besides the asserting literal, keeps that literal, and fits in the given bits |
| CuttingPlanes.Expr.WeakenDivideRound | roundingsat-dev-ipasir/src/ConstrExp.cpp:689-701 | the refined reason is implied, has slack at most 0, and keeps the literal if and only if not both options are on with slack + 1 not dividing its coefficient |
| CuttingPlanes.PivotLost | roundingsat-dev-ipasir/src/ConstrExp.hpp:536-555 | witness, under any of the other options except a limit of 1 bit: after the decision not-x3, 3x1 + 2x2 + 2x3 >= 4 has propagated x1 and not-x1 + x3 >= 1 is falsified; with slackdiv and weakenFull on, the refined reason is x2 + x3 >= 1 and the resolution fails |
| CuttingPlanes.Expr.Refine | roundingsat-dev-ipasir/src/ConstrExp.hpp:517-525 | the refined reason is a stated function of the reason, the trail and the options, follows from the reason, has slack at most 0, and keeps the literal if and only if the constraint that this function gives before the last division does not lose it |
| CuttingPlanes.GivesUpPlainly | roundingsat-dev-ipasir/src/ConstrExp.hpp:517-525 | without the optional weakening and overflow reduction: the literal is lost exactly when both options are on and slack + 1, after dropping units and saturating, does not divide its coefficient |
| CuttingPlanes.NonImplyingMissesNone | roundingsat-dev-ipasir/src/ConstrExp.cpp:889-905 | with the largest coefficient first, the optional weakening misses nothing: for every false literal it leaves there is no room below the propagated coefficient |
| CuttingPlanes.Expr.GeneralizedResolution | roundingsat-dev-ipasir/src/ConstrExp.hpp:528-533 | from negative and non-positive slack to negative slack, coefficient 0 on the literal, and an implied sum |
| CuttingPlanes.Expr.GenericResolve | roundingsat-dev-ipasir/src/ConstrExp.hpp:536-555 | resolution succeeds if and only if the refinement, a function of the reason, the trail and the options, keeps the literal; then the result is implied, falsified, saturated, without the literal, and within the bits |
| CuttingPlanes.Expr.ApplyMIR | roundingsat-dev-ipasir/src/ConstrExp.cpp:754-771 | for every divisor and every choice of complemented variables, each 0/1 point of the old constraint satisfies the new one |
| Mir.RoundingSound | roundingsat-dev-ipasir/src/ConstrExp.cpp:754-789 | any monotone subadditive function with f(0) = 0 rounds soundly, whichever variables are complemented |
| Mir.MirSubadditive | roundingsat-dev-ipasir/src/ConstrExp.cpp:754-771 | r*floor(a/d) + min(a mod d, r) is subadditive |
| Mir.DivisionSound | roundingsat-dev-ipasir/src/ConstrExp.cpp:774-789 | plain division with complemented variables is sound in the same way |
| Mir.MirImpliesDivision | roundingsat-dev-ipasir/src/ConstrExp.cpp:754-789 | unless d divides the bound, the MIR constraint implies the one plain division leaves |
| Mir.SafeDivision | roundingsat-dev-ipasir/src/auxmath.hpp:41-77 | the helpers on truncating machine division compute floor, remainder and ceiling for negative arguments too |
| CuttingPlanes.Expr.SimplifyToCardinality | roundingsat-dev-ipasir/src/ConstrExp.cpp:953-1023 | the result is an implied cardinality constraint of maximal degree, equivalent when asked for; nothing is changed only when no bound on the number of its literals is equivalent |
| Cardinality.CardinalityExact | roundingsat-dev-ipasir/src/ConstrExp.cpp:973-977 | when the k smallest coefficients reach the degree, a set satisfies the constraint exactly when it has k of the literals |
| Cardinality.BoundMaximal | roundingsat-dev-ipasir/src/ConstrExp.cpp:960-985 | no larger bound is implied after skipping small coefficients |
| CuttingPlanes.Expr.IsAssertingBefore | roundingsat-dev-ipasir/src/ConstrExp.cpp:817-837 | falsified exactly when the slack is negative, asserting exactly when it is not and some open literal is forced, in spite of the early exit |
| Watched.AgreesWithCounting | roundingsat-dev-ipasir/src/Constr.cpp:434-498 | once everything is propagated, counting all terms finds no conflict and no literal that the watches missed, and the two slacks agree wherever they matter |
| Watched.Watched.Process | roundingsat-dev-ipasir/src/Solver.cpp:209-252 | one turn with its shortcuts (resumed search, skipped propagation) keeps the constraint settled; literals are forced and a conflict is one for counting |
| Watched.Watched.BackjumpTo | roundingsat-dev-ipasir/src/Solver.cpp:170-206 | undoing whole levels leaves the constraint settled at the start of the level returned to |
| Watched.DecisionSettles | roundingsat-dev-ipasir/src/Solver.cpp:193-197 | once everything is propagated, a decision opens a level at whose start the watches are settled, so that a later jump may return there |
| Watched.Watched.InitializeWatches | roundingsat-dev-ipasir/src/Constr.cpp:388-431 | for a constraint that is not falsified, and quiet at the start of each earlier level, the first watches leave it settled, also for those levels, and what is propagated is forced |
| Counting.WatchedAgreesWithCounting | roundingsat-dev-ipasir/src/Constr.cpp:312-505 | over the same terms and trail both kinds have missed nothing, watched slack is at most counted slack, equal below the largest coefficient, and they force the same coefficients |
| Counting.ConflictsAgree | roundingsat-dev-ipasir/src/Constr.cpp:312-505 | on a falsifying trail both stop with a conflict before it is fully processed |
| Counting.CountBackjump | roundingsat-dev-ipasir/src/Constr.cpp:351-355 | the counted slack at the start of every lower level settles the constraint there |
| CoreRewriting.Conservative | roundingsat-dev-ipasir/src/objrewrite.cpp:43-208 | in both encodings, at every expansion, an assignment within the bounds of the core extends to the new variables and changes nothing else |
| CoreRewriting.ForcedToCount | roundingsat-dev-ipasir/src/objrewrite.cpp:43-208 | the constraints force the new variables to count the core |
| CoreRewriting.ObjectiveBelow | roundingsat-dev-ipasir/src/objrewrite.cpp:505-529 | the rewritten objective never exceeds the old one, and equals it if and only if the core is no larger than the variables can count |
| ObjRewrite.LazyVar.Expand | roundingsat-dev-ipasir/src/objrewrite.cpp:263-306 | in-place edits of the two constraints keep them equal to the encoding for one more variable, which enters the objective with the core's cost |
| ObjRewrite.RewriteLazy | roundingsat-dev-ipasir/src/objrewrite.cpp:505-529 | the core leaves the objective, the first new variable enters it, and the lower bound rises by cost times the core's bound |
| ObjRewrite.UpperBoundHolds | roundingsat-dev-ipasir/src/objrewrite.cpp:351-357 | no assignment that reaches the best known value makes more core literals true than the computed upper bound |
| ObjRewrite.RewriteEager | roundingsat-dev-ipasir/src/objrewrite.cpp:461-502 | the gap has closed exactly when the upper bound is below the degree; otherwise the two rows, the order of the new variables and the traded objective are those of the encoding |
| ObjRewrite.EagerExact | roundingsat-dev-ipasir/src/objrewrite.cpp:461-502 | the eager pair of constraints says X = k + sum of y, so the rewritten objective is the old one |
| ObjRewrite.EagerConservative | roundingsat-dev-ipasir/src/objrewrite.cpp:461-502 | and every assignment within the core's bounds extends, with the new variables in order |
| Craig.CraigTracer.AddOriginalClause | cadical-api/cadical-rel-3.0.0/contrib/craigtracer.cpp:396-422 | an original clause gets an edge that is a partial interpolant of it, in each construction |
| Craig.CraigTracer.AddDerivedClause | cadical-api/cadical-rel-3.0.0/contrib/craigtracer.cpp:425-462 | for every linear chain with one clashing literal per step and no repeated pivot, the derived clause gets a partial interpolant, and those of all earlier clauses survive |
| Craig.ResolutionKeeps | cadical-api/cadical-rel-3.0.0/contrib/craigtracer.cpp:677-745 | combining the values of two parents by the pivot's label is a partial interpolant of the resolvent, in each of the four constructions |
| Craig.OnlyPivotClashes | cadical-api/cadical-rel-3.0.0/contrib/craigtracer.cpp:979-996 | over a linear chain, the mask test finds exactly the pivot, although literals stay marked after they are resolved away |
| Craig.CraigTracer.ConcludeUnsat | cadical-api/cadical-rel-3.0.0/contrib/craigtracer.cpp:538-552 | at the empty clause A implies I, B and I exclude each other, and I mentions only global variables |
| Craig.DualNegates | cadical-api/cadical-rel-3.0.0/contrib/craigtracer.cpp:620-745 | over the same labels and proof, the dual symmetric graph is the negation of the symmetric one at every clause |
| Craig.CraigTracer.CreateInterpolant | cadical-api/cadical-rel-3.0.0/contrib/craigtracer.cpp:804-851 | for one construction: every model of the clauses satisfies the interpolant, every assignment that satisfies it extends to a model, and the last clause is the unit that selects it |
| Combination.Combine | cadical-api/cadical-rel-3.0.0/contrib/craigtracer.cpp:853-967 | over any number of parts with variables of their own, the clauses of UNION, around the trigger, have as models exactly the extensions of what all parts accept, those of INTERSECTION of what some part accepts, and SMALLEST and LARGEST give a part with the fewest or most clauses |
| Combination.CreateCraigInterpolant | cadical-api/cadical-rel-3.0.0/contrib/craigtracer.cpp:748-972 | over the enabled constructions, the clauses accept what the mode makes of their interpolants (all, some, or the one with the fewest or most clauses), and the kind tells constants apart; whatever the mode, A implies that the clauses can be satisfied by choosing the new variables, and no assignment satisfies them together with B |
| Tseitin.CreateCnf | cadical-api/cadical-rel-3.0.0/contrib/craigtracer.cpp:198-278 | the clauses define the root: their models are exactly the extensions of the assignments with that value, and the constants are told apart |
| Aig.Graph.CreateAnd | cadical-api/cadical-rel-3.0.0/contrib/craigtracer.cpp:137-163 | simplification, cache and new node all give an edge with the meaning of the conjunction, and older edges keep theirs; at most one node is made, and no variable and no pair of edges ever has two |
| Aig.Graph.CreateAndAll | cadical-api/cadical-rel-3.0.0/contrib/craigtracer.cpp:165-186 | the balanced tree of a list means that all of its edges hold, and mentions no other variable |

## Left out

- Integer widths elsewhere: coefficients, slacks, counters and costs are unbounded integers; only the merged coefficients of
  applyCut (Cut.CutFitsExactly, Cut.CutWidth) and the overflow reduction of RoundingSat have their widths stated. The exits on a too large
  objective constant or right-hand side (src/Solver.cpp:81, 100, 224) are not modelled.
- Cut.CutWidth: does not bound the running cancellation sum, and asks for saturated parents; after removeUnits and for the
  objective constraint Cut.CutFitsExactly is the exact condition, and Cut.UnsaturatedOverflows shows the difference.
- Search.Solve: does not include import_external_constraints (src/Solver.cpp:201) and the periodic function; the time limit
  is a budget of decisions and solutions, after which no claim about optimality is made.
- Cleanup.MarkRemoved: which lemmas count as bad (LBD, activity, shuffle) is arbitrary, and so is when a cleanup happens.
- Loading.LoadConstraint: where the source divides by zero or reads past the end of an empty constraint the model stops.
- Lookahead.AssumeAndPropagate: asks for a propagated node, while the native cube generator makes its first assumption with
  level-0 literals still to be propagated (the answers it gives there are sound, but not complete).
- CubeGeneration.CubeSplitter.GenerateCubesRec: works on a backend object that is seen through its answers on paths; the native
  engine's own calls (UnitClosure.Assume, UnitClosure.Probe) are shown to answer like it, but the splitter object does not hold
  an engine.
- Protocol.VerdictsAreRight: safety only. Liveness is not stated, nor that the printed assignment attains the announced cost;
  when split_cube finds a solution itself the worker sends none while the master waits for one (src/cubePB.cpp:1803-1807).
- CuttingPlanes.Expr.GenericResolve: what the program does after a lost literal, with assertions compiled out, is not modelled;
  the optional weakening takes the variables from the last listed one and does not ask that they are sorted
  (CuttingPlanes.NonImplyingMissesNone says what the order is for).
- Craig.CraigTracer.ConcludeUnsat: interpolants for assumptions and for the constraint clause are not modelled.
- ObjRewrite.RewriteLazy: setUpperBound and improveAtMost (marked untested in the source) and all proof logging are left out.
- Watched.Watched.Process: one constraint against an arbitrary trail; the interplay of several constraints, the Clause,
  Cardinality, CountingSafe and WatchedSafe variants, and the loop that pops the trail for Counting are left out.
- getAssertionLevel of RoundingSat: it does not skip falsified literals and so gives a bound that need not be the earliest level.
- Sorting: std::sort and stable_sort are insertion sorts on sequences; vectors that are only appended to or replaced are
  sequences, while the compacted clause watch list is an array.
- Heuristics (activities, LBD, phases, restarts, which variable is decided) are arbitrary choices in the model.
- MPI, timers, printing, the command line, and the tokenising of LP, OPB and CNF files.
