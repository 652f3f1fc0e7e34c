# CanaTune in Dafny

CanaTune routes requests over pairs of GPUs, one that prefills (P) and one that decodes (D), and
retunes their clocks. This project models its hard core and proves what the code is for. Floats are
exact reals; durations, delays, lock outcomes and measurements are arbitrary values; dictionaries
are maps, lists and deques are sequences held in fields that the methods reassign.

**The pair pipeline** (`EventQueue`, `Pipeline`, `PipelineSteps`, `PipelineMoves`,
`PipelineDispatch`, `PipelineDecode`, `PipelineTokens`, `PipelinePromises`, `Simulator`). The event
simulator is a class with the same handlers, loops and early exits as the original. Every handler
keeps one invariant (`Pipeline.Inv`), which is proved step by step over values: what is enqueued at
a P is only ever cut differently by batches, sends, arrivals, joins and preemptions; only the end of
a request takes it out. `Simulator.Run` runs any number of pairs over any script of arrivals and
turns of the event loop, and the promises (`PipelinePromises.Promises`) hold after every command: no
overtaking, first tokens in P-enqueue order, nobody lost or held twice, receive buffers and KV
caches within their sizes in both admission modes, whole outputs whatever was preempted, exact
books, no lost wakeup. A request's P and D may be of different pairs; for one fixed pair this is the
plain queue order. The number of context tokens a D holds only has to be at least 1.

**The router** (`Ledger`, `WaitQueue`, `ClockProtocol`). Reservations are counters of heap objects
that early, late and repeated reports move; they equal the sums over the live tickets in every
reachable state, but for pending work that a clamp has cut (the ghost `clipped`), which only a
negative cost can bring about. The waiting queue issues tickets in the order of entry whatever times
out or is cancelled. Over whole runs of clock changes, admissions and ends in any interleaving
(`ClockProtocol.Serve`) the risk table gets exactly the outcomes of requests during which neither
group's clocks changed.

**Fits** (`LinearSolve`, `LeastSquares`, `Predictor`, `DecodeLength`). The elimination returns the
only solution of its equations; the normal equations are exactly "no slope" of the regularised
error; so a refit is the one best fit of all coefficients.

**Estimators** (`Wilson`, `SlackRisk`, `RiskTable`, `Knee`, with `Tallies`, `Sorting`, `Reals`). The
Wilson bound is tied to the quadratic it solves, and the tables built on counts agree with each
other: safe slack with slack estimates, heavier states with lighter ones, the knee with its floor.
The square root is a function parameter with `root(x) * root(x) == x`.

**Clocks and modes** (`Groups`, `ClockProtocol`, `ControlModes`). A clock change is a protocol of
begin, two lock outcomes and settle; any number of changes may be in flight, in any interleaving, with
partial failure. `ClockProtocol.TrustedExactly` says of which states every continuation leaves the
router at or below the hardware. The controller's tick is specified as a function of what it
remembers (`ControlModes.Ticked`), and what it remembers is tied to the whole history of ticks.

**Tables, solver, streams** (`PrefillTables`, `Solver`, `StreamTimer`). The envelope repair and the
cost read from it, the bisected capacity and the packing over it, and an incremental parser whose
outcome is a function of the bytes, not of the chunks.

`Sealing` holds a predicate that keeps large invariants closed until a lemma opens them, `Options` the
optional value.

Where the code does not keep what one might expect of it, the exact condition under which it does is
proved for all inputs, and one run or input shows that it can fail:

- The pending work of a group equals the sum over its tickets after a step exactly when it covers the
  cost of the request that leaves the prefill stage, and what the clamp cuts is never given back
  (`Ledger.ClampExactly`). Of non-negative measurements a cost is negative exactly beyond the longest
  measured prompt of a table whose last segment has fallen so far (`PrefillTables.NegativeExactly`). `Ledger.NegativeCostDrifts`
  is a run to the end with such a table: all requests are finished and 15 ms stay pending.
- While changes to other tiers are in flight, another change may begin exactly when no lock in flight
  goes below its target; for one change in flight, exactly when the second target is nowhere above the
  first (`ClockProtocol.OverlapExactly`, `SecondExactly`); for a retry of the same tier, exactly when
  the target is the same (`RetryExactly`). `ClockProtocol.OverlapUnsafe` is the run that fails otherwise.
- Two sparse states are estimated in order exactly when the lighter one's bound is at most the heavier
  one's bound or its lighter cells (`RiskTable.SparseExactly`); without a pool that wins, which a caller
  can read off the counts, all states are in order. `RiskTable.PooledBreaksOrder` reaches a table that
  is not, with two outcomes.
- Beyond the longest measured prompt a higher clock costs no more exactly when its last slope, over the
  tokens beyond, does not use up its lead, and at every length exactly when its last slope is not the
  steeper one (`PrefillTables.BeyondExactly`, `EverywhereExactly`, `HigherClockExactly`).
  `PrefillTables.BeyondTheTable` is an instance where it costs more.
- A rate that n capacities cover is feasible exactly when a group without load is
  (`Solver.EvaluationExactly`).

## Model

| member | source | states |
|---|---|---|
| PipelinePromises.OrderKept | scripts/analysis/overload_sim.py:510-664 | in every state between two events, whatever D holds followed by whatever its P has not delivered is in P-enqueue order, and requests of one P and one D got their first tokens in that order |
| PipelinePromises.NobodyTwice | scripts/analysis/overload_sim.py:510-664 | for every P and D, the line from the one to the other names no request twice |
| PipelinePromises.NobodyLost | scripts/analysis/overload_sim.py:510-664 | every enqueued request that is not finished is queued, in a batch, unsent, on the link, ready or running |
| PipelinePromises.BoundsKept | scripts/analysis/overload_sim.py:428-430 | a receive buffer equals the KV that was sent and not pulled and stays within 0 and its size; the context of the running sequences never exceeds D's tokens, in "reserve" and "vllm" admission |
| PipelinePromises.OutputsWhole | scripts/analysis/overload_sim.py:636-664 | a request is finished exactly when it emitted its whole output, however often it was preempted |
| PipelinePromises.NoLostWakeupAtP | scripts/analysis/overload_sim.py:514-560 | an idle P with a queue has an unsent head and exactly one pending retry |
| PipelinePromises.NoLostWakeupAtD | scripts/analysis/overload_sim.py:562-618 | a D without a pending step runs nothing, and waits only with a head too large for an empty D |
| PipelinePromises.PromisesKept | scripts/analysis/overload_sim.py:407-664 | the invariant of the handlers implies all of the promises together |
| EventQueue.PushAdds | scripts/analysis/overload_sim.py:397-398 | a pushed event is the last of its key when none of its key is later, and no other key's events change |
| EventQueue.PushSorted | scripts/analysis/overload_sim.py:397-398 | the heap stays in leaving order, equal times in push order |
| EventQueue.PushLast | scripts/analysis/overload_sim.py:397-398 | events of one link that are pushed with non-decreasing times leave first in, first out |
| EventQueue.PushAddsAnywhere | scripts/analysis/overload_sim.py:397-398 | an event of any time is inserted without reordering the others of its key |
| EventQueue.PopRemoves | scripts/analysis/overload_sim.py:412-413 | the popped event is the first of its key and takes only its own share of requests, counts and KV |
| PipelineSteps.BatchStartedQuiet | scripts/analysis/overload_sim.py:518-526 | starting a batch only cuts P's line differently |
| PipelineSteps.BatchStartedKeeps | scripts/analysis/overload_sim.py:514-526 | starting a batch keeps the invariant and leaves the P without undone work |
| PipelineSteps.HeadSentQuiet | scripts/analysis/overload_sim.py:543-551 | a send only cuts P's line differently |
| PipelineSteps.HeadSentKeeps | scripts/analysis/overload_sim.py:543-551 | a send that fits the buffer keeps the invariant, the buffer's balance included |
| PipelineSteps.RetryPlannedKeeps | scripts/analysis/overload_sim.py:552-556 | a blocked P that plans a retry has no undone work |
| PipelineSteps.RetryFiredKeeps | scripts/analysis/overload_sim.py:538-542 | a retry that comes keeps everything but that P's wakeup, which the send restores |
| PipelineSteps.BatchDoneQuiet | scripts/analysis/overload_sim.py:528-530 | a returned batch only cuts P's line differently |
| PipelineSteps.BatchDoneKeeps | scripts/analysis/overload_sim.py:528-536 | a returned batch keeps the invariant; its prompts move from "at P" to "in flight" |
| PipelineMoves.EnqueuedViews | scripts/analysis/overload_sim.py:510-511 | an enqueue puts the request at the end of P's line and nowhere else |
| PipelineMoves.EnqueuedKeeps | scripts/analysis/overload_sim.py:510-512 | an enqueue keeps the invariant, the request being the newest of its P |
| PipelineMoves.ArrivedViews | scripts/analysis/overload_sim.py:562-564 | an arrival moves the head of P's line to the end of D's |
| PipelineMoves.ArrivedKeeps | scripts/analysis/overload_sim.py:562-567 | an arrival keeps the invariant and opens a D that did not loop |
| PipelineDispatch.DispatchedKeeps | scripts/analysis/overload_sim.py:498-506 | a dispatched request joins the books of its P and is on its way, whatever its delay |
| PipelineDecode.JoinedViews | scripts/analysis/overload_sim.py:584-592 | joining only moves the border between running and ready |
| PipelineDecode.JoinedKeeps | scripts/analysis/overload_sim.py:569-592 | joining what fits keeps the invariant, the freed buffer space included |
| PipelineDecode.PreemptedViews | scripts/analysis/overload_sim.py:594-602 | preempting the latest only moves that border back |
| PipelineDecode.PreemptedKeeps | scripts/analysis/overload_sim.py:594-602 | a preemption keeps the invariant; the preempted request stays ahead of all that never ran |
| PipelineDecode.StepStartedKeeps | scripts/analysis/overload_sim.py:618-634 | a started step closes the D: it fits the tokens and all without a first token joined in it |
| PipelineDecode.StepEndedKeeps | scripts/analysis/overload_sim.py:634-636 | the end of a step opens the D again |
| PipelineDecode.StoppedKeeps | scripts/analysis/overload_sim.py:611-613 | an empty D may stop when its head does not fit an empty D |
| PipelineTokens.TokenViews | scripts/analysis/overload_sim.py:636-664 | a token leaves the lines alone unless it is the last one, which takes the request out of D's line |
| PipelineTokens.TokenKeeps | scripts/analysis/overload_sim.py:636-664 | a token to the first sequence that lacks one in this step keeps the invariant, the order of first tokens included |
| PipelineTokens.OlderStarted | scripts/analysis/overload_sim.py:637-642 | when a request gets its first token, every older one of its P and D has had its own |
| Simulator.Sim.constructor | scripts/analysis/overload_sim.py:303-325 | idle pairs satisfy the invariant |
| Simulator.Sim.Dispatch | scripts/analysis/overload_sim.py:498-506 | the new request is on P's books and in the heap, and nothing else changed |
| Simulator.Sim.BatchSize | scripts/analysis/overload_sim.py:517-522 | the batch is the longest prefix of the queue within the token limit, but at least one request |
| Simulator.Sim.PStart | scripts/analysis/overload_sim.py:514-526 | nothing happens when P is busy, blocked or has no queue; else exactly that batch is started |
| Simulator.Sim.SendHead | scripts/analysis/overload_sim.py:547-551 | the head leaves into its D's buffer; links finish in order |
| Simulator.Sim.PlanRetry | scripts/analysis/overload_sim.py:552-556 | exactly one retry is pending afterwards |
| Simulator.Sim.Send | scripts/analysis/overload_sim.py:538-558 | all that fits is sent: what is left has a head that does not fit and a pending retry |
| Simulator.Sim.Pull | scripts/analysis/overload_sim.py:573-591 | exactly the waiting sequences that fit in order are pulled, and the space freed is that of their unpulled KV |
| Simulator.Sim.Join | scripts/analysis/overload_sim.py:569-592 | the longest prefix of the ready line that fits beside the running ones joins them |
| Simulator.Sim.Preempt | scripts/analysis/overload_sim.py:594-602 | the shortest tail of the running ones whose removal makes the step fit goes back, in order, to the front of the ready line |
| Simulator.Sim.WakeSenders | scripts/analysis/overload_sim.py:614-617 | afterwards every P whose head goes to this D is really blocked |
| Simulator.Sim.Recut | scripts/analysis/overload_sim.py:569-602 | who runs after an iteration is what the two rules allow, no more and no less |
| Simulator.Sim.DIter | scripts/analysis/overload_sim.py:569-634 | an iteration recuts D's line, then steps or stops, and leaves no work undone anywhere |
| Simulator.Sim.EmitOne | scripts/analysis/overload_sim.py:637-652 | one sequence gets its token, with the books of P and D, and nothing known of a request is taken back |
| Simulator.Sim.EmitAll | scripts/analysis/overload_sim.py:636-663 | every running sequence gets exactly one token; those with more to come stay, in order |
| Simulator.Sim.OnPEnqueue | scripts/analysis/overload_sim.py:510-512 | the handler keeps the invariant and numbers the request |
| Simulator.Sim.OnPDone | scripts/analysis/overload_sim.py:528-536 | the handler keeps the invariant; afterwards the P is blocked with a retry pending or has nothing unsent |
| Simulator.Sim.OnSendRetry | scripts/analysis/overload_sim.py:538-560 | the handler keeps the invariant; afterwards the P is blocked with a retry pending or has nothing unsent |
| Simulator.Sim.OnKvArrived | scripts/analysis/overload_sim.py:562-567 | a looping D only gets the request in its ready line; another one iterates at once |
| Simulator.Sim.OnDEnd | scripts/analysis/overload_sim.py:636-664 | D after a step: every running sequence one token further, the complete ones gone, and its line recut |
| Simulator.Sim.Next | scripts/analysis/overload_sim.py:412-417 | a turn of the loop keeps the invariant and takes nothing back |
| Simulator.Run | scripts/analysis/overload_sim.py:400-417 | for any number of pairs and any script all promises hold after every command |
| LinearSolve.PivotRow | src/canatune/domain/admission.py:99 | the first row of largest size in the column |
| LinearSolve.Clear | src/canatune/domain/admission.py:103-106 | the in-place loop clears the column in every other row |
| LinearSolve.ClearSame | src/canatune/domain/admission.py:103-106 | clearing a column keeps the solution set |
| LinearSolve.SwapSame | src/canatune/domain/admission.py:102 | swapping rows keeps the solution set |
| LinearSolve.ClearEliminates | src/canatune/domain/admission.py:103-106 | earlier columns stay eliminated with nonzero diagonals, and one more is |
| LinearSolve.ReadOffUnique | src/canatune/domain/admission.py:107 | the eliminated system has exactly the solution that is read off |
| LinearSolve.Solve | src/canatune/domain/admission.py:95-107 | a returned vector is the one and only solution of the original equations; None means an equivalent system has no usable pivot |
| LeastSquares.NormalMeans | src/canatune/domain/admission.py:182-196 | the matrix and vector handed to the solver say exactly that the regularised error has no slope |
| LeastSquares.MixedAlong | src/canatune/domain/admission.py:187-191 | accumulating by sample and by coefficient gives the same |
| LeastSquares.ObjectiveAround | src/canatune/domain/admission.py:182-198 | around such a point the error is its value there plus two squares |
| LeastSquares.SolutionIsBest | src/canatune/domain/admission.py:182-198 | the only solution of the normal equations is strictly better than all other coefficients |
| Predictor.WeightsPositive | src/canatune/domain/admission.py:192-194 | with a positive ridge every coefficient is really pulled towards the prior |
| Predictor.Gather | src/canatune/domain/admission.py:185-191 | the loops accumulate exactly the products of the samples |
| Predictor.AddRidge | src/canatune/domain/admission.py:192-195 | the ridge loop yields the regularised normal equations |
| Predictor.RefitIsBest | src/canatune/domain/admission.py:182-198 | a refit is the unique minimiser of the squared error plus the ridge towards the prior |
| Predictor.TtftPredictor.constructor | src/canatune/domain/admission.py:117-136 | the coefficients start at the prior, at 0 without one |
| Predictor.TtftPredictor.Refit | src/canatune/domain/admission.py:182-198 | the coefficients are refitted, or unchanged when the equations are stuck; an index error, changing nothing, when the prior is too short |
| Predictor.TtftPredictor.Record | src/canatune/domain/admission.py:174-180 | the window keeps the latest clipped samples; a refit every so many, once there is a prior |
| Predictor.TtftPredictor.SetPrior | src/canatune/domain/admission.py:148-156 | a prior of any length is stored unchecked; the coefficients restart from it and refit at once when enough samples are kept, which is an index error when it is too short |
| Predictor.TtftPredictor.Fit | src/canatune/domain/admission.py:158-172 | the best fit of other samples, clipped, with its own ridge, refused for a prior of the wrong length; this predictor does not change |
| Predictor.NewPredictor | src/canatune/domain/admission.py:126-130 | a prior of the wrong length is refused |
| DecodeLength.AcceptedIsBest | src/canatune/domain/models.py:99-106 | the accepted coefficients beat every other model over the same columns |
| DecodeLength.TryColumns | src/canatune/domain/models.py:100-106 | a column set is accepted exactly with its only fit and no negative slope |
| DecodeLength.OrderedAscending | src/canatune/domain/models.py:109 | the residuals are sorted |
| DecodeLength.AtMostOrdered | src/canatune/domain/models.py:109 | sorting keeps how many residuals are at most a value |
| DecodeLength.R95Covers | src/canatune/domain/models.py:109-111 | at least int(0.95 (n - 1) + 0.5) + 1 of the n points are within the model's bound |
| DecodeLength.FitDecodeLength | src/canatune/domain/models.py:89-112 | the model is the best fit of the first column set that is not refused, with non-negative slopes and that coverage; None only for too few points or when all sets are refused |
| Ledger.Router.constructor | src/canatune/controller/router.py:900-912 | an empty ledger over groups that count nothing is in balance |
| Ledger.Router.Issue | src/canatune/controller/router.py:841-913 | P of one group and D of the same or another are reserved; all counters move by exactly this request's share |
| Ledger.Router.LeaveStage | src/canatune/controller/router.py:1052-1060 | the share of the stage is taken off, clamped at 0 |
| Ledger.Router.PrefillDone | src/canatune/controller/router.py:1062-1068 | P's report moves the request from prefill to transfer, in the books of every group; late or repeated ones change nothing; the ledger stays in balance, and pending work is cut exactly when it is below the request's cost |
| Ledger.Router.FirstToken | src/canatune/controller/router.py:1070-1079 | the first token starts decoding from whatever stage; repeats and tokens after the end change nothing; balance and cuts as above |
| Ledger.Router.Finish | src/canatune/controller/router.py:1245-1266 | the end releases everything from whatever stage, once; balance and cuts as above |
| Ledger.Router.AllReleased | src/canatune/controller/router.py:1245-1266 | when every ticket is finished, a group counts 0 everywhere exactly when its pending work was never cut, and 0 everywhere else in any case; nothing is cut without a negative cost; no ticket is live |
| Ledger.AfterStepAgrees | src/canatune/controller/router.py:1052-1079 | after P's report, a first token or an end the counters are again the sums over the tickets, with one more cut exactly when the clamp cuts |
| Ledger.BooksStepped | src/canatune/controller/router.py:1052-1079 | a step keeps the books of all groups in balance |
| Ledger.ClampExactly | src/canatune/controller/router.py:1054-1056 | a step leaves the pending work as far from its sum as it was exactly when it covers the cost that leaves; else the difference grows by what is missing, and no step makes it smaller |
| Ledger.SumUpdate | src/canatune/controller/router.py:900-908 | changing one ticket moves the sums of every group by exactly its share |
| Ledger.Covers | src/canatune/controller/router.py:1056-1058 | a ticket's share never exceeds the sum, so the clamps never cut with non-negative costs |
| Ledger.NothingLeft | src/canatune/controller/router.py:1245-1266 | finished tickets reserve nothing |
| Ledger.NegativeCostDrifts | src/canatune/controller/router.py:1052-1068 | a run of two requests whose costs a falling table gives: both are finished and 15 ms stay pending |
| WaitQueue.Router.NewWaiter | src/canatune/controller/router.py:922-925 | waiters are never reused |
| WaitQueue.Router.Enter | src/canatune/controller/router.py:955-957 | a waiter enters the queue once and keeps the time of its first attempt |
| WaitQueue.Router.Attempt | src/canatune/controller/router.py:970-977 | only the head takes a ticket |
| WaitQueue.Router.Serve | src/canatune/controller/router.py:975-976 | the served waiter leaves the queue and all records |
| WaitQueue.Router.Advance | src/canatune/controller/router.py:955-977 | an attempt within the budget: entry, one pressure signal per waiter, head only |
| WaitQueue.Router.Step | src/canatune/controller/router.py:945-977 | one attempt of best effort: rejected after the budget, served at the head with room, else waiting; queue, waiting times and signals stay consistent |
| WaitQueue.Router.GiveUp | src/canatune/controller/router.py:1044-1045 | a waiter whose admission ended is in none of the records |
| WaitQueue.Router.Release | src/canatune/controller/router.py:1014-1026 | the release removes one waiter and keeps the order of the others |
| WaitQueue.FirstComeFirstServed | src/canatune/controller/router.py:945-977 | who got a ticket entered before everybody who got one later or still waits, over all runs |
| WaitQueue.KeepOrder | src/canatune/controller/router.py:969-977 | taking waiters out keeps the order of entry |
| WaitQueue.KeepGone | src/canatune/controller/router.py:1018-1021 | one more that gave up leaves exactly its own place |
| WaitQueue.QueueDistinct | src/canatune/controller/router.py:955-956 | nobody is in the queue twice, nor after a ticket or giving up |
| Wilson.UcbRange | src/canatune/domain/admission.py:205-212 | the rate is at most its bound, and the bound at most 1 |
| Wilson.UcbMonotone | src/canatune/domain/admission.py:205-212 | more violations among as many requests never lower the bound |
| Wilson.MonotoneInRate | src/canatune/domain/admission.py:205-212 | a higher rate over as many samples has a bound at least as high |
| Wilson.UcbEquation | src/canatune/domain/admission.py:205-212 | the bound u solves (u - p)^2 = z^2/n u (1 - u) |
| Wilson.CopiesAgree | src/canatune/controller/locator.py:228-236 | the locator's copy with its cut at 1 computes the same bound |
| SlackRisk.BucketMeans | src/canatune/domain/admission.py:271-272 | a slack is at or above an edge exactly when its bucket is above that edge's |
| SlackRisk.SlackTable.SetSeed | src/canatune/domain/admission.py:244-248 | a new seed, whatever buckets it names, replaces the one before |
| SlackRisk.SlackTable.Record | src/canatune/domain/admission.py:274-278 | one request more in the slack's bucket, nothing else |
| SlackRisk.SlackTable.SafeSlack | src/canatune/domain/admission.py:255-269 | the edge below the bucket from which every observed bucket is within the target while the next observed one below is not; no slack when there is none or it is bucket 0; a bucket outside the edges reads the list from its end or is an index error |
| SlackRisk.SlackTable.EstimateSlack | src/canatune/domain/admission.py:280-291 | own bound, else that of the highest observed bucket with less slack, else 1 |
| SlackRisk.SafeFromThere | src/canatune/domain/admission.py:255-291 | at or above the safe slack no estimate exceeds the target, observed or sparse |
| SlackRisk.UnsafeBelow | src/canatune/domain/admission.py:255-291 | from the next observed bucket below up to the safe slack every estimate exceeds it |
| RiskTable.RiskTable.Record | src/canatune/domain/risk.py:241-245 | one outcome more in its cell, nothing else |
| RiskTable.RiskTable.Lookup | src/canatune/domain/risk.py:220-226 | a visit is counted and the estimate of the request's cell returned |
| RiskTable.RiskTable.EstimateCell | src/canatune/domain/risk.py:167-218 | own rate, else the lowest of the heavier single and pooled ones, never below any lighter cell |
| RiskTable.LowerBound | src/canatune/domain/risk.py:177-185 | the nested loops find the largest rate of the well-sampled lighter cells |
| RiskTable.UpperBound | src/canatune/domain/risk.py:188-196 | the nested loops find the smallest rate of the well-sampled heavier cells |
| RiskTable.PoolRegion | src/canatune/domain/risk.py:204-211 | the loops pool a row or a column of heavier cells |
| RiskTable.EstimateRange | src/canatune/domain/risk.py:167-218 | every estimate is between 0 and 1 |
| RiskTable.EstimateMonotone | src/canatune/domain/risk.py:167-218 | a heavier state is never estimated less risky when either is well sampled or no pool of the heavier one's row or column wins |
| RiskTable.PooledExactly | src/canatune/domain/risk.py:198-215 | a sparse state takes a pooled bound exactly when one of its pools has enough requests and a rate below those of all well-sampled heavier cells |
| RiskTable.SparseExactly | src/canatune/domain/risk.py:167-218 | two sparse states are estimated in order exactly when the lighter one's bound is at most the heavier one's bound or the largest rate below the heavier one |
| RiskTable.OneEstimate | src/canatune/domain/risk.py:167-218 | the estimate is determined by the counts |
| RiskTable.PooledBreaksOrder | src/canatune/domain/risk.py:198-215 | two recorded outcomes after which the pooled bound orders two sparse states the wrong way |
| RiskTable.IndexMonotone | src/canatune/domain/risk.py:58-60 | a larger value has no lower bucket |
| RiskTable.HeavierRequest | src/canatune/domain/risk.py:147-153 | more waiting, a longer prompt or a busy D gives a cell at least as heavy, within the table's shape |
| Knee.KneeCounts.Record | src/canatune/domain/calibration.py:134-137 | one request more in its bin, nothing else |
| Knee.KneeCounts.Counts | src/canatune/domain/calibration.py:139-145 | seed and live counts are added by bin |
| Knee.Block | src/canatune/domain/calibration.py:167-176 | the shortest block from a bin with enough samples, or the rest is too sparse |
| Knee.Search | src/canatune/domain/calibration.py:163-185 | the first bin above the floor in the first passing block, or no block passes before the rest is too sparse |
| Knee.KneeCounts.FindKnee | src/canatune/domain/calibration.py:150-185 | that bin's label, over the sorted merged counts |
| Knee.PassingIsHot | src/canatune/domain/calibration.py:177-179 | a block whose lower bound passes the floor has itself a rate above it |
| Knee.BlockHasHot | src/canatune/domain/calibration.py:182 | a passing block has a bin above the floor, so the fallback is never taken |
| Knee.KneeMeans | src/canatune/domain/calibration.py:150-185 | a knee is an observed bin above the lowest whose own rate exceeds theta and that of all bins below its block |
| Groups.SlowerIsMeet | src/canatune/domain/groups.py:67-69 | the slower point is the highest one below both |
| ClockProtocol.ClockGroup.Begin | src/canatune/controller/tier_controller.py:216-225 | a change takes a new epoch and shows the router the slower point, or none |
| ClockProtocol.ClockGroup.Locked | src/canatune/controller/tier_controller.py:226-231 | a lock that holds moves its side to the target, one that fails may have; a state that can be trusted stays so |
| ClockProtocol.ClockGroup.Settle | src/canatune/controller/tier_controller.py:232-246 | the target only when both locks hold, else the slower point and a backed-off retry; an overtaken change sets neither; another new epoch; a state that can be trusted stays so |
| ClockProtocol.LockKeeps | src/canatune/controller/tier_controller.py:225-231 | a lock that ends, well or not, keeps a state that can be trusted, whatever else is in flight |
| ClockProtocol.SettleKeeps | src/canatune/controller/tier_controller.py:232-246 | so does a settlement, after any mix of success and failure |
| ClockProtocol.TrustedStays | src/canatune/controller/tier_controller.py:216-246 | a state that can be trusted stays so over every order of what is in flight |
| ClockProtocol.TrustedExactly | src/canatune/controller/tier_controller.py:216-246 | every order of the locks, outcomes and settlements in flight leaves the router at or below the hardware exactly when the point it sees is firm and so is every point that a change of the current tier can settle with |
| ClockProtocol.OverlapExactly | src/canatune/controller/tier_controller.py:216-225 | while changes to other tiers are in flight, another one to a tier but park may begin safely exactly when no lock in flight goes below its target |
| ClockProtocol.SecondExactly | src/canatune/controller/tier_controller.py:216-225 | with one change in flight, exactly when the second target is nowhere above the first |
| ClockProtocol.RetryExactly | src/canatune/controller/tier_controller.py:216-239 | a second change to the same tier begins safely exactly when its target is the same |
| ClockProtocol.ParkBegins | src/canatune/controller/tier_controller.py:225 | parking begins safely in any state |
| ClockProtocol.LoneBegin | src/canatune/controller/tier_controller.py:216-225 | a lone change begins safely exactly when the point it shows is safe, as it is when the point before was |
| ClockProtocol.LoneChange | src/canatune/controller/tier_controller.py:216-246 | whatever happened before, a lone change whose locks both hold leaves the router at the hardware |
| ClockProtocol.OverlapUnsafe | src/canatune/controller/tier_controller.py:216-246 | two overlapping changes whose locks land in the wrong order end safe exactly when the second target is nowhere above the first |
| ClockProtocol.BackoffDoubles | src/canatune/controller/tier_controller.py:236-239 | the retry delay starts at the period and grows up to the limit |
| ClockProtocol.Admit | src/canatune/controller/router.py:590-594 | a ticket keeps the epochs of both groups and a cell at P's P clock and D's D clock |
| ClockProtocol.EpochsTell | src/canatune/controller/router.py:1293-1295 | equal epochs mean that no change began or settled in between |
| ClockProtocol.Finish | src/canatune/controller/router.py:1254-1297 | the risk table gets a sample exactly at the first end of a request that was served, with its TTFT and prompt known, while both groups kept the clocks of its cell from admission to now, even with overlapping changes |
| ClockProtocol.CleanRuns | src/canatune/controller/router.py:1280-1297 | over every run of changes, admissions and ends the table is filled with exactly the clean outcomes, at most one for each ticket and one for each finished ticket, and each clean one ended at the clocks of its cell |
| ClockProtocol.Serve | src/canatune/controller/router.py:1254-1297 | groups, tickets and table go through any script as the run does |
| ControlModes.NoEvidence | src/canatune/controller/tier_controller.py:410-511 | without pressure and exhaustion there is nothing to enter full effort on, whatever the predictions |
| ControlModes.RememberMore | src/canatune/controller/tier_controller.py:426-451 | what the fields say of the past stays true of the history |
| ControlModes.Controller.Observe | src/canatune/controller/tier_controller.py:412-451 | predictions only warn, pressure confirms; "confirmed" and "emergency" hold exactly for lasting or majority pressure and lasting severity |
| ControlModes.Controller.Slide | src/canatune/controller/tier_controller.py:434-436 | the ticks kept are exactly those of the confirmation window |
| ControlModes.Controller.FeedbackControl | src/canatune/controller/tier_controller.py:410-511 | the whole memory after a tick; full effort and expansion only on evidence in the history; leaving full effort only after every tick of its minimum time was in full effort, with no pressure or exhaustion in the last t_down_s and the load gone; mode, flags and router always agree |
| ControlModes.Controller.Respond | src/canatune/controller/tier_controller.py:479-511 | capacity or a redirect first, full effort only when that was not enough after the grace |
| ControlModes.Controller.Act | src/canatune/controller/tier_controller.py:452-511 | in full effort stay or leave; else full effort at once in an emergency or without capacity, or what the pressure asks for |
| ControlModes.Controller.Redirect | src/canatune/controller/tier_controller.py:512-537 | the groups that show the pressure are cooled for a window, never for less than before; the pressure is answered exactly when some group shows it and a routable one is not cooled |
| ControlModes.Controller.CoolAll | src/canatune/controller/router.py:1107-1113 | exactly the pressured groups are cooled, each to the later of both times |
| ControlModes.Controller.EnterFullEffort | src/canatune/controller/tier_controller.py:570-584 | all three full-effort marks are set together; time and rate only on entry |
| ControlModes.Controller.MayLeave | src/canatune/controller/tier_controller.py:452-464 | exactly the six conditions to leave, and then the last t_down_s were quiet |
| ControlModes.Controller.LeaveFullEffort | src/canatune/controller/tier_controller.py:465-472 | all full-effort marks are cleared together |
| ControlModes.Controller.Recover | src/canatune/controller/tier_controller.py:506-510 | back to energy exactly after t_down_s of quiet, warnings counted only in the first modes |
| ControlModes.Controller.Plan | src/canatune/controller/tier_controller.py:673-682 | the model alone only raises a warning |
| ControlModes.Controller.Step | src/canatune/controller/tier_controller.py:361-372 | a tick of best effort: feedback, then the planner; a history without pressure and exhaustion never leaves energy and warning |
| PrefillTables.Conflicts | src/canatune/controller/locator.py:593-605 | exactly the clocks involved in a contradiction |
| PrefillTables.Lower | src/canatune/controller/locator.py:625-627 | a table takes over what is smaller in a lower one, on shared lengths |
| PrefillTables.RepairOne | src/canatune/controller/locator.py:624-627 | one clock takes the least of itself and all clocks below |
| PrefillTables.Envelope | src/canatune/controller/locator.py:621-627 | in place, every table becomes the least over its clock and all below |
| PrefillTables.EnvelopeConsistent | src/canatune/controller/locator.py:607-611 | afterwards a higher clock is never slower at a shared length |
| PrefillTables.EnvelopeResolves | src/canatune/controller/locator.py:607-628 | afterwards no clock is in conflict, for every eps >= 0 |
| PrefillTables.CostUnder | src/canatune/domain/admission.py:65-75 | a table nowhere above another gives costs nowhere above, up to the longest length |
| PrefillTables.CostBeyond | src/canatune/domain/admission.py:74-75 | beyond the longest length the cost is the straight line of the last segment |
| PrefillTables.BeyondExactly | src/canatune/domain/admission.py:74-75 | beyond it, of two tables on one grid, the one nowhere above the other costs no more exactly when its steeper last slope has not used up its lead |
| PrefillTables.EverywhereExactly | src/canatune/domain/admission.py:65-75 | at every length it costs no more exactly when its last slope is not the steeper one |
| PrefillTables.BeyondTheTable | src/canatune/domain/admission.py:74-75 | two tables on one grid whose order is reversed at the first length beyond |
| PrefillTables.NegativeExactly | src/canatune/domain/admission.py:65-75 | of non-negative measurements a cost below 0 comes exactly from a last segment that has fallen so far beyond the longest length |
| PrefillTables.NeverNegativeExactly | src/canatune/domain/admission.py:65-75 | no length costs less than 0 exactly when the last segment does not fall |
| PrefillTables.ForClock | src/canatune/domain/admission.py:83-92 | among the tables of at least two points, the nearest at or below the clock, else the lowest; the highest for an unknown clock; the cost 0 without any |
| PrefillTables.ServesMonotone | src/canatune/domain/admission.py:86-92 | a higher clock is served by a table at least as high |
| PrefillTables.HigherClockNoDearer | src/canatune/domain/admission.py:57-92 | after the repair, on one length grid, a higher P clock never costs more up to its longest length |
| PrefillTables.HigherClockExactly | src/canatune/domain/admission.py:57-92 | beyond it, and at every length, exactly when the last slope of its table is not too steep |
| Solver.FeasibleDownward | src/canatune/domain/models.py:330-388 | without the predictor, what a group carries at a rate it carries at every lower one |
| Solver.Bisect | src/canatune/domain/models.py:321-326 | a feasible rate with an infeasible one (or the cap of the doubling) 24 halvings above |
| Solver.Search | src/canatune/domain/models.py:315-326 | a feasible rate, 0 when not even 0 is feasible |
| Solver.ClusterSolver.Capacity | src/canatune/domain/models.py:311-328 | what is remembered for the representatives of the mix is what a search finds, and is found only once |
| Solver.Pack | src/canatune/domain/models.py:295-300 | the rates are non-negative, sum to the offered one, and a group is only opened when those before it are full |
| Solver.PackedWithin | src/canatune/domain/models.py:297-300 | when n capacities cover the rate no group gets more than one |
| Solver.PackingFeasible | src/canatune/domain/models.py:284-328 | every packed rate is feasible up to n capacities when a group without load is |
| Solver.MixKeeps | src/canatune/domain/models.py:273-282 | a long mix is represented by 16 of its own requests, the longest among them; a short one by all |
| Solver.ClusterSolver.Evaluate | src/canatune/domain/models.py:284-309 | refused for bad arguments; the rate packed with the remembered capacity, feasible exactly when every group carries its rate; the power is that of the active groups plus the parked ones |
| Solver.EvaluationExactly | src/canatune/domain/models.py:284-328 | a rate that n capacities cover is feasible exactly when a group without load is |
| Solver.Best | src/canatune/domain/models.py:420-422 | the first cheapest feasible evaluation, smaller ones first |
| StreamTimer.SplitLinesTokens | src/canatune/proxy/proxy.py:261 | splitting into lines finds exactly the stretches between line breaks |
| StreamTimer.CutAfter | src/canatune/proxy/proxy.py:253-260 | after a complete event the scan starts anew |
| StreamTimer.FirstLong | src/canatune/proxy/proxy.py:254-257 | cutting at CR LF CR LF past an earlier LF LF loses nothing |
| StreamTimer.FirstShort | src/canatune/proxy/proxy.py:254-257 | without it the first LF LF ends an event |
| StreamTimer.CutHere | src/canatune/proxy/proxy.py:253-261 | what is cut off next is a whole event of the stream, and its lines are the next ones |
| StreamTimer.StreamTimer.Handle | src/canatune/proxy/proxy.py:261-278 | the lines of an event count as tokens and errors in order |
| StreamTimer.StreamTimer.Feed | src/canatune/proxy/proxy.py:250-279 | buffer, token count and error are those of all bytes so far |
| StreamTimer.Stream | src/canatune/proxy/proxy.py:238-279 | for every chunking, the tokens, the error and the leftover are the same function of the bytes |

## Left out

- Simulator.Sim.DIter: step lengths, prefill times and link times are arbitrary non-negative durations, so clocks, jitter, stalls and the `recompute` flag (which only lengthens a step) do not appear.
- Simulator.Sim.EmitAll: the statistics of a step (busy seconds, integrals, maxima, preemption and retry counts, decode sums) are not kept.
- Simulator.Run: the router's calls inside the handlers, the tick, scrape and sample events and the closed-loop callback are not part of the runs; a script says which request goes to which P and D and when.
- Simulator.Sim.SendHead: a request and a pair are records in the simulator's sequences, so aliasing between the lists that name a request is by its number; the event heap is the list of its entries in leaving order.
- Predictor.TtftPredictor.Refit: exact reals have no infinities or rounding, so the finiteness test of the solution has no counterpart; locks are left out.
- DecodeLength.OrderedAscending: the library's sort is a function.
- Ledger.Router.Issue: the snapshot, features, counters of overflows and the load window of a ticket are left out; a ticket's cost is an argument.
- Ledger.Router.Finish: production feedback, knees, length statistics and the log are left out; the risk-table part is `ClockProtocol.Finish`.
- Ledger.Router.PrefillDone: the pending work equals its sum only where the clamp has not cut; `Ledger.ClampExactly` says when it does, and the other six counters always do.
- WaitQueue.Router.Step: only best effort; the holding and rescue rules of the "serve" and "reject" modes are left out, and whether a candidate is feasible and whether the head gets a ticket are inputs.
- WaitQueue.Router.GiveUp: real time and task scheduling are left out; a cancellation may come between any two attempts.
- SlackRisk.SlackTable.constructor: the minimum sample count is at least 1; persistence is left out.
- Knee.KneeCounts.FindKnee: the functions that turn a signal into a bin and the fits around the knee are left out.
- RiskTable.EstimateMonotone: two sparse states whose heavier one has a winning pool are excluded; `RiskTable.SparseExactly` says when they are in order.
- RiskTable.RiskTable.Lookup: the exploration queue, the usable-clock test and the file format are left out.
- ClockProtocol.ClockGroup.Settle: that the router is at or below the hardware holds only from states that can be trusted, as `ClockProtocol.TrustedExactly` says; which point a tier stands for, and when a retry is due, are arguments.
- ClockProtocol.Finish: effective points change by clock changes alone; the canary's own reset of a group's point (src/canatune/controller/canary.py:218), which waits until that group has no request in flight, is not part of this model.
- ControlModes.Controller.FeedbackControl: how production latency is judged, the offered rate and the state of the groups are inputs, with severe pressure implying pressure.
- ControlModes.Controller.Respond: which groups an expansion wakes and the lock changes themselves are left out; their duration is the later time of the tick.
- ControlModes.Controller.Plan: the reconfiguration by the planner outside best effort and the boost of single groups are left out.
- PrefillTables.Conflicts: measuring the clocks in conflict once more is left out; the tables after it are the input of the repair.
- PrefillTables.HigherClockNoDearer: ends at the longest length; `PrefillTables.HigherClockExactly` says what holds beyond it.
- Solver.FeasibleDownward: the branch with the predictor and slack counts is left out, where feasibility need not be monotone; interpolation and table lookups are functions.
- Solver.ClusterSolver.Evaluate: the name of the binding constraint and its uses are left out; a KV limit with a mean context of 0, which the original cannot divide by, counts as no limit.
- Solver.Best: the fallback to the most headroom when nothing is feasible, which rounds, is left out.
- StreamTimer.StreamTimer.Feed: decoding a line's JSON and telling a token chunk are a function of the line; the times of the tokens are arbitrary.
- The HTTP proxy, tokenizers, GPU agents, telemetry, process supervision, configuration, plots and files: input and output.
- The locator's searches and the canary's orchestration of experiments: they only choose what is measured.
- The legacy frequency table, the memory plan and load quantiles: simple next to the rest.
