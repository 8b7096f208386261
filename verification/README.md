# Vending decision core: a Dafny model

The repository is the decision core of an unattended vending machine. Load-cell changes and vision
votes become billed products, and one door session is finalised into one settlement. This project
models that core and proves what it relies on.

| file | what it models |
|---|---|
| `Types`, `Sorting` | shared values; Python's stable sort |
| `Protocol`, `ProtocolRuns`, `ProtocolTheorems`, `ProtocolPolls`, `Service` | triggers, barrier, gateway and service as atomic steps; every run; what a poll does; the objects that perform the steps |
| `Windows`, `UnionFind`, `Ghosts` | contamination windows, union-find over episodes, the session ghost ledger |
| `CrossZone`, `CrossZoneDecides` | penalty sources, mutual exemptions, the weight guard |
| `Repass`, `RepassDecides` | both second passes at close and exactly what they replace |
| `Strict`, `Combos` | the two backtracking searches, as specification and as code |
| `Freezer`, `FreezerTheorems`, `FreezerSolver`, `FreezerDecides`, `NearestCount` | the staged freezer strategy, exactly which answer it gives, and rounding to a count |
| `Strategies`, `StrategyTheorems` | all other strategies, and exactly which answer each gives |
| `Router`, `RouterTheorems`, `RouterDecides` | the pipeline and its router, and which strategy answers |
| `Ledger`, `LedgerRules`, `Settler` | settlement layers 1 to 3: on values, as rules, and in place |
| `VisionCombo`, `ComboDecides`, `FreezerResolve` | layer 4 |
| `Close`, `CloseDecides` | the whole settlement of a session, from its events to its report |
| `Prefetch` | the bounded-buffer frame prefetcher |
| `Levels`, `Loadcell`, `Plateaus`, `LoadcellDecides` | change-point and plateau analysis of the load cells |
| `Tracking`, `TrackingDecides`, `Voting`, `VotingDecides` | motion tracks and tubes; the voting ensemble |
| `MultiTray`, `MultiTrayDecides` | simultaneous tray events: retries and merge |

Where the code changes things step by step the model is a class or a loop, proved to compute a
function; what the code promises is then proved about that function, and the modules named `...Decides`
say of each function, in terms of its inputs alone, which result it gives and when. Where the code is an expression,
so is the model. Every lock-protected region is one atomic step, and claims about concurrency hold for
every interleaving of those steps.

## Readings of the code

- Floats are `real`; `round` is the nearest integer with ties to even, `int` truncates. `n * weight` is
  repeated addition, a slack per further unit likewise.
- Dictionaries are insertion-ordered sequences where the order can matter. Product ids are opaque.
- A reason string is a list of codes; the settlement's substring tests for `refit` and `near_gate` are
  membership tests. Notes of the settlement layers are typed corrections.
- Knobs (shares, slacks, gates, bounds) are parameters. The router that the close passes create has
  the default knobs, not the tuned ones; it is a parameter of those passes here.
- The standard deviation of a window is compared with its threshold as squares.
- Distances between detections come from any metric. The radius after a gap is one configured number.

## Where code and documentation differ

- `crk_model/service/worker.py:3-5` calls it structurally impossible for a close to overlook what is
  still queued. It is impossible exactly when nothing was queued or in flight as the session opened:
  the worker notifies the barrier that is current when a trigger completes, and a trigger left over
  from the previous session counts for the new one. `NothingLostIffNothingOutstanding` proves both
  directions.
- `docs/06-verification-report.md:278` has events that arrive after finalisation rejected and
  recorded. Of the ways a session can end only settling does that
  (`crk_model/ledger/settler.py:330-332`). One that ends in a barrier timeout is reported to
  `on_finalize` too, but never marked closed (`crk_model/gateway/state_machine.py:265-280`), and its
  later triggers are logged like any other. `RejectedIffSettled` proves that a trigger is rejected
  if and only if its session is remembered and was reported with a settlement, `TimedOutIsNotClosed`
  says the same of the calls to `on_finalize`, and `LateTriggerIsLogged` gives a run.
- The search of `crk_model/judgment/strict.py` is not quite exhaustive when a product has no weight:
  it stops on meeting target plus tolerance exactly, before a weightless product could join.
  `SearchExact` says precisely which selections are lost, `WeightlessIsLost` shows one.

## Model

| member | source | states |
|---|---|---|
| `ProtocolRuns.GapCountsOutstanding` | crk_model/service/worker.py:61-102 | in every run and for every zone, enqueued minus processed of the current barrier equals the triggers outstanding now minus those outstanding when that barrier was created |
| `ProtocolTheorems.NothingLostIffNothingOutstanding` | crk_model/gateway/state_machine.py:156-164 | a session can never be settled without one of its triggers if and only if nothing was queued or in flight when it opened; the losing run is constructed for every other opening state |
| `ProtocolTheorems.LeftoverLosesTrigger` | crk_model/service/worker.py:71-102 | with one trigger left over at OPEN there is a concrete run (submit, let the leftover complete, close, poll) that finalises the session without its own trigger |
| `ProtocolTheorems.LossIsReachable` | crk_model/service/worker.py:71-102 | from the start state a run exists that finalises a session without its own trigger, for every configuration |
| `ProtocolRuns.RunKeepsSafe` | crk_model/gateway/state_machine.py:195-283 | a session opened with nothing outstanding stays safe along every run: whenever it is settled the settlement holds every trigger submitted to it so far |
| `ProtocolRuns.StepKeepsInv` | crk_model/service/model_service.py:312-433 | every step of the service keeps the whole invariant: the gap count, fresh ids, one hook per session, closed sessions and settlements in step, no settlement without its hook, every trigger of a remembered session queued, in flight, logged or rejected, and rejected only for closed sessions |
| `ProtocolTheorems.NextIdIsFresh` | crk_model/service/model_service.py:343-348 | no job, log entry, settlement, hook or remembered id mentions the next session id |
| `ProtocolTheorems.OneHookPerSession` | crk_model/gateway/state_machine.py:285-293 | in no run do two on_finalize calls name the same session |
| `ProtocolTheorems.FinalizedResponseIsHook` | crk_model/gateway/state_machine.py:195-283 | a FINALIZED response is exactly one on_finalize call for the current session, carrying the same settlement; no other poll calls the hook with that outcome |
| `ProtocolTheorems.SettlementIsFinal` | crk_model/ledger/settler.py:220-333 | once settled and as long as remembered, every later settle returns the same value and changes nothing, and every later trigger of the session is rejected |
| `ProtocolTheorems.RememberedAreTheLastIssued` | crk_model/service/model_service.py:466-481 | the remembered ids are always exactly the last keep_sessions issued, in order, and every hooked session among them is remembered |
| `ProtocolTheorems.LateTriggersRejected` | crk_model/ledger/events.py:39-45 | in every run a session settled among the last keep_sessions issued keeps its settlement, and appending a further trigger of it leaves its events alone and records a rejection |
| `ProtocolTheorems.RejectedIffSettled` | crk_model/ledger/events.py:39-45 | in every run a trigger is rejected if and only if its session is remembered and an on_finalize call reported a settlement of it; every other trigger is logged, those of a session that timed out included |
| `ProtocolTheorems.TimedOutIsNotClosed` | crk_model/gateway/state_machine.py:265-280 | in every run an ended and remembered session rejects triggers if and only if its on_finalize call carried a settlement |
| `ProtocolTheorems.LateTriggerIsLogged` | crk_model/gateway/state_machine.py:265-280 | a concrete run for every configuration: the close times out waiting for an announced trigger, which comes later and is logged, not rejected |
| `ProtocolTheorems.TriggersAreTraced` | crk_model/service/worker.py:71-102 | in every run a submitted trigger of a remembered session is queued, in flight, logged or rejected, and rejected only if the session is closed |
| `ProtocolTheorems.CloseIsDecided` | crk_model/gateway/state_machine.py:195-283 | a close polled later than the stall timeout and the grace after the close, the last arrival and the last completion is no longer pending; it finalises only if the barrier is satisfied and nothing blocks |
| `ProtocolPolls.GatewayRemembers` | crk_model/gateway/state_machine.py:165-194 | in every run the marks of the current session are what its history says: per zone the triggers submitted and judged, the highest sequence number, the last report of its weight, the times of the last arrival and the last completion, and of the close with its watermarks |
| `ProtocolPolls.PollDecides` | crk_model/gateway/state_machine.py:195-283 | a poll of a pending close, after any run, in terms of the history: with something outstanding it gives up without a settlement exactly when, with a trigger unjudged, the later of close and last completion is at least the larger timeout ago, or, with none, the close is at least the close timeout ago; with nothing outstanding it waits exactly while no watermark came and the later of close and last arrival is less than the grace ago; otherwise it settles |
| `Service.CausalBarrier.NotifyEnqueued` | crk_model/ledger/barrier.py:35-36 | one more trigger enqueued for the zone, all else unchanged |
| `Service.CausalBarrier.NotifyProcessed` | crk_model/ledger/barrier.py:38-40 | one more trigger processed for the zone, all else unchanged |
| `Service.CausalBarrier.Status` | crk_model/ledger/barrier.py:60-78 | the loops over counters, unstable zones, watermarks and expected counts list exactly the pending conditions, by kind and then by zone, each once; empty means satisfied |
| `Service.EventLog.Append` | crk_model/ledger/events.py:39-45 | accepted unless the session is closed; a rejected event is recorded as such and changes nothing else |
| `Service.EventLog.Prune` | crk_model/ledger/events.py:53-60 | exactly the kept sessions remain, in events and closed marks |
| `Service.SettlementCache.Settle` | crk_model/ledger/settler.py:220-333 | the cached settlement if there is one, else the one computed from the log, cached and the session marked closed |
| `Service.MultiZoneGateway.HandleOpen` | crk_model/gateway/state_machine.py:156-164 | a new id replaces barrier, close and enqueue marks; the same id only reactivates |
| `Service.ModelService.HandleTrigger` | crk_model/service/model_service.py:312-341 | the submit step of the protocol, and no other change |
| `Service.ModelService.DrainPop` | crk_model/service/worker.py:81-84 | the pop region of drain: one queued trigger becomes in flight |
| `Service.ModelService.DrainComplete` | crk_model/service/worker.py:97-102 | the completion region of drain: the trigger is logged or rejected and the barrier current at that time is notified |
| `Service.ModelService.HandleOpen` | crk_model/service/model_service.py:354-388 | the open step of the protocol: a fresh id only when the door was idle, finalised or in error |
| `Service.ModelService.HandleClose` | crk_model/service/model_service.py:389-401 | the close step of the protocol: arm the close if active, then poll |
| `Service.ModelService.HandlePoll` | crk_model/gateway/state_machine.py:195-283 | the poll step of the protocol, response included; which step that is, is `ProtocolPolls.PollDecides` |
| `Service.ModelService.PruneLedger` | crk_model/service/model_service.py:466-481 | remembers the new id and drops the log and settlements of every session no longer remembered |
| `UnionFind.Find` | crk_model/ledger/ghost_ledger.py:108-112 | path halving ends, keeps the acyclic forest and every node's root, and returns that root |
| `UnionFind.Unite` | crk_model/ledger/ghost_ledger.py:114-121 | the union without rank keeps an acyclic forest in which exactly the two trees are joined |
| `UnionFind.LinkKeepsForest` | crk_model/ledger/ghost_ledger.py:121-121 | hanging one root under another keeps every parent chain finite and pointing to a root |
| `Ghosts.EpisodeIds` | crk_model/ledger/ghost_ledger.py:95-122 | two events get the same id exactly when a chain of shared video paths or mutually overlapping windows links them |
| `Ghosts.WeightBackedClasses` | crk_model/ledger/ghost_ledger.py:80-92 | exactly the classes billed by a complete judgement off the refit and near-gate paths |
| `Ghosts.DetectGhosts` | crk_model/ledger/ghost_ledger.py:125-162 | exactly the unbacked classes sighted in enough zones and in two unconnected episodes, each with exactly its zones |
| `Ghosts.WindowShrinksGhosts` | crk_model/ledger/ghost_ledger.py:146-162 | supplying the window configuration can only shrink the ghost map |
| `Windows.Least` | crk_model/ledger/cross_zone.py:68-78 | the smallest anchor, a member and a lower bound: the left edge of the contamination window |
| `Windows.Greatest` | crk_model/ledger/cross_zone.py:68-78 | the largest anchor, a member and an upper bound: the right edge of the contamination window |
| `CrossZone.PenaltySources` | crk_model/ledger/cross_zone.py:94-123 | the classes entered are exactly those a trusted event of another zone billed within reach of the window, each reported with the zone, the first anchor inside the window and the first product of the class of the first such event; the flag says whether an overlapping event was passed over as untrusted |
| `CrossZone.SelfFitPrefersAlternative` | crk_model/ledger/cross_zone.py:172-201 | the search over other seen products and counts answers yes exactly when some count explains the change at least 5 g better than the single product billed |
| `CrossZone.MutualExemptions` | crk_model/ledger/cross_zone.py:204-257 | the nested loops over pairs compute exactly the order-free set: a (zone, class) is exempt when some clash keeps it |
| `CrossZone.NeverPenalisedInBoth` | crk_model/ledger/cross_zone.py:204-257 | of two trusted events of different zones with mutually overlapping windows that bill the same class at least one is exempt, so the class is never penalised in both |
| `CrossZone.UnexemptZonesDoNotClash` | crk_model/ledger/cross_zone.py:204-257 | for any number of zones, those not exempt for a class never clash over it: they form an independent set |
| `CrossZone.ArrivalOrderIsIrrelevant` | crk_model/ledger/cross_zone.py:204-257 | reordering the events changes neither the exemptions nor the penalised classes |
| `CrossZone.KeepZonesSymmetric` | crk_model/ledger/cross_zone.py:240-256 | the decision between two clashing events does not depend on which comes first |
| `CrossZone.IsWeightAmbiguous` | crk_model/ledger/cross_zone.py:260-288 | true exactly when two different products could each explain the change alone within the gate |
| `CrossZoneDecides.FilmsExactly` | crk_model/ledger/cross_zone.py:57-91 | an event reaches another exactly when some anchor of that one lies between an anchor of its own less replay and margin and one plus trigger and margin |
| `CrossZoneDecides.ExemptExactly` | crk_model/ledger/cross_zone.py:204-257 | a zone is exempt for a class exactly when one of its events contests it and does not give way: one that alone doubts the class by its own weight gives way, and if neither or both doubt it the one whose judgement explains its change less well, provided both can be weighed |
| `CrossZoneDecides.PenalisedExactly` | crk_model/ledger/cross_zone.py:94-257 | an event is penalised for a class exactly when it saw it, a trusted event of another zone that its video may show billed it, and its zone is not exempt |
| `CrossZoneDecides.AmbiguousExactly` | crk_model/ledger/cross_zone.py:260-288 | weight is ambiguous exactly when up to six units in stock of each of two different seen products explain the change alone within the gate of the profile |
| `Repass.CrossNeverWorsens` | crk_model/ledger/cross_zone.py:337-487 | a repass keeps the event but for its judgement; returns and errors stay; complete stays complete; a changed judgement is complete and sound by the router's own check, or a partial minus exactly its penalised products; every change leaves a note |
| `Repass.GhostNeverWorsens` | crk_model/ledger/ghost_ledger.py:205-283 | off and shadow are the identity; otherwise the event is kept but for judgement and candidates, complete stays complete, and a changed judgement is complete and sound by the router's own check |
| `Repass.SecondPassesNeverWorsen` | crk_model/ledger/settler.py:230-260 | the two passes in order keep order, zone, time, change and status of every event, never lose a complete judgement and leave returns and errors untouched |
| `Repass.DisabledPassesAreIdentity` | crk_model/ledger/settler.py:230-260 | without active ghosts and with the penalty disabled nothing changes |
| `RepassDecides.CrossDecides` | crk_model/ledger/cross_zone.py:337-487 | an event is judged again exactly when the pass is on, it is an eligible removal with a penalised candidate and its judgement is not complete or weight-ambiguous; with the router's answer on candidates scaled by alpha, its judgement is replaced exactly when that answer is complete and bills something else, relieved exactly when it is not complete and a contaminated partial did not survive it, and kept otherwise; the notes say which |
| `RepassDecides.GhostDecides` | crk_model/ledger/ghost_ledger.py:165-283 | in active mode the ghost candidates of an eligible event are scaled by alpha, and a judgement that billed a ghost is replaced exactly when the answer on them is complete and bills something else; in shadow mode nothing changes and a contaminated judgement is noted |
| `Repass.ApplyCrossZonePenalty` | crk_model/ledger/cross_zone.py:308-334 | the loop yields for every event in order the event and notes that `RepassDecides.CrossDecides` characterises, the two notes on an untrusted source and on no overlap included |
| `Repass.ApplyGhostDemotion` | crk_model/ledger/ghost_ledger.py:165-202 | the loop yields for every event in order the event and notes that `RepassDecides.GhostDecides` characterises; the session note on ghosts appears exactly when there are any |
| `Strict.SearchExact` | crk_model/judgment/strict.py:43-80 | with distinct ids and no negative weight a selection is found if and only if it fits and is not stranded: it is lost exactly when it meets target plus tolerance to the gram and ends in a weightless product |
| `Strict.PositiveIsComplete` | crk_model/judgment/strict.py:67-80 | with positive weights the pruned recursion finds exactly the fitting selections |
| `Strict.ListedExactly` | crk_model/judgment/strict.py:43-98 | with distinct ids and no negative weight the list holds exactly the non-empty selections of in-stock, seen products within kinds, items, stock and tolerance that are not stranded, less, with occam on, the repeated singles that one unit explains at least as well |
| `Strict.WeightlessIsLost` | crk_model/judgment/strict.py:67-80 | at the shipped tolerance of 5 grams a concrete pair with a weightless product is in stock, seen and within tolerance, and is not among the combinations returned |
| `Strict.OccamExact` | crk_model/judgment/strict.py:100-121 | the filter drops exactly the single-kind repeats not strictly better than the best single unit |
| `Strict.OccamKeepsSome` | crk_model/judgment/strict.py:100-121 | the filter never empties a non-empty list |
| `Strict.OccamIdempotent` | crk_model/judgment/strict.py:100-121 | filtering again changes nothing |
| `Strict.BestIsPreferred` | crk_model/judgment/strict.py:95-125 | the combination chosen is least by (-score, kinds, error) among all listed, and there is one exactly when the list is not empty |
| `Strict.BestIsValid` | crk_model/judgment/strict.py:43-125 | the combination chosen bills in-stock, vision-seen products within kinds, items, stock and tolerance |
| `Strict.ScoreTrades` | crk_model/judgment/strict.py:128-142 | within the tolerance the score of one selection exceeds another's by 0.6 of the error saved relative to the tolerance, 0.3 of the mean confidence gained and 0.02 for every kind saved |
| `Strict.ConfSumAdds` | crk_model/judgment/strict.py:135-140 | every line of a selection adds its units at the confidence of its class, nothing for a class nobody saw |
| `Strict.ScorePrefers` | crk_model/judgment/strict.py:128-142 | other things equal, a smaller error, a higher mean confidence or fewer kinds never scores lower, and strictly higher within the tolerance |
| `Strict.ListedByScore` | crk_model/judgment/strict.py:84-98 | every combination of the list carries the score of its own error, mean confidence and kinds |
| `Strict.ConfOfLast` | crk_model/judgment/strict.py:54-54 | the confidence of a class is that of the last candidate listed with it |
| `Strict.StrictSearch.Rec` | crk_model/judgment/strict.py:67-80 | the recursion over the shared dictionary records exactly the specified selections, keeping the first of equal keys |
| `Strict.FindValidCombinations` | crk_model/judgment/strict.py:43-98 | the imperative search, scoring, filter and sort compute exactly the specified list |
| `Combos.AllocsExact` | crk_model/judgment/strategies.py:557-579 | the backtracking yields exactly the counts within stock, item bound and gate (positive weights) |
| `Combos.CombinationsExact` | crk_model/judgment/strategies.py:475-478 | the tails tried are exactly the subsequences of the given length |
| `Combos.BestComboExact` | crk_model/judgment/strategies.py:454-489 | a combination is found if and only if a valid one exists; it includes the top identity, has the fewest kinds possible and among those the least (residual, -votes) |
| `Combos.AllocationSearch.Rec` | crk_model/judgment/strategies.py:565-579 | pushing and popping the shared counts yields exactly the specified allocations in order and restores the list |
| `Combos.FindBestCombo` | crk_model/judgment/strategies.py:454-489 | the loops over kinds, tails and allocations compute the specified combination |
| `FreezerTheorems.NonInterference` | crk_model/judgment/strategies.py:285-452 | with the refit share at most 1 and at most the combo and single shares, adding or removing candidates with fewer votes than the refit share of the top identity never changes the answer, in spite of the sort, the pool cut and the arbitration |
| `FreezerTheorems.NeverBillsTheUnseen` | crk_model/judgment/strategies.py:285-452 | whatever is billed is an identity at or above the refit share; several lines start with the top identity; a complete answer explains the pull within the gate for its count, a rescue at least nearly |
| `FreezerTheorems.BillsOnlyTheSeen` | crk_model/judgment/strategies.py:285-452 | for every context: billed products are on sale, of a positive class among the candidates, in counts from 1 to the stock; nothing is billed exactly when nothing was detected |
| `FreezerTheorems.VotesChoose` | crk_model/judgment/strategies.py:324-342 | weight never chooses among the fits: the most confident fit wins when it is ahead of the most voted one by the threshold, the most voted one when both agree or it is the top identity, and otherwise nobody |
| `FreezerTheorems.RepeatsMustFitBetter` | crk_model/judgment/strategies.py:226-259 | with the count filter on, several units win only if they explain the pull strictly better than every single unit that fits |
| `FreezerTheorems.OccamKeepsSome` | crk_model/judgment/strategies.py:226-259 | the count filter never empties the fits and is idempotent |
| `NearestCount.RoundedIsNearest` | crk_model/judgment/strategies.py:299-303 | rounding the quotient gives a count that no other comes nearer to the weight than, the even one of two equally near |
| `NearestCount.ClampedIsNearest` | crk_model/judgment/strategies.py:299-303 | clamped to 1 and the stock it is the nearest among the counts the stock allows |
| `FreezerDecides.FirstStageDecides` | crk_model/judgment/strategies.py:300-385 | the contenders are exactly the identities with enough votes or confidence whose nearest count fits, less the repeats no better than a fitting single; a most voted and a most confident one decide by the threshold; a repeat gives way exactly to a combination with at least as many segments as units, no more units and a strictly better fit; no answer exactly when nobody wins |
| `FreezerDecides.RescueDecides` | crk_model/judgment/strategies.py:400-452 | a rescue names an identity other than the top, at or above the refit share, that is the only one within the gate, or the only near one with none within the gate, or whose confidence reaches the floor and the threshold of every other one within the gate; there is none exactly when no identity meets any of the three |
| `FreezerDecides.SolveDecides` | crk_model/judgment/strategies.py:285-452 | the answer of the strategy by its stages: the winner of the first; else the top identity just missing the gate; else the best combination with it; else a rescue; nothing exactly when no stage answers |
| `StrategyTheorems.IdentitiesDecide` | crk_model/judgment/strategies.py:285-299 | the identities are exactly the candidates whose class stands for a product in stock with a weight, the last one listed, by votes and then confidence, as far as the pool goes |
| `StrategyTheorems.PullDecides` | crk_model/judgment/strategies.py:300-316 | the pull is the size of the change and counts the segments that took weight away |
| `FreezerSolver.CollectFits` | crk_model/judgment/strategies.py:317-323 | the loop collects exactly the in-gate fits of all qualified identities, in rank order |
| `FreezerSolver.CollectRescues` | crk_model/judgment/strategies.py:403-413 | the loop collects exactly the in-gate and the near fits of the other identities above the refit share |
| `FreezerSolver.SolveFreezer` | crk_model/judgment/strategies.py:285-452 | the four stages in order compute the answer that `FreezerDecides.SolveDecides` characterises |
| `RouterTheorems.DefaultPipelineSound` | crk_model/judgment/router.py:38-125 | for every context the default pipeline answers; only active products are billed, 1 to stock each; a complete answer outside vision_only explains the change within tolerance plus slack per further unit; where weight does not discriminate only vision-led strategies answer and every billed class was seen |
| `RouterTheorems.VerdictSound` | crk_model/judgment/router.py:147-172 | the same soundness for any order of the strategies |
| `RouterTheorems.VerdictAuthor` | crk_model/judgment/router.py:147-172 | the answering strategy is in the pipeline and fit for the profile; with a final fallback some strategy always answers |
| `RouterTheorems.VerdictNonInterference` | crk_model/judgment/router.py:147-172 | on a freezer, under the same order of shares, candidates below the refit share change neither the verdict nor its author nor the recorded misses, through the whole pipeline |
| `RouterTheorems.FreezerGatesAgree` | crk_model/judgment/strategies.py:37-61 | what the freezer strategy accepts as complete the final check does not demote, except a rescue from the near band |
| `RouterTheorems.AttemptBillable` | crk_model/judgment/strategies.py:73-1208 | every strategy that applies bills only what may be billed |
| `RouterTheorems.MatchTargetsOnSale` | crk_model/judgment/strategies.py:616-641 | merging the best combination of every segment keeps only products on sale with positive counts |
| `RouterDecides.FirstResponderDecides` | crk_model/judgment/router.py:147-172 | the author is the first strategy of any order that is ready for the context as the stage before it left it and does not pass; its answer is checked against the whole change; nobody answers exactly when nobody responds |
| `RouterDecides.DefaultAuthor` | crk_model/judgment/router.py:38-125 | for every context the default pipeline is answered by the first responding strategy of its ranks, written out, and by the final fallback only when every other one passes |
| `RouterDecides.CheckDemotesExactly` | crk_model/judgment/strategies.py:37-61 | a complete answer becomes partial exactly when vision alone did not answer and the change is unexplained beyond the tolerance and, on a freezer, one slack per further unit; products and confidence stay |
| `RouterDecides.StageLeavesWeights` | crk_model/judgment/strategies.py:582-594 | the stage notes the weights of the removal segments in order and changes nothing else |
| `RouterDecides.WhoMayRespond` | crk_model/judgment/strategies.py:73-1208 | which strategies are ready at all, by profile, candidates, weight change, segments and stage targets |
| `StrategyTheorems.ByClassIsLast` | crk_model/judgment/strategies.py:64-70 | a class stands for the last product in stock listed with it |
| `StrategyTheorems.VisionOnlyDecides` | crk_model/judgment/strategies.py:73-93 | one unit of what the best ranked candidate on sale stands for; nothing exactly when none is on sale |
| `StrategyTheorems.SegmentsDecide` | crk_model/judgment/strategies.py:596-641 | the best combination of every removal segment, merged: each product in the sum of its units; no answer exactly when a segment has none or the sum exceeds the stock |
| `StrategyTheorems.StagesDecide` | crk_model/judgment/strategies.py:644-716 | the same for the stage targets; without vision every product in stock stands in, and a single unit is no answer |
| `StrategyTheorems.NoCandidateDecides` | crk_model/judgment/strategies.py:719-795 | without candidates the listed product and count that explain the change within the tolerance; nothing exactly when none does, ambiguous exactly when two listings or two counts do |
| `StrategyTheorems.CollisionDecides` | crk_model/judgment/strategies.py:815-851 | two surest single explanations within the tolerance of each other: the surer is billed; otherwise the guard passes |
| `StrategyTheorems.SameProductDecides` | crk_model/judgment/strategies.py:884-917 | the repeat of a seen product with the least error; none exactly when none fits |
| `StrategyTheorems.IdentityPartialDecides` | crk_model/judgment/strategies.py:1032-1093 | the best ranked identity: counted if its nearest count explains the change, else one unverified unit; none exactly when the evidence is too thin |
| `StrategyTheorems.RelaxedPartialDecides` | crk_model/judgment/strategies.py:965-1029 | one unverified unit of the best ranked product light enough for the heaviest removal observed; none exactly when there is none or the evidence is too thin |
| `StrategyTheorems.LoadcellOnlyDecides` | crk_model/judgment/strategies.py:1096-1138 | one unverified unit of the product nearest in weight, exactly when one is nearer than 5 grams |
| `StrategyTheorems.DetectedSingleDecides` | crk_model/judgment/strategies.py:1141-1194 | the best ranked candidate decides alone: its product in the nearest count, exactly when that has a weight and is within the widened tolerance, with the confidence written out |
| `Router.JudgmentRouter.Judge` | crk_model/judgment/router.py:147-172 | the loop returns the specified verdict, counts one hit for its author and keeps the last 256 misses |
| `Ledger.MatchIsExact` | crk_model/ledger/settler.py:138-149 | a single unit if one fits, else a pair if one fits; no match exactly when neither does |
| `Ledger.MatchWeighs` | crk_model/ledger/settler.py:138-149 | a match lightens the basket by the returned weight up to the tolerance; nothing is taken only if no one and no two units would do so, two only if no one would |
| `LedgerRules.LayersFollowRules` | crk_model/ledger/settler.py:118-397 | the books are those of three rules, each stated on the books before and after: by time, a removal adds its judged units and a return takes a match out or is left open; then in each zone, while the basket weighs more than the net removal, the heaviest unit light enough is given back, and closes exactly the first open return of the zone within tolerance of its weight, if there is one; then each return still open takes the first such unit of the first other zone that holds one, or is reported |
| `LedgerRules.ReturnsSettledOnce` | crk_model/ledger/settler.py:344-397 | in every session layer 3 takes no unit for a return that a correction of layer 2 could have explained, and reports a return as unmatched only if no other zone is left with a unit of its weight |
| `Settler.MatchReturn` | crk_model/ledger/settler.py:138-149 | takes exactly the matched units from the basket, or fails and leaves it unchanged |
| `Settler.Basket.RemoveOne` | crk_model/ledger/settler.py:50-54 | takes one unit if there is one and says so; never below zero |
| `Settler.PassSameZone` | crk_model/ledger/settler.py:118-135 | layer 1 over the events by time computes the specified baskets, open returns and corrections |
| `Ledger.PicksExact` | crk_model/ledger/settler.py:353-369 | the give-back loop ends with the excess within tolerance or nothing light enough left, keeps the excess equal to weight minus floor, and never undershoots by more than the tolerance |
| `Ledger.NetPassExact` | crk_model/ledger/settler.py:344-369 | after layer 2 every zone is within tolerance of its net removal or has nothing light enough to give back, and a zone it changed is not lighter than that by more than the tolerance |
| `Settler.PassNetDelta` | crk_model/ledger/settler.py:344-369 | the in-place loop over zones computes layer 2 as `LedgerRules.LayersFollowRules` states it, closing the return each correction explains |
| `Ledger.HolderIsFirst` | crk_model/ledger/settler.py:372-397 | a cross-zone return is taken from the first other zone that holds such a unit |
| `Settler.PassCrossZone` | crk_model/ledger/settler.py:372-397 | the loop over open returns computes layer 3: each is matched once or reported |
| `Ledger.LayersConserve` | crk_model/ledger/settler.py:118-397 | for every zone and product, units judged from removals equal units left plus units removed by the three layers; every positive change is answered exactly once |
| `Settler.SettleLayers` | crk_model/ledger/settler.py:266-268 | the three in-place layers in order compute the specified books |
| `VisionCombo.BestPick` | crk_model/ledger/settler.py:661-688 | the four nested loops return a pair of counts that scores highest among all eligible ones, the first of equals, and none only if none is eligible |
| `VisionCombo.AnswerIsSound` | crk_model/ledger/settler.py:558-688 | an answer names two on-sale products of different classes, both seen in the zone and no ghosts, in counts within stock, weighing the target within the gate for their number |
| `ComboDecides.TalliesAreBest` | crk_model/ledger/settler.py:592-600 | each class that a removal of the zone saw with enough votes is listed once, with its most votes and best confidence; no other class is |
| `ComboDecides.SupportedExactly` | crk_model/ledger/settler.py:601-656 | a class takes part exactly when it is no ghost and not billed elsewhere only, the zone's judgement did not pass it over, and it is not faint beside the others left |
| `ComboDecides.AnswerDecides` | crk_model/ledger/settler.py:655-688 | there is an answer exactly when two products of supported classes explain the target in feasible counts; it has the most votes, then the least departure from what was billed, the least residual and the fewest units of all such pairs |
| `VisionCombo.Answer` | crk_model/ledger/settler.py:558-688 | votes gathered and pruned, pool built and searched: the answer meets its specification |
| `FreezerResolve.BackedZones` | crk_model/ledger/settler.py:540-555 | per class exactly the zones of complete judgements off the refit and near-gate paths |
| `FreezerResolve.FreezerBasketsExplainNet` | crk_model/ledger/settler.py:399-533 | every freezer basket ends unchanged, or empty with no net removal beyond the gate, or with counts from 1 to stock whose weight is within gate plus slack per further unit of the net removal |
| `FreezerResolve.FreezerBasketIsDecided` | crk_model/ledger/settler.py:399-533 | a freezer basket is emptied when nothing was taken on balance, stays when it holds none or several products, and otherwise holds: the pair vision answers with, unless the nearest count is feasible and a complete removal was confident enough; else exactly the nearest count if that is feasible; else what it held |
| `FreezerResolve.PassFreezer` | crk_model/ledger/settler.py:399-533 | the loop over baskets resolves each as `FreezerResolve.FreezerBasketIsDecided` states, with ghost and backing facts exactly those of the session |
| `Close.FreezerExplainsTheScale` | crk_model/ledger/settler.py:220-333 | in everything the settlement leaves, the basket of each freezer zone is unchanged, empty or explains the net change the scale measured, whatever the second passes judged again |
| `Close.JudgedIsBilledOrReturned` | crk_model/ledger/settler.py:266-269 | where weight discriminates, units judged after the second passes equal units billed plus units the layers took back |
| `Close.ErrorsAreNeverBilled` | crk_model/ledger/settler.py:314-325 | an errored zone is never billed: the payment is blocked or the zone left out; without errors nothing is blocked or dropped |
| `Close.BlockedAsProtocol` | crk_model/ledger/settler.py:314-325 | under both error policies the settlement is blocked exactly when the protocol says so from the failed flags of the logged events: with blocking, if any failed; otherwise if some failed and no event came from a zone without a failure |
| `CloseDecides.PassesDecide` | crk_model/ledger/settler.py:230-260 | only events that went well and were judged take part; each first goes through the ghost pass over all of them, and what that leaves through the cross-zone pass over all it leaves, each with the outcome of that pass |
| `CloseDecides.BasketsDecide` | crk_model/ledger/settler.py:266-269 | the baskets are those the three rules leave over the events of the passes, and in a freezer what layer 4 decides on them with the ghosts and backing zones of those events |
| `CloseDecides.ReportDecides` | crk_model/ledger/settler.py:270-333 | the report lists, in order of zone, every basket and an empty one for every other zone with an event, less the errored zones where the policy says so; it is blocked exactly when a zone errored and the policy blocks or nothing is left |
| `Ledger.LayersOpenEventZones` | crk_model/ledger/settler.py:118-135 | every basket belongs to a zone that had an event |
| `Close.Settle` | crk_model/ledger/settler.py:220-333 | passes, layers, freezer layer and error policy in order give the specified settlement |
| `Prefetch.EveryRunIsSafe` | crk_model/frames/prefetch.py:48-99 | in every interleaving the items delivered are a prefix of the source in order, the queue never exceeds its depth, the end comes only after every item, and a source error is raised exactly once, then |
| `Prefetch.NothingAfterClose` | crk_model/frames/prefetch.py:78-99 | after close, or after the end was reported, nothing is delivered and nothing raised |
| `Prefetch.WaitingConsumerIsServed` | crk_model/frames/prefetch.py:48-73 | a consumer waiting on an empty queue has a live producer that fills it within three of its steps |
| `Prefetch.StoppedProducerFinishes` | crk_model/frames/prefetch.py:48-73 | after stop every producer step brings it nearer its end, however full the queue |
| `Prefetch.CanAlwaysFinish` | crk_model/frames/prefetch.py:48-99 | from every reachable state that nobody stopped the iteration can still be completed: no deadlock |
| `Prefetch.StepKeepsInv` | crk_model/frames/prefetch.py:48-99 | every atomic step keeps queue plus item in flight equal to what was fetched and not yet delivered |
| `Prefetch.PrefetchFrames.Pump` | crk_model/frames/prefetch.py:48-73 | one step of the pump or of put, as specified |
| `Prefetch.PrefetchFrames.Take` | crk_model/frames/prefetch.py:78-88 | one get: delivers the next item, or ends, raising the stored error once |
| `Levels.Segments` | crk_model/ingest/bocpd.py:124-149 | for any run lengths the walk ends; the result is the stretches of the runs with close neighbours joined; it partitions the samples in order, each level is the exact mean of its stretch and no mass is lost |
| `Levels.StretchesTile` | crk_model/ingest/bocpd.py:131-138 | before any joining, the stretches of the runs already partition the samples, each with its exact mean |
| `Levels.MassIsSum` | crk_model/ingest/bocpd.py:124-149 | levels times lengths over a partition sum to the samples |
| `Levels.JoinIsMean` | crk_model/ingest/bocpd.py:141-146 | the weighted level of two adjacent segments is the exact mean of their union |
| `Loadcell.StepsTelescope` | crk_model/ingest/bocpd.py:212-218 | reported steps miss the change of a channel by at most one threshold per step dropped |
| `Loadcell.AnalyzeBocpd` | crk_model/ingest/bocpd.py:185-238 | every channel is reconstructed and gated, and the channels are combined as specified, baseline included |
| `Loadcell.BocpdExplains` | crk_model/ingest/bocpd.py:196-230 | a stabilised change with events differs from the sum of its segments by at most one threshold per dropped step over all channels |
| `LoadcellDecides.StretchCovers` | crk_model/ingest/bocpd.py:131-138 | going back from a sample a run covers as many samples as its length says, at least one and no more than there are |
| `LoadcellDecides.MergeGroups` | crk_model/ingest/bocpd.py:140-149 | two neighbouring stretches end up in one level exactly when the later is close to the mean of what was joined before it |
| `LoadcellDecides.StepsAreLarge` | crk_model/ingest/bocpd.py:210-216 | the segments reported are exactly the steps between neighbouring levels of at least the threshold, in order, at the times the levels end and start |
| `LoadcellDecides.ChannelDecides` | crk_model/ingest/bocpd.py:196-217 | a channel is quiet below the weight that counts, waits while a return has not lasted, and is an event of its whole change otherwise |
| `LoadcellDecides.ZoneDecides` | crk_model/ingest/bocpd.py:218-238 | while a return is settling the zone waits with what returned and what moved; else it reports the events, their sum and segments in order of time; without events only whether something moved |
| `Plateaus.StablePlateaus` | crk_model/ingest/loadcell.py:200-222 | the scan finds exactly the maximal runs of samples whose trailing window is calm, each with its exact mean |
| `Plateaus.SingleExplains` | crk_model/ingest/loadcell.py:173-198 | the same telescoping bound for a single series |
| `Plateaus.AnalyzePlateaus` | crk_model/ingest/loadcell.py:85-171 | the first tray that cannot be analysed decides; otherwise settled, returning and flat trays are combined as specified |
| `Plateaus.PlateausExplain` | crk_model/ingest/loadcell.py:144-160 | the same bound for the plateau analyser over all channels |
| `LoadcellDecides.TrayDecides` | crk_model/ingest/loadcell.py:98-143 | a tray fails exactly when it is too short or has one level that is not calm throughout; it waits for a return before it asks for the weight |
| `LoadcellDecides.SingleDecides` | crk_model/ingest/loadcell.py:173-198 | a single series needs two levels; a return that has not lasted waits with its change but no segments; otherwise change and large steps are reported |
| `LoadcellDecides.CalmBoundsEach` | crk_model/ingest/loadcell.py:200-222 | in a calm window no sample strays further from the mean than the root of its length times the threshold |
| `Tracking.UpdatedFacts` | crk_model/perception/motion_evidence.py:74-83 | an observation keeps displacement and head movement within the path moved (any metric) |
| `TrackingDecides.TrackTellsHistory` | crk_model/perception/motion_evidence.py:55-83 | the counters of a track are the path, sizes, furthest point, head share and first and last positions of exactly the detections that joined it |
| `Tracking.MotionEvidence.JoinTrack` | crk_model/perception/motion_evidence.py:196-232 | the detection joins the first of the nearest reachable unused tracks of its class and camera, or starts one when none reaches; exactly that track changes, by one observation |
| `Tracking.MotionEvidence.JoinTube` | crk_model/perception/motion_evidence.py:235-277 | the detection is absorbed by the first tube it overlaps in this frame, else follows the nearest reachable tube or starts one; exactly that tube changes, and every histogram still sums to its count |
| `Tracking.MotionEvidence.Observe` | crk_model/perception/motion_evidence.py:171-233 | the detections of a frame one after the other: each boxed one that is no hand joins the track and the tube that `JoinTrack` and `JoinTube` choose among those the ones before it left, and changes no other; the ids are pairwise distinct; per camera the observations over tracks equal those over tubes; exactly the classes seen without a box become exempt; every track sums up the detections that joined it |
| `Voting.VotingEnsemble.AddFrame` | crk_model/perception/voting.py:135-175 | the ballot is polled with the detections of the frame; every visible detection is either recorded or counted as dropped; the frame counters advance |
| `Voting.PollCountsOwnVotes` | crk_model/perception/voting.py:162-168 | every class gains exactly the votes its own confident detections cast on that camera, in order, and nothing else changes |
| `VotingDecides.EnteredVotes` | crk_model/perception/voting.py:156-175 | the votes of a class on a camera are those of its confident detections that are no hands, in order, with their confidence and track |
| `VotingDecides.EffectiveStands` | crk_model/perception/voting.py:180-210 | exactly the votes that stand, in order: without evidence all; a tracked one when its track qualifies and, where held tracks are excluded, is not held; an untracked one when its class moved on that camera |
| `VotingDecides.FindingDecides` | crk_model/perception/voting.py:272-346 | the report of a class from its standing votes: count, ratio, the blended confidence cut off at 1, and the first gate it fails |
| `VotingDecides.FramesDecide` | crk_model/perception/voting.py:304-318 | a ratio refers to the frames, per camera those with a hand in view if there were any, at least one |
| `Voting.VotingEnsemble.Combine` | crk_model/perception/voting.py:320-347 | the candidates are exactly the classes the report leaves unrejected, each once, with its votes, ratio and confidence, sorted by votes then confidence |
| `Voting.ReportAgrees` | crk_model/perception/voting.py:367-412 | admission and report agree class by class; a class is reported motionless exactly when it has no effective vote |
| `Voting.TheTopKeepsItsShare` | crk_model/perception/voting.py:291-302 | a class with the most effective votes is never dropped for its share |
| `MultiTray.SegmentRetryNeverWorsens` | crk_model/service/pipeline.py:456-482 | the segment retry keeps the judgement or replaces an incomplete one by a complete one, sound for the weight of the segments |
| `MultiTray.PoolRetryNeverWorsens` | crk_model/service/pipeline.py:394-454 | the pool retry keeps the result or replaces an incomplete one by a complete one that, where weight does not discriminate, names no class a sibling consumed |
| `MultiTrayDecides.SegmentRetryDecides` | crk_model/service/pipeline.py:456-482 | a suspicious removal is judged on the weight of its segments and takes that judgement exactly when it is complete |
| `MultiTrayDecides.PoolRetryDecides` | crk_model/service/pipeline.py:394-454 | a partial or empty tray is judged again exactly when complete siblings took some candidates and left others, on exactly those left, and takes the answer exactly when it is complete and bills something |
| `MultiTrayDecides.MergeDecides` | crk_model/service/pipeline.py:323-392 | the merged judgement bills exactly the units of the billed trays, is complete when all are confirmed, partial when some is billed, nothing otherwise, and is as sure as the least sure tray billed |
| `MultiTrayDecides.TraysDecide` | crk_model/service/pipeline.py:299-392 | every tray on its own, then the unsettled ones reconsidered against the first results, then the merge |
| `MultiTray.MergeIsFair` | crk_model/service/pipeline.py:323-392 | complete exactly when every tray is; each product once, in exactly the units of the billable events; a billed partial shares no class with a complete sibling or any other partial |
| `MultiTray.JudgeTrayEvents` | crk_model/service/pipeline.py:299-392 | first pass, retries, guards and merge in loops give the specified judgement |
| `Sorting.FilterSort` | crk_model/judgment/strategies.py:289-289 | stable sorting commutes with filtering, which is why weak candidates cannot disturb the ranking of the others |

## Left out

- Service.ModelService.HandleTrigger: the idempotency registry is not modelled; a duplicate is answered before the lock region and changes nothing here but a trigger number.
- Service.ModelService.HandleOpen: the update of the product snapshot and the logging on OPEN are not modelled.
- Service.SettlementCache.Settle: in the protocol a settlement is the list of events it read and whether they block; what is billed for them is the subject of `Close`, and the two are joined by that list and by the blocked flag (`Close.BlockedAsProtocol`).
- Service.ModelService.DrainComplete: pipeline inference between the two lock regions of drain is an arbitrary outcome, so what the judgement says does not appear in the protocol.
- CrossZone.PenaltySources: the list of untrusted sources with their confidences is reduced to whether there is one.
- Repass.ApplyCrossZonePenalty: notes are typed codes with a zone; the confidences, distances and class lists in their texts are not modelled.
- FreezerResolve.PassFreezer: the notes of layer 4, and the unguarded search run only to write one of them, are not modelled.
- VisionCombo.Answer: the vote dictionaries that the code prunes in place are filters on values.
- Close.Settle: weight sums, trigger counts, confidences and note texts of the report are not modelled; the per-session cache is `Service.SettlementCache`.
- MultiTray.JudgeTrayEvents: trace codes and the composed reason and strategy texts are not modelled; reasons are concatenated.
- Router.JudgmentRouter.Judge: the strategy name is returned beside the judgement instead of inside it.
- Tracking.MotionEvidence.Observe: the queries over tracks and tubes (which moved, which are held, which are a minority) are not modelled; they appear as parameters of `Voting`.
- Voting.VotingEnsemble.AddFrame: head-of-stream position counters are not modelled.
- Loadcell.AnalyzeBocpd: the run-length posterior is an arbitrary input; standard deviations of deltas are not modelled.
- Billed counts within stock after a multi-tray merge: the code checks stock per judgement, not per merge, so it is not claimed.
- The archive and logging hooks around `on_finalize`: only that they are called, with which outcome and how often.
- Adapters, scripts, HTTP, decoding, YOLO and TensorRT inference, rendering, archive, journal, logging, environment parsing.
- Vision passes, filter chain, micro-batching, early termination and motion gate: not part of this model.
