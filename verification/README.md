# Verified model of the serving pipeline

This project models the path of an inference request between the waiting queue and the backend, and proves what
holds over every run of it. `dafny verify dfyconfig.toml` checks it with Dafny 4.11.

The parts, and the files they are in:

- **Continuous batch engine**: `BatchModels`, `BatchEngineSpec` (the five dictionaries as one value and each locked
  operation as a function on it), `BatchEngineInvariant` (the joint invariant and the exact effect of each
  operation), `BatchEngineRuns` and `BatchEngineTheorems` (all runs), `BatchRecords` (each operation written out
  field by field, and where every time in a record comes from), `BatchEngine` (the classes with their mutable
  dictionaries, each method proved equal to its function).
- **Dispatch and delivery**: `Routing`, `Dispatch` (module `DispatchService`), `DispatchRules`, `Delivery` (a
  protocol in which engine operations may run between the moment a dispatch reads a batch and the moment the adapter
  answers).
- **Policies**: `Sorting`, `Policies`, `Fairness`, `PolicyRules` (the rule of each policy over the queue items).
- **Waiting queue**: `WaitingQueueSpec` (the operations, and a ledger of every entry and its fate), `WaitingQueue`
  (the classes).
- **Scheduling cycle**: `SchedulingCycle`, `CycleTurns` (what one cycle does for one request), `CycleRunner`.
- **Lifecycle and full path**: `RequestStates`, `Registry`, `LifecycleSpec`, `LifecycleRules`, `ControlPlane`,
  `RequestPathSpec`, `RequestPathInvariant`, `RequestPathOutcome` (the exact end of a path), `RequestPathTheorems`,
  `RequestPath`.
- **Runs of the platform**: `PlatformRuns`, `FirstPath`, `CompletionTimeouts`, `MemberLeaks`.

Throughout, a part comes in two forms. Operations that update state in the program are methods of classes over
mutable records and dictionaries; their postconditions equate the abstract value of the new state, and the result,
with a function of the old one. What holds over runs is then proved about that function. An operation that can raise
returns a `Result`, or an error next to the state it leaves behind, so that "nothing raises" is a theorem.

Each operation under a lock is one atomic step. Times are integers in milliseconds, passed in at every place where
the program reads the clock, and nothing is assumed of successive readings unless a statement says so. Identifiers
are natural numbers; ids for new batches are passed in, fresh and enough of them for any selection. Ratios and
scores are real numbers.

Where the code and its documentation differ, the model follows the code: the request states BATCHED and SUBMITTED
and the edge from QUEUED to FAILED are in `lifecycle/transitions.py`, but not in `docs/contracts/state-models.md`.

Results that are not what one might expect, each with a proof:

- A batch leaves FILLING on the passing of its window only if a placement reads the clock at the very end of the
  window (`ActivationMoment`). After that its model is refused over the rest of any run until a member of the batch is
  retired as failed, even when every member has completed (`LateBatchStaysFilling`, `ClosedWindowLocksModel`).
- The fallback scan for a filling batch never finds anything (`FallbackScanIsDead`).
- A request that joins a batch already submitted, or joins it while its dispatch is in flight, is never delivered
  (`LateJoinerIsNeverDelivered`, `JoinerInFlightIsNeverDelivered`). Whatever the size of a batch, only the request
  whose path dispatched it is ever COMPLETED (`OneSubmittedPerBatch`); one that joins later ends FAILED, and its member
  stays active (`LateJoinerFailsButStays`). The full path retires a member only by completing its request, so such
  members add up until nothing is placed any more (`LeaksExhaustCapacity`, `OneFailureExhaustsCapacity`).
- A request that its own path leaves QUEUED is never completed (`LaterOnlyEnds`).
- The latency-aware policy reads the clock once for each candidate, so it selects like FIFO only while the clock keeps
  pace with the queue: `LatencySelectsLikeFifo` and `LatencyAwareIsFifo` give the exact conditions,
  `MovingClockReorders` an example.
- Expiry takes a prefix of the queue exactly when the entry times never decrease (`ExpiryIsPrefixIffSorted`), which a
  clock that goes back breaks (`ClockGoingBackExpiresSecond`).
- `complete_request` refuses a DECODING request, which the table of states would let complete (`CompletionOutcome`).
- `mark_failed` and `process_timeouts` overwrite terminal states. `MarkFailedFollowsTable` and `TimeoutsFollowTable`
  give the exact conditions under which they follow the table. A COMPLETED request is still in the queue and so turns
  TIMED_OUT if its item expires at a reading that processes timeouts (`CompletedUntilOverwritten`,
  `CompletedThenTimedOut`), unless a listing has dropped the overdue item before (`ListingKeepsCompleted`,
  `ListedThenCompleted`).

## Model

| member | source | states |
|---|---|---|
| `BatchEngineRuns.ReachableInv` | services/scheduler/src/scheduler/batch/engine.py:129-463 | every state that any sequence of placements and retirements reaches, with any clock readings, satisfies the joint invariant of the five dictionaries and of every batch |
| `BatchEngineRuns.NothingRaises` | services/scheduler/src/scheduler/batch/engine.py:129-456 | in no run does a placement or a retirement raise: no invalid batch transition, no duplicate member, no missing key |
| `BatchEngineRuns.RunsOnlyExtend` | services/scheduler/src/scheduler/batch/engine.py:205-247 | along a run a request keeps its batch and its assignment, members keep their slot and order, the rank of a batch never falls, and a terminal batch keeps its state and gains no member |
| `BatchEngineTheorems.GaugeIsIndexSize` | services/scheduler/src/scheduler/batch/engine.py:468-474 | in every reachable state the entries of the model index are exactly the live batches, and the gauge is the size of the index |
| `BatchEngineTheorems.AtMostOneLiveBatch` | services/scheduler/src/scheduler/batch/engine.py:99-107 | a model has at most one live batch, and looking it up in the index gives what a search of all batches gives |
| `BatchEngineTheorems.FallbackScanIsDead` | services/scheduler/src/scheduler/batch/engine.py:328-346 | the scan over all batches never finds a batch that the index lookup missed |
| `BatchEngineTheorems.SlotSafety` | services/scheduler/src/scheduler/batch/engine.py:214-247 | active members of a batch hold distinct slots, every slot given is below the batch size, and the stored assignment carries the slot of its member |
| `BatchModels.FreeSlotIsLeast` | services/scheduler/src/scheduler/batch/engine.py:458-463 | with an active count below the batch size the slot search finds the least free slot, which is below the batch size |
| `BatchEngineTheorems.Conservation` | services/scheduler/src/scheduler/batch/engine.py:173-247 | active members never exceed the global limit, the four member totals add up to the number of requests ever placed, and assignments and batch membership have the same keys |
| `BatchEngineTheorems.RecordsAgree` | services/scheduler/src/scheduler/batch/engine.py:222-247 | a request is a member of exactly the batch that the map from requests to batches gives, it has an assignment exactly when it is in that map, and batch and member set hold the same members |
| `BatchEngineTheorems.StateFitsCount` | services/scheduler/src/scheduler/batch/engine.py:395-417 | in every reachable state a batch is filling, active, completed or failed; filling means fewer active members than the batch size, active between one and the batch size, completed none |
| `BatchEngineTheorems.MembersJoinInWindow` | services/scheduler/src/scheduler/batch/admission.py:69-75 | every member of a batch that was never activated was added no later than the end of the window |
| `BatchRecords.PlacementWrittenOut` | services/scheduler/src/scheduler/batch/engine.py:129-264 | a placement field by field: an item is placed exactly when its request is new, fewer requests than the global limit have an active member, and every live batch of its model has a free slot and is not past its window; it joins that batch, or a batch created at this reading of the clock whose window ends windowMs later; a refusal gives the reason that wins and the live batch of the model |
| `BatchRecords.RetirementWrittenOut` | services/scheduler/src/scheduler/batch/engine.py:266-326 | a retirement field by field: exactly the member of the request takes the status; a failure fails a live batch with its reason, and otherwise an active batch left without active members is completed at this reading of the clock |
| `BatchRecords.ReplacementWrittenOut` | services/scheduler/src/scheduler/batch/service.py:65-73 | a replacement field by field: a request in no batch is replaced by nothing; any other is completed, and then the item is placed |
| `BatchRecords.RecordsAreSourced` | services/scheduler/src/scheduler/batch/engine.py:361-456 | over any run every batch was opened by a placement of its model whose reading begins its window, every member was added by a placement of its request at that reading, and an event gave the time or the reason at which a batch was activated, completed or failed |
| `BatchRecords.WindowFromOpening` | services/scheduler/src/scheduler/batch/engine.py:361-370 | over any run, while a batch is filling and global capacity allows it, a new request of the model is placed exactly up to windowMs after the reading of the placement that opened the batch |
| `BatchRecords.ActiveRequestsAreCounted` | services/scheduler/src/scheduler/batch/engine.py:465-466 | in a reachable state the global count is the number of requests with an active member |
| `BatchRecords.StatisticsWrittenOut` | services/scheduler/src/scheduler/batch/inspection.py:41-73 | the seven counters are the numbers of all, filling or active, and filling batches, and of requests whose member is active, completed, failed and cancelled |
| `BatchModels.EntriesIntoBatchStates` | services/scheduler/src/scheduler/batch/transitions.py:15-35 | the table of batch states read by target: from which states each one can be entered |
| `BatchEngineInvariant.PlacementIsExact` | services/scheduler/src/scheduler/batch/engine.py:147-264 | an admissible item is placed: into the live batch of its model, or into a new one if there is none, and the resulting state keeps the invariant |
| `BatchEngineInvariant.RefusalIsExact` | services/scheduler/src/scheduler/batch/engine.py:147-202 | an item that is not admissible is refused and nothing changes; the refusal names the live batch of the model, unless the request was batched before or there is none, and the first reason that applies of: already batched, batch full, global limit, window closed |
| `BatchEngineInvariant.PlaceKeepsInv` | services/scheduler/src/scheduler/batch/engine.py:129-264 | a placement succeeds exactly when the request is in no batch, the global count is below the limit, and the live batch of the model, if any, has room and is active or within its window; it keeps the invariant either way |
| `BatchEngineInvariant.RetireIsExact` | services/scheduler/src/scheduler/batch/engine.py:266-326 | for every status, retiring a request that was never batched is refused, and any other is retired, however often it was before, with its batch failed or completed where that is due; the invariant is kept unless the status is ACTIVE |
| `BatchEngineInvariant.IndexIsSearch` | services/scheduler/src/scheduler/batch/engine.py:99-107 | the index lookup for a model finds a batch exactly when the model has a live one |
| `BatchEngineInvariant.ScanIsRedundant` | services/scheduler/src/scheduler/batch/engine.py:328-346 | under the invariant the result of the lookup with the scan equals the result without it |
| `BatchEngineInvariant.SumPartition` | services/scheduler/src/scheduler/batch/inspection.py:41-73 | the four status totals add up to the number of members |
| `BatchEngineInvariant.LiveCountIsIndexSize` | services/scheduler/src/scheduler/batch/inspection.py:41-46 | counting the filling and active batches one by one gives the size of the model index |
| `BatchEngineTheorems.ReplacementReusesSlot` | services/scheduler/src/scheduler/batch/service.py:65-73 | in a full active batch of at least two, replacing an active member by an unbatched item of the same model places the item in the same batch at exactly the slot set free |
| `BatchEngineTheorems.FreedSlotIsNext` | services/scheduler/src/scheduler/batch/engine.py:458-463 | after one retirement from a full batch the next slot is the one set free |
| `BatchEngineTheorems.ActivationMoment` | services/scheduler/src/scheduler/batch/engine.py:395-417 | a placement takes a batch from filling to active only when the batch is full or the clock reads exactly the end of its window |
| `BatchEngineTheorems.ClosedWindowBlocksModel` | services/scheduler/src/scheduler/batch/admission.py:48-77 | a filling batch whose window has passed makes every placement of its model be refused |
| `BatchEngineTheorems.LateBatchStaysFilling` | services/scheduler/src/scheduler/batch/engine.py:395-456 | over a run in which all placements of its model read the clock past the end of its window, a filling batch is still filling, however many of its members have completed, exactly if no member of it was retired as failed |
| `BatchEngineTheorems.ClosedWindowLocksModel` | services/scheduler/src/scheduler/batch/admission.py:48-77 | so over such a run every placement of the model is refused and changes nothing until a member of the batch has failed |
| `BatchEngine.ActiveRequestSet.AddRequest` | services/scheduler/src/scheduler/batch/active_set.py:16-19 | a member with a new id is appended, one with an id in the set is refused and changes nothing |
| `BatchEngine.ActiveRequestSet.SetStatus` | services/scheduler/src/scheduler/batch/active_set.py:44-49 | exactly the member with this id takes the status; without one, nothing changes |
| `BatchEngine.ActiveRequestSet.ListActive` | services/scheduler/src/scheduler/batch/active_set.py:32-42 | the active members in order, as many as the active count says |
| `BatchEngine.ContinuousBatchEngine.FindAdmittableBatch` | services/scheduler/src/scheduler/batch/engine.py:328-346 | the record returned is registered under its own id and is the one that the lookup on the abstract state finds |
| `BatchEngine.ContinuousBatchEngine.ActiveFullBatch` | services/scheduler/src/scheduler/batch/engine.py:348-359 | likewise for the full active batch of a model |
| `BatchEngine.ContinuousBatchEngine.GlobalActiveCount` | services/scheduler/src/scheduler/batch/engine.py:465-466 | the loop over all member sets gives the sum of the active counts |
| `BatchEngine.ContinuousBatchEngine.NextSlotIndex` | services/scheduler/src/scheduler/batch/engine.py:458-463 | the loop ends at the least index that no active member uses |
| `BatchEngine.ContinuousBatchEngine.CreateBatch` | services/scheduler/src/scheduler/batch/engine.py:361-393 | the dictionaries gain one new filling batch that the index points to, created now and with its window ending windowMs later, and nothing else changes |
| `BatchEngine.ContinuousBatchEngine.AddMember` | services/scheduler/src/scheduler/batch/engine.py:205-264 | after the writes to the record, the set and three dictionaries the abstract state is the joined state, with the slot chosen before the join |
| `BatchEngine.ContinuousBatchEngine.CheckItem` | services/scheduler/src/scheduler/batch/engine.py:129-199 | the checks in program order reach the verdict of the specification and leave the state alone |
| `BatchEngine.ContinuousBatchEngine.PlaceSelected` | services/scheduler/src/scheduler/batch/engine.py:68-70 | from a valid state the call raises nothing, and new state and outcome are those of the placement specification, which are also given field by field |
| `BatchEngine.ContinuousBatchEngine.RetireRequest` | services/scheduler/src/scheduler/batch/engine.py:266-326 | from a valid state and for every status the call raises nothing, and new state and outcome are those of the retirement specification, which are also given field by field; the state stays valid unless the status is ACTIVE |
| `BatchEngine.ContinuousBatchEngine.CompleteBatch` | services/scheduler/src/scheduler/batch/engine.py:419-436 | a batch that may complete becomes completed at this time and leaves the index; a terminal one stays; for any other an invalid transition is raised and nothing changes |
| `BatchEngine.ContinuousBatchEngine.FailBatch` | services/scheduler/src/scheduler/batch/engine.py:438-456 | a batch that may fail becomes failed with its reason and leaves the index; a terminal one stays; for any other an invalid transition is raised and nothing changes |
| `BatchEngine.ContinuousBatchEngine.ReplaceRequest` | services/scheduler/src/scheduler/batch/service.py:65-73 | completes the member, then places the item unless that failed |
| `BatchEngine.ContinuousBatchEngine.GetBatchAssignments` | services/scheduler/src/scheduler/batch/engine.py:117-127 | the stored assignments of the active members, in member order |
| `BatchEngine.ContinuousBatchEngine.GetBatchStatistics` | services/scheduler/src/scheduler/batch/inspection.py:41-73 | all seven counters are the numbers of batches and of requests they are named for; the live batches are as many as the index has entries, and the member totals account for every request ever placed |
| `Delivery.DeliveredAtMostOnce` | services/scheduler/src/scheduler/dispatch/submitter.py:34-113 | over any run of engine operations and non-overlapping dispatches, a request is in at most one accepted dispatch and at one position of it |
| `Delivery.DeliveryRunInv` | services/scheduler/src/scheduler/dispatch/submitter.py:34-113 | every reachable state of engine and deliveries keeps: accepted batches are distinct and submitted, each request in a payload belongs to that batch, and no payload repeats a request |
| `Delivery.PayloadIsComplete` | services/scheduler/src/scheduler/batch/engine.py:117-127 | a payload has as many entries as its batch has active members, and holds the assignment of each |
| `DispatchRules.PayloadOfBatch` | services/scheduler/src/scheduler/batch/engine.py:117-127 | in a reachable engine a payload holds the assignments of exactly the active members, in the order of the members, each with the id and the slot of its member |
| `DispatchRules.AcceptedAreLargeEnough` | services/scheduler/src/scheduler/dispatch/submitter.py:36-49 | over any run every accepted dispatch has an entry, and at least the configured least number of entries where one is set |
| `DispatchRules.PassAttemptsReady` | services/scheduler/src/scheduler/dispatch/submitter.py:34-54 | one pass gives a result for exactly the batches that were not submitted, are filling, ready or active, and have an active member and the configured least number of them; each is attempted once, in the order listed, and exactly the accepted ones are marked submitted |
| `DispatchRules.SearchWithoutAcceptor` | services/scheduler/src/scheduler/dispatch/submitter.py:62-125 | a search that nobody accepts names the last backend and its message if that one raised, and else the default backend and the error of the exhausted routing |
| `DispatchRules.AttemptWithoutRouter` | services/scheduler/src/scheduler/dispatch/submitter.py:62-125 | without a router the default backend is asked once, and its answer or its exception is the result |
| `DispatchRules.AttemptWithoutBackend` | services/scheduler/src/scheduler/dispatch/submitter.py:62-86 | a batch for which routing offers no backend fails with the text of the routing, and a batch with nothing to send gives no result |
| `Delivery.LateJoinerIsNeverDelivered` | services/scheduler/src/scheduler/dispatch/submitter.py:36-39 | a request that joins a batch after its dispatch was accepted is in no accepted dispatch, then or at any later time |
| `Delivery.JoinerInFlightIsNeverDelivered` | services/scheduler/src/scheduler/dispatch/submitter.py:34-54 | likewise a request that joins a batch while its dispatch is in flight, once the answer is an acceptance |
| `DispatchService.SearchFindsFirst` | services/scheduler/src/scheduler/dispatch/submitter.py:62-125 | trying backends in order is accepted exactly when some backend of the order accepts, and by the first that does |
| `DispatchService.TierDispatchIsLeastAcceptor` | services/scheduler/src/scheduler/dispatch/submitter.py:62-125 | under a tier policy a dispatch is accepted exactly when some backend of the tier accepts; then there is a least such id, and the batch goes to it |
| `DispatchService.RouteStep` | services/scheduler/src/scheduler/dispatch/submitter.py:65-78 | routing fails exactly when the trial order is exhausted; otherwise it gives the next backend of the order, which was not excluded |
| `DispatchService.SubmitOneIsOneDispatch` | services/scheduler/src/scheduler/dispatch/submitter.py:34-54 | a submission that passes the checks is one begin and one answer of the delivery protocol |
| `DispatchService.SubmitPendingKeepsInv` | services/scheduler/src/scheduler/dispatch/submitter.py:34-54 | submitting all pending batches keeps the delivery invariant, removes nothing from the record, and marks every accepted batch submitted |
| `DispatchService.BatchDispatchService.SubmitBatch` | services/scheduler/src/scheduler/dispatch/submitter.py:56-125 | the retry loop ends, calls the backends in trial order and none of them twice, all of them if none accepts, and returns the outcome of the search; only an accepted batch is marked |
| `DispatchService.BatchDispatchService.SubmitPendingBatches` | services/scheduler/src/scheduler/dispatch/submitter.py:34-54 | the loop over the batches gives the results, the submitted set and the accepted dispatches of the specification, and leaves the engine alone |
| `Routing.SelectIsBest` | services/control-plane/src/control_plane/routing/policies.py:63-218 | each policy succeeds exactly when an unexcluded, healthy, supporting backend meets its rule, and picks the most preferred of them |
| `Routing.SelectIgnoresOrder` | services/control-plane/src/control_plane/routing/policies.py:34-60 | the pick depends on which backends the snapshot holds, not on their order or repetition |
| `Routing.TrialOrderSpec` | services/control-plane/src/control_plane/routing/policies.py:41-43 | routing again and again with each pick excluded enumerates exactly the backends that meet the rule, each once, the most preferred first |
| `Routing.StringOrder` | services/control-plane/src/control_plane/routing/policies.py:150 | the order of backend ids compares the first characters that differ, and puts a prefix first |
| `Routing.RouteNamesPolicy` | services/control-plane/src/control_plane/routing/policies.py:66-218 | a route names its policy, and says that the fallback was used exactly when it does not go to the backend of the model |
| `Routing.RouteFailureText` | services/control-plane/src/control_plane/routing/policies.py:66-218 | the text of a failed route, for each policy and tier |
| `Routing.NamedTrialsAreFew` | services/control-plane/src/control_plane/routing/policies.py:63-218 | an explicit route has at most one backend to try, a fallback route at most two |
| `Routing.FilterCandidates` | services/control-plane/src/control_plane/routing/policies.py:34-56 | the loop gives one candidate for each unexcluded backend, in order |
| `Routing.SelectExplicit` | services/control-plane/src/control_plane/routing/policies.py:66-91 | the search over the candidates gives the explicit route of the specification |
| `Routing.SelectFallback` | services/control-plane/src/control_plane/routing/policies.py:170-218 | the two searches give the fallback route of the specification: the primary backend, else the fallback backend |
| `Sorting.SortSpec` | services/scheduler/src/scheduler/policies/fifo.py:25-31 | the result of the sort is a sorted, stable permutation of its input |
| `Policies.SelectionSpec` | services/scheduler/src/scheduler/policies/base.py:39-75 | for every key: selected followed by skipped is a sorted, stable permutation of the candidates, the selection has min(limit, n) elements, and no skipped candidate ranks before a selected one |
| `Policies.BuildDecisions` | services/scheduler/src/scheduler/policies/base.py:39-75 | one decision for each candidate in order, selected while the limit lasts, and the two lists of ids |
| `PolicyRules.CycleFollowsRule` | services/scheduler/src/scheduler/policies/base.py:39-75 | whichever policy is configured, the scanned items have an order in which its rule, written out over the queue items, decides every pair, and the first of them up to the limit are selected: queue order; fewest tokens; highest pressure; or least served per weight and then longest wait, with ties going to the earlier in the queue |
| `PolicyRules.RunFollowsRule` | services/scheduler/src/scheduler/loop/cycle.py:76-126 | a whole cycle reports its ids in that order, with the reason that its placements and rejections give |
| `PolicyRules.ShortestJobsAreSelected` | services/scheduler/src/scheduler/policies/shortest_job_first.py:23-40 | under shortest job first no skipped item needs fewer tokens than a selected one, and of equal ones the earlier in the queue is selected |
| `PolicyRules.SelectedComesSooner` | services/scheduler/src/scheduler/policies/base.py:39-75 | under any policy a selected item comes sooner by the rule than a skipped one |
| `PolicyRules.FairSelection` | services/scheduler/src/scheduler/policies/fairness.py:68-82 | no class of a selected candidate was served more per weight than that of a skipped one; within a class no candidate that waited longer, or equally long at an earlier position, is skipped |
| `PolicyRules.CycleCounts` | services/scheduler/src/scheduler/policies/fairness.py:62-66 | after a cycle the fairness policy has counted each class once more for each selected item of the class, and no other policy counts anything |
| `PolicyRules.CandidateOfItem` | services/scheduler/src/scheduler/queue/reader.py:34-68 | the candidate of a scanned item has its waiting time, its age, its estimate of tokens, and the class asked for, or else the class in the queue |
| `Policies.FifoKeepsQueueOrder` | services/scheduler/src/scheduler/policies/fifo.py:19-31 | on the output of the queue reader the FIFO policy selects the first min(limit, n) items in queue order |
| `Policies.LatencyAwareIsFifo` | services/scheduler/src/scheduler/policies/latency_aware.py:44-64 | the latency-aware policy leaves the whole order of the queue alone exactly when, between neighbours, the clock advances by no more than their entry and arrival times are apart, weighted by the objectives |
| `Policies.LatencySelectsLikeFifo` | services/scheduler/src/scheduler/policies/latency_aware.py:44-64 | for each limit the two policies select the same ids exactly when the clock keeps that pace over the first min(limit, n) items and no later item scores above the last of them |
| `Policies.LatencyAlwaysSelectsLikeFifo` | services/scheduler/src/scheduler/policies/latency_aware.py:44-64 | they select the same ids for every limit exactly when the clock keeps pace over the whole queue |
| `Policies.SteadyClockIsFifo` | services/scheduler/src/scheduler/policies/latency_aware.py:44-64 | if the clock reads the same for every item, non-decreasing entry and arrival times are enough for the two policies to select the same ids |
| `Policies.MovingClockReorders` | services/scheduler/src/scheduler/queue/reader.py:39-42 | with a clock that moves during the scan they can differ at limit one: of two items that tie in every time, the later one is selected |
| `Fairness.FairnessPolicy.Evaluate` | services/scheduler/src/scheduler/policies/fairness.py:68-90 | the ids are those of the order by the counts before the call, and the counts afterwards record exactly the selected candidates; there is one decision for each candidate, with its reason |
| `Fairness.FairnessPolicy.RecordSelections` | services/scheduler/src/scheduler/policies/fairness.py:62-66 | each selected candidate adds one to the count of its class |
| `Fairness.SelectedClassIsNotAhead` | services/scheduler/src/scheduler/policies/fairness.py:68-82 | while class j offers as many candidates as may be selected, no class that was served more per weight is selected from |
| `Fairness.BackloggedClassKeepsUp` | services/scheduler/src/scheduler/policies/fairness.py:57-90 | over any run of calls in which class j is backlogged, no class leads it by more than at the start, or than limit / weight |
| `Fairness.FreshLeadBound` | services/scheduler/src/scheduler/policies/fairness.py:57-90 | from a fresh policy count_i / w_i - count_j / w_j <= k / w_i, where class j is backlogged and k is the largest limit |
| `Fairness.EverySlotIsUsed` | services/scheduler/src/scheduler/policies/fairness.py:83-90 | with a backlogged class the counts add up to the sum of the limits |
| `Fairness.ProportionalShare` | services/scheduler/src/scheduler/policies/fairness.py:57-90 | a backlogged class receives at least its weighted share of everything selected, less twice the largest limit, for each of the three classes with its own weight written out |
| `Fairness.NoBackloggedClassStarves` | services/scheduler/src/scheduler/policies/fairness.py:57-90 | over N calls with the same limit k, count_j times the total weight is at least w_j * k * (N - 2), for each of the three classes with its own weight written out |
| `WaitingQueueSpec.QueueRunInv` | services/control-plane/src/control_plane/queue/waiting_queue.py:36-133 | after any operations the queue is within its size, holds no id twice, and is the order-preserving subsequence of the enqueue history that still waits |
| `WaitingQueueSpec.FatesStayMet` | services/control-plane/src/control_plane/queue/waiting_queue.py:68-128 | history is only appended to, and an entry that was dequeued, removed or expired stays so |
| `WaitingQueueSpec.QueueConservation` | services/control-plane/src/control_plane/queue/waiting_queue.py:36-128 | everything ever enqueued is waiting, dequeued, removed or expired, and the counts add up |
| `WaitingQueueSpec.FatesAreOutcomes` | services/control-plane/src/control_plane/queue/waiting_queue.py:36-128 | over any run each step gives a waiting entry the fate that its outcome says: expired if it waited longer than the timeout, dequeued if it is the item returned, removed if its id is named or all are cleared, and else none |
| `WaitingQueueSpec.DequeuedInOrder` | services/control-plane/src/control_plane/queue/waiting_queue.py:68-75 | over any run entries are dequeued in the order in which they were enqueued |
| `WaitingQueueSpec.EnqueueReturns` | services/control-plane/src/control_plane/queue/waiting_queue.py:36-66 | an enqueue drops what waited longer than the timeout, then turns away an id still there, then a full queue, and else puts the item last, at the position that is the new size |
| `WaitingQueueSpec.DequeueReturns` | services/control-plane/src/control_plane/queue/waiting_queue.py:68-75 | a dequeue drops what waited longer than the timeout and returns the first of the rest |
| `WaitingQueueSpec.RemovalReturnsItem` | services/control-plane/src/control_plane/queue/waiting_queue.py:92-99 | a removal takes out the first item with the id and returns it, and without one changes nothing |
| `WaitingQueueSpec.TimelyRunInv` | services/control-plane/src/control_plane/queue/waiting_queue.py:116-128 | under a clock that does not go back the entry times in the queue never decrease |
| `WaitingQueueSpec.ExpiryIsPrefixOfRun` | services/control-plane/src/control_plane/queue/waiting_queue.py:116-128 | under such a clock expiry takes exactly a prefix of the queue |
| `WaitingQueueSpec.ExpiryIsPrefixIffSorted` | services/control-plane/src/control_plane/queue/waiting_queue.py:116-128 | in any queue without repetitions expiry takes a prefix at every reading of the clock exactly when the entry times never decrease |
| `WaitingQueueSpec.ClockGoingBackExpiresSecond` | services/control-plane/src/control_plane/queue/waiting_queue.py:116-128 | a clock that goes back between two enqueues leads to a queue of which, a timeout later, the second item expires and the first does not |
| `WaitingQueue.QueueOperations.ReindexPositions` | services/control-plane/src/control_plane/queue/waiting_queue.py:130-133 | afterwards the positions are 1 to n, on the queue records and on the registered requests |
| `WaitingQueue.QueueOperations.SplitOverdue` | services/control-plane/src/control_plane/queue/waiting_queue.py:116-125 | the loop puts exactly the items that waited longer than the timeout in one list and the others in the other, in order |
| `WaitingQueue.QueueOperations.ExpireTimeouts` | services/control-plane/src/control_plane/queue/waiting_queue.py:112-128 | the queue becomes what remains, what expired is returned, and positions are 1 to n |
| `WaitingQueue.QueueOperations.Enqueue` | services/control-plane/src/control_plane/queue/waiting_queue.py:36-66 | expiry comes first; then a duplicate id is refused, then a full queue, and else the item joins at the end with the next position; positions stay 1 to n |
| `WaitingQueue.QueueOperations.Dequeue` | services/control-plane/src/control_plane/queue/waiting_queue.py:68-75 | expiry comes first; the head is returned and positions are 1 to n again |
| `WaitingQueue.QueueOperations.Peek` | services/control-plane/src/control_plane/queue/waiting_queue.py:77-82 | expiry comes first; the head is returned and stays |
| `WaitingQueue.QueueOperations.Remove` | services/control-plane/src/control_plane/queue/waiting_queue.py:92-99 | the first item with the id is returned and left out, without an expiry; positions are 1 to n again |
| `WaitingQueue.QueueOperations.Clear` | services/control-plane/src/control_plane/queue/waiting_queue.py:101-105 | the queue is empty and its former size is returned |
| `WaitingQueue.QueueOperations.ListItems` | services/control-plane/src/control_plane/queue/waiting_queue.py:107-110 | expiry comes first; the listing is the queue |
| `RequestStates.TerminalHasNoWayOut` | services/control-plane/src/control_plane/lifecycle/transitions.py:85-95 | a state has no allowed transition exactly when it is terminal |
| `RequestStates.HistoriesAreShort` | services/control-plane/src/control_plane/lifecycle/transitions.py:7-82 | no history that follows the table has more than nine changes |
| `RequestStates.NineChangesHappen` | services/control-plane/src/control_plane/lifecycle/transitions.py:7-82 | some history that follows the table has nine changes |
| `RequestStates.EntriesIntoStates` | services/control-plane/src/control_plane/lifecycle/transitions.py:7-95 | the table read by target: from which states each one can be entered |
| `LifecycleSpec.WritesFollowTable` | services/control-plane/src/control_plane/lifecycle/manager.py:99-156 | every state written by register, transition, run_admission, enqueue_from_admitted and complete_request, checked or not, is an edge of the table, and no entry is lost |
| `LifecycleSpec.AtMostNineChanges` | services/control-plane/src/control_plane/lifecycle/manager.py:99-225 | over any run of these with fresh ids a request changes state at most nine times |
| `LifecycleSpec.TerminalIsAbsorbing` | services/control-plane/src/control_plane/lifecycle/manager.py:99-225 | over any such run a request in a terminal state stays in it |
| `LifecycleSpec.MarkFailedFollowsTable` | services/control-plane/src/control_plane/lifecycle/manager.py:158-182 | mark_failed moves along the table exactly when the state was neither terminal nor VALIDATED |
| `LifecycleSpec.MarkFailedOverwritesCompleted` | services/control-plane/src/control_plane/lifecycle/manager.py:179-182 | mark_failed turns COMPLETED into FAILED |
| `LifecycleSpec.TimeoutsFollowTable` | services/control-plane/src/control_plane/queue/service.py:137-158 | process_timeouts times out exactly the expired requests, and follows the table exactly when each was QUEUED, SCHEDULED, PREFILLING or DECODING, or timed out already |
| `LifecycleSpec.StreamedRequestCompletes` | services/api-gateway/src/api_gateway/runtime/orchestrator.py:105-122 | from SUBMITTED the calls of the streaming path raise nothing and end COMPLETED with the completion recorded |
| `LifecycleSpec.LiveRequestCancels` | services/control-plane/src/control_plane/lifecycle/manager.py:119-137 | a request can be cancelled exactly when it is not terminal, so also when SUBMITTED or STREAMING; the ids passed are written either way |
| `LifecycleRules.RegistrationOutcome` | services/control-plane/src/control_plane/lifecycle/manager.py:99-117 | a request enters the registry RECEIVED or VALIDATED and bare; any other state, and a registry at its limit, are refused without a change |
| `LifecycleRules.AdmissionOutcome` | services/control-plane/src/control_plane/lifecycle/manager.py:139-156 | admission decides VALIDATED requests and raises for any other; a refusal without a text has a default one |
| `LifecycleRules.EnqueueOutcome` | services/control-plane/src/control_plane/queue/service.py:50-112 | an ADMITTED request raises if its id is in the queue, is rejected if the queue is full, and else is QUEUED behind the others, entering now, in the class it asked for or else the default one |
| `LifecycleRules.CompletionOutcome` | services/control-plane/src/control_plane/lifecycle/manager.py:184-225 | a request is completed exactly from SUBMITTED and STREAMING, although the table has an edge from DECODING too |
| `LifecycleRules.FailureOutcome` | services/control-plane/src/control_plane/lifecycle/manager.py:158-182 | a registered request is failed from any state, with the reason and the ids passed |
| `LifecycleRules.TimeoutOutcome` | services/control-plane/src/control_plane/queue/service.py:137-158 | a request whose item waited longer than the timeout ends TIMED_OUT with that reason and text, and keeps the rest of its entry |
| `LifecycleRules.ResubmissionFails` | services/control-plane/src/control_plane/lifecycle/manager.py:47-97 | a second submission of an id that waits in the queue ends its new record FAILED, while the item keeps its place |
| `ControlPlane.InMemoryRequestRegistry.Register` | services/control-plane/src/control_plane/registry/memory.py:20-25 | a registry at its limit refuses; otherwise the record is entered under its id |
| `ControlPlane.QueueService.EnqueueFromAdmitted` | services/control-plane/src/control_plane/queue/service.py:50-112 | new state and error are those of the specification, and the queue keeps holding the records of the registry |
| `ControlPlane.QueueService.ProcessTimeouts` | services/control-plane/src/control_plane/queue/service.py:137-158 | the loop over the expired records gives the specified registry and queue |
| `ControlPlane.LifecycleManager.Register` | services/control-plane/src/control_plane/lifecycle/manager.py:99-117 | new state and error are those of the specification, also for an id that is registered already, whose record is replaced by a new object |
| `ControlPlane.LifecycleManager.Transition` | services/control-plane/src/control_plane/lifecycle/manager.py:119-137 | the ids are written before the check, the state only if the table allows it; the table is given state by state |
| `ControlPlane.LifecycleManager.RunAdmission` | services/control-plane/src/control_plane/lifecycle/manager.py:139-156 | only a VALIDATED request is decided on; a refusal is written directly as REJECTED |
| `ControlPlane.LifecycleManager.MarkFailed` | services/control-plane/src/control_plane/lifecycle/manager.py:158-182 | through the table where it allows it and past it otherwise, the entry ends FAILED with its reason and the batch and backend ids that were passed |
| `ControlPlane.LifecycleManager.CompleteRequest` | services/control-plane/src/control_plane/lifecycle/manager.py:184-225 | only a SUBMITTED or STREAMING request is completed, and the completion, if there is one, is recorded in its entry |
| `ControlPlane.LifecycleManager.ProcessThroughQueued` | services/control-plane/src/control_plane/lifecycle/manager.py:47-97 | timeouts, registration, validation, admission and queueing in order, with errors other than invalid transitions turned into a failed request |
| `LifecycleSpec.SubmittedIsRegistered` | services/control-plane/src/control_plane/lifecycle/manager.py:47-97 | where the path to the queue raises nothing the request is registered |
| `SchedulingCycle.CycleIsExact` | services/scheduler/src/scheduler/loop/cycle.py:76-126 | a cycle never fails; every selected id gives exactly one placement or one rejection, never for a missing item, and a placed id was in no batch before and is an active member now |
| `SchedulingCycle.PlacedOnlyOnce` | services/scheduler/src/scheduler/loop/cycle.py:101-120 | over all cycles of a run, with any engine operations between them, a request is placed at most once although nothing leaves the queue |
| `SchedulingCycle.PlaceStep` | services/scheduler/src/scheduler/loop/cycle.py:112-117 | one placement keeps the invariant, changes no existing member, and adds no batch but the new one |
| `SchedulingCycle.ItemByIdSpec` | services/scheduler/src/scheduler/loop/cycle.py:77 | the dictionary has an entry for exactly the ids of the items, and each entry has its own id |
| `SchedulingCycle.LaterItemWins` | services/scheduler/src/scheduler/loop/cycle.py:77 | of several items with the same id the last one is in the dictionary |
| `SchedulingCycle.SplitKeepsIds` | services/scheduler/src/scheduler/loop/cycle.py:99-117 | placements and rejections together have the ids of all outcomes |
| `CycleTurns.SelectionOfDistinct` | services/scheduler/src/scheduler/policies/base.py:39-75 | from a queue without repetitions no id is selected twice, and an id is skipped exactly when it was scanned and not selected |
| `CycleTurns.PlaceAllTurn` | services/scheduler/src/scheduler/loop/cycle.py:101-117 | the outcome at each position of a selection is the one that admissibility gives in the engine as the positions before it have left it |
| `CycleTurns.SelectedHasItsTurn` | services/scheduler/src/scheduler/loop/cycle.py:101-117 | the outcome of a selected request is found among the placements or among the rejections, as admissibility at its turn decides, and only there |
| `CycleRunner.SchedulingCycleRunner.Evaluate` | services/scheduler/src/scheduler/loop/cycle.py:80-83 | whichever policy is configured, the ids are those of its key, and only the fairness policy changes its counts; there is one decision for each candidate, with the reason of the policy |
| `CycleRunner.SchedulingCycleRunner.PlaceSelection` | services/scheduler/src/scheduler/loop/cycle.py:99-117 | the loop over the selection gives the engine state, the placements and the rejections of the specification |
| `CycleRunner.SchedulingCycleRunner.RunCycle` | services/scheduler/src/scheduler/loop/cycle.py:55-126 | new engine state, counts and result are those of the cycle specification, and nothing is raised |
| `PlatformRuns.PlatformRunInv` | services/api-gateway/src/api_gateway/runtime/orchestrator.py:31-60 | every state that any run of full paths with fresh ids reaches, with background cycles, timeouts, queue operations and failures between them, has the joint invariant of registry, queue, engine and deliveries |
| `PlatformRuns.RunStepDone` | services/api-gateway/src/api_gateway/runtime/orchestrator.py:31-210 | one step of such a run changes the entry of a registered request only by failing it, or by timing it out at a reading at which its item expires; only a full path adds an entry, its own; nothing reenters the queue; and active members of registered requests stay active |
| `PlatformRuns.CompletedEverywhere` | services/api-gateway/src/api_gateway/runtime/orchestrator.py:124-210 | over any run a COMPLETED entry names the batch of the engine, the adapter accepted a dispatch of that batch which contained the request, and the member is completed |
| `PlatformRuns.OneSubmittedPerBatch` | services/api-gateway/src/api_gateway/runtime/orchestrator.py:178-210 | whatever the size of a batch, over any run at most one request in it ever gets a backend id, that is, is ever SUBMITTED or COMPLETED |
| `PlatformRuns.CompletedApart` | services/api-gateway/src/api_gateway/runtime/orchestrator.py:178-210 | in particular two different COMPLETED entries never name the same batch |
| `PlatformRuns.EveryEntryRests` | services/api-gateway/src/api_gateway/runtime/orchestrator.py:31-60 | between calls every entry is QUEUED, SUBMITTED, COMPLETED, FAILED, TIMED_OUT or REJECTED |
| `PlatformRuns.SubmittedLostCompletion` | services/api-gateway/src/api_gateway/runtime/orchestrator.py:204-210 | between calls a request is SUBMITTED only if fetching the completion raised in its own path |
| `PlatformRuns.LaterOnlyEnds` | services/api-gateway/src/api_gateway/runtime/orchestrator.py:153-169 | once its path is over a request only times out or is failed: a skipped one stays QUEUED until then, and the rest of its entry never changes |
| `PlatformRuns.NeverCompletedLater` | services/api-gateway/src/api_gateway/runtime/orchestrator.py:153-169 | a request that its own path did not complete is never completed later, whatever cycles place it |
| `PlatformRuns.CompletedUntilOverwritten` | services/control-plane/src/control_plane/queue/service.py:137-158 | over any run a COMPLETED request is still COMPLETED exactly if no step in between failed it or read, to process timeouts, a time at which its item expires |
| `PlatformRuns.CompletedForGood` | services/control-plane/src/control_plane/queue/service.py:137-158 | once a COMPLETED request is out of the queue it stays COMPLETED exactly as long as no call fails it |
| `PlatformRuns.ListingDrops` | services/control-plane/src/control_plane/queue/waiting_queue.py:107-128 | an event that lists the queue, as a background cycle does, drops an overdue item without timing its request out |
| `PlatformRuns.ListingKeepsCompleted` | services/control-plane/src/control_plane/queue/waiting_queue.py:107-128 | so a listing that finds a COMPLETED request overdue makes COMPLETED permanent, but for calls that fail the request |
| `CompletionTimeouts.CompletionIsOverwritten` | services/control-plane/src/control_plane/queue/service.py:137-158 | a request completed by its path is still in the queue: timeouts processed on the state the path left turn COMPLETED into TIMED_OUT exactly when its waiting time is over, and else leave it |
| `FirstPath.FirstPathCompletes` | services/api-gateway/src/api_gateway/runtime/orchestrator.py:31-210 | where registry, queue, scan and selection have room, admission and the default backend accept, the item is listed in time and the completion is fetched, the first path of a platform ends COMPLETED |
| `FirstPath.FirstPathFails` | services/api-gateway/src/api_gateway/runtime/orchestrator.py:178-197 | where instead nothing is dispatched or the only backend does not accept, it ends FAILED and names its batch |
| `CompletionTimeouts.CompletedThenTimedOut` | services/control-plane/src/control_plane/queue/service.py:137-158 | a run of such a path and one call of process_timeouts in which the request is COMPLETED and then TIMED_OUT |
| `CompletionTimeouts.ListedThenCompleted` | services/control-plane/src/control_plane/queue/waiting_queue.py:107-128 | with one listing between the two the request stays COMPLETED |
| `MemberLeaks.MemberStaysActive` | services/api-gateway/src/api_gateway/runtime/orchestrator.py:153-197 | once the path of a request is over, its member, if active, stays active over the rest of the run |
| `MemberLeaks.UncompletedMemberLeaks` | services/api-gateway/src/api_gateway/runtime/orchestrator.py:153-197 | a request that its path placed without completing it keeps an active member over the rest of the run |
| `MemberLeaks.LateJoinerFailsButStays` | services/api-gateway/src/api_gateway/runtime/orchestrator.py:178-197 | a request whose path placed it in a batch submitted before ends FAILED as not dispatched and stays FAILED or times out, while its member stays active |
| `MemberLeaks.LeakedAreCounted` | services/scheduler/src/scheduler/batch/engine.py:465-466 | requests with an active member are at most as many as the global count says |
| `MemberLeaks.LeaksExhaustCapacity` | services/scheduler/src/scheduler/batch/admission.py:48-77 | once as many such members have accumulated as the global limit allows, every placement is refused over the rest of the run |
| `MemberLeaks.OneFailureExhaustsCapacity` | services/api-gateway/src/api_gateway/runtime/orchestrator.py:178-197 | with a global limit of one a single first path that nobody accepts has that effect |
| `RequestPathTheorems.FullPathKeepsInv` | services/api-gateway/src/api_gateway/runtime/orchestrator.py:31-60 | a full path keeps the joint invariant, leaves its request in exactly the entry that the room in registry and queue, the selection, the engine at its turn and the adapter give, writes no other entry but to time it out, and raises only where the registry is full or fetching the completion raises: never an invalid transition |
| `RequestPathOutcome.CompletedExactly` | services/api-gateway/src/api_gateway/runtime/orchestrator.py:31-210 | a full path ends COMPLETED exactly when there is room in the registry and the queue, admission accepts, the item is still listed and within the scan limit, the request is selected and admissible at its turn, its batch was not submitted before and is sent and accepted, and the completion is fetched |
| `RequestPathOutcome.ScheduledExact` | services/api-gateway/src/api_gateway/runtime/orchestrator.py:124-210 | the searches in the results of cycle and dispatch lead to the entry that the reference definition gives without them |
| `RequestPathOutcome.ScannedExactly` | services/scheduler/src/scheduler/queue/reader.py:30-42 | the item of the path is scanned exactly if it has not expired at the listing and the listed queue is within the scan limit |
| `RequestPathOutcome.FindsDispatch` | services/api-gateway/src/api_gateway/runtime/orchestrator.py:227-232 | over the pending batches, the result found for a batch is that of its one attempt in the state before, or none |
| `RequestPathOutcome.PathDispatch` | services/scheduler/src/scheduler/application.py:75-92 | the dispatch in a path is one pass over all batches in the order in which they were opened |
| `RequestPathOutcome.PathCounts` | services/scheduler/src/scheduler/loop/cycle.py:80-83 | after a path the fairness policy has counted the selection of its one cycle |
| `RequestPathInvariant.FinishPlacedForm` | services/api-gateway/src/api_gateway/runtime/orchestrator.py:171-210 | a queued request placed in a batch ends FAILED with the reason if the dispatch of the batch was not accepted, SUBMITTED if fetching the completion raises, and else COMPLETED with its completion; the batch id is written in each case, the backend id in the last two |
| `RequestPathInvariant.SubmitPendingDelivers` | services/api-gateway/src/api_gateway/runtime/orchestrator.py:178-180 | an accepted result for the batch of an active member means that the member was in an accepted dispatch |
| `RequestPathInvariant.SubmissionForm` | services/control-plane/src/control_plane/lifecycle/manager.py:47-97 | a fresh submission is turned away by a full registry, rejected by admission, rejected by a full queue, or queued last, with exactly this entry and queue; nothing else is written but the timeouts before it |
| `RequestPathInvariant.ScheduleKeepsInv` | services/scheduler/src/scheduler/loop/cycle.py:55-126 | a cycle keeps the joint invariant of the platform |
| `RequestPathInvariant.DispatchKeepsInv` | services/scheduler/src/scheduler/application.py:75-92 | the dispatch after a cycle keeps the joint invariant, and delivers every active member of a batch it reports accepted |
| `RequestPath.RequestPathOrchestrator.FindDecision` | services/api-gateway/src/api_gateway/runtime/orchestrator.py:213-224 | the search returns the first decision for the request |
| `RequestPath.RequestPathOrchestrator.FindDispatch` | services/api-gateway/src/api_gateway/runtime/orchestrator.py:227-232 | the search returns the first result for the batch |
| `RequestPath.RequestPathOrchestrator.RunSchedulingCycle` | services/scheduler/src/scheduler/application.py:75-92 | the cycle and then the dispatch of what is pending, in terms of their specifications; no object outside the scheduler is written |
| `RequestPath.RequestPathOrchestrator.FinalizeRequest` | services/api-gateway/src/api_gateway/runtime/orchestrator.py:124-210 | new registry, engine and error are those of the finalization specification |
| `RequestPath.RequestPathOrchestrator.ExecuteFullPath` | services/api-gateway/src/api_gateway/runtime/orchestrator.py:31-60 | for a request that is not waiting in the queue, registered before or not, the mutable services end in exactly the state, and with the error, of the full-path specification |

## Left out

- Failure injection: assumed disabled; it is there to break what is proved here.
- Locks, threads and the tick timer: a locked method is one step. Two calls of `submit_pending_batches` are assumed
  not to overlap, because an await separates their check from their mark; engine operations may run in between.
- `execute_full_path` is one step of a run of the platform; background cycles, timeouts and queue operations run
  between two paths, not inside one.
- Events, logs, spans, metrics and the trace store: they never feed back into a decision. The gauge of active batches
  is modelled by the number it is set to.
- `submit_batch_by_id`: it can deliver a batch twice.
- BatchEngineInvariant.RetireIsExact: says nothing of the invariant after a retirement with the status ACTIVE, which
  can exceed the global limit; the three callers never pass it.
- BatchEngine.ContinuousBatchEngine.RetireRequest: likewise gives the state after the status ACTIVE, but not as valid.
- `ActiveRequestSet.remove_request`, `replace_request` and `list_by_status`: nothing in the pipeline calls them.
- Aliasing of `BatchMember` objects: the engine's batch and its member set share member objects, which are values
  here that both lists hold; the invariant says that the two lists are equal.
- Backends and adapters: a backend is a function from batch and backend id to an answer or an exception. Health
  checks and token streams are not part of the model.
- The reason text of a failed route after a rejection: the router always gives an error text, so the text kept from
  the last rejection never shows.
- Float rounding: ratios, scores and weights are reals.
- ControlPlane.LifecycleManager.Register: for an id that is waiting in the queue the new state is given but not valid,
  because the queue then keeps the old record, which the registry no longer holds.
- ControlPlane.LifecycleManager.ProcessThroughQueued: an id that is waiting in the queue is left out, for that reason: a
  later timeout would write the old record, while the model knows one record for each id. `ResubmissionFails` gives the
  outcome of the call itself.
- RequestPath.RequestPathOrchestrator.ExecuteFullPath: an id that is waiting in the queue is left out likewise.
- Runs that use an id twice: runs of the lifecycle and of the platform assume fresh ids, as their statements say.
- Texts of error messages that contain an id or a nested exception: abbreviated to a constant.
- `updated_at`, correlation ids, queue names and the per-queue filter of the snapshot: carried along, never decided on.
- The streaming path: its steps are separated by yields to the client, and its cancel path retires nothing.
- HTTP gateway, request validation, persistence, replay, GPU estimates and benchmarks: input/output and reporting.
- The handler for exceptions inside a cycle: `CycleIsExact` shows that a cycle raises nothing.
- The scheduler's cycle state and process mode: written for inspection only.
