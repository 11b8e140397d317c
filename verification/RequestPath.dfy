/**
 The orchestrator of the full path on the mutable services; every method is proved equal to its operation on
 PlatformState.
 */
module RequestPath {
  import opened Wrappers
  import opened Schemas
  import opened RequestStates
  import opened Registry
  import opened WaitingQueueSpec
  import opened WaitingQueue
  import opened LifecycleSpec
  import opened ControlPlane
  import opened BatchModels
  import opened BatchEngineSpec
  import opened BatchEngineInvariant
  import opened SchedulingCycle
  import Fairness
  import opened CycleRunner
  import opened Delivery
  import opened DispatchService
  import opened RequestPathSpec

  class RequestPathOrchestrator {
    const cfg: PlatformConfig
    const lifecycle: LifecycleManager
    const runner: SchedulingCycleRunner
    const dispatch: BatchDispatchService

    constructor (cfg: PlatformConfig, lifecycle: LifecycleManager, runner: SchedulingCycleRunner,
                 dispatch: BatchDispatchService)
      requires lifecycle.Valid() && runner.Configured() && runner.engine.Valid()
      requires cfg.cycle == runner.cfg && cfg.lifecycle == lifecycle.queue.Config()
      requires cfg.dispatch.Some? ==> cfg.dispatch.value == dispatch.cfg
      ensures this.cfg == cfg && this.lifecycle == lifecycle && this.runner == runner && this.dispatch == dispatch
      ensures Valid()
    {
      this.cfg, this.lifecycle, this.runner, this.dispatch := cfg, lifecycle, runner, dispatch;
    }

    ghost predicate Configured() {
      && runner.Configured() && cfg.cycle == runner.cfg && cfg.lifecycle == lifecycle.queue.Config()
      && (cfg.dispatch.Some? ==> cfg.dispatch.value == dispatch.cfg)
    }

    ghost function DeliveryValue(): DeliveryState
      reads runner.engine, runner.engine.batches.Values, runner.engine.sets.Values, dispatch
    {
      DeliveryState(runner.engine.State(), dispatch.submittedBatchIds, None, dispatch.accepted)
    }

    ghost function State(): PlatformState
      reads lifecycle.queue.registry, lifecycle.queue.registry.entries.Values, lifecycle.queue.ops
      reads runner.engine, runner.engine.batches.Values, runner.engine.sets.Values, runner.fairness, dispatch
    {
      PlatformState(lifecycle.queue.State(), runner.fairness.selectionCounts, DeliveryValue())
    }

    ghost predicate Valid()
      reads lifecycle.registry, lifecycle.queue.registry, lifecycle.queue.ops, lifecycle.queue.ops.Records()
      reads lifecycle.queue.ops.QueuedEntries()
      reads runner.engine, runner.engine.batches.Values, runner.engine.sets.Values
    {
      Configured() && lifecycle.Valid() && runner.engine.Valid()
    }

    /** The queue as the scheduler reads it. */
    method ListQueueItems(now: Time) returns (items: seq<QueueItem>)
      requires lifecycle.Valid()
      modifies lifecycle.queue.ops, lifecycle.queue.ops.Records()`position
      modifies lifecycle.queue.ops.QueuedEntries()`queuePosition
      ensures lifecycle.Valid()
      ensures lifecycle.queue.State() == old(lifecycle.queue.State()).(queue := items)
      ensures items == Remaining(lifecycle.queue.ops.cfg, old(lifecycle.queue.State()).queue, now)
      ensures forall q :: q in lifecycle.queue.ops.items ==> q in old(lifecycle.queue.ops.items)
    {
      var listed := lifecycle.queue.ops.ListItems(now);
      lifecycle.registry.ValuesKept();
      items := QueueItems(listed);
    }

    lemma EngineIsListed()
      requires runner.engine.Valid()
      ensures runner.engine.Separate() && Listed(runner.engine.State())
    {
      assert Shape(runner.engine.State());
    }

    method DispatchPending(adapter: Adapter) returns (dispatches: seq<DispatchResult>)
      requires Configured() && runner.engine.Valid()
      modifies dispatch
      ensures runner.engine.Valid() && runner.engine.State() == old(runner.engine.State())
      ensures (dispatches, DeliveryValue()) == Dispatched(cfg, old(DeliveryValue()), adapter)
    {
      dispatches := [];
      if cfg.dispatch.Some? {
        EngineIsListed();
        dispatches := dispatch.SubmitPendingBatches(runner.engine, adapter);
        runner.engine.Untouched();
      }
    }

    /** A cycle writes no object outside the engine and the fairness counts. */
    method RunCycleOnly(items: seq<QueueItem>, x: CycleInputs, ghost others: set<object>) returns (result: CycleResult)
      requires Configured() && runner.engine.Valid() && |items| <= |x.newIds|
      requires FreshIds(runner.engine.State(), x.newIds)
      requires Outside(others)
      modifies runner.engine, runner.engine.batches.Values, runner.engine.sets.Values, runner.fairness
      ensures runner.engine.Valid() && runner.engine.Grown()
      ensures RunCycle(cfg.cycle, old(runner.State()), items, x) == Success((runner.State(), result))
      ensures forall o :: o in others ==> unchanged(o)
    {
      result := runner.RunCycle(items, x);
    }

    /** The scheduler's part of the path: a cycle over the items, then the dispatch of what is pending. */
    method RunSchedulingCycle(items: seq<QueueItem>, x: CycleInputs, adapter: Adapter, ghost others: set<object>)
      returns (result: CycleResult, dispatches: seq<DispatchResult>)
      requires Configured() && runner.engine.Valid() && |items| <= |x.newIds|
      requires FreshIds(runner.engine.State(), x.newIds)
      requires Outside(others)
      modifies runner.engine, runner.engine.batches.Values, runner.engine.sets.Values, runner.fairness, dispatch
      ensures runner.engine.Valid() && runner.engine.Grown()
      ensures ScheduleParts(cfg, old(DeliveryValue()), old(runner.fairness.selectionCounts), items, x, adapter,
                            DeliveryValue(), runner.fairness.selectionCounts, result, dispatches)
      ensures forall o :: o in others ==> unchanged(o)
    {
      result := RunCycleOnly(items, x, others);
      dispatches := DispatchPending(adapter);
    }

    /** None of these objects belongs to the scheduler. */
    ghost predicate Outside(others: set<object>)
      reads runner.engine
    {
      && runner.engine !in others && runner.fairness !in others && dispatch !in others
      && (forall b :: b in runner.engine.batches ==> runner.engine.batches[b] !in others)
      && (forall b :: b in runner.engine.sets ==> runner.engine.sets[b] !in others)
    }

    /** The two parts of the state that finalization touches are those of s. */
    ghost predicate Holds(s: PlatformState)
      reads lifecycle.queue.registry, lifecycle.queue.registry.entries.Values, lifecycle.queue.ops
      reads runner.engine, runner.engine.batches.Values, runner.engine.sets.Values
    {
      s.lifecycle == lifecycle.queue.State() && s.delivery.engine == runner.engine.State()
    }

    /** The scheduler and the control plane share no object. */
    lemma SchedulerIsApart()
      ensures Outside(lifecycle.Footprint())
    {
    }

    /** Completing a member writes no object outside the engine. */
    method CompleteMemberOnly(r: RequestId, completedAt: Time, ghost others: set<object>)
      returns (outcome: RetireOutcome)
      requires runner.engine.Valid() && Outside(others)
      modifies runner.engine, runner.engine.batches.Values, runner.engine.sets.Values
      ensures runner.engine.Valid()
      ensures Retire(old(runner.engine.State()), r, MemberCompleted, "request_completed", completedAt)
           == Success((runner.engine.State(), outcome))
      ensures forall o :: o in others ==> unchanged(o)
    {
      outcome := runner.engine.CompleteRequest(r, completedAt);
    }

    method CompleteInEngine(r: RequestId, completedAt: Time)
      requires lifecycle.Valid() && runner.engine.Valid()
      modifies runner.engine, runner.engine.batches.Values, runner.engine.sets.Values
      ensures lifecycle.Valid() && lifecycle.queue.State() == old(lifecycle.queue.State())
      ensures runner.engine.Valid()
      ensures runner.engine.State() == CompleteMember(old(runner.engine.State()), r, completedAt)
    {
      SchedulerIsApart();
      var outcome := CompleteMemberOnly(r, completedAt, lifecycle.Footprint());
      lifecycle.Untouched();
    }

    method CompleteInRegistry(r: RequestId, completion: Option<Completion>) returns (error: Option<LifecycleError>)
      requires lifecycle.Valid() && runner.engine.Valid()
      modifies lifecycle.registry.entries.Values`state, lifecycle.registry.entries.Values`batchId
      modifies lifecycle.registry.entries.Values`backendId, lifecycle.registry.entries.Values`failure
      modifies lifecycle.registry.entries.Values`completion
      ensures lifecycle.Valid() && runner.engine.Valid() && runner.engine.State() == old(runner.engine.State())
      ensures (lifecycle.queue.State(), error) == CompleteRequest(old(lifecycle.queue.State()), r, completion)
    {
      error := lifecycle.CompleteRequest(r, completion);
      runner.engine.Untouched();
    }

    method AdvancePlaced(r: RequestId, b: BatchId, outcome: Option<DispatchResult>)
      returns (error: Option<LifecycleError>)
      requires lifecycle.Valid()
      modifies lifecycle.registry.entries.Values`state, lifecycle.registry.entries.Values`batchId
      modifies lifecycle.registry.entries.Values`backendId, lifecycle.registry.entries.Values`failure
      ensures lifecycle.Valid()
      ensures (lifecycle.queue.State(), error)
           == RequestPathSpec.AdvancePlaced(old(lifecycle.queue.State()), r, b, outcome)
    {
      error := lifecycle.Transition(r, Scheduled, Some(b), None);
      if error.Some? {
        return;
      }
      error := lifecycle.Transition(r, Batched, None, None);
      if error.Some? {
        return;
      }
      if outcome.None? || !outcome.value.accepted {
        var reason := if outcome.Some? then outcome.value.reason else "batch_not_dispatched";
        error := lifecycle.MarkFailed(r, AdapterError, reason, Some(b), None);
        return;
      }
      error := lifecycle.Transition(r, Submitted, None, Some(outcome.value.backendId));
    }

    method AdvanceInRegistry(r: RequestId, b: BatchId, outcome: Option<DispatchResult>)
      returns (error: Option<LifecycleError>)
      requires lifecycle.Valid() && runner.engine.Valid()
      modifies lifecycle.registry.entries.Values`state, lifecycle.registry.entries.Values`batchId
      modifies lifecycle.registry.entries.Values`backendId, lifecycle.registry.entries.Values`failure
      ensures lifecycle.Valid() && runner.engine.Valid() && runner.engine.State() == old(runner.engine.State())
      ensures (lifecycle.queue.State(), error)
           == RequestPathSpec.AdvancePlaced(old(lifecycle.queue.State()), r, b, outcome)
    {
      error := AdvancePlaced(r, b, outcome);
      runner.engine.Untouched();
    }

    method CompleteBoth(r: RequestId, completion: Option<Completion>, completedAt: Time)
      returns (error: Option<LifecycleError>)
      requires lifecycle.Valid() && runner.engine.Valid()
      modifies lifecycle.registry.entries.Values`state, lifecycle.registry.entries.Values`batchId
      modifies lifecycle.registry.entries.Values`backendId, lifecycle.registry.entries.Values`failure
      modifies lifecycle.registry.entries.Values`completion
      modifies runner.engine, runner.engine.batches.Values, runner.engine.sets.Values
      ensures lifecycle.Valid() && runner.engine.Valid()
      ensures runner.engine.State() == CompleteMember(old(runner.engine.State()), r, completedAt)
      ensures (lifecycle.queue.State(), error) == CompleteRequest(old(lifecycle.queue.State()), r, completion)
    {
      CompleteInEngine(r, completedAt);
      error := CompleteInRegistry(r, completion);
    }

    method FinishPlaced(r: RequestId, b: BatchId, outcome: Option<DispatchResult>, fetched: Fetched, completedAt: Time,
                        ghost s: PlatformState)
      returns (error: Option<PathError>, ghost t: PlatformState)
      requires lifecycle.Valid() && runner.engine.Valid() && Holds(s)
      modifies lifecycle.registry.entries.Values`state, lifecycle.registry.entries.Values`batchId
      modifies lifecycle.registry.entries.Values`backendId, lifecycle.registry.entries.Values`failure
      modifies lifecycle.registry.entries.Values`completion
      modifies runner.engine, runner.engine.batches.Values, runner.engine.sets.Values
      ensures lifecycle.Valid() && runner.engine.Valid() && Holds(t)
      ensures (t, error) == RequestPathSpec.FinishPlaced(s, r, b, outcome, fetched, completedAt)
    {
      t := RequestPathSpec.FinishPlaced(s, r, b, outcome, fetched, completedAt).0;
      var raised := AdvanceInRegistry(r, b, outcome);
      if raised.Some? {
        return Some(LifecycleRaised(raised.value)), t;
      }
      if outcome.None? || !outcome.value.accepted {
        return None, t;
      }
      if fetched.Raises? {
        return Some(CompletionRaised), t;
      }
      raised := CompleteBoth(r, fetched.completion, completedAt);
      error := if raised.Some? then Some(LifecycleRaised(raised.value)) else None;
    }

    static method FindDecision(outcomes: seq<PlaceOutcome>, r: RequestId) returns (found: Option<PlaceOutcome>)
      ensures found == FindOutcome(outcomes, r)
    {
      for i := 0 to |outcomes|
        invariant FindOutcome(outcomes, r) == FindOutcome(outcomes[i..], r)
      {
        if outcomes[i].requestId == r {
          return Some(outcomes[i]);
        }
      }
      return None;
    }

    static method FindDispatch(results: seq<DispatchResult>, b: BatchId) returns (found: Option<DispatchResult>)
      ensures found == RequestPathSpec.FindDispatch(results, b)
    {
      for i := 0 to |results|
        invariant RequestPathSpec.FindDispatch(results, b) == RequestPathSpec.FindDispatch(results[i..], b)
      {
        if results[i].batchId == b {
          return Some(results[i]);
        }
      }
      return None;
    }

    method FailInRegistry(r: RequestId, reason: FailureReason, message: string) returns (error: Option<PathError>)
      requires lifecycle.Valid() && runner.engine.Valid()
      modifies lifecycle.registry.entries.Values`state, lifecycle.registry.entries.Values`batchId
      modifies lifecycle.registry.entries.Values`backendId, lifecycle.registry.entries.Values`failure
      ensures lifecycle.Valid() && runner.engine.Valid() && runner.engine.State() == old(runner.engine.State())
      ensures var outcome := MarkFailed(old(lifecycle.queue.State()), r, reason, message, None, None);
        && lifecycle.queue.State() == outcome.0
        && error == if outcome.1.Some? then Some(LifecycleRaised(outcome.1.value)) else None
    {
      var raised := lifecycle.MarkFailed(r, reason, message, None, None);
      runner.engine.Untouched();
      error := if raised.Some? then Some(LifecycleRaised(raised.value)) else None;
    }

    /** Finalization once the three searches have been made. */
    method FinalizeFound(r: RequestId, rejection: Option<PlaceOutcome>, placement: Option<PlaceOutcome>,
                         outcome: Option<DispatchResult>, skipped: bool, fetched: Fetched, completedAt: Time,
                         ghost s: PlatformState)
      returns (error: Option<PathError>, ghost t: PlatformState)
      requires lifecycle.Valid() && runner.engine.Valid() && Holds(s)
      modifies lifecycle.registry.entries.Values`state, lifecycle.registry.entries.Values`batchId
      modifies lifecycle.registry.entries.Values`backendId, lifecycle.registry.entries.Values`failure
      modifies lifecycle.registry.entries.Values`completion
      modifies runner.engine, runner.engine.batches.Values, runner.engine.sets.Values
      ensures lifecycle.Valid() && runner.engine.Valid() && Holds(t)
      ensures (t, error) == FinalizeWith(s, r, rejection, placement, outcome, skipped, fetched, completedAt)
    {
      t := s;
      if rejection.Some? {
        error := FailInRegistry(r, AdapterError, if rejection.value.Rejected? then rejection.value.reason else "");
        t := s.(lifecycle := lifecycle.queue.State());
      } else if placement.Some? && placement.value.Placed? {
        error, t := FinishPlaced(r, placement.value.batchId, outcome, fetched, completedAt, s);
      } else if placement.Some? {
        error := None;
      } else if skipped {
        error := if r in lifecycle.registry.entries then None else Some(LifecycleRaised(NotFound(r)));
      } else {
        error := FailInRegistry(r, InternalError, "scheduler_did_not_select_request");
        t := s.(lifecycle := lifecycle.queue.State());
      }
    }

    static method FindAll(r: RequestId, result: CycleResult, dispatches: seq<DispatchResult>)
      returns (rejection: Option<PlaceOutcome>, placement: Option<PlaceOutcome>, outcome: Option<DispatchResult>)
      ensures rejection == FindOutcome(result.rejections, r) && placement == FindOutcome(result.placements, r)
      ensures outcome == if placement.Some? && placement.value.Placed?
                         then RequestPathSpec.FindDispatch(dispatches, placement.value.batchId) else None
    {
      rejection := FindDecision(result.rejections, r);
      placement := FindDecision(result.placements, r);
      outcome := None;
      if placement.Some? && placement.value.Placed? {
        outcome := FindDispatch(dispatches, placement.value.batchId);
      }
    }

    method FinalizeRequest(r: RequestId, result: CycleResult, dispatches: seq<DispatchResult>, fetched: Fetched,
                           completedAt: Time, ghost s: PlatformState)
      returns (error: Option<PathError>, ghost t: PlatformState)
      requires lifecycle.Valid() && runner.engine.Valid() && Holds(s)
      modifies lifecycle.registry.entries.Values`state, lifecycle.registry.entries.Values`batchId
      modifies lifecycle.registry.entries.Values`backendId, lifecycle.registry.entries.Values`failure
      modifies lifecycle.registry.entries.Values`completion
      modifies runner.engine, runner.engine.batches.Values, runner.engine.sets.Values
      ensures lifecycle.Valid() && runner.engine.Valid() && Holds(t)
      ensures (t, error) == Finalize(s, r, result, dispatches, fetched, completedAt)
    {
      var rejection, placement, outcome := FindAll(r, result, dispatches);
      lifecycle.Untouched();
      runner.engine.Untouched();
      FinalizeIsWith(s, r, result, dispatches, rejection, placement, outcome, fetched, completedAt);
      error, t := FinalizeFound(r, rejection, placement, outcome, r in result.skipped, fetched, completedAt, s);
    }

    ghost function SchedulerObjects(): set<object>
      reads runner.engine
    {
      {runner.engine, runner.fairness, dispatch} + (set b | b in runner.engine.batches :: runner.engine.batches[b])
      + (set b | b in runner.engine.sets :: runner.engine.sets[b])
    }

    lemma ControlPlaneIsApart()
      ensures lifecycle.Outside(SchedulerObjects())
    {
    }

    twostate lemma SchedulerUnwritten()
      requires old(runner.engine.Valid()) && forall o :: o in old(SchedulerObjects()) ==> unchanged(o)
      ensures runner.engine.Valid() && DeliveryValue() == old(DeliveryValue())
      ensures runner.fairness.selectionCounts == old(runner.fairness.selectionCounts)
      ensures runner.engine.batches == old(runner.engine.batches) && runner.engine.sets == old(runner.engine.sets)
    {
      assert runner.engine in old(SchedulerObjects()) && runner.fairness in old(SchedulerObjects());
      assert dispatch in old(SchedulerObjects());
      forall b | b in runner.engine.batches ensures unchanged(runner.engine.batches[b]) {
        assert runner.engine.batches[b] in old(SchedulerObjects());
      }
      forall b | b in runner.engine.sets ensures unchanged(runner.engine.sets[b]) {
        assert runner.engine.sets[b] in old(SchedulerObjects());
      }
      runner.engine.Untouched();
    }

    /** The control plane's half of the path writes no object outside the control plane. */
    method SubmitOnly(x: Submission, ghost others: set<object>) returns (error: Option<LifecycleError>)
      requires lifecycle.Valid() && !Contains(lifecycle.queue.ops.Contents(), x.requestId) && lifecycle.Outside(others)
      modifies lifecycle.registry`entries, lifecycle.registry.entries.Values
      modifies lifecycle.queue.ops, lifecycle.queue.ops.Records()`position
      ensures lifecycle.Valid()
      ensures (lifecycle.queue.State(), error)
           == ProcessThroughQueued(lifecycle.queue.Config(), old(lifecycle.queue.State()), x)
      ensures forall o :: o in lifecycle.registry.entries.Values ==>
        o in old(lifecycle.registry.entries.Values) || fresh(o)
      ensures forall q :: q in lifecycle.queue.ops.items ==> q in old(lifecycle.queue.ops.items) || fresh(q)
      ensures forall o :: o in others ==> unchanged(o)
    {
      error := lifecycle.ProcessThroughQueued(x);
    }

    /** The control plane's half of the path writes nothing of the scheduler. */
    method QueueSubmission(x: Submission) returns (error: Option<LifecycleError>)
      requires lifecycle.Valid() && runner.engine.Valid() && !Contains(lifecycle.queue.ops.Contents(), x.requestId)
      modifies lifecycle.registry`entries, lifecycle.registry.entries.Values
      modifies lifecycle.queue.ops, lifecycle.queue.ops.Records()`position
      ensures lifecycle.Valid() && runner.engine.Valid() && DeliveryValue() == old(DeliveryValue())
      ensures runner.fairness.selectionCounts == old(runner.fairness.selectionCounts)
      ensures runner.engine.batches == old(runner.engine.batches) && runner.engine.sets == old(runner.engine.sets)
      ensures (lifecycle.queue.State(), error)
           == ProcessThroughQueued(lifecycle.queue.Config(), old(lifecycle.queue.State()), x)
      ensures error.None? ==> x.requestId in lifecycle.registry.entries
      ensures forall o :: o in lifecycle.registry.entries.Values ==>
        o in old(lifecycle.registry.entries.Values) || fresh(o)
      ensures forall q :: q in lifecycle.queue.ops.items ==> q in old(lifecycle.queue.ops.items) || fresh(q)
    {
      ControlPlaneIsApart();
      error := SubmitOnly(x, SchedulerObjects());
      SchedulerUnwritten();
      if error.None? {
        SubmittedIsRegistered(lifecycle.queue.Config(), old(lifecycle.queue.State()), x);
      }
    }

    /** The listing writes nothing of the scheduler. */
    method ListForScheduler(now: Time) returns (items: seq<QueueItem>)
      requires lifecycle.Valid() && runner.engine.Valid()
      modifies lifecycle.queue.ops, lifecycle.queue.ops.Records()`position
      modifies lifecycle.queue.ops.QueuedEntries()`queuePosition
      ensures lifecycle.Valid() && runner.engine.Valid() && DeliveryValue() == old(DeliveryValue())
      ensures runner.fairness.selectionCounts == old(runner.fairness.selectionCounts)
      ensures runner.engine.batches == old(runner.engine.batches) && runner.engine.sets == old(runner.engine.sets)
      ensures lifecycle.registry.entries == old(lifecycle.registry.entries)
      ensures lifecycle.queue.State() == old(lifecycle.queue.State()).(queue := items)
      ensures items == Remaining(lifecycle.queue.ops.cfg, old(lifecycle.queue.State()).queue, now)
      ensures forall q :: q in lifecycle.queue.ops.items ==> q in old(lifecycle.queue.ops.items)
    {
      items := ListQueueItems(now);
      runner.engine.Untouched();
    }

    /** The scheduler's half writes nothing of the control plane. */
    method ScheduleItems(items: seq<QueueItem>, x: CycleInputs, adapter: Adapter)
      returns (result: CycleResult, dispatches: seq<DispatchResult>)
      requires Configured() && lifecycle.Valid() && runner.engine.Valid()
      requires |items| <= |x.newIds| && FreshIds(runner.engine.State(), x.newIds)
      modifies runner.engine, runner.engine.batches.Values, runner.engine.sets.Values, runner.fairness, dispatch
      ensures lifecycle.Valid() && lifecycle.queue.State() == old(lifecycle.queue.State())
      ensures lifecycle.registry.entries == old(lifecycle.registry.entries)
      ensures runner.engine.Valid() && runner.engine.Grown()
      ensures ScheduleParts(cfg, old(DeliveryValue()), old(runner.fairness.selectionCounts), items, x, adapter,
                            DeliveryValue(), runner.fairness.selectionCounts, result, dispatches)
    {
      SchedulerIsApart();
      result, dispatches := RunSchedulingCycle(items, x, adapter, lifecycle.Footprint());
      lifecycle.Untouched();
    }

    /** The path of a queued request as far as finalization. */
    method ListAndSchedule(x: PathInputs, ghost s: PlatformState)
      returns (items: seq<QueueItem>, result: CycleResult, dispatches: seq<DispatchResult>)
      requires Configured() && lifecycle.Valid() && runner.engine.Valid() && s == State()
      requires |s.lifecycle.queue| <= |x.cycle.newIds| && FreshIds(s.delivery.engine, x.cycle.newIds)
      modifies lifecycle.queue.ops, lifecycle.queue.ops.Records()`position
      modifies lifecycle.queue.ops.QueuedEntries()`queuePosition
      modifies runner.engine, runner.engine.batches.Values, runner.engine.sets.Values, runner.fairness, dispatch
      ensures lifecycle.Valid() && runner.engine.Valid() && runner.engine.Grown()
      ensures lifecycle.registry.entries == old(lifecycle.registry.entries)
      ensures |items| <= |x.cycle.newIds| && items == ListQueue(cfg, s, x.listAt).lifecycle.queue
      ensures lifecycle.queue.State() == s.lifecycle.(queue := items)
      ensures ScheduleParts(cfg, s.delivery, s.counts, items, x.cycle, x.adapter,
                            DeliveryValue(), runner.fairness.selectionCounts, result, dispatches)
    {
      RemainingFits(cfg, s, x.listAt);
      items := ListForScheduler(x.listAt);
      result, dispatches := ScheduleItems(items, x.cycle, x.adapter);
    }

    /** Finalization in terms of the whole state. */
    method FinalizeWhole(r: RequestId, result: CycleResult, dispatches: seq<DispatchResult>, fetched: Fetched,
                         completedAt: Time, ghost s: PlatformState)
      returns (error: Option<PathError>)
      requires lifecycle.Valid() && runner.engine.Valid() && s == State()
      modifies lifecycle.registry.entries.Values`state, lifecycle.registry.entries.Values`batchId
      modifies lifecycle.registry.entries.Values`backendId, lifecycle.registry.entries.Values`failure
      modifies lifecycle.registry.entries.Values`completion
      modifies runner.engine, runner.engine.batches.Values, runner.engine.sets.Values
      ensures lifecycle.Valid() && runner.engine.Valid()
      ensures (State(), error) == Finalize(s, r, result, dispatches, fetched, completedAt)
    {
      ghost var t;
      error, t := FinalizeRequest(r, result, dispatches, fetched, completedAt, s);
      FinalizeTouches(s, r, result, dispatches, fetched, completedAt);
    }

    /** The half of the path from a queued request. */
    method ScheduleAndFinalize(x: PathInputs, ghost s: PlatformState) returns (error: Option<PathError>)
      requires Configured() && lifecycle.Valid() && runner.engine.Valid() && s == State()
      requires Supplied(cfg, s, x.cycle) && FreshIds(s.delivery.engine, x.cycle.newIds)
      modifies lifecycle.registry.entries.Values, lifecycle.queue.ops, lifecycle.queue.ops.Records()`position
      modifies runner.engine, runner.engine.batches.Values, runner.engine.sets.Values, runner.fairness, dispatch
      ensures lifecycle.Valid() && runner.engine.Valid()
      ensures Supplied(cfg, ListQueue(cfg, s, x.listAt), x.cycle)
      ensures (State(), error) == RequestPathSpec.ScheduleAndFinalize(cfg, s, x)
    {
      var items, result, dispatches := ListAndSchedule(x, s);
      runner.engine.GrownObjects();
      ghost var dispatched := State();
      PartsMakePath(cfg, s, x, items, result, dispatches, dispatched);
      error := FinalizeWhole(x.submission.requestId, result, dispatches, x.fetched, x.completedAt, dispatched);
    }

    /** The first half of the path, in terms of the whole state. */
    method SubmitToQueue(x: PathInputs, ghost s: PlatformState) returns (error: Option<PathError>)
      requires Valid() && s == State() && !Contains(s.lifecycle.queue, x.submission.requestId)
      modifies lifecycle.registry`entries, lifecycle.registry.entries.Values
      modifies lifecycle.queue.ops, lifecycle.queue.ops.Records()`position
      ensures Valid() && (State(), error) == AfterQueued(cfg, s, x) && State().delivery == s.delivery
      ensures error.None? ==> x.submission.requestId in lifecycle.registry.entries
      ensures runner.engine.batches == old(runner.engine.batches) && runner.engine.sets == old(runner.engine.sets)
      ensures forall o :: o in lifecycle.registry.entries.Values ==>
        o in old(lifecycle.registry.entries.Values) || fresh(o)
      ensures forall q :: q in lifecycle.queue.ops.items ==> q in old(lifecycle.queue.ops.items) || fresh(q)
    {
      var raised := QueueSubmission(x.submission);
      error := if raised.Some? then Some(LifecycleRaised(raised.value)) else None;
    }

    lemma RecordIsEntry(r: RequestId, s: PlatformState)
      requires s == State() && r in lifecycle.registry.entries && lifecycle.Valid()
      ensures StaysQueued(s, r) <==> lifecycle.registry.entries[r].state == RequestState.Queued
    {
      assert s.lifecycle.entries[r] == lifecycle.registry.entries[r].Value();
    }

    /** The second half of the path, unless the request is settled already. */
    method ContinueQueued(x: PathInputs, ghost s: PlatformState) returns (error: Option<PathError>)
      requires Configured() && lifecycle.Valid() && runner.engine.Valid() && s == State()
      requires x.submission.requestId in lifecycle.registry.entries
      requires Supplied(cfg, s, x.cycle) && FreshIds(s.delivery.engine, x.cycle.newIds)
      modifies lifecycle.registry.entries.Values, lifecycle.queue.ops, lifecycle.queue.ops.Records()`position
      modifies runner.engine, runner.engine.batches.Values, runner.engine.sets.Values, runner.fairness, dispatch
      ensures lifecycle.Valid() && runner.engine.Valid()
      ensures Supplied(cfg, ListQueue(cfg, s, x.listAt), x.cycle)
      ensures (State(), error)
           == if StaysQueued(s, x.submission.requestId) then RequestPathSpec.ScheduleAndFinalize(cfg, s, x)
              else (s, None)
    {
      RemainingFits(cfg, s, x.listAt);
      var waiting := lifecycle.registry.entries[x.submission.requestId].state == RequestState.Queued;
      RecordIsEntry(x.submission.requestId, s);
      if waiting {
        error := ScheduleAndFinalize(x, s);
      } else {
        error := None;
      }
    }

    /** The full path of a request that is not waiting in the queue; its id may have been used before. */
    method ExecuteFullPath(x: PathInputs) returns (error: Option<PathError>)
      requires Valid() && !Contains(lifecycle.queue.ops.Contents(), x.submission.requestId)
      requires cfg.lifecycle.queue.maxSize <= |x.cycle.newIds| && FreshIds(runner.engine.State(), x.cycle.newIds)
      modifies lifecycle.registry`entries, lifecycle.registry.entries.Values
      modifies lifecycle.queue.ops, lifecycle.queue.ops.Records()`position
      modifies runner.engine, runner.engine.batches.Values, runner.engine.sets.Values, runner.fairness, dispatch
      ensures Valid()
      ensures Supplied(cfg, ListQueue(cfg, AfterQueued(cfg, old(State()), x).0, x.listAt), x.cycle)
      ensures (State(), error) == FullPath(cfg, old(State()), x)
    {
      ghost var s := State();
      error := SubmitToQueue(x, s);
      ghost var queued := State();
      RemainingFits(cfg, queued, x.listAt);
      FullPathForm(cfg, s, x, queued, error);
      if error.None? {
        error := ContinueQueued(x, queued);
      }
    }
  }

  lemma RemainingFits(cfg: PlatformConfig, s: PlatformState, now: Time)
    ensures |ListQueue(cfg, s, now).lifecycle.queue| <= |s.lifecycle.queue|
  {
    FilterMembers(Not(Overdue(cfg.lifecycle.queue, now)), s.lifecycle.queue);
  }

  /** The listing, the cycle and the dispatch make up the path as far as finalization. */
  lemma PartsMakePath(cfg: PlatformConfig, s: PlatformState, x: PathInputs, items: seq<QueueItem>, result: CycleResult,
                      dispatches: seq<DispatchResult>, dispatched: PlatformState)
    requires Supplied(cfg, ListQueue(cfg, s, x.listAt), x.cycle) && items == ListQueue(cfg, s, x.listAt).lifecycle.queue
    requires dispatched.lifecycle == s.lifecycle.(queue := items)
    requires ScheduleParts(cfg, s.delivery, s.counts, items, x.cycle, x.adapter,
                           dispatched.delivery, dispatched.counts, result, dispatches)
    ensures RequestPathSpec.ScheduleAndFinalize(cfg, s, x)
         == Finalize(dispatched, x.submission.requestId, result, dispatches, x.fetched, x.completedAt)
  {
    var scheduled := Schedule(cfg, ListQueue(cfg, s, x.listAt), x.cycle);
    assert scheduled.1 == result;
    assert DispatchPending(cfg, scheduled.0, x.adapter) == (dispatched, dispatches);
  }

  /** Finalization touches the registry and the engine only. */
  lemma FinalizeTouches(s: PlatformState, r: RequestId, result: CycleResult, dispatches: seq<DispatchResult>,
                        fetched: Fetched, completedAt: Time)
    ensures var t := Finalize(s, r, result, dispatches, fetched, completedAt).0;
      t == s.(lifecycle := t.lifecycle, delivery := s.delivery.(engine := t.delivery.engine))
  {
  }

  /** Finalization is the decision over what the three searches find. */
  lemma FinalizeIsWith(s: PlatformState, r: RequestId, result: CycleResult, dispatches: seq<DispatchResult>,
                       rejection: Option<PlaceOutcome>, placement: Option<PlaceOutcome>,
                       outcome: Option<DispatchResult>, fetched: Fetched, completedAt: Time)
    requires rejection == FindOutcome(result.rejections, r) && placement == FindOutcome(result.placements, r)
    requires outcome == if placement.Some? && placement.value.Placed?
                        then FindDispatch(dispatches, placement.value.batchId)
                        else None
    ensures Finalize(s, r, result, dispatches, fetched, completedAt)
         == FinalizeWith(s, r, rejection, placement, outcome, r in result.skipped, fetched, completedAt)
  {
  }

  /** The pending batches are submitted where dispatching is enabled. */
  function Dispatched(cfg: PlatformConfig, d: DeliveryState, adapter: Adapter): (seq<DispatchResult>, DeliveryState) {
    match cfg.dispatch
    case Some(dispatch) => SubmitPending(dispatch, d, d.engine.order, adapter)
    case None => ([], d)
  }

  /** A cycle over these items followed by the dispatch, in terms of the parts of the state they concern. */
  ghost predicate ScheduleParts(cfg: PlatformConfig, delivery: DeliveryState, counts: Fairness.Counts,
                                items: seq<QueueItem>, x: CycleInputs, adapter: Adapter, deliveryAfter: DeliveryState,
                                countsAfter: Fairness.Counts, result: CycleResult, dispatches: seq<DispatchResult>)
    requires cfg.cycle.Valid() && |items| <= |x.newIds|
  {
    var ran := RunCycle(cfg.cycle, CycleState(delivery.engine, counts), items, x);
    && ran.Success? && ran.value.1 == result && ran.value.0.counts == countsAfter
    && (dispatches, deliveryAfter) == Dispatched(cfg, delivery.(engine := ran.value.0.engine), adapter)
  }
}
