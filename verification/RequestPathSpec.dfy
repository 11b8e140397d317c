/**
 The full path of a request: registration, queue, scheduling cycle, dispatch and completion, as one operation on the
 registry, the waiting queue, the batch engine and the delivery record together.
 */
module RequestPathSpec {
  import opened Wrappers
  import opened Schemas
  import opened RequestStates
  import opened Registry
  import opened WaitingQueueSpec
  import opened LifecycleSpec
  import opened Fairness
  import opened BatchModels
  import opened BatchEngineSpec
  import opened SchedulingCycle
  import opened Delivery
  import opened DispatchService

  /** `dispatch` is None where dispatching is disabled. */
  datatype PlatformConfig = PlatformConfig(lifecycle: LifecycleConfig, cycle: CycleConfig,
                                           dispatch: Option<DispatchConfig>)

  datatype PlatformState = PlatformState(lifecycle: LifecycleState, counts: Counts, delivery: DeliveryState)

  /** What asking the adapter for the completion gives: a record, no record, or an exception. */
  datatype Fetched = Raises | Fetched(completion: Option<Completion>)

  /** What one run of the path draws from outside. */
  datatype PathInputs = PathInputs(
    submission: Submission,
    listAt: Time,
    cycle: CycleInputs,
    adapter: Adapter,
    fetched: Fetched,
    completedAt: Time
  )

  datatype PathError = LifecycleRaised(error: LifecycleError) | CompletionRaised

  // ---- The scheduler ----

  /** The snapshot the scheduler reads drops what has expired, without telling the registry. */
  function ListQueue(cfg: PlatformConfig, s: PlatformState, now: Time): PlatformState {
    s.(lifecycle := s.lifecycle.(queue := Remaining(cfg.lifecycle.queue, s.lifecycle.queue, now)))
  }

  predicate Supplied(cfg: PlatformConfig, s: PlatformState, x: CycleInputs) {
    cfg.cycle.Valid() && |s.lifecycle.queue| <= |x.newIds|
  }

  /** A cycle over the listed queue; a cycle that failed would report nothing. */
  function Schedule(cfg: PlatformConfig, s: PlatformState, x: CycleInputs): (PlatformState, CycleResult)
    requires Supplied(cfg, s, x)
  {
    match RunCycle(cfg.cycle, CycleState(s.delivery.engine, s.counts), s.lifecycle.queue, x)
    case Success((t, result)) => (s.(counts := t.counts, delivery := s.delivery.(engine := t.engine)), result)
    case Failure(_) => (s, CycleResult([], [], [], [], "scheduler_failure"))
  }

  function DispatchPending(cfg: PlatformConfig, s: PlatformState, adapter: Adapter)
    : (PlatformState, seq<DispatchResult>)
  {
    match cfg.dispatch
    case Some(dispatch) =>
      var (results, delivery) := SubmitPending(dispatch, s.delivery, s.delivery.engine.order, adapter);
      (s.(delivery := delivery), results)
    case None => (s, [])
  }

  // ---- Finalizing ----

  function FindOutcome(outcomes: seq<PlaceOutcome>, r: RequestId): Option<PlaceOutcome> {
    if outcomes == [] then None
    else if outcomes[0].requestId == r then Some(outcomes[0])
    else FindOutcome(outcomes[1..], r)
  }

  function FindDispatch(results: seq<DispatchResult>, b: BatchId): Option<DispatchResult> {
    if results == [] then None
    else if results[0].batchId == b then Some(results[0])
    else FindDispatch(results[1..], b)
  }

  function WithOutcome(s: PlatformState, outcome: Outcome): (PlatformState, Option<PathError>) {
    (s.(lifecycle := outcome.0), if outcome.1.Some? then Some(LifecycleRaised(outcome.1.value)) else None)
  }

  function CompleteMember(engine: EngineState, r: RequestId, now: Time): EngineState {
    match Retire(engine, r, MemberCompleted, "request_completed", now)
    case Success((t, _)) => t
    case Failure(_) => engine
  }

  predicate IsAccepted(dispatch: Option<DispatchResult>) {
    dispatch.Some? && dispatch.value.accepted
  }

  /** The transitions of a placed request up to SUBMITTED, or to FAILED where its batch was not accepted. */
  function AdvancePlaced(s: LifecycleState, r: RequestId, b: BatchId, dispatch: Option<DispatchResult>): Outcome {
    var scheduled := TransitionRequest(s, r, Scheduled, Some(b), None);
    if scheduled.1.Some? then scheduled
    else
      var batched := TransitionRequest(scheduled.0, r, Batched, None, None);
      if batched.1.Some? then batched
      else if !IsAccepted(dispatch) then
        var reason := if dispatch.Some? then dispatch.value.reason else "batch_not_dispatched";
        MarkFailed(batched.0, r, AdapterError, reason, Some(b), None)
      else TransitionRequest(batched.0, r, Submitted, None, Some(dispatch.value.backendId))
  }

  /** What follows the dispatch of the batch in which the request was placed. */
  function FinishPlaced(s: PlatformState, r: RequestId, b: BatchId, dispatch: Option<DispatchResult>, fetched: Fetched,
                        completedAt: Time): (PlatformState, Option<PathError>)
  {
    var advanced := AdvancePlaced(s.lifecycle, r, b, dispatch);
    if advanced.1.Some? || !IsAccepted(dispatch) then WithOutcome(s, advanced)
    else if fetched.Raises? then (s.(lifecycle := advanced.0), Some(CompletionRaised))
    else
      WithOutcome(s.(delivery := s.delivery.(engine := CompleteMember(s.delivery.engine, r, completedAt))),
                  CompleteRequest(advanced.0, r, fetched.completion))
  }

  /** The decision over a request, from what the searches for it have found. */
  function FinalizeWith(s: PlatformState, r: RequestId, rejection: Option<PlaceOutcome>,
                        placement: Option<PlaceOutcome>, dispatch: Option<DispatchResult>, skipped: bool,
                        fetched: Fetched, completedAt: Time)
    : (PlatformState, Option<PathError>)
  {
    if rejection.Some? then
      var reason := if rejection.value.Rejected? then rejection.value.reason else "";
      WithOutcome(s, MarkFailed(s.lifecycle, r, AdapterError, reason, None, None))
    else if placement.Some? then
      if placement.value.Placed? then FinishPlaced(s, r, placement.value.batchId, dispatch, fetched, completedAt)
      else (s, None)
    else if skipped then (s, if r in s.lifecycle.entries then None else Some(LifecycleRaised(NotFound(r))))
    else WithOutcome(s, MarkFailed(s.lifecycle, r, InternalError, "scheduler_did_not_select_request", None, None))
  }

  function Finalize(s: PlatformState, r: RequestId, result: CycleResult, dispatches: seq<DispatchResult>,
                    fetched: Fetched, completedAt: Time): (PlatformState, Option<PathError>)
  {
    var placement := FindOutcome(result.placements, r);
    var dispatch := if placement.Some? && placement.value.Placed? then FindDispatch(dispatches, placement.value.batchId)
                    else None;
    FinalizeWith(s, r, FindOutcome(result.rejections, r), placement, dispatch, r in result.skipped, fetched,
                 completedAt)
  }

  // ---- The whole path ----

  function AfterQueued(cfg: PlatformConfig, s: PlatformState, x: PathInputs): (PlatformState, Option<PathError>) {
    WithOutcome(s, ProcessThroughQueued(cfg.lifecycle, s.lifecycle, x.submission))
  }

  /** The scheduling half of the path, from a request that is QUEUED. */
  function ScheduleAndFinalize(cfg: PlatformConfig, s: PlatformState, x: PathInputs): (PlatformState, Option<PathError>)
    requires Supplied(cfg, ListQueue(cfg, s, x.listAt), x.cycle)
  {
    var (scheduled, result) := Schedule(cfg, ListQueue(cfg, s, x.listAt), x.cycle);
    var (dispatched, dispatches) := DispatchPending(cfg, scheduled, x.adapter);
    Finalize(dispatched, x.submission.requestId, result, dispatches, x.fetched, x.completedAt)
  }

  predicate StaysQueued(s: PlatformState, r: RequestId) {
    r in s.lifecycle.entries && s.lifecycle.entries[r].state.Queued?
  }

  function FullPath(cfg: PlatformConfig, s: PlatformState, x: PathInputs): (PlatformState, Option<PathError>)
    requires Supplied(cfg, ListQueue(cfg, AfterQueued(cfg, s, x).0, x.listAt), x.cycle)
  {
    var (queued, error) := AfterQueued(cfg, s, x);
    if error.Some? || !StaysQueued(queued, x.submission.requestId) then (queued, error)
    else ScheduleAndFinalize(cfg, queued, x)
  }

  /** The two halves of a full path. */
  lemma FullPathForm(cfg: PlatformConfig, s: PlatformState, x: PathInputs, queued: PlatformState,
                     queueError: Option<PathError>)
    requires (queued, queueError) == AfterQueued(cfg, s, x) && Supplied(cfg, ListQueue(cfg, queued, x.listAt), x.cycle)
    ensures FullPath(cfg, s, x)
         == if queueError.Some? || !StaysQueued(queued, x.submission.requestId) then (queued, queueError)
            else ScheduleAndFinalize(cfg, queued, x)
  {
  }
}
