/**
 The continuous batch engine as a state and the operations on it, one function for each
 lock-protected method. An operation that raises is a Failure.
 */
module BatchEngineSpec {
  import opened Wrappers
  import opened Schemas
  import opened BatchModels

  /** The five dictionaries; `order` is the insertion order of the batches. */
  datatype EngineState = EngineState(
    batches: map<BatchId, Batch>,
    order: seq<BatchId>,
    sets: map<BatchId, seq<BatchMember>>,
    requestToBatch: map<RequestId, BatchId>,
    activeByModel: map<string, BatchId>,
    assignments: map<RequestId, Assignment>
  )

  const EMPTY_ENGINE := EngineState(map[], [], map[], map[], map[], map[])

  datatype PlaceOutcome =
    | Placed(requestId: RequestId, batchId: BatchId, assignment: Assignment, reason: string)
    | Rejected(requestId: RequestId, reason: string, fullBatch: Option<BatchId>)

  /** `batchId` is None where the program makes up an id because the request is in no batch. */
  datatype RetireOutcome = Retired(
    batchId: Option<BatchId>,
    requestId: RequestId,
    success: bool,
    reason: string,
    previousState: Option<BatchState>,
    newState: Option<BatchState>
  )

  // ---- Counting over all member sets ----

  function SumStatus(order: seq<BatchId>, sets: map<BatchId, seq<BatchMember>>, status: MemberStatus): nat
    requires forall b :: b in order ==> b in sets
  {
    if order == [] then 0
    else SumStatus(order[..|order| - 1], sets, status) + CountStatus(sets[order[|order| - 1]], status)
  }

  function SumMembers(order: seq<BatchId>, sets: map<BatchId, seq<BatchMember>>): nat
    requires forall b :: b in order ==> b in sets
  {
    if order == [] then 0
    else SumMembers(order[..|order| - 1], sets) + |sets[order[|order| - 1]]|
  }

  predicate Listed(s: EngineState) {
    forall b :: b in s.order ==> b in s.sets && b in s.batches
  }

  function GlobalActiveCount(s: EngineState): nat
    requires Listed(s)
  {
    SumStatus(s.order, s.sets, MemberActive)
  }

  // ---- Finding a batch ----

  function IndexedBatch(s: EngineState, model: string): Option<Batch> {
    if model in s.activeByModel && s.activeByModel[model] in s.batches
    then Some(s.batches[s.activeByModel[model]])
    else None
  }

  predicate HasRoom(cfg: BatchConfig, batch: Batch) {
    ActiveCount(batch.members) < cfg.maxBatchSize
  }

  predicate ScanAccepts(cfg: BatchConfig, batch: Batch, model: string, now: Time) {
    batch.model == model && batch.state.Filling? && HasRoom(cfg, batch) && now <= batch.windowEnd
  }

  /** The fallback scan over the batches listed in `order`. */
  function ScanFilling(cfg: BatchConfig, s: EngineState, order: seq<BatchId>, model: string, now: Time): Option<Batch>
    requires forall b :: b in order ==> b in s.batches
  {
    if order == [] then None
    else if ScanAccepts(cfg, s.batches[order[0]], model, now) then Some(s.batches[order[0]])
    else ScanFilling(cfg, s, order[1..], model, now)
  }

  function IndexHit(cfg: BatchConfig, s: EngineState, model: string): Option<Batch> {
    match IndexedBatch(s, model)
    case Some(batch) => if !Terminal(batch.state) && HasRoom(cfg, batch) then Some(batch) else None
    case None => None
  }

  function FindAdmittable(cfg: BatchConfig, s: EngineState, model: string, now: Time): Option<Batch>
    requires Listed(s)
  {
    match IndexHit(cfg, s, model)
    case Some(batch) => Some(batch)
    case None => ScanFilling(cfg, s, s.order, model, now)
  }

  function ActiveFullBatch(cfg: BatchConfig, s: EngineState, model: string): Option<Batch> {
    match IndexedBatch(s, model)
    case Some(batch) => if batch.state.Active? && !HasRoom(cfg, batch) then Some(batch) else None
    case None => None
  }

  /** What callers of the program see as the live batch of a model. */
  function GetActiveBatch(s: EngineState, model: string): Option<Batch> {
    match IndexedBatch(s, model)
    case Some(batch) => if batch.state.Filling? || batch.state.Active? then Some(batch) else None
    case None => None
  }

  // ---- Placing ----

  function WithBatch(s: EngineState, batch: Batch): EngineState {
    s.(batches := s.batches[batch.batchId := batch], sets := s.sets[batch.batchId := batch.members])
  }

  function NewBatch(cfg: BatchConfig, model: string, now: Time, newId: BatchId): Batch {
    Batch(newId, model, Created, now, now + cfg.windowMs, None, None, None, [])
  }

  function OpenBatch(cfg: BatchConfig, s: EngineState, model: string, now: Time, newId: BatchId)
    : Result<EngineState, EngineError>
  {
    var batch := NewBatch(cfg, model, now, newId);
    var state :- Transition(batch.state, Filling);
    var live := WithBatch(s, batch.(state := state));
    Success(live.(order := s.order + [newId], activeByModel := s.activeByModel[model := newId]))
  }

  function Activate(batch: Batch, now: Time): Result<Batch, EngineError> {
    if !batch.state.Ready? then Success(batch)
    else
      var state :- Transition(batch.state, Active);
      Success(batch.(state := state, activatedAt := Some(now)))
  }

  function Advance(cfg: BatchConfig, batch: Batch, now: Time): Result<Batch, EngineError> {
    if batch.state.Filling? then
      if ActiveCount(batch.members) >= cfg.maxBatchSize || now >= batch.windowEnd then
        var state :- Transition(batch.state, Ready);
        Activate(batch.(state := state), now)
      else
        Success(batch)
    else if batch.state.Ready? then Activate(batch, now)
    else Success(batch)
  }

  function NewMember(batch: Batch, item: QueueItem, now: Time): BatchMember {
    BatchMember(item.requestId, NextSlot(batch.members), item.request.model, now, MemberActive)
  }

  function NewAssignment(batch: Batch, item: QueueItem): Assignment {
    Assignment(item.requestId, NextSlot(batch.members), item.request)
  }

  function Join(cfg: BatchConfig, s: EngineState, b: BatchId, item: QueueItem, now: Time)
    : Result<EngineState, EngineError>
  {
    if b !in s.batches || b !in s.sets then Failure(MissingKey)
    else if IndexOf(s.sets[b], item.requestId).Some? then Failure(DuplicateMember(item.requestId))
    else
      var batch := s.batches[b];
      var joined := batch.(members := s.sets[b] + [NewMember(batch, item, now)]);
      var advanced :- Advance(cfg, joined, now);
      var index := if advanced.state != joined.state then s.activeByModel[batch.model := b] else s.activeByModel;
      Success(WithBatch(s, advanced).(
        requestToBatch := s.requestToBatch[item.requestId := b],
        activeByModel := index,
        assignments := s.assignments[item.requestId := NewAssignment(batch, item)]))
  }

  function IdOf(batch: Option<Batch>): Option<BatchId> {
    match batch
    case Some(b) => Some(b.batchId)
    case None => None
  }

  /** Opens a batch when none was found, then lets the item join. */
  function Admit(cfg: BatchConfig, s: EngineState, found: Option<Batch>, item: QueueItem, now: Time, newId: BatchId,
                 reason: string): Result<(EngineState, PlaceOutcome), EngineError>
  {
    var base :- if found.Some? then Success(s) else OpenBatch(cfg, s, item.request.model, now, newId);
    var b := if found.Some? then found.value.batchId else newId;
    var joined :- Join(cfg, base, b, item, now);
    if item.requestId !in joined.assignments then Failure(MissingKey)
    else Success((joined, Placed(item.requestId, b, joined.assignments[item.requestId], reason)))
  }

  /** The verdict of the checks that precede any change of state. */
  datatype Verdict = Refuse(outcome: PlaceOutcome) | Proceed(found: Option<Batch>, reason: string)

  function CheckPlacement(cfg: BatchConfig, s: EngineState, item: QueueItem, now: Time): Verdict
    requires Listed(s)
  {
    var model := item.request.model;
    if item.requestId in s.requestToBatch then
      Refuse(Rejected(item.requestId, "request_already_batched", None))
    else
      var found := FindAdmittable(cfg, s, model, now);
      var full := ActiveFullBatch(cfg, s, model);
      if found.None? && full.Some? then
        Refuse(Rejected(item.requestId, "batch_full_no_slots", Some(full.value.batchId)))
      else
        match EvaluateAdmission(found, GlobalActiveCount(s), cfg, now)
        case Reject(reason) => Refuse(Rejected(item.requestId, reason, IdOf(found)))
        case Accept(reason) => Proceed(found, reason)
  }

  function Place(cfg: BatchConfig, s: EngineState, item: QueueItem, now: Time, newId: BatchId)
    : Result<(EngineState, PlaceOutcome), EngineError>
    requires Listed(s)
  {
    match CheckPlacement(cfg, s, item, now)
    case Refuse(outcome) => Success((s, outcome))
    case Proceed(found, reason) => Admit(cfg, s, found, item, now, newId, reason)
  }

  // ---- Retiring ----

  function SetStatus(ms: seq<BatchMember>, r: RequestId, status: MemberStatus): Option<seq<BatchMember>> {
    match IndexOf(ms, r)
    case Some(i) => Some(ms[i := ms[i].(status := status)])
    case None => None
  }

  function CompleteBatch(s: EngineState, batch: Batch, now: Time): Result<EngineState, EngineError> {
    if Terminal(batch.state) then Success(s)
    else
      var state :- Transition(batch.state, Completed);
      Success(WithBatch(s, batch.(state := state, completedAt := Some(now)))
        .(activeByModel := s.activeByModel - {batch.model}))
  }

  function FailBatch(s: EngineState, batch: Batch, reason: string): Result<EngineState, EngineError> {
    if Terminal(batch.state) then Success(s)
    else
      var state :- Transition(batch.state, Failed);
      Success(WithBatch(s, batch.(state := state, failureReason := Some(reason)))
        .(activeByModel := s.activeByModel - {batch.model}))
  }

  /** What follows the new member status: a failure fails the batch, the last retirement completes it. */
  function CloseBatch(s: EngineState, batch: Batch, status: MemberStatus, reason: string, now: Time)
    : Result<EngineState, EngineError>
  {
    if status.MemberFailed? then FailBatch(s, batch, reason)
    else if ActiveCount(batch.members) == 0 && batch.state.Active? then CompleteBatch(s, batch, now)
    else Success(s)
  }

  function Retire(s: EngineState, r: RequestId, status: MemberStatus, reason: string, now: Time)
    : Result<(EngineState, RetireOutcome), EngineError>
  {
    if r !in s.requestToBatch then
      Success((s, Retired(None, r, false, "request_not_in_batch", None, None)))
    else
      var b := s.requestToBatch[r];
      if b !in s.batches || b !in s.sets then Failure(MissingKey)
      else
        var members := SetStatus(s.sets[b], r, status);
        if members.None? then
          Success((s, Retired(Some(b), r, false, "member_not_found", None, None)))
        else
          var batch := s.batches[b].(members := members.value);
          var closed :- CloseBatch(WithBatch(s, batch), batch, status, reason, now);
          if b !in closed.batches then Failure(MissingKey)
          else Success((closed,
            Retired(Some(b), r, true, reason, Some(batch.state), Some(closed.batches[b].state))))
  }

  /** `replace_request`: completes the member, then places the item unless that failed. */
  function Replace(cfg: BatchConfig, s: EngineState, r: RequestId, item: QueueItem, retiredAt: Time, placedAt: Time,
                   newId: BatchId): Result<(EngineState, Option<PlaceOutcome>), EngineError>
  {
    var retired :- Retire(s, r, MemberCompleted, "request_completed", retiredAt);
    if !retired.1.success then Success((retired.0, None))
    else if Listed(retired.0) then
      var placed :- Place(cfg, retired.0, item, placedAt, newId);
      Success((placed.0, Some(placed.1)))
    else Failure(MissingKey)
  }

  // ---- Assignments of a batch ----

  /** The stored assignments of the active members, in member order. */
  function AssignmentsOf(ms: seq<BatchMember>, assignments: map<RequestId, Assignment>): seq<Assignment> {
    if ms == [] then []
    else
      var last := ms[|ms| - 1];
      AssignmentsOf(ms[..|ms| - 1], assignments)
      + (if last.status.MemberActive? && last.requestId in assignments then [assignments[last.requestId]] else [])
  }

  function BatchAssignments(s: EngineState, b: BatchId): seq<Assignment> {
    if b in s.batches then AssignmentsOf(s.batches[b].members, s.assignments) else []
  }

  // ---- Statistics ----

  /** The batches counted as filling, or as filling or active. */
  predicate Counted(batch: Batch, alsoActive: bool) {
    batch.state.Filling? || (alsoActive && batch.state.Active?)
  }

  function StateCount(order: seq<BatchId>, batches: map<BatchId, Batch>, alsoActive: bool): nat
    requires forall b :: b in order ==> b in batches
  {
    if order == [] then 0
    else
      StateCount(order[..|order| - 1], batches, alsoActive)
      + (if Counted(batches[order[|order| - 1]], alsoActive) then 1 else 0)
  }

  datatype BatchStatistics = BatchStatistics(
    totalBatches: nat,
    activeBatches: nat,
    fillingBatches: nat,
    totalActive: nat,
    totalCompleted: nat,
    totalFailed: nat,
    totalCancelled: nat
  )

  /** The counters, each in terms of the dictionaries. */
  predicate StatisticsOf(s: EngineState, stats: BatchStatistics)
    requires Listed(s)
  {
    && stats.totalBatches == |s.order|
    && stats.activeBatches == StateCount(s.order, s.batches, true)
    && stats.fillingBatches == StateCount(s.order, s.batches, false)
    && stats.totalActive == SumStatus(s.order, s.sets, MemberActive)
    && stats.totalCompleted == SumStatus(s.order, s.sets, MemberCompleted)
    && stats.totalFailed == SumStatus(s.order, s.sets, MemberFailed)
    && stats.totalCancelled == SumStatus(s.order, s.sets, MemberCancelled)
  }
}
