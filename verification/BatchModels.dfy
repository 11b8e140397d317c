/** Batches, their members, the batch state table and the admission rule. */
module BatchModels {
  import opened Wrappers
  import opened Schemas

  datatype BatchState = Created | Filling | Ready | Active | Completed | Failed | Cancelled

  predicate Terminal(state: BatchState) {
    state.Completed? || state.Failed? || state.Cancelled?
  }

  datatype MemberStatus = MemberActive | MemberCompleted | MemberCancelled | MemberFailed

  datatype BatchMember = BatchMember(
    requestId: RequestId,
    slotIndex: nat,
    model: string,
    addedAt: Time,
    status: MemberStatus
  )

  datatype Batch = Batch(
    batchId: BatchId,
    model: string,
    state: BatchState,
    createdAt: Time,
    windowEnd: Time,
    activatedAt: Option<Time>,
    completedAt: Option<Time>,
    failureReason: Option<string>,
    members: seq<BatchMember>
  )

  datatype Assignment = Assignment(requestId: RequestId, slotIndex: nat, request: InferenceRequest)

  datatype BatchConfig = BatchConfig(maxBatchSize: int, maxActiveRequests: int, windowMs: int)

  /** The check a configuration passes before an engine accepts it. */
  predicate ValidConfig(cfg: BatchConfig) {
    cfg.maxBatchSize >= 1 && cfg.maxActiveRequests >= 1 && cfg.windowMs >= 1
  }

  datatype EngineError =
    | InvalidBatchTransition(from: BatchState, to: BatchState)
    | DuplicateMember(requestId: RequestId)
    | MissingKey

  // ---- Members ----

  function CountStatus(ms: seq<BatchMember>, status: MemberStatus): nat {
    if ms == [] then 0
    else CountStatus(ms[..|ms| - 1], status) + (if ms[|ms| - 1].status == status then 1 else 0)
  }

  function ActiveCount(ms: seq<BatchMember>): nat {
    CountStatus(ms, MemberActive)
  }

  function ActiveMembers(ms: seq<BatchMember>): seq<BatchMember> {
    if ms == [] then []
    else ActiveMembers(ms[..|ms| - 1]) + (if ms[|ms| - 1].status.MemberActive? then [ms[|ms| - 1]] else [])
  }

  function MemberIds(ms: seq<BatchMember>): set<RequestId> {
    set m | m in ms :: m.requestId
  }

  function UsedSlots(ms: seq<BatchMember>): set<nat> {
    set m | m in ms && m.status.MemberActive? :: m.slotIndex
  }

  /** The position of request r in the insertion-ordered member dictionary. */
  function IndexOf(ms: seq<BatchMember>, r: RequestId): (i: Option<nat>)
    ensures i.Some? ==> i.value < |ms| && ms[i.value].requestId == r
    ensures i.None? <==> r !in MemberIds(ms)
  {
    if ms == [] then None
    else if ms[|ms| - 1].requestId == r then Some(|ms| - 1)
    else IndexOf(ms[..|ms| - 1], r)
  }

  /** Slot search from index on: the first index that no active member holds. */
  function FreeSlotFrom(used: set<nat>, index: nat): nat
    decreases |set u | u in used && u >= index|
  {
    if index in used then
      assert (set u | u in used && u >= index) == (set u | u in used && u >= index + 1) + {index};
      FreeSlotFrom(used, index + 1)
    else
      index
  }

  function NextSlot(ms: seq<BatchMember>): nat {
    FreeSlotFrom(UsedSlots(ms), 0)
  }

  // ---- Batch state table ----

  function AllowedTransitions(from: BatchState): set<BatchState> {
    match from
    case Created => {Filling, Cancelled}
    case Filling => {Filling, Ready, Cancelled, Failed}
    case Ready => {Active, Cancelled, Failed}
    case Active => {Active, Completed, Failed, Cancelled}
    case _ => {}
  }

  predicate CanTransition(from: BatchState, to: BatchState) {
    if from == to then from.Filling? || from.Active?
    else if Terminal(from) then false
    else to in AllowedTransitions(from)
  }

  function Transition(from: BatchState, to: BatchState): Result<BatchState, EngineError> {
    if CanTransition(from, to) then Success(to) else Failure(InvalidBatchTransition(from, to))
  }

  /** The table read by target: from which states each state of a batch can be entered. */
  lemma EntriesIntoBatchStates(from: BatchState)
    ensures !CanTransition(from, Created)
    ensures CanTransition(from, Filling) <==> from in {Created, Filling}
    ensures CanTransition(from, Ready) <==> from == Filling
    ensures CanTransition(from, Active) <==> from in {Ready, Active}
    ensures CanTransition(from, Completed) <==> from == Active
    ensures CanTransition(from, Failed) <==> from in {Filling, Ready, Active}
    ensures CanTransition(from, Cancelled) <==> from in {Created, Filling, Ready, Active}
  {
    match from case _ =>
  }

  function Rank(state: BatchState): nat {
    match state
    case Created => 0
    case Filling => 1
    case Ready => 2
    case Active => 3
    case _ => 4
  }

  // ---- Admission ----

  datatype Admission = Accept(reason: string) | Reject(reason: string)

  function EvaluateAdmission(batch: Option<Batch>, globalActive: nat, cfg: BatchConfig, now: Time): Admission {
    if globalActive >= cfg.maxActiveRequests then Reject("max_active_requests_reached")
    else if batch.None? then Accept("new_batch")
    else if Terminal(batch.value.state) then Reject("batch_terminal")
    else if ActiveCount(batch.value.members) >= cfg.maxBatchSize then
      if batch.value.state.Active? then Reject("batch_full_no_slots") else Reject("batch_full")
    else if batch.value.state.Filling? && now > batch.value.windowEnd then Reject("admission_window_closed")
    else Accept("batch_has_capacity")
  }

  // ---- Facts about members ----

  lemma {:induction false} CountSetStatus(ms: seq<BatchMember>, i: nat, to: MemberStatus, status: MemberStatus)
    requires i < |ms|
    ensures CountStatus(ms[i := ms[i].(status := to)], status)
         == CountStatus(ms, status) - (if ms[i].status == status then 1 else 0) + (if to == status then 1 else 0)
  {
    var n := |ms| - 1;
    var after := ms[i := ms[i].(status := to)];
    if i == n {
      assert after[..n] == ms[..n];
    } else {
      assert after[..n] == ms[..n][i := ms[..n][i].(status := to)];
      CountSetStatus(ms[..n], i, to, status);
    }
  }

  lemma {:induction false} CountPositive(ms: seq<BatchMember>, i: nat)
    requires i < |ms|
    ensures CountStatus(ms, ms[i].status) >= 1
  {
    if i < |ms| - 1 {
      CountPositive(ms[..|ms| - 1], i);
    }
  }

  /** Every member has exactly one of the four statuses. */
  lemma {:induction false} StatusesPartition(ms: seq<BatchMember>)
    ensures CountStatus(ms, MemberActive) + CountStatus(ms, MemberCompleted)
          + CountStatus(ms, MemberCancelled) + CountStatus(ms, MemberFailed) == |ms|
  {
    if ms != [] {
      StatusesPartition(ms[..|ms| - 1]);
    }
  }

  // ---- Facts about slots ----

  function Below(n: nat): (r: set<nat>)
    ensures forall i: nat :: i in r <==> i < n
    ensures |r| == n
  {
    if n == 0 then {} else Below(n - 1) + {n - 1}
  }

  lemma SubsetSize<T>(a: set<T>, b: set<T>)
    requires a <= b
    ensures |a| <= |b|
    ensures |a| == |b| ==> a == b
  {
    assert b == a + (b - a);
  }

  lemma {:induction false} FreeSlotSearch(used: set<nat>, index: nat)
    requires Below(index) <= used
    ensures FreeSlotFrom(used, index) !in used
    ensures Below(FreeSlotFrom(used, index)) <= used
    decreases |set u | u in used && u >= index|
  {
    if index in used {
      assert (set u | u in used && u >= index) == (set u | u in used && u >= index + 1) + {index};
      assert Below(index + 1) == Below(index) + {index};
      FreeSlotSearch(used, index + 1);
    }
  }

  /** The slot search ends at the least index that is free, and by then it has passed at most |used| indices. */
  lemma FreeSlotIsLeast(used: set<nat>)
    ensures FreeSlotFrom(used, 0) !in used
    ensures forall i: nat :: i < FreeSlotFrom(used, 0) ==> i in used
    ensures FreeSlotFrom(used, 0) <= |used|
  {
    var slot := FreeSlotFrom(used, 0);
    FreeSlotSearch(used, 0);
    forall i: nat | i < slot ensures i in used {
      assert i in Below(slot);
    }
    SubsetSize(Below(slot), used);
  }

  predicate DistinctActiveSlots(ms: seq<BatchMember>) {
    forall i, j :: 0 <= i < j < |ms| && ms[i].status.MemberActive? && ms[j].status.MemberActive?
      ==> ms[i].slotIndex != ms[j].slotIndex
  }

  lemma UsedSlotsAppend(ms: seq<BatchMember>, m: BatchMember)
    ensures UsedSlots(ms + [m]) == UsedSlots(ms) + (if m.status.MemberActive? then {m.slotIndex} else {})
  {
    forall slot | slot in UsedSlots(ms) ensures slot in UsedSlots(ms + [m]) {
      var x :| x in ms && x.status.MemberActive? && x.slotIndex == slot;
      assert x in ms + [m];
    }
    assert m in ms + [m];
  }

  lemma {:induction false} UsedSlotsSize(ms: seq<BatchMember>)
    ensures |UsedSlots(ms)| <= ActiveCount(ms)
    ensures DistinctActiveSlots(ms) ==> |UsedSlots(ms)| == ActiveCount(ms)
  {
    if ms != [] {
      var init, last := ms[..|ms| - 1], ms[|ms| - 1];
      UsedSlotsSize(init);
      assert ms == init + [last];
      UsedSlotsAppend(init, last);
    }
  }
}
