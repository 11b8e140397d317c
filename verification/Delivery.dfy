/**
 Delivery to the adapter as a state machine over the engine: one dispatch is in flight at a time, and
 any engine operations may run between the moment a dispatch reads a batch and the moment the adapter answers.
 */
module Delivery {
  import opened Wrappers
  import opened Schemas
  import opened BatchModels
  import opened BatchEngineSpec
  import opened BatchEngineInvariant
  import opened BatchEngineRuns

  datatype Dispatch = Dispatch(batchId: BatchId, payload: seq<Assignment>)

  datatype DeliveryState = DeliveryState(
    engine: EngineState,
    submitted: set<BatchId>,
    inFlight: Option<Dispatch>,
    accepted: seq<Dispatch>
  )

  const EMPTY_DELIVERY := DeliveryState(EMPTY_ENGINE, {}, None, [])

  /** The checks a pending batch passes before it is dispatched. */
  predicate Dispatchable(batch: Batch, minMembers: Option<nat>) {
    && (batch.state.Active? || batch.state.Ready? || batch.state.Filling?)
    && ActiveCount(batch.members) != 0
    && (minMembers.Some? ==> ActiveCount(batch.members) >= minMembers.value)
  }

  datatype DeliveryEvent =
    | EngineEvent(event: Event)
    | BeginDispatch(batchId: BatchId)
    | EndDispatch(accepted: bool)

  ghost predicate DeliveryStep(cfg: BatchConfig, minMembers: Option<nat>, s: DeliveryState, e: DeliveryEvent,
                               t: DeliveryState)
  {
    match e
    case EngineEvent(event) =>
      Step(cfg, s.engine, event, t.engine) && t == s.(engine := t.engine)
    case BeginDispatch(b) =>
      && s.inFlight.None? && b !in s.submitted
      && b in s.engine.batches && Dispatchable(s.engine.batches[b], minMembers)
      && t == s.(inFlight := Some(Dispatch(b, BatchAssignments(s.engine, b))))
    case EndDispatch(accepted) =>
      && s.inFlight.Some?
      && t == (if accepted
               then s.(inFlight := None, submitted := s.submitted + {s.inFlight.value.batchId},
                       accepted := s.accepted + [s.inFlight.value])
               else s.(inFlight := None))
  }

  ghost predicate DeliveryStepAt(cfg: BatchConfig, minMembers: Option<nat>, states: seq<DeliveryState>,
                                 events: seq<DeliveryEvent>, i: nat)
    requires |states| == |events| + 1 && i < |events|
  {
    DeliveryStep(cfg, minMembers, states[i], events[i], states[i + 1])
  }

  ghost predicate IsDeliveryRun(cfg: BatchConfig, minMembers: Option<nat>, states: seq<DeliveryState>,
                                events: seq<DeliveryEvent>)
  {
    && |states| == |events| + 1
    && states[0] == EMPTY_DELIVERY
    && forall i :: 0 <= i < |events| ==> DeliveryStepAt(cfg, minMembers, states, events, i)
  }

  // ---- Payloads ----

  predicate DistinctRequests(payload: seq<Assignment>) {
    forall i, j :: 0 <= i < j < |payload| ==> payload[i].requestId != payload[j].requestId
  }

  /** Each request of the dispatch is batched in its batch, and none occurs twice. */
  ghost predicate DispatchInv(engine: EngineState, dispatch: Dispatch) {
    && DistinctRequests(dispatch.payload)
    && forall a :: a in dispatch.payload ==>
         && a.requestId in engine.requestToBatch
         && engine.requestToBatch[a.requestId] == dispatch.batchId
  }

  lemma {:induction false} AssignmentsComeFromMembers(ms: seq<BatchMember>, assignments: map<RequestId, Assignment>)
    requires forall m :: m in ms && m.requestId in assignments ==> assignments[m.requestId].requestId == m.requestId
    ensures forall a :: a in AssignmentsOf(ms, assignments) ==> a.requestId in MemberIds(ms)
    ensures DistinctIds(ms) ==> DistinctRequests(AssignmentsOf(ms, assignments))
  {
    if ms != [] {
      var init, last := ms[..|ms| - 1], ms[|ms| - 1];
      assert ms == init + [last];
      AssignmentsComeFromMembers(init, assignments);
      if DistinctIds(ms) {
        forall m | m in init ensures m.requestId != last.requestId {
        }
      }
    }
  }

  /** Every active member of a batch is in the payload, which is what a dispatch of the batch delivers. */
  lemma {:induction false} PayloadIsComplete(ms: seq<BatchMember>, assignments: map<RequestId, Assignment>)
    requires forall m :: m in ms ==> m.requestId in assignments
    ensures |AssignmentsOf(ms, assignments)| == ActiveCount(ms)
    ensures forall m :: m in ms && m.status.MemberActive? ==> assignments[m.requestId] in AssignmentsOf(ms, assignments)
  {
    if ms != [] {
      var init, last := ms[..|ms| - 1], ms[|ms| - 1];
      assert ms == init + [last];
      PayloadIsComplete(init, assignments);
    }
  }

  lemma FreshDispatchInv(cfg: BatchConfig, s: EngineState, b: BatchId)
    requires EngineInv(cfg, s) && b in s.batches
    ensures DispatchInv(s, Dispatch(b, BatchAssignments(s, b)))
  {
    var ms := s.sets[b];
    assert BatchInv(cfg, s.batches[b]);
    forall m | m in ms && m.requestId in s.assignments ensures s.assignments[m.requestId].requestId == m.requestId {
      assert Assigned(s, m);
    }
    AssignmentsComeFromMembers(ms, s.assignments);
  }

  // ---- The invariant ----

  ghost predicate AcceptedInv(s: DeliveryState) {
    && (forall i :: 0 <= i < |s.accepted| ==>
          s.accepted[i].batchId in s.submitted && DispatchInv(s.engine, s.accepted[i]))
    && (forall i, j :: 0 <= i < j < |s.accepted| ==> s.accepted[i].batchId != s.accepted[j].batchId)
  }

  ghost predicate InFlightInv(s: DeliveryState) {
    s.inFlight.Some? ==> s.inFlight.value.batchId !in s.submitted && DispatchInv(s.engine, s.inFlight.value)
  }

  ghost predicate DeliveryInv(cfg: BatchConfig, s: DeliveryState) {
    EngineInv(cfg, s.engine) && AcceptedInv(s) && InFlightInv(s)
  }

  lemma ExtendedDispatchInv(s: EngineState, t: EngineState, dispatch: Dispatch)
    requires Extends(s, t) && DispatchInv(s, dispatch)
    ensures DispatchInv(t, dispatch)
  {
  }

  lemma ExtendedAcceptedInv(s: DeliveryState, t: DeliveryState)
    requires AcceptedInv(s) && InFlightInv(s) && Extends(s.engine, t.engine) && t == s.(engine := t.engine)
    ensures AcceptedInv(t) && InFlightInv(t)
  {
    forall i | 0 <= i < |t.accepted| ensures DispatchInv(t.engine, t.accepted[i]) {
      ExtendedDispatchInv(s.engine, t.engine, s.accepted[i]);
    }
    if s.inFlight.Some? {
      ExtendedDispatchInv(s.engine, t.engine, s.inFlight.value);
    }
  }

  lemma EngineEventKeepsInv(cfg: BatchConfig, s: DeliveryState, event: Event, t: DeliveryState)
    requires ValidConfig(cfg) && DeliveryInv(cfg, s)
    requires Step(cfg, s.engine, event, t.engine) && t == s.(engine := t.engine)
    ensures DeliveryInv(cfg, t)
  {
    StepKeepsInv(cfg, s.engine, event, t.engine);
    StepExtends(cfg, s.engine, event, t.engine);
    ExtendedAcceptedInv(s, t);
  }

  lemma DeliveryStepKeepsInv(cfg: BatchConfig, minMembers: Option<nat>, s: DeliveryState, e: DeliveryEvent,
                             t: DeliveryState)
    requires ValidConfig(cfg) && DeliveryInv(cfg, s) && DeliveryStep(cfg, minMembers, s, e, t)
    ensures DeliveryInv(cfg, t)
  {
    match e
    case EngineEvent(event) => EngineEventKeepsInv(cfg, s, event, t);
    case BeginDispatch(b) => FreshDispatchInv(cfg, s.engine, b);
    case EndDispatch(accepted) => AnswerKeepsInv(s, accepted, t);
  }

  lemma AnswerKeepsInv(s: DeliveryState, accepted: bool, t: DeliveryState)
    requires AcceptedInv(s) && InFlightInv(s) && s.inFlight.Some?
    requires t == if accepted
                  then s.(inFlight := None, submitted := s.submitted + {s.inFlight.value.batchId},
                          accepted := s.accepted + [s.inFlight.value])
                  else s.(inFlight := None)
    ensures AcceptedInv(t) && InFlightInv(t)
  {
  }

  lemma {:induction false} DeliveryRunInv(cfg: BatchConfig, minMembers: Option<nat>, states: seq<DeliveryState>,
                                          events: seq<DeliveryEvent>, k: nat, s: DeliveryState)
    requires ValidConfig(cfg) && IsDeliveryRun(cfg, minMembers, states, events) && k < |states| && s == states[k]
    ensures DeliveryInv(cfg, s)
    decreases k
  {
    if k == 0 {
      EmptyEngineInv(cfg);
    } else {
      DeliveryRunInv(cfg, minMembers, states, events, k - 1, states[k - 1]);
      assert DeliveryStepAt(cfg, minMembers, states, events, k - 1);
      DeliveryStepKeepsInv(cfg, minMembers, states[k - 1], events[k - 1], s);
    }
  }

  /** Step k of a run leads from a state that satisfies the invariant to the next one. */
  lemma DeliveryRunStep(cfg: BatchConfig, minMembers: Option<nat>, states: seq<DeliveryState>,
                        events: seq<DeliveryEvent>, k: nat, s: DeliveryState, t: DeliveryState)
    requires ValidConfig(cfg) && IsDeliveryRun(cfg, minMembers, states, events)
    requires k < |events| && s == states[k] && t == states[k + 1]
    ensures DeliveryInv(cfg, s) && DeliveryStep(cfg, minMembers, s, events[k], t)
  {
    DeliveryRunInv(cfg, minMembers, states, events, k, s);
    assert DeliveryStepAt(cfg, minMembers, states, events, k);
  }

  /** The dispatch and the position in its payload where the adapter received a request. */
  ghost predicate DeliveredAt(s: DeliveryState, r: RequestId, i: nat, p: nat) {
    i < |s.accepted| && p < |s.accepted[i].payload| && s.accepted[i].payload[p].requestId == r
  }

  /**
   In every reachable state each request has been delivered at most once: in one accepted dispatch, at one position.
   */
  lemma DeliveredAtMostOnce(cfg: BatchConfig, minMembers: Option<nat>, states: seq<DeliveryState>,
                            events: seq<DeliveryEvent>, k: nat, r: RequestId, i: nat, p: nat, j: nat, q: nat)
    requires ValidConfig(cfg) && IsDeliveryRun(cfg, minMembers, states, events) && k < |states|
    requires DeliveredAt(states[k], r, i, p) && DeliveredAt(states[k], r, j, q)
    ensures i == j && p == q
  {
    DeliveryRunInv(cfg, minMembers, states, events, k, states[k]);
    OnceOnly(states[k], r, i, p, j, q);
  }

  lemma OnceOnly(s: DeliveryState, r: RequestId, i: nat, p: nat, j: nat, q: nat)
    requires AcceptedInv(s) && DeliveredAt(s, r, i, p) && DeliveredAt(s, r, j, q)
    ensures i == j && p == q
  {
    assert s.accepted[i].payload[p] in s.accepted[i].payload && s.accepted[j].payload[q] in s.accepted[j].payload;
    assert DispatchInv(s.engine, s.accepted[i]) && DispatchInv(s.engine, s.accepted[j]);
    assert s.accepted[i].batchId == s.accepted[j].batchId;
  }

  // ---- Joining a batch too late ----

  /** No accepted dispatch contains the request. */
  ghost predicate Undelivered(s: DeliveryState, r: RequestId) {
    forall j: nat, q: nat :: !DeliveredAt(s, r, j, q)
  }

  /** Request r sits in a batch that has been accepted without it. */
  ghost predicate Stranded(s: DeliveryState, r: RequestId) {
    r in s.engine.requestToBatch && s.engine.requestToBatch[r] in s.submitted && Undelivered(s, r)
  }

  /** Request r sits in the batch in flight, but the payload was built without it. */
  ghost predicate Missed(s: DeliveryState, r: RequestId) {
    && s.inFlight.Some? && r in s.engine.requestToBatch
    && s.engine.requestToBatch[r] == s.inFlight.value.batchId
    && (forall a :: a in s.inFlight.value.payload ==> a.requestId != r)
    && Undelivered(s, r)
  }

  lemma DeliveredAreBatched(s: DeliveryState)
    requires AcceptedInv(s)
    ensures forall r, j: nat, q: nat :: DeliveredAt(s, r, j, q) ==> r in s.engine.requestToBatch
  {
    forall r, j: nat, q: nat | DeliveredAt(s, r, j, q) ensures r in s.engine.requestToBatch {
      assert s.accepted[j].payload[q] in s.accepted[j].payload && DispatchInv(s.engine, s.accepted[j]);
    }
  }

  lemma UnbatchedIsUndelivered(s: DeliveryState, r: RequestId)
    requires AcceptedInv(s) && r !in s.engine.requestToBatch
    ensures Undelivered(s, r)
  {
    DeliveredAreBatched(s);
  }

  lemma UndeliveredThroughEngine(s: DeliveryState, t: DeliveryState, r: RequestId)
    requires t == s.(engine := t.engine) && Undelivered(s, r)
    ensures Undelivered(t, r)
  {
    forall j: nat, q: nat ensures !DeliveredAt(t, r, j, q) {
      assert !DeliveredAt(s, r, j, q);
    }
  }

  /** A step by which a request joins a batch that was submitted before strands it. */
  lemma JoiningSubmittedStrands(cfg: BatchConfig, minMembers: Option<nat>, s: DeliveryState, e: DeliveryEvent,
                                t: DeliveryState, r: RequestId)
    requires DeliveryInv(cfg, s) && DeliveryStep(cfg, minMembers, s, e, t)
    requires r !in s.engine.requestToBatch && r in t.engine.requestToBatch && t.engine.requestToBatch[r] in s.submitted
    ensures Stranded(t, r)
  {
    UnbatchedIsUndelivered(s, r);
    UndeliveredThroughEngine(s, t, r);
  }

  /** A step by which a request joins the batch in flight makes it miss the dispatch. */
  lemma JoiningInFlightMisses(cfg: BatchConfig, minMembers: Option<nat>, s: DeliveryState, e: DeliveryEvent,
                              t: DeliveryState, r: RequestId)
    requires DeliveryInv(cfg, s) && DeliveryStep(cfg, minMembers, s, e, t) && s.inFlight.Some?
    requires r !in s.engine.requestToBatch && r in t.engine.requestToBatch
    requires t.engine.requestToBatch[r] == s.inFlight.value.batchId
    ensures Missed(t, r)
  {
    UnbatchedIsUndelivered(s, r);
    UndeliveredThroughEngine(s, t, r);
    assert DispatchInv(s.engine, s.inFlight.value);
  }

  /** The request keeps missing the dispatch until the answer, and an acceptance strands it. */
  lemma MissedStep(cfg: BatchConfig, minMembers: Option<nat>, s: DeliveryState, e: DeliveryEvent, t: DeliveryState,
                   r: RequestId)
    requires ValidConfig(cfg) && DeliveryInv(cfg, s) && DeliveryStep(cfg, minMembers, s, e, t) && Missed(s, r)
    ensures !e.EndDispatch? ==> Missed(t, r)
    ensures e == EndDispatch(true) ==> Stranded(t, r)
  {
    match e
    case EngineEvent(event) =>
      StepExtends(cfg, s.engine, event, t.engine);
      UndeliveredThroughEngine(s, t, r);
    case BeginDispatch(_) => assert false;
    case EndDispatch(accepted) =>
      if accepted {
        var payload := s.inFlight.value.payload;
        forall j: nat, q: nat ensures !DeliveredAt(t, r, j, q) {
          assert !DeliveredAt(s, r, j, q);
          assert j == |s.accepted| && q < |payload| ==> payload[q] in payload;
        }
      }
  }

  lemma StrandedThroughEngine(cfg: BatchConfig, s: DeliveryState, event: Event, t: DeliveryState, r: RequestId)
    requires ValidConfig(cfg) && EngineInv(cfg, s.engine) && Stranded(s, r)
    requires Step(cfg, s.engine, event, t.engine) && t == s.(engine := t.engine)
    ensures Stranded(t, r)
  {
    StepExtends(cfg, s.engine, event, t.engine);
    UndeliveredThroughEngine(s, t, r);
  }

  lemma StrandedThroughAnswer(s: DeliveryState, accepted: bool, t: DeliveryState, r: RequestId)
    requires InFlightInv(s) && s.inFlight.Some? && Stranded(s, r)
    requires t == if accepted
                  then s.(inFlight := None, submitted := s.submitted + {s.inFlight.value.batchId},
                          accepted := s.accepted + [s.inFlight.value])
                  else s.(inFlight := None)
    ensures Stranded(t, r)
  {
    var payload := s.inFlight.value.payload;
    forall q | 0 <= q < |payload| ensures payload[q].requestId != r {
      assert payload[q] in payload;
    }
    forall j: nat, q: nat ensures !DeliveredAt(t, r, j, q) {
      assert !DeliveredAt(s, r, j, q);
    }
  }

  lemma StrandedStep(cfg: BatchConfig, minMembers: Option<nat>, s: DeliveryState, e: DeliveryEvent, t: DeliveryState,
                     r: RequestId)
    requires ValidConfig(cfg) && DeliveryInv(cfg, s) && DeliveryStep(cfg, minMembers, s, e, t) && Stranded(s, r)
    ensures Stranded(t, r)
  {
    match e
    case EngineEvent(event) => StrandedThroughEngine(cfg, s, event, t, r);
    case BeginDispatch(_) =>
      forall j: nat, q: nat ensures !DeliveredAt(t, r, j, q) {
        assert !DeliveredAt(s, r, j, q);
      }
    case EndDispatch(accepted) => StrandedThroughAnswer(s, accepted, t, r);
  }

  lemma StrandedRunStep(cfg: BatchConfig, minMembers: Option<nat>, states: seq<DeliveryState>,
                        events: seq<DeliveryEvent>, k: nat, s: DeliveryState, t: DeliveryState, r: RequestId)
    requires ValidConfig(cfg) && IsDeliveryRun(cfg, minMembers, states, events)
    requires k < |events| && s == states[k] && t == states[k + 1] && Stranded(s, r)
    ensures Stranded(t, r)
  {
    DeliveryRunStep(cfg, minMembers, states, events, k, s, t);
    StrandedStep(cfg, minMembers, s, events[k], t, r);
  }

  lemma {:induction false} StrandedStays(cfg: BatchConfig, minMembers: Option<nat>, states: seq<DeliveryState>,
                                         events: seq<DeliveryEvent>, k: nat, n: nat, r: RequestId)
    requires ValidConfig(cfg) && IsDeliveryRun(cfg, minMembers, states, events) && k <= n < |states|
    requires Stranded(states[k], r)
    ensures Stranded(states[n], r)
    decreases n
  {
    if k < n {
      StrandedStays(cfg, minMembers, states, events, k, n - 1, r);
      StrandedRunStep(cfg, minMembers, states, events, n - 1, states[n - 1], states[n], r);
    }
  }

  lemma MissedRunStep(cfg: BatchConfig, minMembers: Option<nat>, states: seq<DeliveryState>, events: seq<DeliveryEvent>,
                      k: nat, s: DeliveryState, t: DeliveryState, r: RequestId)
    requires ValidConfig(cfg) && IsDeliveryRun(cfg, minMembers, states, events)
    requires k < |events| && s == states[k] && t == states[k + 1] && Missed(s, r)
    ensures !events[k].EndDispatch? ==> Missed(t, r)
    ensures events[k] == EndDispatch(true) ==> Stranded(t, r)
  {
    DeliveryRunStep(cfg, minMembers, states, events, k, s, t);
    MissedStep(cfg, minMembers, s, events[k], t, r);
  }

  lemma {:induction false} MissedStays(cfg: BatchConfig, minMembers: Option<nat>, states: seq<DeliveryState>,
                                       events: seq<DeliveryEvent>, k: nat, m: nat, r: RequestId)
    requires ValidConfig(cfg) && IsDeliveryRun(cfg, minMembers, states, events) && k <= m < |states|
    requires Missed(states[k], r) && forall i :: k <= i < m ==> !events[i].EndDispatch?
    ensures Missed(states[m], r)
    decreases m
  {
    if k < m {
      MissedStays(cfg, minMembers, states, events, k, m - 1, r);
      MissedRunStep(cfg, minMembers, states, events, m - 1, states[m - 1], states[m], r);
    }
  }

  /** Between these two states the request joins this batch. */
  ghost predicate Joins(s: DeliveryState, t: DeliveryState, r: RequestId, b: BatchId) {
    r !in s.engine.requestToBatch && r in t.engine.requestToBatch && t.engine.requestToBatch[r] == b
  }

  lemma JoinRunStep(cfg: BatchConfig, minMembers: Option<nat>, states: seq<DeliveryState>, events: seq<DeliveryEvent>,
                    k: nat, s: DeliveryState, t: DeliveryState, r: RequestId, b: BatchId)
    requires ValidConfig(cfg) && IsDeliveryRun(cfg, minMembers, states, events)
    requires k < |events| && s == states[k] && t == states[k + 1] && Joins(s, t, r, b)
    ensures b in s.submitted ==> Stranded(t, r)
    ensures s.inFlight.Some? && s.inFlight.value.batchId == b ==> Missed(t, r)
  {
    DeliveryRunStep(cfg, minMembers, states, events, k, s, t);
    if b in s.submitted {
      JoiningSubmittedStrands(cfg, minMembers, s, events[k], t, r);
    }
    if s.inFlight.Some? && s.inFlight.value.batchId == b {
      JoiningInFlightMisses(cfg, minMembers, s, events[k], t, r);
    }
  }

  /** A request that joins a batch after its dispatch was accepted is in no accepted dispatch, then or ever after. */
  lemma LateJoinerIsNeverDelivered(cfg: BatchConfig, minMembers: Option<nat>, states: seq<DeliveryState>,
                                   events: seq<DeliveryEvent>, k: nat, n: nat, r: RequestId, b: BatchId)
    requires ValidConfig(cfg) && IsDeliveryRun(cfg, minMembers, states, events) && k < n < |states|
    requires Joins(states[k], states[k + 1], r, b) && b in states[k].submitted
    ensures Undelivered(states[n], r)
  {
    JoinRunStep(cfg, minMembers, states, events, k, states[k], states[k + 1], r, b);
    StrandedStays(cfg, minMembers, states, events, k + 1, n, r);
  }

  /**
   Likewise a request that joins a batch while its dispatch is in flight: once the answer is an acceptance, the request
   is in no accepted dispatch, then or ever after.
   */
  lemma JoinerInFlightIsNeverDelivered(cfg: BatchConfig, minMembers: Option<nat>, states: seq<DeliveryState>,
                                       events: seq<DeliveryEvent>, k: nat, m: nat, n: nat, r: RequestId, b: BatchId)
    requires ValidConfig(cfg) && IsDeliveryRun(cfg, minMembers, states, events) && k < m < n < |states|
    requires Joins(states[k], states[k + 1], r, b)
    requires states[k].inFlight.Some? && states[k].inFlight.value.batchId == b
    requires events[m] == EndDispatch(true) && forall i :: k < i < m ==> !events[i].EndDispatch?
    ensures Undelivered(states[n], r)
  {
    JoinRunStep(cfg, minMembers, states, events, k, states[k], states[k + 1], r, b);
    MissedStays(cfg, minMembers, states, events, k + 1, m, r);
    MissedRunStep(cfg, minMembers, states, events, m, states[m], states[m + 1], r);
    StrandedStays(cfg, minMembers, states, events, m + 1, n, r);
  }
}
