/**
 Dispatching in terms of the records alone: which batches are held back, which are attempted, what a payload holds and
 in which order, and what an attempt gives that nobody accepts.
 */
module DispatchRules {
  import opened Wrappers
  import opened Schemas
  import opened Sorting
  import opened BatchModels
  import opened BatchEngineSpec
  import opened BatchEngineInvariant
  import opened BatchRecords
  import opened WaitingQueueSpec
  import opened Delivery
  import Routing
  import opened DispatchService

  // ---- Payloads ----

  /** The payload holds the assignments of exactly the active members, in the order of the members. */
  ghost predicate PayloadOf(ms: seq<BatchMember>, assignments: map<RequestId, Assignment>, payload: seq<Assignment>,
                            positions: seq<nat>)
  {
    && |positions| == |payload|
    && (forall p, q :: 0 <= p < q < |positions| ==> positions[p] < positions[q])
    && (forall p :: 0 <= p < |positions| ==>
          && positions[p] < |ms| && ms[positions[p]].status == MemberActive
          && ms[positions[p]].requestId in assignments && payload[p] == assignments[ms[positions[p]].requestId])
    && (forall i :: 0 <= i < |ms| && ms[i].status == MemberActive ==> i in positions)
  }

  lemma PayloadOfFront(ms: seq<BatchMember>, assignments: map<RequestId, Assignment>, payload: seq<Assignment>,
                       positions: seq<nat>, m: BatchMember)
    requires PayloadOf(ms, assignments, payload, positions)
    ensures m.status != MemberActive ==> PayloadOf(ms + [m], assignments, payload, positions)
    ensures m.status == MemberActive && m.requestId in assignments ==>
      PayloadOf(ms + [m], assignments, payload + [assignments[m.requestId]], positions + [|ms|])
  {
    var all := ms + [m];
    assert all[|ms|] == m && forall i :: 0 <= i < |ms| ==> all[i] == ms[i];
    forall i | 0 <= i < |all| && all[i].status == MemberActive ensures i in positions + [|ms|] {
      assert i < |ms| ==> i in positions;
    }
  }

  lemma {:induction false} PayloadInMemberOrder(ms: seq<BatchMember>, assignments: map<RequestId, Assignment>)
    returns (payload: seq<Assignment>, positions: seq<nat>)
    requires forall m :: m in ms ==> m.requestId in assignments
    ensures payload == AssignmentsOf(ms, assignments) && PayloadOf(ms, assignments, payload, positions)
  {
    if ms == [] {
      payload, positions := [], [];
    } else {
      var init, last := ms[..|ms| - 1], ms[|ms| - 1];
      var front, before := PayloadInMemberOrder(init, assignments);
      PayloadOfFront(init, assignments, front, before, last);
      assert ms == init + [last];
      if last.status == MemberActive {
        payload, positions := front + [assignments[last.requestId]], before + [|init|];
      } else {
        payload, positions := front, before;
      }
      LastAssignment(ms, assignments, front, payload);
    }
  }

  lemma LastAssignment(ms: seq<BatchMember>, assignments: map<RequestId, Assignment>, front: seq<Assignment>,
                       payload: seq<Assignment>)
    requires ms != [] && front == AssignmentsOf(ms[..|ms| - 1], assignments)
    requires payload == if ms[|ms| - 1].status == MemberActive && ms[|ms| - 1].requestId in assignments
                        then front + [assignments[ms[|ms| - 1].requestId]] else front
    ensures payload == AssignmentsOf(ms, assignments)
  {
  }

  /** In a reachable engine each entry of a payload carries the id and the slot of its member. */
  lemma PayloadOfBatch(cfg: BatchConfig, s: EngineState, b: BatchId) returns (positions: seq<nat>)
    requires EngineInv(cfg, s) && b in s.batches
    ensures PayloadOf(s.batches[b].members, s.assignments, BatchAssignments(s, b), positions)
    ensures |BatchAssignments(s, b)| == |ActivePositions(s.batches[b].members)|
    ensures forall p :: 0 <= p < |positions| ==>
      && BatchAssignments(s, b)[p].requestId == s.batches[b].members[positions[p]].requestId
      && BatchAssignments(s, b)[p].slotIndex == s.batches[b].members[positions[p]].slotIndex
  {
    var ms := s.batches[b].members;
    forall m | m in ms ensures Assigned(s, m) {
      assert m in s.sets[b];
    }
    var payload, order := PayloadInMemberOrder(ms, s.assignments);
    positions := order;
    PayloadIsComplete(ms, s.assignments);
    ActivePositionsAreCounted(ms);
    forall p | 0 <= p < |positions|
      ensures BatchAssignments(s, b)[p].requestId == ms[positions[p]].requestId
      ensures BatchAssignments(s, b)[p].slotIndex == ms[positions[p]].slotIndex
    {
      assert Assigned(s, ms[positions[p]]);
    }
  }

  // ---- Holding batches back ----

  /**
   The batch may be sent: not submitted, filling, ready or active, with an active member and the least number of them.
   */
  ghost predicate ReadyToSend(minMembers: Option<nat>, d: DeliveryState, b: BatchId) {
    && b !in d.submitted && b in d.engine.batches
    && d.engine.batches[b].state in {Filling, Ready, Active}
    && |ActivePositions(d.engine.batches[b].members)| >= 1
    && match minMembers
       case Some(least) => |ActivePositions(d.engine.batches[b].members)| >= least
       case None => true
  }

  lemma DispatchableMeans(minMembers: Option<nat>, d: DeliveryState, b: BatchId)
    ensures ReadyToSend(minMembers, d, b)
       <==> b !in d.submitted && b in d.engine.batches && Dispatchable(d.engine.batches[b], minMembers)
  {
    if b in d.engine.batches {
      ActivePositionsAreCounted(d.engine.batches[b].members);
    }
  }

  ghost predicate LargeEnough(minMembers: Option<nat>, payload: seq<Assignment>) {
    |payload| >= 1 && (minMembers.Some? ==> |payload| >= minMembers.value)
  }

  ghost predicate SendsEnough(minMembers: Option<nat>, s: DeliveryState) {
    && (forall i :: 0 <= i < |s.accepted| ==> LargeEnough(minMembers, s.accepted[i].payload))
    && (s.inFlight.Some? ==> LargeEnough(minMembers, s.inFlight.value.payload))
  }

  /** A dispatch begins only for a batch that may be sent, with a payload that is large enough. */
  lemma BeginsOnlyWhenReady(cfg: BatchConfig, minMembers: Option<nat>, s: DeliveryState, b: BatchId, t: DeliveryState)
    requires DeliveryInv(cfg, s) && DeliveryStep(cfg, minMembers, s, BeginDispatch(b), t)
    ensures ReadyToSend(minMembers, s, b)
    ensures t.inFlight.Some? && t.inFlight.value.batchId == b && LargeEnough(minMembers, t.inFlight.value.payload)
  {
    DispatchableMeans(minMembers, s, b);
    var positions := PayloadOfBatch(cfg, s.engine, b);
  }

  lemma StepSendsEnough(cfg: BatchConfig, minMembers: Option<nat>, s: DeliveryState, e: DeliveryEvent, t: DeliveryState)
    requires DeliveryInv(cfg, s) && DeliveryStep(cfg, minMembers, s, e, t) && SendsEnough(minMembers, s)
    ensures SendsEnough(minMembers, t)
  {
    if e.BeginDispatch? {
      BeginsOnlyWhenReady(cfg, minMembers, s, e.batchId, t);
    }
  }

  /** Over any run every accepted dispatch has an entry, and at least the least number of them where one is set. */
  lemma {:induction false} AcceptedAreLargeEnough(cfg: BatchConfig, minMembers: Option<nat>, states: seq<DeliveryState>,
                                                  events: seq<DeliveryEvent>, k: nat, s: DeliveryState)
    requires ValidConfig(cfg) && IsDeliveryRun(cfg, minMembers, states, events) && k < |states| && s == states[k]
    ensures SendsEnough(minMembers, s)
    decreases k
  {
    if k > 0 {
      AcceptedAreLargeEnough(cfg, minMembers, states, events, k - 1, states[k - 1]);
      DeliveryRunStep(cfg, minMembers, states, events, k - 1, states[k - 1], s);
      StepSendsEnough(cfg, minMembers, states[k - 1], events[k - 1], s);
    }
  }

  // ---- The attempts of one pass ----

  ghost function ReadyIds(minMembers: Option<nat>, d: DeliveryState, order: seq<BatchId>): seq<BatchId> {
    if order == [] then []
    else
      ReadyIds(minMembers, d, order[..|order| - 1])
      + (if ReadyToSend(minMembers, d, order[|order| - 1]) then [order[|order| - 1]] else [])
  }

  /** The answer for a batch with its present payload. */
  function Answer(cfg: DispatchConfig, d: DeliveryState, b: BatchId, adapter: Adapter): Option<DispatchResult>
    requires b in d.engine.batches
  {
    BatchOutcome(cfg, d.engine.batches[b], BatchAssignments(d.engine, b), adapter)
  }

  /** What one pass leaves: a result for each batch that may be sent, in order, and the accepted ones recorded. */
  ghost predicate PassResults(cfg: DispatchConfig, d: DeliveryState, order: seq<BatchId>, adapter: Adapter,
                              results: seq<DispatchResult>, after: DeliveryState)
  {
    var ready := ReadyIds(cfg.minMembers, d, order);
    && |results| == |ready|
    && (forall i :: 0 <= i < |ready| ==>
          && ready[i] in d.engine.batches && results[i].batchId == ready[i]
          && Answer(cfg, d, ready[i], adapter) == Some(results[i]))
    && after.engine == d.engine && after.inFlight == d.inFlight
    && after.submitted == d.submitted + (set i | 0 <= i < |results| && results[i].accepted :: results[i].batchId)
    && after.accepted == d.accepted + AcceptedOf(d, results)
  }

  function AcceptedOf(d: DeliveryState, results: seq<DispatchResult>): seq<Dispatch> {
    if results == [] then []
    else
      var last := results[|results| - 1];
      AcceptedOf(d, results[..|results| - 1])
      + (if last.accepted then [Dispatch(last.batchId, BatchAssignments(d.engine, last.batchId))] else [])
  }

  lemma BuildableIsAnswered(cfg: DispatchConfig, batch: Batch, assignments: seq<Assignment>, adapter: Adapter)
    requires Buildable(batch, assignments)
    ensures BatchOutcome(cfg, batch, assignments, adapter).Some?
    ensures BatchOutcome(cfg, batch, assignments, adapter).value.batchId == batch.batchId
  {
    OutcomeNamesBatch(cfg, batch, assignments, adapter);
  }

  /** A batch that may be sent gets an answer. */
  lemma ReadyIsAnswered(cfg: DispatchConfig, engineCfg: BatchConfig, d: DeliveryState, b: BatchId, adapter: Adapter)
    requires EngineInv(engineCfg, d.engine) && ReadyToSend(cfg.minMembers, d, b)
    ensures Answer(cfg, d, b, adapter).Some? && Answer(cfg, d, b, adapter).value.batchId == b
  {
    var positions := PayloadOfBatch(engineCfg, d.engine, b);
    BuildableIsAnswered(cfg, d.engine.batches[b], BatchAssignments(d.engine, b), adapter);
  }

  lemma {:induction false} ReadyIdsAreListed(minMembers: Option<nat>, d: DeliveryState, order: seq<BatchId>)
    ensures forall b :: b in ReadyIds(minMembers, d, order) <==> b in order && ReadyToSend(minMembers, d, b)
    ensures Distinct(order) ==> Distinct(ReadyIds(minMembers, d, order))
  {
    if order != [] {
      var init, last := order[..|order| - 1], order[|order| - 1];
      assert order == init + [last];
      ReadyIdsAreListed(minMembers, d, init);
    }
  }

  /**
   One pass over the batches: each batch that may be sent is attempted exactly once, in the order listed, and no other;
   exactly the accepted ones are marked submitted and recorded with their payload.
   */
  lemma {:induction false} PassAttemptsReady(cfg: DispatchConfig, engineCfg: BatchConfig, d: DeliveryState,
                                             order: seq<BatchId>,
                                             adapter: Adapter)
                                               returns (results: seq<DispatchResult>, after: DeliveryState)
    requires EngineInv(engineCfg, d.engine) && Distinct(order)
    ensures (results, after) == SubmitPending(cfg, d, order, adapter)
    ensures PassResults(cfg, d, order, adapter, results, after)
  {
    if order == [] {
      results, after := [], d;
      EmptyPass(cfg, d, adapter);
    } else {
      var n := |order| - 1;
      var front, before := PassAttemptsReady(cfg, engineCfg, d, order[..n], adapter);
      var outcome, last := NextAttempt(cfg, engineCfg, d, order, adapter, front, before);
      PassUnfolds(cfg, d, order, adapter, front, before, outcome, last);
      results, after := if outcome.Some? then front + [outcome.value] else front, last;
    }
  }

  lemma PassUnfolds(cfg: DispatchConfig, d: DeliveryState, order: seq<BatchId>, adapter: Adapter,
                    front: seq<DispatchResult>, before: DeliveryState, outcome: Option<DispatchResult>,
                    after: DeliveryState)
    requires order != [] && (front, before) == SubmitPending(cfg, d, order[..|order| - 1], adapter)
    requires (outcome, after) == SubmitOne(cfg, before, order[|order| - 1], adapter)
    ensures SubmitPending(cfg, d, order, adapter) == (if outcome.Some? then front + [outcome.value] else front, after)
  {
  }

  lemma NotYetSubmitted(cfg: DispatchConfig, d: DeliveryState, order: seq<BatchId>, adapter: Adapter,
                        front: seq<DispatchResult>, before: DeliveryState)
    requires order != [] && Distinct(order) && PassResults(cfg, d, order[..|order| - 1], adapter, front, before)
    ensures order[|order| - 1] in before.submitted <==> order[|order| - 1] in d.submitted
  {
    ReadyIdsAreListed(cfg.minMembers, d, order[..|order| - 1]);
    var last := order[|order| - 1];
    forall i | 0 <= i < |front| ensures front[i].batchId != last {
      assert front[i].batchId in order[..|order| - 1];
    }
  }

  /** The attempt for one batch, from its answer. */
  lemma OneAttempt(cfg: DispatchConfig, d: DeliveryState, before: DeliveryState, b: BatchId, adapter: Adapter)
    returns (outcome: Option<DispatchResult>, after: DeliveryState)
    requires before.engine == d.engine && (b in before.submitted <==> b in d.submitted)
    ensures (outcome, after) == SubmitOne(cfg, before, b, adapter)
    ensures if ReadyToSend(cfg.minMembers, d, b) then outcome == Answer(cfg, d, b, adapter) else outcome == None
    ensures after == if outcome.Some? && outcome.value.accepted
                     then before.(submitted := before.submitted + {b},
                                  accepted := before.accepted + [Dispatch(b, BatchAssignments(d.engine, b))])
                     else before
  {
    DispatchableMeans(cfg.minMembers, d, b);
    var attempt := SubmitOne(cfg, before, b, adapter);
    outcome, after := attempt.0, attempt.1;
  }

  lemma OneMoreResult(d: DeliveryState, front: seq<DispatchResult>, result: DispatchResult)
    ensures AcceptedOf(d, front + [result])
         == AcceptedOf(d, front)
            + (if result.accepted then [Dispatch(result.batchId, BatchAssignments(d.engine, result.batchId))] else [])
    ensures (set i | 0 <= i < |front + [result]| && (front + [result])[i].accepted :: (front + [result])[i].batchId)
         == (set i | 0 <= i < |front| && front[i].accepted :: front[i].batchId)
            + (if result.accepted then {result.batchId} else {})
  {
    var all := front + [result];
    assert all[..|front|] == front && all[|front|] == result;
    forall i | 0 <= i < |front| ensures all[i] == front[i] {
    }
  }

  /** One more result for one more batch that may be sent. */
  lemma ExtendPass(cfg: DispatchConfig, d: DeliveryState, order: seq<BatchId>, adapter: Adapter,
                   front: seq<DispatchResult>, before: DeliveryState, result: DispatchResult, after: DeliveryState)
    requires order != [] && PassResults(cfg, d, order[..|order| - 1], adapter, front, before)
    requires var last := order[|order| - 1];
      && ReadyToSend(cfg.minMembers, d, last) && Answer(cfg, d, last, adapter) == Some(result) && result.batchId == last
      && after == if result.accepted
                  then before.(submitted := before.submitted + {last},
                               accepted := before.accepted + [Dispatch(last, BatchAssignments(d.engine, last))])
                  else before
    ensures PassResults(cfg, d, order, adapter, front + [result], after)
  {
    OneMoreResult(d, front, result);
  }

  lemma SkipInPass(cfg: DispatchConfig, d: DeliveryState, order: seq<BatchId>, adapter: Adapter,
                   front: seq<DispatchResult>, before: DeliveryState)
    requires order != [] && PassResults(cfg, d, order[..|order| - 1], adapter, front, before)
    requires !ReadyToSend(cfg.minMembers, d, order[|order| - 1])
    ensures PassResults(cfg, d, order, adapter, front, before)
  {
    assert ReadyIds(cfg.minMembers, d, order) == ReadyIds(cfg.minMembers, d, order[..|order| - 1]);
  }

  lemma EmptyPass(cfg: DispatchConfig, d: DeliveryState, adapter: Adapter)
    ensures PassResults(cfg, d, [], adapter, [], d)
    ensures SubmitPending(cfg, d, [], adapter) == ([], d)
  {
    assert d.accepted + [] == d.accepted;
  }

  lemma NextAttempt(cfg: DispatchConfig, engineCfg: BatchConfig, d: DeliveryState, order: seq<BatchId>,
                    adapter: Adapter, front: seq<DispatchResult>, before: DeliveryState)
    returns (outcome: Option<DispatchResult>, after: DeliveryState)
    requires EngineInv(engineCfg, d.engine) && order != [] && Distinct(order)
    requires PassResults(cfg, d, order[..|order| - 1], adapter, front, before)
    ensures (outcome, after) == SubmitOne(cfg, before, order[|order| - 1], adapter)
    ensures PassResults(cfg, d, order, adapter, if outcome.Some? then front + [outcome.value] else front, after)
  {
    var last := order[|order| - 1];
    NotYetSubmitted(cfg, d, order, adapter, front, before);
    outcome, after := OneAttempt(cfg, d, before, last, adapter);
    if ReadyToSend(cfg.minMembers, d, last) {
      ReadyIsAnswered(cfg, engineCfg, d, last, adapter);
      ExtendPass(cfg, d, order, adapter, front, before, outcome.value, after);
    } else {
      SkipInPass(cfg, d, order, adapter, front, before);
    }
  }

  // ---- Attempts that fail ----

  /**
   A search that nobody accepts blames the last backend with its message if that one raised; otherwise it names the
   default backend and the text of the exhausted routing.
   */
  lemma {:induction false} SearchWithoutAcceptor(cfg: DispatchConfig, b: BatchId, order: seq<Routing.BackendId>,
                                                 adapter: Adapter, exhausted: string)
    requires forall i :: 0 <= i < |order| ==> !Accepts(adapter, b, order[i])
    ensures SearchOutcome(cfg, b, order, adapter, exhausted)
         == if order != [] && adapter(b, order[|order| - 1]).Raised?
            then DispatchResult(b, order[|order| - 1], false, adapter(b, order[|order| - 1]).message)
            else DispatchResult(b, cfg.defaultBackend, false, exhausted)
  {
    if |order| > 1 {
      assert order[1..][|order| - 2] == order[|order| - 1];
      SearchWithoutAcceptor(cfg, b, order[1..], adapter, exhausted);
    }
  }

  /** Without a router the default backend is asked once, and its answer or its exception is the result. */
  lemma AttemptWithoutRouter(cfg: DispatchConfig, batch: Batch, assignments: seq<Assignment>, adapter: Adapter)
    requires cfg.router == None && batch.state in {Filling, Ready, Active} && assignments != []
    ensures var reply := adapter(batch.batchId, cfg.defaultBackend);
      BatchOutcome(cfg, batch, assignments, adapter)
      == Some(match reply
              case Answered(id, accepted, reason) => DispatchResult(batch.batchId, id, accepted, reason)
              case Raised(message) => DispatchResult(batch.batchId, cfg.defaultBackend, false, message))
  {
  }

  /** A batch for which routing offers no backend fails with the text of the routing; otherwise it must be buildable. */
  lemma AttemptWithoutBackend(cfg: DispatchConfig, batch: Batch, assignments: seq<Assignment>, adapter: Adapter)
    requires cfg.router.Some?
    ensures ModelTrials(cfg.router.value, batch.model, {}) == [] ==>
      BatchOutcome(cfg, batch, assignments, adapter)
      == Some(DispatchResult(batch.batchId, cfg.defaultBackend, false,
                             if batch.model !in cfg.router.value.models then "model unavailable: " + batch.model
                             else RouteModel(cfg.router.value, batch.model, {}).error))
    ensures ModelTrials(cfg.router.value, batch.model, {}) != []
            && (batch.state !in {Filling, Ready, Active} || assignments == []) ==>
      BatchOutcome(cfg, batch, assignments, adapter) == None
  {
    RouteStep(cfg.router.value, batch.model, {});
  }
}
