/** What holds over whole runs of the engine: any sequence of placements and retirements, with any clock readings. */
module BatchEngineRuns {
  import opened Schemas
  import opened BatchModels
  import opened BatchEngineSpec
  import opened BatchEngineInvariant

  datatype Event =
    | PlaceItem(item: QueueItem, now: Time, newId: BatchId)
    | RetireRequest(requestId: RequestId, status: MemberStatus, reason: string, now: Time)

  /** New batch ids are fresh, and the three retiring operations never set a member back to active. */
  ghost predicate Permitted(s: EngineState, e: Event) {
    match e
    case PlaceItem(_, _, newId) => newId !in s.batches
    case RetireRequest(_, status, _, _) => !status.MemberActive?
  }

  ghost predicate Raises(cfg: BatchConfig, s: EngineState, e: Event)
    requires Listed(s)
  {
    match e
    case PlaceItem(item, now, newId) => Place(cfg, s, item, now, newId).Failure?
    case RetireRequest(r, status, reason, now) => Retire(s, r, status, reason, now).Failure?
  }

  /** One step of a run; nothing is known of the state after a step that raises. */
  ghost predicate Step(cfg: BatchConfig, s: EngineState, e: Event, t: EngineState) {
    && Permitted(s, e)
    && (Listed(s) && !Raises(cfg, s, e) ==>
          match e
          case PlaceItem(item, now, newId) => Place(cfg, s, item, now, newId).value.0 == t
          case RetireRequest(r, status, reason, now) => Retire(s, r, status, reason, now).value.0 == t)
  }

  ghost predicate StepAt(cfg: BatchConfig, states: seq<EngineState>, events: seq<Event>, i: nat)
    requires |states| == |events| + 1 && i < |events|
  {
    Step(cfg, states[i], events[i], states[i + 1])
  }

  ghost predicate IsRun(cfg: BatchConfig, states: seq<EngineState>, events: seq<Event>) {
    && |states| == |events| + 1
    && states[0] == EMPTY_ENGINE
    && forall i :: 0 <= i < |events| ==> StepAt(cfg, states, events, i)
  }

  // ---- Safety ----

  lemma EmptyEngineInv(cfg: BatchConfig)
    requires ValidConfig(cfg)
    ensures EngineInv(cfg, EMPTY_ENGINE)
  {
  }

  lemma StepKeepsInv(cfg: BatchConfig, s: EngineState, e: Event, t: EngineState)
    requires ValidConfig(cfg) && EngineInv(cfg, s) && Step(cfg, s, e, t)
    ensures !Raises(cfg, s, e)
    ensures EngineInv(cfg, t)
  {
    match e
    case PlaceItem(item, now, newId) =>
      if Admissible(cfg, s, item, now) {
        PlacementIsExact(cfg, s, item, now, newId);
      } else {
        RefusalIsExact(cfg, s, item, now, newId);
      }
    case RetireRequest(r, status, reason, now) =>
      RetireIsExact(cfg, s, r, status, reason, now);
  }

  /** Every reachable state has the joint invariant. */
  lemma {:induction false} ReachableInv(cfg: BatchConfig, states: seq<EngineState>, events: seq<Event>, k: nat)
    requires ValidConfig(cfg) && IsRun(cfg, states, events) && k < |states|
    ensures EngineInv(cfg, states[k])
    decreases k
  {
    if k == 0 {
      EmptyEngineInv(cfg);
    } else {
      ReachableInv(cfg, states, events, k - 1);
      assert StepAt(cfg, states, events, k - 1);
      StepKeepsInv(cfg, states[k - 1], events[k - 1], states[k]);
    }
  }

  /** No operation of any run raises. */
  lemma NothingRaises(cfg: BatchConfig, states: seq<EngineState>, events: seq<Event>, k: nat)
    requires ValidConfig(cfg) && IsRun(cfg, states, events) && k < |events|
    ensures Listed(states[k]) && !Raises(cfg, states[k], events[k])
  {
    ReachableInv(cfg, states, events, k);
    assert StepAt(cfg, states, events, k);
    StepKeepsInv(cfg, states[k], events[k], states[k + 1]);
  }

  // ---- History ----

  /** The members of `before`, in order and unchanged but for their status, begin `after`. */
  ghost predicate SameMembers(before: seq<BatchMember>, after: seq<BatchMember>) {
    && |before| <= |after|
    && forall i :: 0 <= i < |before| ==> after[i].(status := before[i].status) == before[i]
  }

  /** A batch only advances; once terminal it keeps its state and gains no member. */
  ghost predicate BatchExtends(before: Batch, after: Batch) {
    && after.model == before.model && after.createdAt == before.createdAt && after.windowEnd == before.windowEnd
    && SameMembers(before.members, after.members)
    && Rank(before.state) <= Rank(after.state)
    && (Terminal(before.state) ==> after.state == before.state && |after.members| == |before.members|)
  }

  /** Nothing that a state records about who is where is ever changed or forgotten. */
  ghost predicate Extends(s: EngineState, t: EngineState) {
    && s.order <= t.order
    && (forall r :: r in s.requestToBatch ==> r in t.requestToBatch && t.requestToBatch[r] == s.requestToBatch[r])
    && (forall r :: r in s.assignments ==> r in t.assignments && t.assignments[r] == s.assignments[r])
    && (forall b :: b in s.batches ==> b in t.batches && BatchExtends(s.batches[b], t.batches[b]))
  }

  lemma ExtendsTransitive(s: EngineState, t: EngineState, u: EngineState)
    requires Extends(s, t) && Extends(t, u)
    ensures Extends(s, u)
  {
    forall b | b in s.batches ensures BatchExtends(s.batches[b], u.batches[b]) {
      assert BatchExtends(s.batches[b], t.batches[b]) && BatchExtends(t.batches[b], u.batches[b]);
    }
  }

  lemma ReplaceExtends(s: EngineState, batch: Batch, t: EngineState)
    requires Replaces(s, batch, t) && BatchExtends(s.batches[batch.batchId], batch)
    requires forall r :: r in s.requestToBatch ==> r in t.requestToBatch && t.requestToBatch[r] == s.requestToBatch[r]
    requires forall r :: r in s.assignments ==> r in t.assignments && t.assignments[r] == s.assignments[r]
    ensures Extends(s, t)
  {
    forall b | b in s.batches ensures b in t.batches && BatchExtends(s.batches[b], t.batches[b]) {
    }
  }

  lemma JoinExtends(cfg: BatchConfig, s: EngineState, b: BatchId, item: QueueItem, now: Time)
    requires BatchEntry(s, b) && Live(s.batches[b])
    requires item.requestId !in s.requestToBatch && item.requestId !in s.assignments
    ensures Extends(s, JoinedState(cfg, s, b, item, now))
  {
    ReplaceExtends(s, JoinedBatch(cfg, s.batches[b], item, now), JoinedState(cfg, s, b, item, now));
  }

  lemma OpenExtends(cfg: BatchConfig, s: EngineState, model: string, now: Time, newId: BatchId)
    requires newId !in s.batches
    ensures Extends(s, OpenedState(cfg, s, model, now, newId))
  {
    forall b | b in s.batches
      ensures b in OpenedState(cfg, s, model, now, newId).batches
      ensures BatchExtends(s.batches[b], OpenedState(cfg, s, model, now, newId).batches[b])
    {
    }
  }

  lemma PlacementExtends(cfg: BatchConfig, s: EngineState, item: QueueItem, now: Time, newId: BatchId)
    requires Listed(s) && newId !in s.batches && Admissible(cfg, s, item, now)
    requires LookupForm(cfg, s, item.request.model, now) && item.requestId !in s.assignments
    ensures Extends(s, PlacedState(cfg, s, item, now, newId))
  {
    var model := item.request.model;
    var base, b := PlacementBase(cfg, s, model, now, newId), PlacementTarget(s, model, newId);
    JoinExtends(cfg, base, b, item, now);
    if model !in s.activeByModel {
      OpenExtends(cfg, s, model, now, newId);
      ExtendsTransitive(s, base, PlacedState(cfg, s, item, now, newId));
    }
  }

  lemma RetireExtends(s: EngineState, b: BatchId, i: nat, status: MemberStatus, reason: string, now: Time)
    requires BatchEntry(s, b) && i < |s.sets[b]|
    requires s.batches[b].state in {Filling, Active, Completed, Failed}
    ensures Extends(s, RetiredState(s, b, i, status, reason, now))
  {
    ReplaceExtends(s, RetiredBatch(s.batches[b], i, status, reason, now), RetiredState(s, b, i, status, reason, now));
  }

  lemma PlaceExtends(cfg: BatchConfig, s: EngineState, item: QueueItem, now: Time, newId: BatchId)
    requires ValidConfig(cfg) && EngineInv(cfg, s) && newId !in s.batches
    ensures Place(cfg, s, item, now, newId).Success?
    ensures Extends(s, Place(cfg, s, item, now, newId).value.0)
  {
    if Admissible(cfg, s, item, now) {
      PlacementIsExact(cfg, s, item, now, newId);
      LookupsAgree(cfg, s, item.request.model, now);
      PlacementExtends(cfg, s, item, now, newId);
    } else {
      RefusalIsExact(cfg, s, item, now, newId);
    }
  }

  lemma RetirementExtends(cfg: BatchConfig, s: EngineState, r: RequestId, status: MemberStatus, reason: string,
                          now: Time)
    requires EngineInv(cfg, s) && !status.MemberActive?
    ensures Retire(s, r, status, reason, now).Success?
    ensures Extends(s, Retire(s, r, status, reason, now).value.0)
  {
    RetireIsExact(cfg, s, r, status, reason, now);
    if r in s.requestToBatch {
      var b := s.requestToBatch[r];
      assert BatchInv(cfg, s.batches[b]);
      RetireExtends(s, b, IndexOf(s.sets[b], r).value, status, reason, now);
    }
  }

  lemma PlaceStepExtends(cfg: BatchConfig, s: EngineState, item: QueueItem, now: Time, newId: BatchId, t: EngineState)
    requires ValidConfig(cfg) && EngineInv(cfg, s) && Step(cfg, s, PlaceItem(item, now, newId), t)
    ensures Extends(s, t)
  {
    PlaceExtends(cfg, s, item, now, newId);
    assert t == Place(cfg, s, item, now, newId).value.0;
  }

  lemma RetireStepForm(cfg: BatchConfig, s: EngineState, r: RequestId, status: MemberStatus, reason: string, now: Time,
                       t: EngineState)
    requires Listed(s) && Step(cfg, s, RetireRequest(r, status, reason, now), t)
    requires Retire(s, r, status, reason, now).Success?
    ensures t == Retire(s, r, status, reason, now).value.0
  {
  }

  lemma RetireStepExtends(cfg: BatchConfig, s: EngineState, r: RequestId, status: MemberStatus, reason: string,
                          now: Time, t: EngineState)
    requires EngineInv(cfg, s) && Step(cfg, s, RetireRequest(r, status, reason, now), t)
    ensures Extends(s, t)
  {
    RetirementExtends(cfg, s, r, status, reason, now);
    RetireStepForm(cfg, s, r, status, reason, now, t);
  }

  lemma StepExtends(cfg: BatchConfig, s: EngineState, e: Event, t: EngineState)
    requires ValidConfig(cfg) && EngineInv(cfg, s) && Step(cfg, s, e, t)
    ensures Extends(s, t)
  {
    match e
    case PlaceItem(item, now, newId) => PlaceStepExtends(cfg, s, item, now, newId, t);
    case RetireRequest(r, status, reason, now) => RetireStepExtends(cfg, s, r, status, reason, now, t);
  }

  lemma RunStepExtends(cfg: BatchConfig, states: seq<EngineState>, events: seq<Event>, k: nat)
    requires ValidConfig(cfg) && IsRun(cfg, states, events) && k < |events|
    ensures Extends(states[k], states[k + 1])
  {
    ReachableInv(cfg, states, events, k);
    assert StepAt(cfg, states, events, k);
    StepExtends(cfg, states[k], events[k], states[k + 1]);
  }

  /** Along a run the records only grow: batches advance, terminal ones are frozen, members keep batch and slot. */
  lemma {:induction false} RunsOnlyExtend(cfg: BatchConfig, states: seq<EngineState>, events: seq<Event>, i: nat,
                                          j: nat)
    requires ValidConfig(cfg) && IsRun(cfg, states, events) && i <= j < |states|
    ensures Extends(states[i], states[j])
    decreases j
  {
    if i < j {
      RunsOnlyExtend(cfg, states, events, i, j - 1);
      RunStepExtends(cfg, states, events, j - 1);
      ExtendsTransitive(states[i], states[j - 1], states[j]);
    }
  }
}
