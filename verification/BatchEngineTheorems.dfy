/** Consequences of the joint invariant that span several operations of the engine. */
module BatchEngineTheorems {
  import opened Wrappers
  import opened Schemas
  import opened BatchModels
  import opened BatchEngineSpec
  import opened BatchEngineInvariant
  import opened BatchEngineRuns

  // ---- The model index and the gauge ----

  /** In a reachable state the gauge equals the size of the model index, whose entries are exactly the live batches. */
  lemma GaugeIsIndexSize(cfg: BatchConfig, states: seq<EngineState>, events: seq<Event>, k: nat)
    requires ValidConfig(cfg) && IsRun(cfg, states, events) && k < |states|
    ensures states[k].activeByModel.Values == LiveIds(states[k])
    ensures |LiveIds(states[k])| == |states[k].activeByModel|
  {
    ReachableInv(cfg, states, events, k);
    var s := states[k];
    IndexValues(s);
    InjectiveMapSize(s.activeByModel);
  }

  /** At most one batch of a model is live, and the index lookup finds exactly what a search of all batches finds. */
  lemma AtMostOneLiveBatch(cfg: BatchConfig, states: seq<EngineState>, events: seq<Event>, k: nat, model: string)
    requires ValidConfig(cfg) && IsRun(cfg, states, events) && k < |states|
    ensures |LiveBatches(states[k], model)| <= 1
    ensures GetActiveBatch(states[k], model).Some? ==>
              LiveBatches(states[k], model) == {GetActiveBatch(states[k], model).value.batchId}
    ensures GetActiveBatch(states[k], model).None? ==> LiveBatches(states[k], model) == {}
  {
    ReachableInv(cfg, states, events, k);
    IndexIsSearch(cfg, states[k], model);
  }

  /** The fallback scan never finds a batch that the index lookup did not. */
  lemma FallbackScanIsDead(cfg: BatchConfig, states: seq<EngineState>, events: seq<Event>, k: nat, model: string,
                           now: Time)
    requires ValidConfig(cfg) && IsRun(cfg, states, events) && k < |states|
    ensures Listed(states[k]) && FindAdmittable(cfg, states[k], model, now) == IndexHit(cfg, states[k], model)
  {
    ReachableInv(cfg, states, events, k);
    ScanIsRedundant(cfg, states[k], model, now);
  }

  // ---- Slots ----

  /** Two active members of one batch never share a slot, every slot is below the batch size, and assignments agree. */
  lemma SlotSafety(cfg: BatchConfig, states: seq<EngineState>, events: seq<Event>, k: nat, b: BatchId, i: nat, j: nat)
    requires ValidConfig(cfg) && IsRun(cfg, states, events) && k < |states|
    requires b in states[k].batches && i < |states[k].batches[b].members| && j < |states[k].batches[b].members|
    requires i != j
    ensures var s, ms := states[k], states[k].batches[b].members;
      && ms[i].slotIndex < cfg.maxBatchSize
      && (ms[i].status.MemberActive? && ms[j].status.MemberActive? ==> ms[i].slotIndex != ms[j].slotIndex)
      && ms[i].requestId in s.assignments
      && s.assignments[ms[i].requestId].slotIndex == ms[i].slotIndex
  {
    ReachableInv(cfg, states, events, k);
    var s, ms := states[k], states[k].batches[b].members;
    assert BatchInv(cfg, s.batches[b]);
    assert ms[i] in s.sets[b];
    assert Assigned(s, ms[i]);
    if i > j {
      assert ms[j].status.MemberActive? && ms[i].status.MemberActive? ==> ms[j].slotIndex != ms[i].slotIndex;
    }
  }

  // ---- Conservation ----

  /** The four totals always add up to the number of requests ever placed, and the active one stays within capacity. */
  lemma Conservation(cfg: BatchConfig, states: seq<EngineState>, events: seq<Event>, k: nat)
    requires ValidConfig(cfg) && IsRun(cfg, states, events) && k < |states|
    ensures Listed(states[k])
    ensures var s := states[k];
      && SumStatus(s.order, s.sets, MemberActive) <= cfg.maxActiveRequests
      && SumStatus(s.order, s.sets, MemberActive) + SumStatus(s.order, s.sets, MemberCompleted)
         + SumStatus(s.order, s.sets, MemberCancelled) + SumStatus(s.order, s.sets, MemberFailed) == |s.requestToBatch|
      && s.assignments.Keys == s.requestToBatch.Keys
  {
    ReachableInv(cfg, states, events, k);
    SumPartition(states[k].order, states[k].sets);
  }

  /** The three records of who is where agree: membership, the map to batches, and the assignments. */
  lemma RecordsAgree(cfg: BatchConfig, states: seq<EngineState>, events: seq<Event>, k: nat, r: RequestId)
    requires ValidConfig(cfg) && IsRun(cfg, states, events) && k < |states|
    ensures var s := states[k];
      && (r in s.requestToBatch <==> r in s.assignments)
      && (r in s.requestToBatch ==>
            && s.requestToBatch[r] in s.sets && s.requestToBatch[r] in s.batches
            && r in MemberIds(s.sets[s.requestToBatch[r]])
            && s.batches[s.requestToBatch[r]].members == s.sets[s.requestToBatch[r]]
            && s.assignments[r].requestId == r)
      && (forall b :: b in s.sets && r in MemberIds(s.sets[b]) ==> r in s.requestToBatch && s.requestToBatch[r] == b)
  {
    ReachableInv(cfg, states, events, k);
    var s := states[k];
    if r in s.requestToBatch {
      var m :| m in s.sets[s.requestToBatch[r]] && m.requestId == r;
      assert Assigned(s, m);
    }
  }

  // ---- States and counts ----

  /** A filling batch has room, an active one has members but not too many, and a completed one has no active member. */
  lemma StateFitsCount(cfg: BatchConfig, states: seq<EngineState>, events: seq<Event>, k: nat, b: BatchId)
    requires ValidConfig(cfg) && IsRun(cfg, states, events) && k < |states| && b in states[k].batches
    ensures var batch := states[k].batches[b];
      && batch.state in {Filling, Active, Completed, Failed}
      && (batch.state.Filling? ==> ActiveCount(batch.members) < cfg.maxBatchSize)
      && (batch.state.Active? ==> 1 <= ActiveCount(batch.members) <= cfg.maxBatchSize)
      && (batch.state.Completed? ==> ActiveCount(batch.members) == 0)
  {
    ReachableInv(cfg, states, events, k);
    assert BatchInv(cfg, states[k].batches[b]);
  }

  /** Every member of a batch that was never activated was added within the admission window. */
  lemma MembersJoinInWindow(cfg: BatchConfig, states: seq<EngineState>, events: seq<Event>, k: nat, b: BatchId,
                            m: BatchMember)
    requires ValidConfig(cfg) && IsRun(cfg, states, events) && k < |states| && b in states[k].batches
    requires m in states[k].batches[b].members && states[k].batches[b].activatedAt.None?
    ensures m.addedAt <= states[k].batches[b].windowEnd
  {
    ReachableInv(cfg, states, events, k);
    assert BatchInv(cfg, states[k].batches[b]);
  }

  // ---- Replacement ----

  /** A full batch uses every slot below the batch size. */
  lemma FullBatchUsesAllSlots(cfg: BatchConfig, batch: Batch)
    requires BatchInv(cfg, batch) && ActiveCount(batch.members) == cfg.maxBatchSize
    ensures UsedSlots(batch.members) == Below(cfg.maxBatchSize)
  {
    UsedSlotsSize(batch.members);
    SubsetSize(UsedSlots(batch.members), Below(cfg.maxBatchSize));
  }

  lemma RetiringFreesOneSlot(ms: seq<BatchMember>, i: nat)
    requires DistinctActiveSlots(ms) && i < |ms| && ms[i].status.MemberActive?
    ensures UsedSlots(ms[i := ms[i].(status := MemberCompleted)]) == UsedSlots(ms) - {ms[i].slotIndex}
  {
    var after := ms[i := ms[i].(status := MemberCompleted)];
    forall u | u in UsedSlots(ms) && u != ms[i].slotIndex ensures u in UsedSlots(after) {
      var j :| 0 <= j < |ms| && ms[j].status.MemberActive? && ms[j].slotIndex == u;
      assert after[j] in after;
    }
    forall u | u in UsedSlots(after) ensures u in UsedSlots(ms) && u != ms[i].slotIndex {
      var j :| 0 <= j < |after| && after[j].status.MemberActive? && after[j].slotIndex == u;
      assert ms[j] in ms;
    }
  }

  /** With every slot of a full batch taken, the slot of the retired member is the only free one. */
  lemma FreedSlotIsNext(cfg: BatchConfig, batch: Batch, i: nat)
    requires BatchInv(cfg, batch) && ActiveCount(batch.members) == cfg.maxBatchSize
    requires i < |batch.members| && batch.members[i].status.MemberActive?
    ensures NextSlot(batch.members[i := batch.members[i].(status := MemberCompleted)]) == batch.members[i].slotIndex
  {
    FullBatchUsesAllSlots(cfg, batch);
    RetiringFreesOneSlot(batch.members, i);
    FreeSlotIsLeast(UsedSlots(batch.members) - {batch.members[i].slotIndex});
    assert batch.members[i] in batch.members;
  }

  /** The full ACTIVE batch b holds request r at position i, and the item is new and of its model. */
  ghost predicate Replaceable(cfg: BatchConfig, s: EngineState, b: BatchId, i: nat, item: QueueItem) {
    && b in s.batches && i < |s.batches[b].members|
    && s.batches[b].state.Active?
    && ActiveCount(s.batches[b].members) == cfg.maxBatchSize
    && s.batches[b].members[i].status.MemberActive?
    && item.requestId !in s.requestToBatch
    && item.request.model == s.batches[b].model
  }

  lemma {:induction false} IndexOfDistinct(ms: seq<BatchMember>, i: nat)
    requires DistinctIds(ms) && i < |ms|
    ensures IndexOf(ms, ms[i].requestId) == Some(i)
  {
    if i < |ms| - 1 {
      IndexOfDistinct(ms[..|ms| - 1], i);
    }
  }

  function AfterRetirement(s: EngineState, b: BatchId, i: nat, now: Time): EngineState
    requires BatchEntry(s, b) && i < |s.sets[b]|
  {
    RetiredState(s, b, i, MemberCompleted, "request_completed", now)
  }

  lemma RetirementForm(cfg: BatchConfig, s: EngineState, b: BatchId, i: nat, item: QueueItem, now: Time)
    requires BatchEntry(s, b) && Replaceable(cfg, s, b, i, item) && cfg.maxBatchSize >= 2
    requires BatchInv(cfg, s.batches[b]) && Ownership(s)
    ensures var t, m := AfterRetirement(s, b, i, now), s.batches[b].members[i];
      && t.batches[b] == s.batches[b].(members := s.batches[b].members[i := m.(status := MemberCompleted)])
      && ActiveCount(t.batches[b].members) == cfg.maxBatchSize - 1
      && t.requestToBatch == s.requestToBatch
      && Retire(s, m.requestId, MemberCompleted, "request_completed", now)
         == Success((t, Retired(Some(b), m.requestId, true, "request_completed", Some(Active), Some(Active))))
  {
    var ms := s.sets[b];
    assert ms[i] in ms;
    IndexOfDistinct(ms, i);
    CountSetStatus(ms, i, MemberCompleted, MemberActive);
    RetireForm(s, ms[i].requestId, MemberCompleted, "request_completed", now);
  }

  lemma RetirementState(cfg: BatchConfig, s: EngineState, b: BatchId, i: nat, item: QueueItem, now: Time)
    requires EngineInv(cfg, s) && Replaceable(cfg, s, b, i, item) && cfg.maxBatchSize >= 2
    ensures BatchEntry(s, b) && BatchInv(cfg, s.batches[b])
    ensures EngineInv(cfg, AfterRetirement(s, b, i, now))
    ensures GlobalActiveCount(AfterRetirement(s, b, i, now)) < cfg.maxActiveRequests
  {
    assert BatchInv(cfg, s.batches[b]);
    RetiredStateInv(cfg, s, b, i, MemberCompleted, "request_completed", now);
    RetireCounts(cfg, s, b, i, MemberCompleted, "request_completed", now);
  }

  /**
   Replacing a member of a full active batch puts the new request into the same batch and the very slot just freed.
   */
  lemma ReplacementReusesSlot(cfg: BatchConfig, s: EngineState, b: BatchId, i: nat, item: QueueItem,
                              retiredAt: Time, placedAt: Time, newId: BatchId)
    requires ValidConfig(cfg) && EngineInv(cfg, s) && newId !in s.batches
    requires Replaceable(cfg, s, b, i, item) && cfg.maxBatchSize >= 2
    ensures var m := s.batches[b].members[i];
      var outcome := Replace(cfg, s, m.requestId, item, retiredAt, placedAt, newId);
      && outcome.Success?
      && outcome.value.1 == Some(Placed(item.requestId, b, Assignment(item.requestId, m.slotIndex, item.request),
                                        "batch_has_capacity"))
  {
    RetirementState(cfg, s, b, i, item, retiredAt);
    RetirementForm(cfg, s, b, i, item, retiredAt);
    FreedSlotIsNext(cfg, s.batches[b], i);
    var t, m := AfterRetirement(s, b, i, retiredAt), s.batches[b].members[i];
    ReplacementPlaces(cfg, t, b, item, placedAt, newId);
    ReplaceForm(cfg, s, m.requestId, item, retiredAt, placedAt, newId, t,
                Retired(Some(b), m.requestId, true, "request_completed", Some(Active), Some(Active)));
  }

  lemma ReplacementPlaces(cfg: BatchConfig, t: EngineState, b: BatchId, item: QueueItem, now: Time, newId: BatchId)
    requires ValidConfig(cfg) && EngineInv(cfg, t) && newId !in t.batches
    requires b in t.batches && t.batches[b].state.Active? && HasRoom(cfg, t.batches[b])
    requires t.batches[b].model == item.request.model && item.requestId !in t.requestToBatch
    requires GlobalActiveCount(t) < cfg.maxActiveRequests
    ensures Place(cfg, t, item, now, newId).Success?
    ensures Place(cfg, t, item, now, newId).value.1
         == Placed(item.requestId, b, NewAssignment(t.batches[b], item), "batch_has_capacity")
  {
    IndexIsSearch(cfg, t, item.request.model);
    assert b in LiveBatches(t, item.request.model);
    PlacementIsExact(cfg, t, item, now, newId);
  }

  // ---- The admission window ----

  /** A batch leaves FILLING for ACTIVE only by filling up, or by a placement at the very instant its window ends. */
  lemma ActivationMoment(cfg: BatchConfig, s: EngineState, item: QueueItem, now: Time, newId: BatchId, b: BatchId)
    requires ValidConfig(cfg) && EngineInv(cfg, s) && newId !in s.batches && b in s.batches
    requires s.batches[b].state.Filling?
    ensures Place(cfg, s, item, now, newId).Success?
    ensures var t := Place(cfg, s, item, now, newId).value.0;
      && b in t.batches
      && (t.batches[b].state.Active? ==>
            ActiveCount(t.batches[b].members) == cfg.maxBatchSize || now == s.batches[b].windowEnd)
  {
    if Admissible(cfg, s, item, now) {
      PlacementIsExact(cfg, s, item, now, newId);
      ActivationForm(cfg, s, item, now, newId, b);
    } else {
      RefusalIsExact(cfg, s, item, now, newId);
    }
  }

  lemma JoinActivates(cfg: BatchConfig, batch: Batch, item: QueueItem, now: Time)
    requires batch.state.Filling? && Open(cfg, batch, now)
    ensures JoinedBatch(cfg, batch, item, now).state.Active? ==>
      ActiveCount(JoinedBatch(cfg, batch, item, now).members) == cfg.maxBatchSize || now == batch.windowEnd
  {
    var ms := batch.members;
    assert (ms + [NewMember(batch, item, now)])[..|ms|] == ms;
  }

  lemma PlacedBatch(cfg: BatchConfig, s: EngineState, item: QueueItem, now: Time, newId: BatchId, b: BatchId)
    requires ReadyToJoin(cfg, s, item, now, newId) && newId !in s.batches && b in s.batches
    ensures b in PlacedState(cfg, s, item, now, newId).batches
    ensures PlacedState(cfg, s, item, now, newId).batches[b] == s.batches[b]
         || PlacedState(cfg, s, item, now, newId).batches[b] == JoinedBatch(cfg, s.batches[b], item, now)
    ensures PlacedState(cfg, s, item, now, newId).batches[b] != s.batches[b] ==>
      b == PlacementTarget(s, item.request.model, newId)
  {
  }

  lemma ActivationForm(cfg: BatchConfig, s: EngineState, item: QueueItem, now: Time, newId: BatchId, b: BatchId)
    requires ValidConfig(cfg) && EngineInv(cfg, s) && newId !in s.batches && Admissible(cfg, s, item, now)
    requires b in s.batches && s.batches[b].state.Filling?
    ensures var t := PlacedState(cfg, s, item, now, newId);
      && b in t.batches
      && (t.batches[b].state.Active? ==>
            ActiveCount(t.batches[b].members) == cfg.maxBatchSize || now == s.batches[b].windowEnd)
  {
    AdmissibleIsReady(cfg, s, item, now, newId);
    PlacedBatch(cfg, s, item, now, newId, b);
    if PlacedState(cfg, s, item, now, newId).batches[b] != s.batches[b] {
      assert b in LiveBatches(s, item.request.model);
      JoinActivates(cfg, s.batches[b], item, now);
    }
  }

  /** Once the window of a filling batch has passed, every placement of its model is refused. */
  lemma ClosedWindowBlocksModel(cfg: BatchConfig, s: EngineState, b: BatchId, item: QueueItem, now: Time,
                                newId: BatchId)
    requires ValidConfig(cfg) && EngineInv(cfg, s)
    requires b in s.batches && s.batches[b].state.Filling? && now > s.batches[b].windowEnd
    requires item.request.model == s.batches[b].model
    ensures Place(cfg, s, item, now, newId).Success? && Place(cfg, s, item, now, newId).value.1.Rejected?
  {
    assert b in LiveBatches(s, item.request.model);
    RefusalIsExact(cfg, s, item, now, newId);
  }

  /** A placement of the model of this batch reads the clock after the end of the window. */
  ghost predicate PlacesLate(e: Event, batch: Batch) {
    e.PlaceItem? && e.item.request.model == batch.model ==> e.now > batch.windowEnd
  }

  /** The event retires a member of batch b as failed. */
  ghost predicate FailsMember(s: EngineState, e: Event, b: BatchId) {
    && e.RetireRequest? && e.status.MemberFailed?
    && e.requestId in s.requestToBatch && s.requestToBatch[e.requestId] == b
  }

  /** Batch b is still filling, with the model and the window of `batch`. */
  ghost predicate StillFilling(s: EngineState, b: BatchId, batch: Batch) {
    && b in s.batches && s.batches[b].state.Filling?
    && s.batches[b].model == batch.model && s.batches[b].windowEnd == batch.windowEnd
  }

  lemma OtherPlacementKeepsFilling(cfg: BatchConfig, s: EngineState, item: QueueItem, now: Time, newId: BatchId,
                                   b: BatchId, batch: Batch)
    requires ValidConfig(cfg) && EngineInv(cfg, s) && newId !in s.batches && StillFilling(s, b, batch)
    requires item.request.model != batch.model
    ensures Place(cfg, s, item, now, newId).Success?
    ensures StillFilling(Place(cfg, s, item, now, newId).value.0, b, batch)
  {
    if Admissible(cfg, s, item, now) {
      PlacementIsExact(cfg, s, item, now, newId);
      AdmissibleIsReady(cfg, s, item, now, newId);
      PlacedBatch(cfg, s, item, now, newId, b);
    } else {
      RefusalIsExact(cfg, s, item, now, newId);
    }
  }

  /** What retiring member i of batch c does to the record of batch b. */
  lemma RetiredRecord(s: EngineState, c: BatchId, i: nat, status: MemberStatus, reason: string, now: Time, b: BatchId)
    requires BatchEntry(s, c) && i < |s.sets[c]| && b in s.batches
    ensures var t := RetiredState(s, c, i, status, reason, now);
      && b in t.batches
      && t.batches[b] == (if b == c then RetiredBatch(s.batches[c], i, status, reason, now) else s.batches[b])
  {
  }

  ghost predicate RecordAfter(s: EngineState, r: RequestId, status: MemberStatus, reason: string, now: Time, b: BatchId,
                              t: EngineState)
  {
    && b in s.batches && b in t.batches
    && if r in s.requestToBatch && s.requestToBatch[r] == b
       then IndexOf(s.batches[b].members, r).Some?
            && t.batches[b] == RetiredBatch(s.batches[b], IndexOf(s.batches[b].members, r).value, status, reason, now)
       else t.batches[b] == s.batches[b]
  }

  /** What a retirement does to the record of a batch: nothing, unless it is the batch of the request. */
  lemma RetirementRecord(cfg: BatchConfig, s: EngineState, r: RequestId, status: MemberStatus, reason: string,
                         now: Time, b: BatchId) returns (t: EngineState)
    requires EngineInv(cfg, s) && b in s.batches
    ensures Retire(s, r, status, reason, now).Success? && t == Retire(s, r, status, reason, now).value.0
    ensures RecordAfter(s, r, status, reason, now, b, t)
  {
    RetireIsExact(cfg, s, r, status, reason, now);
    t := Retire(s, r, status, reason, now).value.0;
    if r in s.requestToBatch {
      var c := s.requestToBatch[r];
      RetiredRecord(s, c, IndexOf(s.sets[c], r).value, status, reason, now, b);
    }
  }

  lemma RetirementOfFilling(cfg: BatchConfig, s: EngineState, r: RequestId, status: MemberStatus, reason: string,
                            now: Time, b: BatchId, batch: Batch)
    requires EngineInv(cfg, s) && StillFilling(s, b, batch)
    ensures Retire(s, r, status, reason, now).Success?
    ensures var t := Retire(s, r, status, reason, now).value.0;
      if FailsMember(s, RetireRequest(r, status, reason, now), b) then b in t.batches && t.batches[b].state.Failed?
      else StillFilling(t, b, batch)
  {
    var t := RetirementRecord(cfg, s, r, status, reason, now, b);
    FillingRecordAfter(s, r, status, reason, now, b, batch, t);
  }

  lemma FillingRecordAfter(s: EngineState, r: RequestId, status: MemberStatus, reason: string, now: Time, b: BatchId,
                           batch: Batch, t: EngineState)
    requires StillFilling(s, b, batch) && RecordAfter(s, r, status, reason, now, b, t)
    ensures if FailsMember(s, RetireRequest(r, status, reason, now), b)
            then b in t.batches && t.batches[b].state.Failed?
            else StillFilling(t, b, batch)
  {
  }

  /** Past its window, a filling batch ends by the failure of a member and by nothing else. */
  lemma LatePlacement(cfg: BatchConfig, s: EngineState, item: QueueItem, now: Time, newId: BatchId, t: EngineState,
                      b: BatchId, batch: Batch)
    requires ValidConfig(cfg) && EngineInv(cfg, s) && Step(cfg, s, PlaceItem(item, now, newId), t)
    requires StillFilling(s, b, batch) && (item.request.model == batch.model ==> now > batch.windowEnd)
    ensures StillFilling(t, b, batch)
  {
    RefusalOrPlaced(cfg, s, item, now, newId);
    assert t == Place(cfg, s, item, now, newId).value.0;
    if item.request.model == batch.model {
      ClosedWindowBlocksModel(cfg, s, b, item, now, newId);
    } else {
      OtherPlacementKeepsFilling(cfg, s, item, now, newId, b, batch);
    }
  }

  lemma LateRetirement(cfg: BatchConfig, s: EngineState, r: RequestId, status: MemberStatus, reason: string, now: Time,
                       t: EngineState, b: BatchId, batch: Batch)
    requires EngineInv(cfg, s) && Step(cfg, s, RetireRequest(r, status, reason, now), t) && StillFilling(s, b, batch)
    ensures if FailsMember(s, RetireRequest(r, status, reason, now), b)
            then b in t.batches && t.batches[b].state.Failed?
            else StillFilling(t, b, batch)
  {
    RetirementOfFilling(cfg, s, r, status, reason, now, b, batch);
    RetireStepForm(cfg, s, r, status, reason, now, t);
  }

  lemma LateStep(cfg: BatchConfig, s: EngineState, e: Event, t: EngineState, b: BatchId, batch: Batch)
    requires ValidConfig(cfg) && EngineInv(cfg, s) && Step(cfg, s, e, t) && StillFilling(s, b, batch)
    requires PlacesLate(e, batch)
    ensures if FailsMember(s, e, b) then b in t.batches && t.batches[b].state.Failed? else StillFilling(t, b, batch)
  {
    match e
    case PlaceItem(item, now, newId) => LatePlacement(cfg, s, item, now, newId, t, b, batch);
    case RetireRequest(r, status, reason, now) => LateRetirement(cfg, s, r, status, reason, now, t, b, batch);
  }

  lemma RefusalOrPlaced(cfg: BatchConfig, s: EngineState, item: QueueItem, now: Time, newId: BatchId)
    requires ValidConfig(cfg) && EngineInv(cfg, s) && newId !in s.batches
    ensures Place(cfg, s, item, now, newId).Success?
    ensures Place(cfg, s, item, now, newId).value.1.Rejected? ==> Place(cfg, s, item, now, newId).value.0 == s
  {
    PlaceKeepsInv(cfg, s, item, now, newId);
    if !Admissible(cfg, s, item, now) {
      RefusalIsExact(cfg, s, item, now, newId);
    }
  }

  lemma LateRunStep(cfg: BatchConfig, states: seq<EngineState>, events: seq<Event>, k: nat, s: EngineState,
                    t: EngineState, b: BatchId, batch: Batch)
    requires ValidConfig(cfg) && IsRun(cfg, states, events) && k < |events| && s == states[k] && t == states[k + 1]
    requires StillFilling(s, b, batch) && PlacesLate(events[k], batch)
    ensures if FailsMember(s, events[k], b)
            then b in t.batches && t.batches[b].state.Failed?
            else StillFilling(t, b, batch)
  {
    ReachableInv(cfg, states, events, k);
    assert StepAt(cfg, states, events, k);
    LateStep(cfg, s, events[k], t, b, batch);
  }

  ghost predicate NoMemberFails(states: seq<EngineState>, events: seq<Event>, i: nat, j: nat, b: BatchId)
    requires |states| == |events| + 1 && j < |states|
  {
    forall k :: i <= k < j ==> !FailsMember(states[k], events[k], b)
  }

  lemma FailureEndsBatch(cfg: BatchConfig, s: EngineState, e: Event, t: EngineState, b: BatchId)
    requires EngineInv(cfg, s) && Step(cfg, s, e, t) && FailsMember(s, e, b)
    ensures b in t.batches && Terminal(t.batches[b].state)
  {
    assert b in s.sets && b in s.batches;
    var u := RetirementRecord(cfg, s, e.requestId, e.status, e.reason, e.now, b);
    RetireStepForm(cfg, s, e.requestId, e.status, e.reason, e.now, t);
  }

  lemma StaysTerminal(s: EngineState, t: EngineState, b: BatchId)
    requires Extends(s, t) && b in s.batches && Terminal(s.batches[b].state)
    ensures b in t.batches && Terminal(t.batches[b].state)
  {
  }

  lemma FailureStep(cfg: BatchConfig, states: seq<EngineState>, events: seq<Event>, k: nat, s: EngineState,
                    t: EngineState, b: BatchId)
    requires ValidConfig(cfg) && IsRun(cfg, states, events) && k < |events| && s == states[k] && t == states[k + 1]
    requires FailsMember(s, events[k], b)
    ensures b in t.batches && Terminal(t.batches[b].state)
  {
    ReachableInv(cfg, states, events, k);
    assert StepAt(cfg, states, events, k);
    FailureEndsBatch(cfg, s, events[k], t, b);
  }

  /** A batch of which a member has failed never fills again. */
  lemma FailedStays(cfg: BatchConfig, states: seq<EngineState>, events: seq<Event>, k: nat, j: nat, b: BatchId)
    requires ValidConfig(cfg) && IsRun(cfg, states, events) && k < j < |states| && FailsMember(states[k], events[k], b)
    ensures b in states[j].batches && Terminal(states[j].batches[b].state)
  {
    FailureStep(cfg, states, events, k, states[k], states[k + 1], b);
    RunsOnlyExtend(cfg, states, events, k + 1, j);
    StaysTerminal(states[k + 1], states[j], b);
  }

  lemma RefusedAt(cfg: BatchConfig, states: seq<EngineState>, events: seq<Event>, k: nat, s: EngineState, b: BatchId,
                  batch: Batch)
    requires ValidConfig(cfg) && IsRun(cfg, states, events) && k < |events| && s == states[k]
    requires StillFilling(s, b, batch) && PlacesLate(events[k], batch)
    requires events[k].PlaceItem? && events[k].item.request.model == batch.model
    ensures Listed(s) && states[k + 1] == s
    ensures Place(cfg, s, events[k].item, events[k].now, events[k].newId).Success?
    ensures Place(cfg, s, events[k].item, events[k].now, events[k].newId).value.1.Rejected?
  {
    ReachableInv(cfg, states, events, k);
    assert StepAt(cfg, states, events, k);
    ClosedWindowBlocksModel(cfg, s, b, events[k].item, events[k].now, events[k].newId);
    RefusalOrPlaced(cfg, s, events[k].item, events[k].now, events[k].newId);
  }

  /**
   While all placements of its model come after the window, a filling batch stays filling over a run, even when all of
   its members have completed, exactly as long as no member of it is retired as failed.
   */
  lemma {:induction false} LateBatchStaysFilling(cfg: BatchConfig, states: seq<EngineState>, events: seq<Event>, i: nat,
                                                 j: nat, b: BatchId, batch: Batch)
    requires ValidConfig(cfg) && IsRun(cfg, states, events) && i <= j < |states| && StillFilling(states[i], b, batch)
    requires forall k :: i <= k < j ==> PlacesLate(events[k], batch)
    ensures StillFilling(states[j], b, batch) <==> NoMemberFails(states, events, i, j, b)
    decreases j
  {
    if i < j {
      LateBatchStaysFilling(cfg, states, events, i, j - 1, b, batch);
      if StillFilling(states[j - 1], b, batch) {
        LateRunStep(cfg, states, events, j - 1, states[j - 1], states[j], b, batch);
      } else {
        var k :| i <= k < j - 1 && FailsMember(states[k], events[k], b);
        FailedStays(cfg, states, events, k, j, b);
      }
    }
  }

  /** So every placement of the model is refused over the run until a member of the batch has failed. */
  lemma ClosedWindowLocksModel(cfg: BatchConfig, states: seq<EngineState>, events: seq<Event>, i: nat, j: nat,
                               b: BatchId, batch: Batch)
    requires ValidConfig(cfg) && IsRun(cfg, states, events) && i <= j < |events| && StillFilling(states[i], b, batch)
    requires forall k :: i <= k <= j ==> PlacesLate(events[k], batch)
    requires NoMemberFails(states, events, i, j, b)
    requires events[j].PlaceItem? && events[j].item.request.model == batch.model
    ensures Listed(states[j]) && states[j + 1] == states[j]
    ensures Place(cfg, states[j], events[j].item, events[j].now, events[j].newId).Success?
    ensures Place(cfg, states[j], events[j].item, events[j].now, events[j].newId).value.1.Rejected?
  {
    LateBatchStaysFilling(cfg, states, events, i, j, b, batch);
    RefusedAt(cfg, states, events, j, states[j], b, batch);
  }
}
