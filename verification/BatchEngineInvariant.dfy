/**
 The joint invariant of the five dictionaries. Placing and retiring keep it from every state that
 has it, and from such a state neither of them raises.
 */
module BatchEngineInvariant {
  import opened Wrappers
  import opened Schemas
  import opened Sorting
  import opened BatchModels
  import opened BatchEngineSpec

  // ---- One batch ----

  ghost predicate DistinctIds(ms: seq<BatchMember>) {
    forall i, j :: 0 <= i < j < |ms| ==> ms[i].requestId != ms[j].requestId
  }

  ghost predicate MembersInv(cfg: BatchConfig, batch: Batch) {
    && DistinctIds(batch.members)
    && DistinctActiveSlots(batch.members)
    && (forall m :: m in batch.members ==> m.slotIndex < cfg.maxBatchSize && m.model == batch.model)
  }

  ghost predicate WindowInv(cfg: BatchConfig, batch: Batch) {
    && batch.windowEnd == batch.createdAt + cfg.windowMs
    && (batch.activatedAt.None? ==> forall m :: m in batch.members ==> m.addedAt <= batch.windowEnd)
  }

  /** The only states a batch rests in, each with the count of active members it allows. */
  ghost predicate StateCountInv(cfg: BatchConfig, batch: Batch) {
    match batch.state
    case Filling => ActiveCount(batch.members) < cfg.maxBatchSize && batch.activatedAt.None?
    case Active => 1 <= ActiveCount(batch.members) <= cfg.maxBatchSize && batch.activatedAt.Some?
    case Completed => ActiveCount(batch.members) == 0 && batch.activatedAt.Some?
    case Failed => ActiveCount(batch.members) <= cfg.maxBatchSize
    case _ => false
  }

  ghost predicate BatchInv(cfg: BatchConfig, batch: Batch) {
    MembersInv(cfg, batch) && WindowInv(cfg, batch) && StateCountInv(cfg, batch)
  }

  // ---- All dictionaries ----

  ghost predicate Shape(s: EngineState) {
    && Distinct(s.order)
    && (forall b :: b in s.order <==> b in s.batches)
    && (forall b :: b in s.batches <==> b in s.sets)
    && (forall b :: b in s.batches ==> s.batches[b].batchId == b && s.batches[b].members == s.sets[b])
  }

  ghost predicate Ownership(s: EngineState) {
    && (forall r :: r in s.requestToBatch ==>
          s.requestToBatch[r] in s.sets && r in MemberIds(s.sets[s.requestToBatch[r]]))
    && (forall b, m :: b in s.sets && m in s.sets[b] ==>
          m.requestId in s.requestToBatch && s.requestToBatch[m.requestId] == b)
  }

  ghost predicate Live(batch: Batch) {
    !Terminal(batch.state)
  }

  ghost predicate IndexInv(s: EngineState) {
    && (forall m :: m in s.activeByModel ==>
          var b := s.activeByModel[m];
          b in s.batches && s.batches[b].model == m && Live(s.batches[b]))
    && (forall b :: b in s.batches && Live(s.batches[b]) ==>
          s.batches[b].model in s.activeByModel && s.activeByModel[s.batches[b].model] == b)
  }

  /** The stored assignment of member m carries its slot. */
  ghost predicate Assigned(s: EngineState, m: BatchMember) {
    && m.requestId in s.assignments
    && s.assignments[m.requestId].requestId == m.requestId
    && s.assignments[m.requestId].slotIndex == m.slotIndex
    && s.assignments[m.requestId].request.model == m.model
  }

  ghost predicate AssignmentInv(s: EngineState) {
    && (forall r :: r in s.assignments <==> r in s.requestToBatch)
    && (forall b, m :: b in s.sets && m in s.sets[b] ==> Assigned(s, m))
  }

  ghost predicate BatchesInv(cfg: BatchConfig, s: EngineState) {
    forall b :: b in s.batches ==> BatchInv(cfg, s.batches[b])
  }

  ghost predicate CountInv(cfg: BatchConfig, s: EngineState)
    requires Shape(s)
  {
    && GlobalActiveCount(s) <= cfg.maxActiveRequests
    && |s.requestToBatch| == SumMembers(s.order, s.sets)
  }

  ghost predicate EngineInv(cfg: BatchConfig, s: EngineState) {
    Shape(s) && BatchesInv(cfg, s) && Ownership(s) && IndexInv(s) && AssignmentInv(s) && CountInv(cfg, s)
  }

  // ---- Sums ----

  lemma {:induction false} SumFrame(order: seq<BatchId>, sets: map<BatchId, seq<BatchMember>>,
                                    sets': map<BatchId, seq<BatchMember>>, status: MemberStatus)
    requires forall b :: b in order ==> b in sets && b in sets' && sets[b] == sets'[b]
    ensures SumStatus(order, sets, status) == SumStatus(order, sets', status)
    ensures SumMembers(order, sets) == SumMembers(order, sets')
  {
    if order != [] {
      SumFrame(order[..|order| - 1], sets, sets', status);
    }
  }

  /** Changing one member set changes a sum by the difference in that set. */
  lemma {:induction false} SumUpdate(order: seq<BatchId>, sets: map<BatchId, seq<BatchMember>>, b: BatchId,
                                     ms: seq<BatchMember>, status: MemberStatus)
    requires Distinct(order) && b in order
    requires forall x :: x in order ==> x in sets
    ensures SumStatus(order, sets[b := ms], status)
         == SumStatus(order, sets, status) - CountStatus(sets[b], status) + CountStatus(ms, status)
    ensures SumMembers(order, sets[b := ms]) == SumMembers(order, sets) - |sets[b]| + |ms|
  {
    var init, last := order[..|order| - 1], order[|order| - 1];
    assert order == init + [last];
    if last == b {
      SumFrame(init, sets, sets[b := ms], status);
    } else {
      SumUpdate(init, sets, b, ms, status);
    }
  }

  lemma SumAppendEmpty(order: seq<BatchId>, sets: map<BatchId, seq<BatchMember>>, b: BatchId)
    requires b !in order
    requires forall x :: x in order ==> x in sets
    ensures SumStatus(order + [b], sets[b := []], MemberActive) == SumStatus(order, sets, MemberActive)
    ensures SumMembers(order + [b], sets[b := []]) == SumMembers(order, sets)
  {
    assert (order + [b])[..|order|] == order;
    SumFrame(order, sets, sets[b := []], MemberActive);
  }

  lemma {:induction false} CountWithinSum(order: seq<BatchId>, sets: map<BatchId, seq<BatchMember>>, b: BatchId,
                                          status: MemberStatus)
    requires b in order
    requires forall x :: x in order ==> x in sets
    ensures CountStatus(sets[b], status) <= SumStatus(order, sets, status)
  {
    var init, last := order[..|order| - 1], order[|order| - 1];
    assert order == init + [last];
    if last != b {
      CountWithinSum(init, sets, b, status);
    }
  }

  lemma {:induction false} SumPartition(order: seq<BatchId>, sets: map<BatchId, seq<BatchMember>>)
    requires forall b :: b in order ==> b in sets
    ensures SumStatus(order, sets, MemberActive) + SumStatus(order, sets, MemberCompleted)
          + SumStatus(order, sets, MemberCancelled) + SumStatus(order, sets, MemberFailed) == SumMembers(order, sets)
  {
    if order != [] {
      SumPartition(order[..|order| - 1], sets);
      StatusesPartition(sets[order[|order| - 1]]);
    }
  }

  function Elements(order: seq<BatchId>): set<BatchId> {
    set b | b in order
  }

  lemma {:induction false} DistinctSize(order: seq<BatchId>)
    requires Distinct(order)
    ensures |order| == |Elements(order)|
  {
    if order != [] {
      var init, last := order[..|order| - 1], order[|order| - 1];
      assert order == init + [last];
      DistinctSize(init);
      assert Elements(order) == Elements(init) + {last};
    }
  }

  /** A listing without repetitions has as many entries as the dictionary it lists. */
  lemma OrderSize<T>(order: seq<BatchId>, entries: map<BatchId, T>)
    requires Distinct(order) && forall b :: b in order <==> b in entries
    ensures |order| == |entries|
  {
    DistinctSize(order);
    assert entries.Keys == Elements(order);
  }

  // ---- The fallback scan ----

  /** The scan returns the first batch it accepts, and nothing only when it accepts none. */
  lemma {:induction false} ScanSpec(cfg: BatchConfig, s: EngineState, order: seq<BatchId>, model: string, now: Time)
    requires forall b :: b in order ==> b in s.batches
    ensures ScanFilling(cfg, s, order, model, now).None?
        <==> forall b :: b in order ==> !ScanAccepts(cfg, s.batches[b], model, now)
  {
    if order != [] {
      assert order == [order[0]] + order[1..];
      ScanSpec(cfg, s, order[1..], model, now);
    }
  }

  /** The scan finds nothing that the index has not already returned. */
  lemma ScanIsRedundant(cfg: BatchConfig, s: EngineState, model: string, now: Time)
    requires EngineInv(cfg, s)
    ensures FindAdmittable(cfg, s, model, now) == IndexHit(cfg, s, model)
  {
    ScanSpec(cfg, s, s.order, model, now);
    if IndexHit(cfg, s, model).None? {
      forall b | b in s.order ensures !ScanAccepts(cfg, s.batches[b], model, now) {
        assert BatchInv(cfg, s.batches[b]);
      }
    }
  }

  // ---- Opening a batch ----

  lemma OpenShape(cfg: BatchConfig, s: EngineState, model: string, now: Time, newId: BatchId, t: EngineState)
    requires Shape(s) && newId !in s.batches && model !in s.activeByModel
    requires OpenBatch(cfg, s, model, now, newId) == Success(t)
    ensures Shape(t)
  {
  }

  lemma OpenBatches(cfg: BatchConfig, s: EngineState, model: string, now: Time, newId: BatchId, t: EngineState)
    requires Shape(s) && newId !in s.batches && model !in s.activeByModel
    requires OpenBatch(cfg, s, model, now, newId) == Success(t)
    requires ValidConfig(cfg) && BatchesInv(cfg, s)
    ensures BatchesInv(cfg, t)
  {
  }

  lemma OpenOwnership(cfg: BatchConfig, s: EngineState, model: string, now: Time, newId: BatchId, t: EngineState)
    requires Shape(s) && newId !in s.batches && model !in s.activeByModel
    requires OpenBatch(cfg, s, model, now, newId) == Success(t)
    requires Ownership(s)
    ensures Ownership(t)
  {
  }

  lemma OpenIndex(cfg: BatchConfig, s: EngineState, model: string, now: Time, newId: BatchId, t: EngineState)
    requires Shape(s) && newId !in s.batches && model !in s.activeByModel
    requires OpenBatch(cfg, s, model, now, newId) == Success(t)
    requires IndexInv(s)
    ensures IndexInv(t)
  {
  }

  lemma OpenAssignments(cfg: BatchConfig, s: EngineState, model: string, now: Time, newId: BatchId, t: EngineState)
    requires Shape(s) && newId !in s.batches && model !in s.activeByModel
    requires OpenBatch(cfg, s, model, now, newId) == Success(t)
    requires AssignmentInv(s)
    ensures AssignmentInv(t)
  {
    forall b, m | b in t.sets && m in t.sets[b] ensures Assigned(t, m) {
      assert b in s.sets && m in s.sets[b];
      assert Assigned(s, m);
    }
  }

  lemma OpenCounts(cfg: BatchConfig, s: EngineState, model: string, now: Time, newId: BatchId, t: EngineState)
    requires Shape(s) && newId !in s.batches && model !in s.activeByModel
    requires OpenBatch(cfg, s, model, now, newId) == Success(t)
    requires CountInv(cfg, s)
    ensures Shape(t) && CountInv(cfg, t) && GlobalActiveCount(t) == GlobalActiveCount(s)
  {
    OpenShape(cfg, s, model, now, newId, t);
    assert t.order == s.order + [newId] && t.sets == s.sets[newId := []] && t.requestToBatch == s.requestToBatch;
    SumAppendEmpty(s.order, s.sets, newId);
  }

  lemma OpenKeepsInv(cfg: BatchConfig, s: EngineState, model: string, now: Time, newId: BatchId)
    requires ValidConfig(cfg) && EngineInv(cfg, s)
    requires newId !in s.batches && model !in s.activeByModel
    ensures OpenBatch(cfg, s, model, now, newId).Success?
    ensures EngineInv(cfg, OpenBatch(cfg, s, model, now, newId).value)
  {
    var t := OpenBatch(cfg, s, model, now, newId).value;
    OpenShape(cfg, s, model, now, newId, t);
    OpenBatches(cfg, s, model, now, newId, t);
    OpenOwnership(cfg, s, model, now, newId, t);
    OpenIndex(cfg, s, model, now, newId, t);
    OpenAssignments(cfg, s, model, now, newId, t);
    OpenCounts(cfg, s, model, now, newId, t);
  }
  // ---- Replacing one batch ----

  ghost predicate Replaces(s: EngineState, batch: Batch, t: EngineState) {
    && batch.batchId in s.batches
    && t.batches == s.batches[batch.batchId := batch]
    && t.sets == s.sets[batch.batchId := batch.members]
    && t.order == s.order
  }

  lemma ReplaceShape(s: EngineState, batch: Batch, t: EngineState)
    requires Shape(s) && Replaces(s, batch, t)
    ensures Shape(t)
  {
  }

  lemma ReplaceBatches(cfg: BatchConfig, s: EngineState, batch: Batch, t: EngineState)
    requires BatchesInv(cfg, s) && Replaces(s, batch, t) && BatchInv(cfg, batch)
    ensures BatchesInv(cfg, t)
  {
    forall b | b in t.batches ensures BatchInv(cfg, t.batches[b]) {
      assert b != batch.batchId ==> b in s.batches && t.batches[b] == s.batches[b];
    }
  }

  lemma ReplaceCounts(s: EngineState, batch: Batch, t: EngineState, status: MemberStatus)
    requires Shape(s) && Shape(t) && Replaces(s, batch, t)
    ensures SumStatus(t.order, t.sets, status)
         == SumStatus(s.order, s.sets, status)
          - CountStatus(s.sets[batch.batchId], status) + CountStatus(batch.members, status)
    ensures SumMembers(t.order, t.sets)
         == SumMembers(s.order, s.sets) - |s.sets[batch.batchId]| + |batch.members|
  {
    SumUpdate(s.order, s.sets, batch.batchId, batch.members, status);
  }

  // ---- Joining a batch ----

  /** The batch after a new member has joined and the batch has advanced. */
  function JoinedBatch(cfg: BatchConfig, batch: Batch, item: QueueItem, now: Time): Batch {
    var joined := batch.(members := batch.members + [NewMember(batch, item, now)]);
    if batch.state.Filling? && (ActiveCount(joined.members) >= cfg.maxBatchSize || now >= batch.windowEnd)
    then joined.(state := Active, activatedAt := Some(now))
    else joined
  }

  /** What a batch must offer for the admission rule to let an item in. */
  ghost predicate Open(cfg: BatchConfig, batch: Batch, now: Time) {
    Live(batch) && HasRoom(cfg, batch) && (batch.state.Filling? ==> now <= batch.windowEnd)
  }

  lemma NewSlotIsSafe(cfg: BatchConfig, batch: Batch)
    requires BatchInv(cfg, batch) && HasRoom(cfg, batch)
    ensures NextSlot(batch.members) < cfg.maxBatchSize
    ensures NextSlot(batch.members) !in UsedSlots(batch.members)
  {
    UsedSlotsSize(batch.members);
    FreeSlotIsLeast(UsedSlots(batch.members));
  }

  lemma JoinedMembersInv(cfg: BatchConfig, batch: Batch, item: QueueItem, now: Time)
    requires BatchInv(cfg, batch) && HasRoom(cfg, batch)
    requires item.requestId !in MemberIds(batch.members) && item.request.model == batch.model
    ensures MembersInv(cfg, JoinedBatch(cfg, batch, item, now))
  {
    NewSlotIsSafe(cfg, batch);
    var ms, m := batch.members, NewMember(batch, item, now);
    forall i | 0 <= i < |ms|
      ensures ms[i].requestId != m.requestId
      ensures ms[i].status.MemberActive? ==> ms[i].slotIndex != m.slotIndex
    {
      assert ms[i] in ms;
    }
    assert DistinctIds(ms + [m]) && DistinctActiveSlots(ms + [m]);
  }

  lemma JoinedBatchInv(cfg: BatchConfig, batch: Batch, item: QueueItem, now: Time)
    requires ValidConfig(cfg) && BatchInv(cfg, batch) && Open(cfg, batch, now)
    requires item.requestId !in MemberIds(batch.members) && item.request.model == batch.model
    ensures BatchInv(cfg, JoinedBatch(cfg, batch, item, now))
    ensures ActiveCount(JoinedBatch(cfg, batch, item, now).members) == ActiveCount(batch.members) + 1
  {
    JoinedMembersInv(cfg, batch, item, now);
    var ms, m := batch.members, NewMember(batch, item, now);
    assert (ms + [m])[..|ms|] == ms;
  }

  ghost predicate CanJoin(cfg: BatchConfig, s: EngineState, b: BatchId, item: QueueItem, now: Time) {
    && b in s.batches
    && Open(cfg, s.batches[b], now)
    && s.batches[b].model == item.request.model
    && item.requestId !in s.requestToBatch
  }

  lemma UnbatchedIsNoMember(s: EngineState, b: BatchId, r: RequestId)
    requires Ownership(s) && b in s.sets && r !in s.requestToBatch
    ensures r !in MemberIds(s.sets[b])
  {
  }

  lemma AdvanceForm(cfg: BatchConfig, batch: Batch, item: QueueItem, now: Time)
    requires batch.state.Filling? || batch.state.Active?
    ensures Advance(cfg, batch.(members := batch.members + [NewMember(batch, item, now)]), now)
         == Success(JoinedBatch(cfg, batch, item, now))
  {
  }

  /** The state after a join; the model index already points at the batch and stays as it is. */
  function JoinedState(cfg: BatchConfig, s: EngineState, b: BatchId, item: QueueItem, now: Time): EngineState
    requires b in s.batches
  {
    WithBatch(s, JoinedBatch(cfg, s.batches[b], item, now)).(
      requestToBatch := s.requestToBatch[item.requestId := b],
      assignments := s.assignments[item.requestId := NewAssignment(s.batches[b], item)])
  }

  lemma JoinForm(cfg: BatchConfig, s: EngineState, b: BatchId, item: QueueItem, now: Time)
    requires b in s.batches && b in s.sets && s.batches[b].members == s.sets[b]
    requires s.batches[b].state.Filling? || s.batches[b].state.Active?
    requires item.requestId !in MemberIds(s.sets[b])
    requires s.batches[b].model in s.activeByModel && s.activeByModel[s.batches[b].model] == b
    ensures Join(cfg, s, b, item, now) == Success(JoinedState(cfg, s, b, item, now))
  {
    AdvanceForm(cfg, s.batches[b], item, now);
    assert s.activeByModel[s.batches[b].model := b] == s.activeByModel;
  }

  /** The two entries of batch b belong together. */
  ghost predicate BatchEntry(s: EngineState, b: BatchId) {
    && b in s.batches && b in s.sets
    && s.batches[b].batchId == b && s.batches[b].members == s.sets[b]
  }

  lemma JoinOwnership(cfg: BatchConfig, s: EngineState, b: BatchId, item: QueueItem, now: Time)
    requires Ownership(s) && BatchEntry(s, b) && item.requestId !in s.requestToBatch
    ensures Ownership(JoinedState(cfg, s, b, item, now))
  {
    var t := JoinedState(cfg, s, b, item, now);
    var member := NewMember(s.batches[b], item, now);
    assert t.sets[b] == s.sets[b] + [member];
    forall r | r in t.requestToBatch
      ensures t.requestToBatch[r] in t.sets && r in MemberIds(t.sets[t.requestToBatch[r]])
    {
      if r == item.requestId {
        assert member in t.sets[b];
      } else {
        var m :| m in s.sets[s.requestToBatch[r]] && m.requestId == r;
        assert m in t.sets[t.requestToBatch[r]];
      }
    }
  }

  lemma JoinIndex(cfg: BatchConfig, s: EngineState, b: BatchId, item: QueueItem, now: Time)
    requires Shape(s) && IndexInv(s) && b in s.batches && Live(s.batches[b])
    ensures IndexInv(JoinedState(cfg, s, b, item, now))
  {
  }

  lemma JoinAssignments(cfg: BatchConfig, s: EngineState, b: BatchId, item: QueueItem, now: Time)
    requires Ownership(s) && AssignmentInv(s)
    requires BatchEntry(s, b) && item.requestId !in s.requestToBatch && item.request.model == s.batches[b].model
    ensures AssignmentInv(JoinedState(cfg, s, b, item, now))
  {
    var t, member := JoinedState(cfg, s, b, item, now), NewMember(s.batches[b], item, now);
    assert t.sets[b] == s.sets[b] + [member];
    forall x, m | x in t.sets && m in t.sets[x] ensures Assigned(t, m) {
      if m != member || x != b {
        assert m in s.sets[x];
        assert Assigned(s, m) && m.requestId != item.requestId;
      }
    }
  }

  lemma JoinCounts(cfg: BatchConfig, s: EngineState, b: BatchId, item: QueueItem, now: Time)
    requires Shape(s) && CountInv(cfg, s) && b in s.batches && item.requestId !in s.requestToBatch
    requires GlobalActiveCount(s) < cfg.maxActiveRequests
    requires ActiveCount(JoinedBatch(cfg, s.batches[b], item, now).members) == ActiveCount(s.sets[b]) + 1
    ensures Shape(JoinedState(cfg, s, b, item, now)) && CountInv(cfg, JoinedState(cfg, s, b, item, now))
  {
    var t, batch := JoinedState(cfg, s, b, item, now), JoinedBatch(cfg, s.batches[b], item, now);
    ReplaceShape(s, batch, t);
    ReplaceCounts(s, batch, t, MemberActive);
  }

  lemma JoinKeepsInv(cfg: BatchConfig, s: EngineState, b: BatchId, item: QueueItem, now: Time)
    requires ValidConfig(cfg) && EngineInv(cfg, s)
    requires CanJoin(cfg, s, b, item, now) && GlobalActiveCount(s) < cfg.maxActiveRequests
    ensures Join(cfg, s, b, item, now) == Success(JoinedState(cfg, s, b, item, now))
    ensures EngineInv(cfg, JoinedState(cfg, s, b, item, now))
  {
    var batch, t := s.batches[b], JoinedState(cfg, s, b, item, now);
    UnbatchedIsNoMember(s, b, item.requestId);
    assert BatchInv(cfg, batch);
    JoinForm(cfg, s, b, item, now);
    JoinedBatchInv(cfg, batch, item, now);
    ReplaceBatches(cfg, s, JoinedBatch(cfg, batch, item, now), t);
    JoinOwnership(cfg, s, b, item, now);
    JoinIndex(cfg, s, b, item, now);
    JoinAssignments(cfg, s, b, item, now);
    JoinCounts(cfg, s, b, item, now);
  }
  // ---- Placing ----

  function LiveBatches(s: EngineState, model: string): set<BatchId> {
    set b | b in s.batches && s.batches[b].model == model && !Terminal(s.batches[b].state)
  }

  /** The model index and a search of all batches agree. */
  lemma IndexIsSearch(cfg: BatchConfig, s: EngineState, model: string)
    requires EngineInv(cfg, s)
    ensures LiveBatches(s, model) == if model in s.activeByModel then {s.activeByModel[model]} else {}
    ensures GetActiveBatch(s, model) == IndexedBatch(s, model)
    ensures GetActiveBatch(s, model).Some? <==> LiveBatches(s, model) != {}
    ensures GetActiveBatch(s, model).Some? ==> LiveBatches(s, model) == {GetActiveBatch(s, model).value.batchId}
  {
    LiveIsIndexed(s, model);
    if model in s.activeByModel {
      IndexedIsFound(cfg, s, model, s.activeByModel[model]);
    }
  }

  lemma LiveIsIndexed(s: EngineState, model: string)
    requires IndexInv(s)
    ensures LiveBatches(s, model) == if model in s.activeByModel then {s.activeByModel[model]} else {}
  {
    if model in s.activeByModel {
      assert s.activeByModel[model] in LiveBatches(s, model);
    }
  }

  lemma IndexedIsFound(cfg: BatchConfig, s: EngineState, model: string, b: BatchId)
    requires BatchesInv(cfg, s) && model in s.activeByModel && s.activeByModel[model] == b
    requires b in s.batches && Live(s.batches[b]) && s.batches[b].batchId == b
    ensures GetActiveBatch(s, model) == IndexedBatch(s, model) == Some(s.batches[b])
  {
    assert BatchInv(cfg, s.batches[b]);
  }

  /** The request is new, there is capacity, and the live batch of the model, if any, is open. */
  ghost predicate Admissible(cfg: BatchConfig, s: EngineState, item: QueueItem, now: Time)
    requires Listed(s)
  {
    && item.requestId !in s.requestToBatch
    && GlobalActiveCount(s) < cfg.maxActiveRequests
    && forall b :: b in LiveBatches(s, item.request.model) ==> Open(cfg, s.batches[b], now)
  }

  /** The four reasons a placement can be refused for, in the order in which they win. */
  ghost function RefusalReason(cfg: BatchConfig, s: EngineState, item: QueueItem, now: Time): string
    requires Listed(s)
  {
    if item.requestId in s.requestToBatch then "request_already_batched"
    else if exists b :: b in LiveBatches(s, item.request.model) && !HasRoom(cfg, s.batches[b])
         then "batch_full_no_slots"
    else if GlobalActiveCount(s) >= cfg.maxActiveRequests then "max_active_requests_reached"
    else "admission_window_closed"
  }

  /** The batch a refusal names: the live batch of the model, unless the request was batched before. */
  function RefusalBatch(s: EngineState, item: QueueItem): Option<BatchId> {
    if item.requestId in s.requestToBatch || item.request.model !in s.activeByModel then None
    else Some(s.activeByModel[item.request.model])
  }

  /** What the two lookups of a placement return, in terms of the live batch alone. */
  ghost predicate LookupForm(cfg: BatchConfig, s: EngineState, model: string, now: Time)
    requires Listed(s)
  {
    if model in s.activeByModel then
      var b := s.activeByModel[model];
      && LiveBatches(s, model) == {b}
      && BatchEntry(s, b)
      && s.batches[b].model == model
      && (s.batches[b].state.Filling? || s.batches[b].state.Active?)
      && (s.batches[b].state.Filling? ==> HasRoom(cfg, s.batches[b]))
      && FindAdmittable(cfg, s, model, now) == (if HasRoom(cfg, s.batches[b]) then Some(s.batches[b]) else None)
      && ActiveFullBatch(cfg, s, model) == (if HasRoom(cfg, s.batches[b]) then None else Some(s.batches[b]))
    else
      && LiveBatches(s, model) == {}
      && FindAdmittable(cfg, s, model, now) == None
      && ActiveFullBatch(cfg, s, model) == None
  }

  lemma LookupsAgree(cfg: BatchConfig, s: EngineState, model: string, now: Time)
    requires EngineInv(cfg, s)
    ensures LookupForm(cfg, s, model, now)
  {
    ScanIsRedundant(cfg, s, model, now);
    IndexIsSearch(cfg, s, model);
    if model in s.activeByModel {
      assert BatchInv(cfg, s.batches[s.activeByModel[model]]);
    }
  }

  lemma RefusalForm(cfg: BatchConfig, s: EngineState, item: QueueItem, now: Time, newId: BatchId)
    requires Listed(s) && LookupForm(cfg, s, item.request.model, now) && !Admissible(cfg, s, item, now)
    ensures Place(cfg, s, item, now, newId).Success?
    ensures Place(cfg, s, item, now, newId).value.0 == s
    ensures Place(cfg, s, item, now, newId).value.1
         == Rejected(item.requestId, RefusalReason(cfg, s, item, now), RefusalBatch(s, item))
  {
  }

  /** Every refusal leaves the state as it was and gives the reason that wins. */
  lemma RefusalIsExact(cfg: BatchConfig, s: EngineState, item: QueueItem, now: Time, newId: BatchId)
    requires EngineInv(cfg, s) && !Admissible(cfg, s, item, now)
    ensures Place(cfg, s, item, now, newId).Success?
    ensures Place(cfg, s, item, now, newId).value.0 == s
    ensures Place(cfg, s, item, now, newId).value.1
         == Rejected(item.requestId, RefusalReason(cfg, s, item, now), RefusalBatch(s, item))
  {
    LookupsAgree(cfg, s, item.request.model, now);
    RefusalForm(cfg, s, item, now, newId);
  }

  /** The batch an admissible item joins, and the state it joins it in. */
  function PlacementTarget(s: EngineState, model: string, newId: BatchId): BatchId {
    if model in s.activeByModel then s.activeByModel[model] else newId
  }

  function OpenedState(cfg: BatchConfig, s: EngineState, model: string, now: Time, newId: BatchId): EngineState {
    WithBatch(s, NewBatch(cfg, model, now, newId).(state := Filling))
      .(order := s.order + [newId], activeByModel := s.activeByModel[model := newId])
  }

  function PlacementBase(cfg: BatchConfig, s: EngineState, model: string, now: Time, newId: BatchId): EngineState {
    if model in s.activeByModel then s else OpenedState(cfg, s, model, now, newId)
  }

  lemma PlacementBaseInv(cfg: BatchConfig, s: EngineState, item: QueueItem, now: Time, newId: BatchId)
    requires ValidConfig(cfg) && EngineInv(cfg, s) && newId !in s.batches && Admissible(cfg, s, item, now)
    requires LookupForm(cfg, s, item.request.model, now)
    ensures EngineInv(cfg, PlacementBase(cfg, s, item.request.model, now, newId))
    ensures GlobalActiveCount(PlacementBase(cfg, s, item.request.model, now, newId)) < cfg.maxActiveRequests
  {
    var model := item.request.model;
    if model !in s.activeByModel {
      OpenKeepsInv(cfg, s, model, now, newId);
      OpenCounts(cfg, s, model, now, newId, OpenedState(cfg, s, model, now, newId));
    }
  }

  lemma PlacementCanJoin(cfg: BatchConfig, s: EngineState, item: QueueItem, now: Time, newId: BatchId)
    requires ValidConfig(cfg) && Listed(s) && Admissible(cfg, s, item, now)
    requires LookupForm(cfg, s, item.request.model, now)
    ensures CanJoin(cfg, PlacementBase(cfg, s, item.request.model, now, newId),
                    PlacementTarget(s, item.request.model, newId), item, now)
  {
    if item.request.model in s.activeByModel {
      assert s.activeByModel[item.request.model] in LiveBatches(s, item.request.model);
    }
  }

  function PlacedState(cfg: BatchConfig, s: EngineState, item: QueueItem, now: Time, newId: BatchId): EngineState {
    var base, b := PlacementBase(cfg, s, item.request.model, now, newId), PlacementTarget(s, item.request.model, newId);
    if b in base.batches then JoinedState(cfg, base, b, item, now) else base
  }

  function PlacedOutcome(cfg: BatchConfig, s: EngineState, item: QueueItem, now: Time, newId: BatchId): PlaceOutcome {
    var model := item.request.model;
    var base, b := PlacementBase(cfg, s, model, now, newId), PlacementTarget(s, model, newId);
    Placed(item.requestId, b,
           if b in base.batches then NewAssignment(base.batches[b], item)
           else Assignment(item.requestId, 0, item.request),
           if model in s.activeByModel then "batch_has_capacity" else "new_batch")
  }

  lemma AdmitForm(cfg: BatchConfig, s: EngineState, found: Option<Batch>, item: QueueItem, now: Time, newId: BatchId,
                  reason: string)
    requires found.Some? <==> item.request.model in s.activeByModel
    requires found.Some? ==> found.value.batchId == s.activeByModel[item.request.model]
    requires reason == if found.Some? then "batch_has_capacity" else "new_batch"
    requires PlacementTarget(s, item.request.model, newId)
          in PlacementBase(cfg, s, item.request.model, now, newId).batches
    requires Join(cfg, PlacementBase(cfg, s, item.request.model, now, newId),
                  PlacementTarget(s, item.request.model, newId), item, now)
          == Success(PlacedState(cfg, s, item, now, newId))
    ensures Admit(cfg, s, found, item, now, newId, reason)
         == Success((PlacedState(cfg, s, item, now, newId), PlacedOutcome(cfg, s, item, now, newId)))
  {
    var model := item.request.model;
    assert found.None? ==> OpenBatch(cfg, s, model, now, newId) == Success(OpenedState(cfg, s, model, now, newId));
  }

  lemma AdmissionForm(cfg: BatchConfig, s: EngineState, item: QueueItem, now: Time, newId: BatchId)
    requires Listed(s) && Admissible(cfg, s, item, now) && LookupForm(cfg, s, item.request.model, now)
    ensures var found := FindAdmittable(cfg, s, item.request.model, now);
      && (found.Some? <==> item.request.model in s.activeByModel)
      && (found.Some? ==> found.value.batchId == s.activeByModel[item.request.model])
      && Place(cfg, s, item, now, newId)
         == Admit(cfg, s, found, item, now, newId, if found.Some? then "batch_has_capacity" else "new_batch")
  {
    if item.request.model in s.activeByModel {
      assert s.activeByModel[item.request.model] in LiveBatches(s, item.request.model);
    }
  }

  /** Everything the joining step relies on, without quantifiers. */
  ghost predicate ReadyToJoin(cfg: BatchConfig, s: EngineState, item: QueueItem, now: Time, newId: BatchId) {
    var base, b := PlacementBase(cfg, s, item.request.model, now, newId), PlacementTarget(s, item.request.model, newId);
    && BatchEntry(base, b)
    && (base.batches[b].state.Filling? || base.batches[b].state.Active?)
    && base.batches[b].model in base.activeByModel && base.activeByModel[base.batches[b].model] == b
    && item.requestId !in MemberIds(base.sets[b])
  }

  lemma AdmissibleIsReady(cfg: BatchConfig, s: EngineState, item: QueueItem, now: Time, newId: BatchId)
    requires ValidConfig(cfg) && EngineInv(cfg, s) && newId !in s.batches && Admissible(cfg, s, item, now)
    ensures ReadyToJoin(cfg, s, item, now, newId)
  {
    LookupsAgree(cfg, s, item.request.model, now);
    if item.request.model in s.activeByModel {
      UnbatchedIsNoMember(s, s.activeByModel[item.request.model], item.requestId);
    }
  }

  /** When the checks let an item through, it is admissible. */
  lemma AcceptedIsAdmissible(cfg: BatchConfig, s: EngineState, item: QueueItem, now: Time)
    requires Listed(s) && LookupForm(cfg, s, item.request.model, now)
    requires CheckPlacement(cfg, s, item, now).Proceed?
    ensures Admissible(cfg, s, item, now)
    ensures var verdict, model := CheckPlacement(cfg, s, item, now), item.request.model;
      && (verdict.found.Some? <==> model in s.activeByModel)
      && (verdict.found.Some? ==> verdict.found == Some(s.batches[s.activeByModel[model]]))
      && verdict.reason == (if model in s.activeByModel then "batch_has_capacity" else "new_batch")
  {
  }

  /** A ready item is admitted in the form that PlacedState and PlacedOutcome describe. */
  lemma ReadyItemIsPlaced(cfg: BatchConfig, s: EngineState, item: QueueItem, now: Time, newId: BatchId)
    requires Listed(s) && LookupForm(cfg, s, item.request.model, now)
    requires Admissible(cfg, s, item, now) && ReadyToJoin(cfg, s, item, now, newId)
    ensures Place(cfg, s, item, now, newId)
         == Success((PlacedState(cfg, s, item, now, newId), PlacedOutcome(cfg, s, item, now, newId)))
  {
    var model := item.request.model;
    JoinForm(cfg, PlacementBase(cfg, s, model, now, newId), PlacementTarget(s, model, newId), item, now);
    AdmissionForm(cfg, s, item, now, newId);
    AdmitForm(cfg, s, FindAdmittable(cfg, s, model, now), item, now, newId,
              if model in s.activeByModel then "batch_has_capacity" else "new_batch");
  }

  /** What follows once the checks of a placement have let an item through, without quantifiers. */
  ghost predicate AcceptanceForm(cfg: BatchConfig, s: EngineState, item: QueueItem, now: Time, newId: BatchId)
    requires Listed(s)
  {
    var verdict, model := CheckPlacement(cfg, s, item, now), item.request.model;
    verdict.Proceed? ==>
      && ReadyToJoin(cfg, s, item, now, newId)
      && (verdict.found.Some? <==> model in s.activeByModel)
      && (verdict.found.Some? ==> verdict.found.value.batchId == s.activeByModel[model])
      && verdict.reason == (if model in s.activeByModel then "batch_has_capacity" else "new_batch")
      && Place(cfg, s, item, now, newId)
         == Success((PlacedState(cfg, s, item, now, newId), PlacedOutcome(cfg, s, item, now, newId)))
  }

  lemma AcceptanceFormHolds(cfg: BatchConfig, s: EngineState, item: QueueItem, now: Time, newId: BatchId)
    requires ValidConfig(cfg) && EngineInv(cfg, s) && newId !in s.batches
    ensures AcceptanceForm(cfg, s, item, now, newId)
  {
    LookupsAgree(cfg, s, item.request.model, now);
    if CheckPlacement(cfg, s, item, now).Proceed? {
      AcceptedIsAdmissible(cfg, s, item, now);
      AdmissibleIsReady(cfg, s, item, now, newId);
      ReadyItemIsPlaced(cfg, s, item, now, newId);
    }
  }

  /** An admissible item is placed into the live batch of its model, or into a new one if there is none. */
  lemma PlacementIsExact(cfg: BatchConfig, s: EngineState, item: QueueItem, now: Time, newId: BatchId)
    requires ValidConfig(cfg) && EngineInv(cfg, s) && newId !in s.batches && Admissible(cfg, s, item, now)
    ensures EngineInv(cfg, PlacedState(cfg, s, item, now, newId))
    ensures Place(cfg, s, item, now, newId)
         == Success((PlacedState(cfg, s, item, now, newId), PlacedOutcome(cfg, s, item, now, newId)))
  {
    var model := item.request.model;
    LookupsAgree(cfg, s, model, now);
    PlacementBaseInv(cfg, s, item, now, newId);
    PlacementCanJoin(cfg, s, item, now, newId);
    JoinKeepsInv(cfg, PlacementBase(cfg, s, model, now, newId), PlacementTarget(s, model, newId), item, now);
    AdmissibleIsReady(cfg, s, item, now, newId);
    ReadyItemIsPlaced(cfg, s, item, now, newId);
  }

  lemma PlaceKeepsInv(cfg: BatchConfig, s: EngineState, item: QueueItem, now: Time, newId: BatchId)
    requires ValidConfig(cfg) && EngineInv(cfg, s) && newId !in s.batches
    ensures Place(cfg, s, item, now, newId).Success?
    ensures EngineInv(cfg, Place(cfg, s, item, now, newId).value.0)
    ensures Place(cfg, s, item, now, newId).value.1.Placed? <==> Admissible(cfg, s, item, now)
  {
    if Admissible(cfg, s, item, now) {
      PlacementIsExact(cfg, s, item, now, newId);
    } else {
      RefusalIsExact(cfg, s, item, now, newId);
    }
  }

  // ---- Statistics ----

  /** The number the gauge of active batches is set to. */
  function LiveIds(s: EngineState): set<BatchId> {
    set b | b in s.batches && !Terminal(s.batches[b].state)
  }

  lemma {:induction false} ImageSize(m: map<string, BatchId>, keys: set<string>)
    requires forall x :: x in keys ==> x in m
    requires forall x, y :: x in keys && y in keys && x != y ==> m[x] != m[y]
    ensures |set x | x in keys :: m[x]| == |keys|
  {
    if keys != {} {
      var x :| x in keys;
      ImageSize(m, keys - {x});
      assert (set y | y in keys :: m[y]) == (set y | y in keys - {x} :: m[y]) + {m[x]};
    }
  }

  lemma InjectiveMapSize(m: map<string, BatchId>)
    requires forall x, y :: x in m && y in m && x != y ==> m[x] != m[y]
    ensures |m| == |m.Values|
  {
    ImageSize(m, m.Keys);
    assert m.Values == (set x | x in m.Keys :: m[x]);
  }

  lemma IndexValues(s: EngineState)
    requires IndexInv(s)
    ensures s.activeByModel.Values == LiveIds(s)
  {
    forall b | b in LiveIds(s) ensures b in s.activeByModel.Values {
      assert Live(s.batches[b]) && s.batches[b].model in s.activeByModel;
    }
  }

  function CountedIds(order: seq<BatchId>, batches: map<BatchId, Batch>, alsoActive: bool): set<BatchId>
    requires forall b :: b in order ==> b in batches
  {
    set b | b in order && Counted(batches[b], alsoActive)
  }

  lemma CountedIdsAppend(order: seq<BatchId>, batches: map<BatchId, Batch>, alsoActive: bool)
    requires order != [] && forall b :: b in order ==> b in batches
    ensures var last := order[|order| - 1];
      CountedIds(order, batches, alsoActive)
      == CountedIds(order[..|order| - 1], batches, alsoActive)
          + (if Counted(batches[last], alsoActive) then {last} else {})
  {
    assert order == order[..|order| - 1] + [order[|order| - 1]];
  }

  lemma {:induction false} StateCountIsSize(order: seq<BatchId>, batches: map<BatchId, Batch>, alsoActive: bool)
    requires Distinct(order) && forall b :: b in order ==> b in batches
    ensures StateCount(order, batches, alsoActive) == |CountedIds(order, batches, alsoActive)|
  {
    if order != [] {
      StateCountIsSize(order[..|order| - 1], batches, alsoActive);
      CountedIdsAppend(order, batches, alsoActive);
    }
  }

  /** The live batches are as many as the entries of the model index. */
  lemma LiveCountIsIndexSize(s: EngineState)
    requires Shape(s) && IndexInv(s)
    requires forall b :: b in s.batches ==> s.batches[b].state in {Filling, Active, Completed, Failed}
    ensures StateCount(s.order, s.batches, true) == |s.activeByModel|
  {
    StateCountIsSize(s.order, s.batches, true);
    assert CountedIds(s.order, s.batches, true) == LiveIds(s);
    IndexValues(s);
    InjectiveMapSize(s.activeByModel);
  }

  /** The counters of the statistics in terms of the dictionaries. */
  lemma StatisticsAddUp(cfg: BatchConfig, s: EngineState)
    requires EngineInv(cfg, s)
    ensures |s.order| == |s.batches|
    ensures StateCount(s.order, s.batches, true) == |s.activeByModel|
    ensures SumStatus(s.order, s.sets, MemberActive) <= cfg.maxActiveRequests
    ensures SumStatus(s.order, s.sets, MemberActive) + SumStatus(s.order, s.sets, MemberCompleted)
            + SumStatus(s.order, s.sets, MemberFailed) + SumStatus(s.order, s.sets, MemberCancelled)
         == |s.requestToBatch|
  {
    forall b | b in s.batches ensures s.batches[b].state in {Filling, Active, Completed, Failed} {
      assert BatchInv(cfg, s.batches[b]);
    }
    LiveCountIsIndexSize(s);
    SumPartition(s.order, s.sets);
    OrderSize(s.order, s.batches);
  }

  // ---- Retiring ----

  /** Member i takes the new status; a failure fails a live batch, the last retirement completes an active one. */
  function RetiredBatch(batch: Batch, i: nat, status: MemberStatus, reason: string, now: Time): Batch
    requires i < |batch.members|
  {
    var changed := batch.(members := batch.members[i := batch.members[i].(status := status)]);
    if status.MemberFailed? then
      if Terminal(batch.state) then changed else changed.(state := Failed, failureReason := Some(reason))
    else if batch.state.Active? && ActiveCount(changed.members) == 0 then
      changed.(state := Completed, completedAt := Some(now))
    else
      changed
  }

  lemma RetiredMembersInv(cfg: BatchConfig, batch: Batch, i: nat, status: MemberStatus)
    requires BatchInv(cfg, batch) && i < |batch.members| && !status.MemberActive?
    ensures var after := batch.(members := batch.members[i := batch.members[i].(status := status)]);
      MembersInv(cfg, after) && WindowInv(cfg, after)
  {
    var ms := batch.members;
    var after := ms[i := ms[i].(status := status)];
    forall m | m in after
      ensures m.slotIndex < cfg.maxBatchSize && m.model == batch.model
      ensures batch.activatedAt.None? ==> m.addedAt <= batch.windowEnd
    {
      var j :| 0 <= j < |after| && after[j] == m;
      assert ms[j] in ms;
    }
    assert DistinctIds(after) && DistinctActiveSlots(after);
  }

  lemma RetiredBatchInv(cfg: BatchConfig, batch: Batch, i: nat, status: MemberStatus, reason: string, now: Time)
    requires BatchInv(cfg, batch) && i < |batch.members| && !status.MemberActive?
    ensures BatchInv(cfg, RetiredBatch(batch, i, status, reason, now))
    ensures ActiveCount(RetiredBatch(batch, i, status, reason, now).members)
         == ActiveCount(batch.members) - (if batch.members[i].status.MemberActive? then 1 else 0)
  {
    var ms := batch.members;
    var after := ms[i := ms[i].(status := status)];
    CountSetStatus(ms, i, status, MemberActive);
    CountPositive(ms, i);
    RetiredMembersInv(cfg, batch, i, status);
  }

  function RetiredState(s: EngineState, b: BatchId, i: nat, status: MemberStatus, reason: string, now: Time)
    : EngineState
    requires BatchEntry(s, b) && i < |s.sets[b]|
  {
    var batch := s.batches[b];
    var after := RetiredBatch(batch, i, status, reason, now);
    WithBatch(s, after).(activeByModel := if after.state == batch.state then s.activeByModel
                                          else s.activeByModel - {batch.model})
  }

  lemma CloseForm(s: EngineState, b: BatchId, i: nat, status: MemberStatus, reason: string, now: Time)
    requires BatchEntry(s, b) && i < |s.sets[b]|
    requires s.batches[b].state in {Filling, Active, Completed, Failed}
    ensures var batch := s.batches[b].(members := s.sets[b][i := s.sets[b][i].(status := status)]);
      CloseBatch(WithBatch(s, batch), batch, status, reason, now) == Success(RetiredState(s, b, i, status, reason, now))
  {
    var batch := s.batches[b].(members := s.sets[b][i := s.sets[b][i].(status := status)]);
    var after := RetiredBatch(s.batches[b], i, status, reason, now);
    assert WithBatch(WithBatch(s, batch), after) == WithBatch(s, after);
  }

  lemma RetireForm(s: EngineState, r: RequestId, status: MemberStatus, reason: string, now: Time)
    requires r in s.requestToBatch
    requires BatchEntry(s, s.requestToBatch[r]) && r in MemberIds(s.sets[s.requestToBatch[r]])
    requires s.batches[s.requestToBatch[r]].state in {Filling, Active, Completed, Failed}
    ensures var b := s.requestToBatch[r];
      && IndexOf(s.sets[b], r).Some?
      && var t := RetiredState(s, b, IndexOf(s.sets[b], r).value, status, reason, now);
         Retire(s, r, status, reason, now)
         == Success((t, Retired(Some(b), r, true, reason, Some(s.batches[b].state), Some(t.batches[b].state))))
  {
    var b := s.requestToBatch[r];
    CloseForm(s, b, IndexOf(s.sets[b], r).value, status, reason, now);
  }

  lemma RetireOwnership(s: EngineState, b: BatchId, i: nat, status: MemberStatus, reason: string, now: Time)
    requires Ownership(s) && BatchEntry(s, b) && i < |s.sets[b]|
    ensures Ownership(RetiredState(s, b, i, status, reason, now))
  {
    var t := RetiredState(s, b, i, status, reason, now);
    forall r | r in t.requestToBatch
      ensures t.requestToBatch[r] in t.sets && r in MemberIds(t.sets[t.requestToBatch[r]])
    {
      var x := s.requestToBatch[r];
      var j :| 0 <= j < |s.sets[x]| && s.sets[x][j].requestId == r;
      assert t.sets[x][j] in t.sets[x];
    }
    forall x, m | x in t.sets && m in t.sets[x]
      ensures m.requestId in t.requestToBatch && t.requestToBatch[m.requestId] == x
    {
      var j :| 0 <= j < |t.sets[x]| && t.sets[x][j] == m;
      assert s.sets[x][j] in s.sets[x];
    }
  }

  lemma IndexAfterReplace(s: EngineState, batch: Batch, t: EngineState)
    requires IndexInv(s) && Replaces(s, batch, t) && batch.model == s.batches[batch.batchId].model
    requires if Live(batch) == Live(s.batches[batch.batchId]) then t.activeByModel == s.activeByModel
             else !Live(batch) && t.activeByModel == s.activeByModel - {batch.model}
    ensures IndexInv(t)
  {
    forall m | m in t.activeByModel
      ensures t.activeByModel[m] in t.batches && t.batches[t.activeByModel[m]].model == m
      ensures Live(t.batches[t.activeByModel[m]])
    {
      assert s.activeByModel[m] in s.batches && Live(s.batches[s.activeByModel[m]]);
    }
    forall b | b in t.batches && Live(t.batches[b])
      ensures t.batches[b].model in t.activeByModel && t.activeByModel[t.batches[b].model] == b
    {
      assert b in s.batches && Live(s.batches[b]);
    }
  }

  lemma RetireIndex(s: EngineState, b: BatchId, i: nat, status: MemberStatus, reason: string, now: Time)
    requires IndexInv(s) && BatchEntry(s, b) && i < |s.sets[b]|
    requires s.batches[b].state in {Filling, Active, Completed, Failed}
    ensures IndexInv(RetiredState(s, b, i, status, reason, now))
  {
    IndexAfterReplace(s, RetiredBatch(s.batches[b], i, status, reason, now),
                      RetiredState(s, b, i, status, reason, now));
  }

  lemma RetireAssignments(s: EngineState, b: BatchId, i: nat, status: MemberStatus, reason: string, now: Time)
    requires AssignmentInv(s) && BatchEntry(s, b) && i < |s.sets[b]|
    ensures AssignmentInv(RetiredState(s, b, i, status, reason, now))
  {
    var t := RetiredState(s, b, i, status, reason, now);
    forall x, m | x in t.sets && m in t.sets[x] ensures Assigned(t, m) {
      var j :| 0 <= j < |t.sets[x]| && t.sets[x][j] == m;
      assert s.sets[x][j] in s.sets[x];
      assert Assigned(s, s.sets[x][j]);
    }
  }

  lemma RetireCounts(cfg: BatchConfig, s: EngineState, b: BatchId, i: nat, status: MemberStatus, reason: string,
                     now: Time)
    requires Shape(s) && CountInv(cfg, s) && BatchEntry(s, b) && i < |s.sets[b]| && !status.MemberActive?
    ensures Shape(RetiredState(s, b, i, status, reason, now))
    ensures CountInv(cfg, RetiredState(s, b, i, status, reason, now))
    ensures GlobalActiveCount(RetiredState(s, b, i, status, reason, now))
         == GlobalActiveCount(s) - (if s.sets[b][i].status.MemberActive? then 1 else 0)
  {
    var t, after := RetiredState(s, b, i, status, reason, now), RetiredBatch(s.batches[b], i, status, reason, now);
    ReplaceShape(s, after, t);
    ReplaceCounts(s, after, t, MemberActive);
    CountSetStatus(s.sets[b], i, status, MemberActive);
  }

  lemma RetiredStateInv(cfg: BatchConfig, s: EngineState, b: BatchId, i: nat, status: MemberStatus, reason: string,
                        now: Time)
    requires EngineInv(cfg, s) && BatchEntry(s, b) && i < |s.sets[b]| && !status.MemberActive?
    ensures EngineInv(cfg, RetiredState(s, b, i, status, reason, now))
  {
    assert BatchInv(cfg, s.batches[b]);
    RetiredBatchInv(cfg, s.batches[b], i, status, reason, now);
    ReplaceBatches(cfg, s, RetiredBatch(s.batches[b], i, status, reason, now),
                   RetiredState(s, b, i, status, reason, now));
    RetireOwnership(s, b, i, status, reason, now);
    RetireIndex(s, b, i, status, reason, now);
    RetireAssignments(s, b, i, status, reason, now);
    RetireCounts(cfg, s, b, i, status, reason, now);
  }

  /** A request that was never batched is refused; any other is retired, however often it has been before. */
  lemma RetireIsExact(cfg: BatchConfig, s: EngineState, r: RequestId, status: MemberStatus, reason: string, now: Time)
    requires EngineInv(cfg, s)
    ensures r !in s.requestToBatch ==>
      Retire(s, r, status, reason, now)
      == Success((s, Retired(None, r, false, "request_not_in_batch", None, None)))
    ensures r in s.requestToBatch ==>
      var b := s.requestToBatch[r];
      && BatchEntry(s, b)
      && IndexOf(s.sets[b], r).Some?
      && var t := RetiredState(s, b, IndexOf(s.sets[b], r).value, status, reason, now);
         && (!status.MemberActive? ==> EngineInv(cfg, t))
         && Retire(s, r, status, reason, now)
            == Success((t, Retired(Some(b), r, true, reason, Some(s.batches[b].state), Some(t.batches[b].state))))
  {
    if r in s.requestToBatch {
      var b := s.requestToBatch[r];
      assert BatchInv(cfg, s.batches[b]);
      RetireForm(s, r, status, reason, now);
      if !status.MemberActive? {
        RetiredStateInv(cfg, s, b, IndexOf(s.sets[b], r).value, status, reason, now);
      }
    }
  }

  // ---- Replacing ----

  lemma ReplaceForm(cfg: BatchConfig, s: EngineState, r: RequestId, item: QueueItem, retiredAt: Time, placedAt: Time,
                    newId: BatchId, t: EngineState, retired: RetireOutcome)
    requires Retire(s, r, MemberCompleted, "request_completed", retiredAt) == Success((t, retired))
    requires retired.success && Listed(t)
    ensures Replace(cfg, s, r, item, retiredAt, placedAt, newId)
         == match Place(cfg, t, item, placedAt, newId)
            case Success((u, outcome)) => Success((u, Some(outcome)))
            case Failure(e) => Failure(e)
  {
  }
}
