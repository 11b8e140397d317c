/**
 Placing and retiring written out field by field, in terms of the records alone, and where every time and text in a
 record of a run comes from.
 */
module BatchRecords {
  import opened Wrappers
  import opened Schemas
  import opened Sorting
  import opened BatchModels
  import opened BatchEngineSpec
  import opened BatchEngineInvariant
  import opened BatchEngineRuns
  import opened SchedulingCycle

  // ---- Counting by cardinality ----

  /** The positions of the active members. */
  function ActivePositions(ms: seq<BatchMember>): set<nat> {
    set i: nat | i < |ms| && ms[i].status == MemberActive
  }

  lemma {:induction false} ActivePositionsAreCounted(ms: seq<BatchMember>)
    ensures |ActivePositions(ms)| == ActiveCount(ms)
  {
    if ms != [] {
      var init, last := ms[..|ms| - 1], ms[|ms| - 1];
      ActivePositionsAreCounted(init);
      assert ActivePositions(ms) == ActivePositions(init) + (if last.status == MemberActive then {|ms| - 1} else {});
    }
  }

  /** The requests whose member has this status. */
  function IdsWith(ms: seq<BatchMember>, status: MemberStatus): set<RequestId> {
    set m | m in ms && m.status == status :: m.requestId
  }

  lemma IdsAppend(ms: seq<BatchMember>, m: BatchMember, status: MemberStatus)
    ensures IdsWith(ms + [m], status) == IdsWith(ms, status) + (if m.status == status then {m.requestId} else {})
  {
    forall r | r in IdsWith(ms, status) ensures r in IdsWith(ms + [m], status) {
      var x :| x in ms && x.status == status && x.requestId == r;
      assert x in ms + [m];
    }
    assert m in ms + [m];
  }

  lemma {:induction false} IdsAreCounted(ms: seq<BatchMember>, status: MemberStatus)
    requires DistinctIds(ms)
    ensures |IdsWith(ms, status)| == CountStatus(ms, status)
  {
    if ms != [] {
      var init, last := ms[..|ms| - 1], ms[|ms| - 1];
      assert ms == init + [last];
      IdsAreCounted(init, status);
      IdsAppend(init, last, status);
      assert last.requestId !in IdsWith(init, status);
    }
  }

  function AllIdsWith(order: seq<BatchId>, sets: map<BatchId, seq<BatchMember>>, status: MemberStatus): set<RequestId>
    requires forall b :: b in order ==> b in sets
  {
    if order == [] then {}
    else AllIdsWith(order[..|order| - 1], sets, status) + IdsWith(sets[order[|order| - 1]], status)
  }

  /** Each batch has distinct ids, and `home` gives the batch of every member. */
  ghost predicate Homes(order: seq<BatchId>, sets: map<BatchId, seq<BatchMember>>, home: map<RequestId, BatchId>) {
    && Distinct(order)
    && (forall b :: b in order ==> b in sets && DistinctIds(sets[b]))
    && (forall b, m :: b in order && m in sets[b] ==> m.requestId in home && home[m.requestId] == b)
  }

  lemma FrontHomes(order: seq<BatchId>, sets: map<BatchId, seq<BatchMember>>, home: map<RequestId, BatchId>)
    requires order != [] && Homes(order, sets, home)
    ensures var init, last := order[..|order| - 1], order[|order| - 1];
      && Homes(init, sets, home) && last !in init && last in sets && DistinctIds(sets[last])
      && forall m :: m in sets[last] ==> m.requestId in home && home[m.requestId] == last
  {
    assert order == order[..|order| - 1] + [order[|order| - 1]];
  }

  lemma {:induction false} AllIdsAreListed(order: seq<BatchId>, sets: map<BatchId, seq<BatchMember>>,
                                           status: MemberStatus)
    requires forall b :: b in order ==> b in sets
    ensures forall r :: r in AllIdsWith(order, sets, status) <==>
      exists b :: b in order && r in IdsWith(sets[b], status)
  {
    if order != [] {
      var init, last := order[..|order| - 1], order[|order| - 1];
      assert order == init + [last];
      AllIdsAreListed(init, sets, status);
    }
  }

  lemma IdsOfOthers(init: seq<BatchId>, last: BatchId, sets: map<BatchId, seq<BatchMember>>, home: map<RequestId,
                    BatchId>, status: MemberStatus)
    requires Homes(init, sets, home) && last !in init && last in sets
    requires forall m :: m in sets[last] ==> m.requestId in home && home[m.requestId] == last
    ensures AllIdsWith(init, sets, status) !! IdsWith(sets[last], status)
  {
    AllIdsAreListed(init, sets, status);
    forall r | r in AllIdsWith(init, sets, status) ensures r !in IdsWith(sets[last], status) {
      var b :| b in init && r in IdsWith(sets[b], status);
      var m :| m in sets[b] && m.status == status && m.requestId == r;
    }
  }

  lemma {:induction false} AllIdsAreCounted(order: seq<BatchId>, sets: map<BatchId, seq<BatchMember>>,
                                            home: map<RequestId, BatchId>, status: MemberStatus)
    requires Homes(order, sets, home)
    ensures |AllIdsWith(order, sets, status)| == SumStatus(order, sets, status)
  {
    if order != [] {
      var init, last := order[..|order| - 1], order[|order| - 1];
      FrontHomes(order, sets, home);
      AllIdsAreCounted(init, sets, home, status);
      IdsAreCounted(sets[last], status);
      IdsOfOthers(init, last, sets, home, status);
    }
  }

  /** The requests of the engine whose member has this status. */
  function RequestsWith(s: EngineState, status: MemberStatus): set<RequestId> {
    set r | r in s.requestToBatch && s.requestToBatch[r] in s.batches
            && r in IdsWith(s.batches[s.requestToBatch[r]].members, status)
  }

  /** The sum over all member sets is the number of these requests. */
  lemma RequestsAreCounted(cfg: BatchConfig, s: EngineState, status: MemberStatus)
    requires EngineInv(cfg, s)
    ensures |RequestsWith(s, status)| == SumStatus(s.order, s.sets, status)
  {
    HomesHold(cfg, s);
    AllIdsAreCounted(s.order, s.sets, s.requestToBatch, status);
    RequestsAreListed(s, status);
  }

  lemma HomesHold(cfg: BatchConfig, s: EngineState)
    requires EngineInv(cfg, s)
    ensures Homes(s.order, s.sets, s.requestToBatch)
  {
    forall b | b in s.order ensures DistinctIds(s.sets[b]) {
      assert BatchInv(cfg, s.batches[b]);
    }
  }

  lemma RequestsAreListed(s: EngineState, status: MemberStatus)
    requires Shape(s) && Homes(s.order, s.sets, s.requestToBatch)
    ensures RequestsWith(s, status) == AllIdsWith(s.order, s.sets, status)
  {
    AllIdsAreListed(s.order, s.sets, status);
    forall r | r in AllIdsWith(s.order, s.sets, status) ensures r in RequestsWith(s, status) {
      var b :| b in s.order && r in IdsWith(s.sets[b], status);
      var m :| m in s.sets[b] && m.status == status && m.requestId == r;
    }
  }

  function ActiveRequests(s: EngineState): set<RequestId> {
    RequestsWith(s, MemberActive)
  }

  /** The global count is the number of requests with an active member. */
  lemma ActiveRequestsAreCounted(cfg: BatchConfig, s: EngineState)
    requires EngineInv(cfg, s)
    ensures |ActiveRequests(s)| == GlobalActiveCount(s)
  {
    RequestsAreCounted(cfg, s, MemberActive);
  }

  // ---- Statistics ----

  /** The counters as numbers of batches and of requests. */
  ghost predicate StatisticsAre(s: EngineState, stats: BatchStatistics) {
    && stats.totalBatches == |s.batches|
    && stats.activeBatches == |set b | b in s.batches && s.batches[b].state in {Filling, Active}|
    && stats.fillingBatches == |set b | b in s.batches && s.batches[b].state == Filling|
    && stats.totalActive
        == |RequestsWith(s, MemberActive)| && stats.totalCompleted == |RequestsWith(s, MemberCompleted)|
    && stats.totalFailed
        == |RequestsWith(s, MemberFailed)| && stats.totalCancelled == |RequestsWith(s, MemberCancelled)|
  }

  lemma BatchesAreCounted(s: EngineState)
    requires Shape(s)
    ensures StateCount(s.order, s.batches, false) == |set b | b in s.batches && s.batches[b].state == Filling|
    ensures StateCount(s.order, s.batches, true) == |set b | b in s.batches && s.batches[b].state in {Filling, Active}|
  {
    StateCountIsSize(s.order, s.batches, false);
    StateCountIsSize(s.order, s.batches, true);
    assert CountedIds(s.order, s.batches, false) == (set b | b in s.batches && s.batches[b].state == Filling);
    assert CountedIds(s.order, s.batches, true) == (set b | b in s.batches && s.batches[b].state in {Filling, Active});
  }

  /** The counters of the statistics count what they are named for. */
  lemma StatisticsWrittenOut(cfg: BatchConfig, s: EngineState, stats: BatchStatistics)
    requires EngineInv(cfg, s) && StatisticsOf(s, stats)
    ensures StatisticsAre(s, stats)
  {
    OrderSize(s.order, s.batches);
    BatchesAreCounted(s);
    RequestsAreCounted(cfg, s, MemberActive);
    RequestsAreCounted(cfg, s, MemberCompleted);
    RequestsAreCounted(cfg, s, MemberFailed);
    RequestsAreCounted(cfg, s, MemberCancelled);
  }

  // ---- One placement ----

  /** An active member holds the slot. */
  ghost predicate SlotTaken(ms: seq<BatchMember>, slot: nat) {
    exists m :: m in ms && m.status == MemberActive && m.slotIndex == slot
  }

  /** The least slot that no active member holds. */
  ghost predicate LeastFreeSlot(ms: seq<BatchMember>, slot: nat) {
    !SlotTaken(ms, slot) && forall k: nat :: k < slot ==> SlotTaken(ms, k)
  }

  /** The item joins as the last member; the batch activates if that fills it, or at or after the end of its window. */
  ghost predicate Gains(cfg: BatchConfig, before: Batch, after: Batch, item: QueueItem, now: Time) {
    var n := |before.members|;
    && |after.members| == n + 1 && after.members[..n] == before.members
    && after.members[n]
       == BatchMember(item.requestId, after.members[n].slotIndex, item.request.model, now, MemberActive)
    && LeastFreeSlot(before.members, after.members[n].slotIndex)
    && after == before.(members := after.members, state := after.state, activatedAt := after.activatedAt)
    && if before.state == Filling && (|ActivePositions(after.members)| >= cfg.maxBatchSize || now >= before.windowEnd)
       then after.state == Active && after.activatedAt == Some(now)
       else after.state == before.state && after.activatedAt == before.activatedAt
  }

  predicate IsLive(state: BatchState) {
    state != Completed && state != Failed && state != Cancelled
  }

  /** The batch has room, and its window has not passed if it is filling. */
  predicate TakesIn(cfg: BatchConfig, batch: Batch, now: Time) {
    |ActivePositions(batch.members)| < cfg.maxBatchSize && (batch.state == Filling ==> now <= batch.windowEnd)
  }

  /** The request is new, there is global capacity, and every live batch of the model has room and an open window. */
  ghost predicate MayJoin(cfg: BatchConfig, s: EngineState, item: QueueItem, now: Time) {
    && item.requestId !in s.requestToBatch
    && |ActiveRequests(s)| < cfg.maxActiveRequests
    && forall b :: b in s.batches && s.batches[b].model == item.request.model && IsLive(s.batches[b].state) ==>
         TakesIn(cfg, s.batches[b], now)
  }

  /** The state and outcome of an item that was placed. */
  ghost predicate PlacedAs(cfg: BatchConfig, s: EngineState, item: QueueItem, now: Time, newId: BatchId, t: EngineState,
                           outcome: PlaceOutcome)
  {
    && outcome.Placed? && outcome.requestId == item.requestId
    && var b := outcome.batchId;
    && b in t.batches && t.batches[b].members != []
    && t.batches == s.batches[b := t.batches[b]] && t.sets == s.sets[b := t.batches[b].members]
    && t.requestToBatch == s.requestToBatch[item.requestId := b]
    && t.assignments == s.assignments[item.requestId := outcome.assignment]
    && outcome.assignment
        == Assignment(item.requestId, t.batches[b].members[|t.batches[b].members| - 1].slotIndex, item.request)
    && if b in s.batches then
         && s.batches[b].model == item.request.model && IsLive(s.batches[b].state)
         && Gains(cfg, s.batches[b], t.batches[b], item, now)
         && t.order == s.order && t.activeByModel == s.activeByModel && outcome.reason == "batch_has_capacity"
       else
         && b == newId
         && (forall c :: c in s.batches && s.batches[c].model == item.request.model ==> !IsLive(s.batches[c].state))
         && Gains(cfg, Batch(newId, item.request.model, Filling, now, now + cfg.windowMs, None, None, None, []),
                  t.batches[b], item, now)
         && t.order == s.order + [newId] && t.activeByModel == s.activeByModel[item.request.model := newId]
         && outcome.reason == "new_batch"
  }

  lemma SlotIsLeast(ms: seq<BatchMember>)
    ensures LeastFreeSlot(ms, NextSlot(ms))
  {
    FreeSlotIsLeast(UsedSlots(ms));
    forall k: nat ensures SlotTaken(ms, k) <==> k in UsedSlots(ms) {
    }
  }

  lemma JoinedRecord(cfg: BatchConfig, batch: Batch, item: QueueItem, now: Time) returns (after: Batch)
    ensures after == JoinedBatch(cfg, batch, item, now)
    ensures after.members == batch.members + [NewMember(batch, item, now)]
    ensures after == batch.(members := after.members, state := after.state, activatedAt := after.activatedAt)
    ensures if batch.state == Filling && (ActiveCount(after.members) >= cfg.maxBatchSize || now >= batch.windowEnd)
            then after.state == Active && after.activatedAt == Some(now)
            else after.state == batch.state && after.activatedAt == batch.activatedAt
  {
    after := JoinedBatch(cfg, batch, item, now);
  }

  lemma JoiningGains(cfg: BatchConfig, batch: Batch, item: QueueItem, now: Time)
    ensures Gains(cfg, batch, JoinedBatch(cfg, batch, item, now), item, now)
  {
    var after := JoinedRecord(cfg, batch, item, now);
    SlotIsLeast(batch.members);
    ActivePositionsAreCounted(after.members);
    assert after.members[..|batch.members|] == batch.members;
  }

  lemma OpenMeans(cfg: BatchConfig, batch: Batch, now: Time)
    ensures Open(cfg, batch, now) <==> IsLive(batch.state) && TakesIn(cfg, batch, now)
  {
    ActivePositionsAreCounted(batch.members);
  }

  lemma AllOpenMeans(cfg: BatchConfig, s: EngineState, model: string, now: Time)
    ensures (forall b :: b in LiveBatches(s, model) ==> Open(cfg, s.batches[b], now))
       <==> forall b :: b in s.batches && s.batches[b].model == model && IsLive(s.batches[b].state) ==>
              TakesIn(cfg, s.batches[b], now)
  {
    forall b | b in s.batches
      ensures b in LiveBatches(s, model) <==> s.batches[b].model == model && IsLive(s.batches[b].state)
      ensures Open(cfg, s.batches[b], now) <==> IsLive(s.batches[b].state) && TakesIn(cfg, s.batches[b], now)
    {
      OpenMeans(cfg, s.batches[b], now);
    }
  }

  lemma AdmissibleMeans(cfg: BatchConfig, s: EngineState, item: QueueItem, now: Time)
    requires EngineInv(cfg, s)
    ensures Admissible(cfg, s, item, now) <==> MayJoin(cfg, s, item, now)
  {
    ActiveRequestsAreCounted(cfg, s);
    AllOpenMeans(cfg, s, item.request.model, now);
  }

  lemma JoinedStateWrittenOut(cfg: BatchConfig, s: EngineState, item: QueueItem, now: Time, newId: BatchId)
    requires item.request.model in s.activeByModel && ReadyToJoin(cfg, s, item, now, newId)
    requires Live(s.batches[s.activeByModel[item.request.model]])
          && s.batches[s.activeByModel[item.request.model]].model == item.request.model
    ensures PlacedAs(cfg, s, item, now, newId, PlacedState(cfg, s, item, now, newId),
                     PlacedOutcome(cfg, s, item, now, newId))
  {
    JoiningGains(cfg, s.batches[s.activeByModel[item.request.model]], item, now);
  }

  /** The state in which a batch has been opened for the item, and the item in it. */
  lemma OpenedBatch(cfg: BatchConfig, s: EngineState, item: QueueItem, now: Time, newId: BatchId) returns (empty: Batch)
    requires newId !in s.batches && item.request.model !in s.activeByModel
    ensures empty == Batch(newId, item.request.model, Filling, now, now + cfg.windowMs, None, None, None, [])
    ensures PlacedState(cfg, s, item, now, newId)
         == JoinedState(cfg, EngineState(s.batches[newId := empty], s.order + [newId], s.sets[newId := []],
                                         s.requestToBatch, s.activeByModel[item.request.model := newId], s.assignments),
                        newId, item, now)
    ensures PlacedOutcome(cfg, s, item, now, newId)
         == Placed(item.requestId, newId, NewAssignment(empty, item), "new_batch")
  {
    empty := Batch(newId, item.request.model, Filling, now, now + cfg.windowMs, None, None, None, []);
  }

  /** The state after a join, field by field. */
  lemma JoinedFields(cfg: BatchConfig, s: EngineState, b: BatchId, item: QueueItem, now: Time) returns (t: EngineState)
    requires b in s.batches && s.batches[b].batchId == b
    ensures t == JoinedState(cfg, s, b, item, now)
    ensures t == EngineState(s.batches[b := JoinedBatch(cfg, s.batches[b], item, now)], s.order,
                             s.sets[b := JoinedBatch(cfg, s.batches[b], item, now).members],
                             s.requestToBatch[item.requestId := b], s.activeByModel,
                             s.assignments[item.requestId := NewAssignment(s.batches[b], item)])
  {
    t := JoinedState(cfg, s, b, item, now);
  }

  lemma OpenedIsPlaced(cfg: BatchConfig, s: EngineState, item: QueueItem, now: Time, newId: BatchId, empty: Batch,
                       after: Batch, t: EngineState)
    requires newId !in s.batches
    requires forall c :: c in s.batches && s.batches[c].model == item.request.model ==> !IsLive(s.batches[c].state)
    requires empty == Batch(newId, item.request.model, Filling, now, now + cfg.windowMs, None, None, None, [])
    requires Gains(cfg, empty, after, item, now) && after.members == [NewMember(empty, item, now)]
    requires t == EngineState(s.batches[newId := empty][newId := after], s.order + [newId],
                              s.sets[newId := []][newId := after.members], s.requestToBatch[item.requestId := newId],
                              s.activeByModel[item.request.model := newId],
                              s.assignments[item.requestId := NewAssignment(empty, item)])
    ensures PlacedAs(cfg, s, item, now, newId, t,
                     Placed(item.requestId, newId, NewAssignment(empty, item), "new_batch"))
  {
    assert s.batches[newId := empty][newId := after] == s.batches[newId := after];
    assert s.sets[newId := []][newId := after.members] == s.sets[newId := after.members];
  }

  lemma OpenedStateWrittenOut(cfg: BatchConfig, s: EngineState, item: QueueItem, now: Time, newId: BatchId)
    requires newId !in s.batches && item.request.model !in s.activeByModel
    requires forall c :: c in s.batches && s.batches[c].model == item.request.model ==> !IsLive(s.batches[c].state)
    ensures PlacedAs(cfg, s, item, now, newId, PlacedState(cfg, s, item, now, newId),
                     PlacedOutcome(cfg, s, item, now, newId))
  {
    var empty := OpenedBatch(cfg, s, item, now, newId);
    var base := EngineState(s.batches[newId := empty], s.order + [newId], s.sets[newId := []], s.requestToBatch,
                            s.activeByModel[item.request.model := newId], s.assignments);
    var t := JoinedFields(cfg, base, newId, item, now);
    var after := JoinedRecord(cfg, empty, item, now);
    JoiningGains(cfg, empty, item, now);
    OpenedIsPlaced(cfg, s, item, now, newId, empty, after, t);
  }

  lemma PlacedStateWrittenOut(cfg: BatchConfig, s: EngineState, item: QueueItem, now: Time, newId: BatchId)
    requires Listed(s) && newId !in s.batches && ReadyToJoin(cfg, s, item, now, newId)
    requires LookupForm(cfg, s, item.request.model, now)
    ensures PlacedAs(cfg, s, item, now, newId, PlacedState(cfg, s, item, now, newId),
                     PlacedOutcome(cfg, s, item, now, newId))
  {
    var model := item.request.model;
    if model in s.activeByModel {
      JoinedStateWrittenOut(cfg, s, item, now, newId);
    } else {
      forall c | c in s.batches && s.batches[c].model == model ensures !IsLive(s.batches[c].state) {
        assert c !in LiveBatches(s, model);
      }
      OpenedStateWrittenOut(cfg, s, item, now, newId);
    }
  }

  /** The reason a placement is refused for, and the batch it names. */
  ghost predicate RefusedAs(cfg: BatchConfig, s: EngineState, item: QueueItem, outcome: PlaceOutcome) {
    && outcome.Rejected? && outcome.requestId == item.requestId
    && (outcome.fullBatch.Some? <==>
          && item.requestId !in s.requestToBatch
          && exists b :: b in s.batches && s.batches[b].model == item.request.model && IsLive(s.batches[b].state))
    && (outcome.fullBatch.Some? ==>
          && outcome.fullBatch.value in s.batches && s.batches[outcome.fullBatch.value].model == item.request.model
          && IsLive(s.batches[outcome.fullBatch.value].state))
    && outcome.reason
       == if item.requestId in s.requestToBatch then "request_already_batched"
          else if outcome.fullBatch.Some?
                  && |ActivePositions(s.batches[outcome.fullBatch.value].members)| >= cfg.maxBatchSize then
            "batch_full_no_slots"
          else if |ActiveRequests(s)| >= cfg.maxActiveRequests then "max_active_requests_reached"
          else "admission_window_closed"
  }

  /** A placement as a relation between states: whether the item is placed, and every field of the state it leads to. */
  ghost predicate PlacementIs(cfg: BatchConfig, s: EngineState, item: QueueItem, now: Time, newId: BatchId,
                              t: EngineState, outcome: PlaceOutcome)
  {
    if MayJoin(cfg, s, item, now) then PlacedAs(cfg, s, item, now, newId, t, outcome)
    else RefusedAs(cfg, s, item, outcome) && t == s
  }

  lemma RefusalWrittenOut(cfg: BatchConfig, s: EngineState, item: QueueItem, now: Time)
    requires EngineInv(cfg, s)
    ensures RefusedAs(cfg, s, item, Rejected(item.requestId, RefusalReason(cfg, s, item, now), RefusalBatch(s, item)))
  {
    ActiveRequestsAreCounted(cfg, s);
    IndexIsSearch(cfg, s, item.request.model);
    ReasonWrittenOut(cfg, s, item, now);
  }

  lemma ReasonWrittenOut(cfg: BatchConfig, s: EngineState, item: QueueItem, now: Time)
    requires Listed(s) && |ActiveRequests(s)| == GlobalActiveCount(s)
    requires var model := item.request.model;
      && LiveBatches(s, model) == (if model in s.activeByModel then {s.activeByModel[model]} else {})
      && (model in s.activeByModel ==> s.activeByModel[model] in s.batches)
    ensures RefusedAs(cfg, s, item, Rejected(item.requestId, RefusalReason(cfg, s, item, now), RefusalBatch(s, item)))
  {
    var model := item.request.model;
    forall b | b in s.batches && s.batches[b].model == model && IsLive(s.batches[b].state)
      ensures model in s.activeByModel && b == s.activeByModel[model]
    {
      assert b in LiveBatches(s, model);
    }
    if model in s.activeByModel {
      var b := s.activeByModel[model];
      assert b in LiveBatches(s, model);
      ActivePositionsAreCounted(s.batches[b].members);
    }
  }

  /** A placement written out: whether the item is placed, and every field of the state it leads to. */
  lemma PlacementWrittenOut(cfg: BatchConfig, s: EngineState, item: QueueItem, now: Time, newId: BatchId)
    returns (t: EngineState, outcome: PlaceOutcome)
    requires ValidConfig(cfg) && EngineInv(cfg, s) && newId !in s.batches
    ensures Place(cfg, s, item, now, newId) == Success((t, outcome))
    ensures PlacementIs(cfg, s, item, now, newId, t, outcome)
  {
    AdmissibleMeans(cfg, s, item, now);
    if Admissible(cfg, s, item, now) {
      PlacementIsExact(cfg, s, item, now, newId);
      t, outcome := PlacedState(cfg, s, item, now, newId), PlacedOutcome(cfg, s, item, now, newId);
      LookupsAgree(cfg, s, item.request.model, now);
      AdmissibleIsReady(cfg, s, item, now, newId);
      PlacedStateWrittenOut(cfg, s, item, now, newId);
    } else {
      RefusalIsExact(cfg, s, item, now, newId);
      RefusalWrittenOut(cfg, s, item, now);
      var refused := Place(cfg, s, item, now, newId).value;
      t, outcome := refused.0, refused.1;
    }
  }

  // ---- One retirement ----

  /**
   The member of the request takes the status. A failure ends a live batch; otherwise an active batch without active
   members is completed.
   */
  ghost predicate Loses(before: Batch, after: Batch, r: RequestId, status: MemberStatus, reason: string, now: Time) {
    && |after.members| == |before.members|
    && (forall i :: 0 <= i < |before.members| ==>
          after.members[i] == if before.members[i].requestId == r then before.members[i].(status := status)
                              else before.members[i])
    && if status == MemberFailed then
         after == if IsLive(before.state)
                  then before.(members := after.members, state := Failed, failureReason := Some(reason))
                  else before.(members := after.members)
       else
         after == if before.state == Active && ActivePositions(after.members) == {}
                  then before.(members := after.members, state := Completed, completedAt := Some(now))
                  else before.(members := after.members)
  }

  /** The state and outcome of a retirement. */
  ghost predicate RetiredAs(s: EngineState, r: RequestId, status: MemberStatus, reason: string, now: Time,
                            t: EngineState, outcome: RetireOutcome)
  {
    if r !in s.requestToBatch then t == s && outcome == Retired(None, r, false, "request_not_in_batch", None, None)
    else
      var b := s.requestToBatch[r];
      && b in s.batches && b in t.batches && (exists m :: m in s.batches[b].members && m.requestId == r)
      && Loses(s.batches[b], t.batches[b], r, status, reason, now)
      && t == s.(batches := s.batches[b := t.batches[b]], sets := s.sets[b := t.batches[b].members],
                 activeByModel := if IsLive(s.batches[b].state) && !IsLive(t.batches[b].state)
                                  then s.activeByModel - {s.batches[b].model} else s.activeByModel)
      && outcome == Retired(Some(b), r, true, reason, Some(s.batches[b].state), Some(t.batches[b].state))
  }

  lemma RetiringLoses(batch: Batch, i: nat, status: MemberStatus, reason: string, now: Time)
    requires i < |batch.members| && DistinctIds(batch.members)
    ensures Loses(batch, RetiredBatch(batch, i, status, reason, now), batch.members[i].requestId, status, reason, now)
  {
    ActivePositionsAreCounted(RetiredBatch(batch, i, status, reason, now).members);
  }

  /** A retirement written out: every field of the state it leads to, and the outcome, for every status. */
  lemma RetirementWrittenOut(cfg: BatchConfig, s: EngineState, r: RequestId, status: MemberStatus, reason: string,
                             now: Time)
    returns (t: EngineState, outcome: RetireOutcome)
    requires EngineInv(cfg, s)
    ensures Retire(s, r, status, reason, now) == Success((t, outcome))
    ensures RetiredAs(s, r, status, reason, now, t, outcome)
  {
    RetireIsExact(cfg, s, r, status, reason, now);
    var retired := Retire(s, r, status, reason, now).value;
    t, outcome := retired.0, retired.1;
    if r in s.requestToBatch {
      var b := s.requestToBatch[r];
      var i := IndexOf(s.sets[b], r).value;
      assert BatchInv(cfg, s.batches[b]);
      RetiredStateWrittenOut(s, b, i, status, reason, now, t, outcome);
    }
  }

  lemma RetiredStateWrittenOut(s: EngineState, b: BatchId, i: nat, status: MemberStatus, reason: string, now: Time,
                               t: EngineState, outcome: RetireOutcome)
    requires BatchEntry(s, b) && i < |s.sets[b]| && DistinctIds(s.sets[b])
    requires s.sets[b][i].requestId in s.requestToBatch && s.requestToBatch[s.sets[b][i].requestId] == b
    requires s.batches[b].state in {Filling, Active, Completed, Failed}
    requires t == RetiredState(s, b, i, status, reason, now)
    requires outcome == Retired(Some(b), s.sets[b][i].requestId, true, reason, Some(s.batches[b].state),
                                Some(t.batches[b].state))
    ensures RetiredAs(s, s.sets[b][i].requestId, status, reason, now, t, outcome)
  {
    RetiringLoses(s.batches[b], i, status, reason, now);
    assert s.batches[b].members[i] in s.batches[b].members;
  }

  // ---- One replacement ----

  /**
   A replacement written out: a request that is in no batch is replaced by nothing; any other is completed, and then the
   item is placed in the state this leads to.
   */
  lemma ReplacementWrittenOut(cfg: BatchConfig, s: EngineState, r: RequestId, item: QueueItem, retiredAt: Time,
                              placedAt: Time, newId: BatchId)
    returns (u: EngineState, retired: RetireOutcome, t: EngineState, outcome: Option<PlaceOutcome>)
    requires ValidConfig(cfg) && EngineInv(cfg, s) && newId !in s.batches
    ensures Replace(cfg, s, r, item, retiredAt, placedAt, newId) == Success((t, outcome))
    ensures RetiredAs(s, r, MemberCompleted, "request_completed", retiredAt, u, retired)
    ensures if r in s.requestToBatch then outcome.Some? && PlacementIs(cfg, u, item, placedAt, newId, t, outcome.value)
            else t == s && outcome == None
  {
    u, retired := RetirementWrittenOut(cfg, s, r, MemberCompleted, "request_completed", retiredAt);
    t, outcome := u, None;
    if r in s.requestToBatch {
      RetireIsExact(cfg, s, r, MemberCompleted, "request_completed", retiredAt);
      var placed;
      t, placed := PlacementWrittenOut(cfg, u, item, placedAt, newId);
      outcome := Some(placed);
      ReplaceForm(cfg, s, r, item, retiredAt, placedAt, newId, u, retired);
    }
  }

  // ---- Over a run ----

  /** What an event does to the record of batch b, which may be new. */
  ghost predicate RecordStep(cfg: BatchConfig, s: EngineState, e: Event, t: EngineState, b: BatchId)
    requires b in t.batches
  {
    var after := t.batches[b];
    match e
    case PlaceItem(item, now, newId) =>
      if b in s.batches then after == s.batches[b] || Gains(cfg, s.batches[b], after, item, now)
      else
        && b == newId
        && Gains(cfg, Batch(newId, item.request.model, Filling, now, now + cfg.windowMs, None, None, None, []), after,
                 item, now)
    case RetireRequest(r, status, reason, now) =>
      && b in s.batches
      && if r in s.requestToBatch && s.requestToBatch[r] == b then Loses(s.batches[b], after, r, status, reason, now)
         else after == s.batches[b]
  }

  lemma PlacementChangesRecord(cfg: BatchConfig, s: EngineState, item: QueueItem, now: Time, newId: BatchId,
                               t: EngineState, outcome: PlaceOutcome, b: BatchId)
    requires t == s || PlacedAs(cfg, s, item, now, newId, t, outcome)
    requires b in t.batches
    ensures RecordStep(cfg, s, PlaceItem(item, now, newId), t, b)
  {
  }

  lemma RetirementChangesRecord(cfg: BatchConfig, s: EngineState, r: RequestId, status: MemberStatus, reason: string,
                                now: Time, t: EngineState, outcome: RetireOutcome, b: BatchId)
    requires RetiredAs(s, r, status, reason, now, t, outcome) && b in t.batches
    ensures RecordStep(cfg, s, RetireRequest(r, status, reason, now), t, b)
  {
  }

  lemma EventChangesRecord(cfg: BatchConfig, s: EngineState, e: Event, t: EngineState, b: BatchId)
    requires ValidConfig(cfg) && EngineInv(cfg, s) && Step(cfg, s, e, t) && b in t.batches
    ensures RecordStep(cfg, s, e, t, b)
  {
    match e
    case PlaceItem(item, now, newId) =>
      var u, outcome := PlacementWrittenOut(cfg, s, item, now, newId);
      PlacementChangesRecord(cfg, s, item, now, newId, u, outcome, b);
    case RetireRequest(r, status, reason, now) =>
      var u, outcome := RetirementWrittenOut(cfg, s, r, status, reason, now);
      RetireStepForm(cfg, s, r, status, reason, now, t);
      RetirementChangesRecord(cfg, s, r, status, reason, now, u, outcome, b);
  }

  /** One of the events placed this request at this time. */
  ghost predicate PlacedBy(events: seq<Event>, r: RequestId, model: string, now: Time) {
    exists i :: 0 <= i < |events| && events[i].PlaceItem?
             && events[i].item.requestId == r && events[i].item.request.model == model && events[i].now == now
  }

  /** One of the events placed a request of the model at this time, under this id for a new batch. */
  ghost predicate OpenedBy(events: seq<Event>, b: BatchId, model: string, now: Time) {
    exists i :: 0 <= i < |events| && events[i].PlaceItem?
             && events[i].newId == b && events[i].item.request.model == model && events[i].now == now
  }

  ghost predicate ActivatedBy(events: seq<Event>, model: string, now: Time) {
    exists i :: 0 <= i < |events| && events[i].PlaceItem? && events[i].item.request.model
        == model && events[i].now == now
  }

  ghost predicate CompletedBy(events: seq<Event>, now: Time) {
    exists i :: 0 <= i < |events| && events[i].RetireRequest? && events[i].status != MemberFailed && events[i].now
        == now
  }

  ghost predicate FailedBy(events: seq<Event>, reason: string) {
    exists i :: 0 <= i < |events| && events[i].RetireRequest? && events[i].status
        == MemberFailed && events[i].reason == reason
  }

  /** Every time and text in the record was read or given by one of the events. */
  ghost predicate Sourced(cfg: BatchConfig, events: seq<Event>, b: BatchId, batch: Batch) {
    && batch.batchId == b && OpenedBy(events, b, batch.model, batch.createdAt)
    && batch.windowEnd == batch.createdAt + cfg.windowMs
    && (forall i :: 0 <= i < |batch.members| ==>
          && batch.members[i].model == batch.model
          && PlacedBy(events, batch.members[i].requestId, batch.model, batch.members[i].addedAt))
    && (batch.activatedAt.Some? ==> ActivatedBy(events, batch.model, batch.activatedAt.value))
    && (batch.completedAt.Some? ==> CompletedBy(events, batch.completedAt.value))
    && (batch.failureReason.Some? ==> FailedBy(events, batch.failureReason.value))
  }

  lemma MoreEvents(cfg: BatchConfig, events: seq<Event>, e: Event, b: BatchId, batch: Batch)
    requires Sourced(cfg, events, b, batch)
    ensures Sourced(cfg, events + [e], b, batch)
  {
    var all := events + [e];
    assert forall i :: 0 <= i < |events| ==> all[i] == events[i];
  }

  lemma GainIsSourced(cfg: BatchConfig, events: seq<Event>, e: Event, b: BatchId, before: Batch, after: Batch)
    requires e.PlaceItem? && before.model == e.item.request.model && Gains(cfg, before, after, e.item, e.now)
    requires Sourced(cfg, events + [e], b, before)
    ensures Sourced(cfg, events + [e], b, after)
  {
    var all, n := events + [e], |before.members|;
    assert all[|events|] == e;
    assert PlacedBy(all, e.item.requestId, before.model, e.now);
    forall i | 0 <= i < |after.members|
      ensures after.members[i].model == after.model
      ensures PlacedBy(all, after.members[i].requestId, after.model, after.members[i].addedAt)
    {
      assert i < n ==> after.members[..n][i] == before.members[i];
    }
  }

  lemma LossIsSourced(cfg: BatchConfig, events: seq<Event>, e: Event, b: BatchId, before: Batch, after: Batch)
    requires e.RetireRequest? && Loses(before, after, e.requestId, e.status, e.reason, e.now)
    requires Sourced(cfg, events + [e], b, before)
    ensures Sourced(cfg, events + [e], b, after)
  {
    assert (events + [e])[|events|] == e;
  }

  lemma StepIsSourced(cfg: BatchConfig, s: EngineState, events: seq<Event>, e: Event, t: EngineState, b: BatchId)
    requires b in t.batches && RecordStep(cfg, s, e, t, b)
    requires b in s.batches ==> Sourced(cfg, events, b, s.batches[b])
    requires e.PlaceItem? && b in s.batches && t.batches[b] != s.batches[b] ==>
      s.batches[b].model == e.item.request.model
    ensures Sourced(cfg, events + [e], b, t.batches[b])
  {
    if b in s.batches {
      MoreEvents(cfg, events, e, b, s.batches[b]);
      if t.batches[b] != s.batches[b] {
        if e.PlaceItem? {
          GainIsSourced(cfg, events, e, b, s.batches[b], t.batches[b]);
        } else {
          LossIsSourced(cfg, events, e, b, s.batches[b], t.batches[b]);
        }
      }
    } else {
      assert (events + [e])[|events|] == e;
      GainIsSourced(cfg, events, e, b,
                    Batch(b, e.item.request.model, Filling, e.now, e.now + cfg.windowMs, None, None, None, []),
                    t.batches[b]);
    }
  }

  lemma PlacementChangesItsModel(cfg: BatchConfig, s: EngineState, e: Event, t: EngineState, b: BatchId)
    requires ValidConfig(cfg) && EngineInv(cfg, s) && Step(cfg, s, e, t) && e.PlaceItem? && b in s.batches
    requires b in t.batches
    requires t.batches[b] != s.batches[b]
    ensures s.batches[b].model == e.item.request.model
    ensures IsLive(s.batches[b].state) && TakesIn(cfg, s.batches[b], e.now)
  {
    var u, outcome := PlacementWrittenOut(cfg, s, e.item, e.now, e.newId);
  }

  lemma RunStepIsSourced(cfg: BatchConfig, states: seq<EngineState>, events: seq<Event>, k: nat, s: EngineState,
                         t: EngineState, b: BatchId)
    requires ValidConfig(cfg) && IsRun(cfg, states, events) && k < |events| && s == states[k] && t == states[k + 1]
    requires b in t.batches && (b in s.batches ==> Sourced(cfg, events[..k], b, s.batches[b]))
    ensures Sourced(cfg, events[..k] + [events[k]], b, t.batches[b])
  {
    ReachableInv(cfg, states, events, k);
    assert StepAt(cfg, states, events, k);
    EventChangesRecord(cfg, s, events[k], t, b);
    if events[k].PlaceItem? && b in s.batches && t.batches[b] != s.batches[b] {
      PlacementChangesItsModel(cfg, s, events[k], t, b);
    }
    StepIsSourced(cfg, s, events[..k], events[k], t, b);
  }

  /**
   In every reachable state each record has its sources: the placement that opened the batch, whose reading begins the
   window; for each member the placement that read its time; and what activated, completed or failed the batch.
   */
  lemma {:induction false} RecordsAreSourced(cfg: BatchConfig, states: seq<EngineState>, events: seq<Event>, k: nat,
                                             s: EngineState, b: BatchId)
    requires ValidConfig(cfg) && IsRun(cfg, states, events) && k < |states| && s == states[k] && b in s.batches
    ensures Sourced(cfg, events[..k], b, s.batches[b])
    decreases k
  {
    if k > 0 {
      if b in states[k - 1].batches {
        RecordsAreSourced(cfg, states, events, k - 1, states[k - 1], b);
      }
      RunStepIsSourced(cfg, states, events, k - 1, states[k - 1], s, b);
      assert events[..k - 1] + [events[k - 1]] == events[..k];
    }
  }

  /**
   While a batch is filling, a new request of its model is placed, where global capacity allows it, exactly up to
   windowMs after the reading of the placement that opened the batch.
   */
  lemma WindowFromOpening(cfg: BatchConfig, states: seq<EngineState>, events: seq<Event>, k: nat, s: EngineState,
                          b: BatchId, item: QueueItem, now: Time, newId: BatchId) returns (i: nat)
    requires ValidConfig(cfg) && IsRun(cfg, states, events) && k < |states| && s == states[k]
    requires b in s.batches && s.batches[b].state == Filling && s.batches[b].model == item.request.model
    requires item.requestId !in s.requestToBatch && |ActiveRequests(s)| < cfg.maxActiveRequests && newId !in s.batches
    ensures i < k && events[i].PlaceItem? && events[i].newId == b && events[i].item.request.model == item.request.model
    ensures Listed(s) && Place(cfg, s, item, now, newId).Success?
    ensures Place(cfg, s, item, now, newId).value.1.Placed? <==> now <= events[i].now + cfg.windowMs
  {
    ReachableInv(cfg, states, events, k);
    RecordsAreSourced(cfg, states, events, k, s, b);
    i := OpeningOf(cfg, events[..k], b, s.batches[b]);
    var t, outcome := PlacementWrittenOut(cfg, s, item, now, newId);
    FillingTakesIn(cfg, s, b, item, now);
  }

  lemma OpeningOf(cfg: BatchConfig, events: seq<Event>, b: BatchId, batch: Batch) returns (i: nat)
    requires Sourced(cfg, events, b, batch)
    ensures i < |events| && events[i].PlaceItem? && events[i].newId == b && events[i].item.request.model == batch.model
    ensures batch.createdAt == events[i].now && batch.windowEnd == events[i].now + cfg.windowMs
  {
    i :| 0 <= i < |events| && events[i].PlaceItem? && events[i].newId == b
      && events[i].item.request.model == batch.model && events[i].now == batch.createdAt;
  }

  /** The filling batch of a model is the only live one, and it has room. */
  lemma FillingTakesIn(cfg: BatchConfig, s: EngineState, b: BatchId, item: QueueItem, now: Time)
    requires EngineInv(cfg, s) && b in s.batches && s.batches[b].state == Filling
    requires s.batches[b].model == item.request.model
    requires item.requestId !in s.requestToBatch && |ActiveRequests(s)| < cfg.maxActiveRequests
    ensures MayJoin(cfg, s, item, now) <==> now <= s.batches[b].windowEnd
  {
    FillingHasRoom(cfg, s, b);
    OnlyLiveBatch(cfg, s, b);
  }

  lemma FillingHasRoom(cfg: BatchConfig, s: EngineState, b: BatchId)
    requires BatchesInv(cfg, s) && b in s.batches && s.batches[b].state == Filling
    ensures |ActivePositions(s.batches[b].members)| < cfg.maxBatchSize
  {
    assert BatchInv(cfg, s.batches[b]);
    ActivePositionsAreCounted(s.batches[b].members);
  }

  lemma OnlyLiveBatch(cfg: BatchConfig, s: EngineState, b: BatchId)
    requires EngineInv(cfg, s) && b in s.batches && IsLive(s.batches[b].state)
    ensures forall c :: c in s.batches && s.batches[c].model == s.batches[b].model && IsLive(s.batches[c].state) ==>
      c == b
  {
    IndexIsSearch(cfg, s, s.batches[b].model);
    assert b in LiveBatches(s, s.batches[b].model);
    forall c | c in s.batches && s.batches[c].model == s.batches[b].model && IsLive(s.batches[c].state) ensures c == b {
      assert c in LiveBatches(s, s.batches[b].model);
    }
  }
}
