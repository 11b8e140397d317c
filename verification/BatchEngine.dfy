/**
 The engine with its mutable dictionaries and records; every method is proved equal to its operation on EngineState.
 */
module BatchEngine {
  import opened Wrappers
  import opened Schemas
  import opened BatchModels
  import opened BatchEngineSpec
  import opened BatchEngineInvariant
  import opened BatchRecords

  /** The members of one batch, in insertion order. */
  class ActiveRequestSet {
    var members: seq<BatchMember>

    constructor ()
      ensures members == []
    {
      members := [];
    }

    method AddRequest(member: BatchMember) returns (r: Result<(), EngineError>)
      modifies this
      ensures member.requestId in old(MemberIds(members)) ==>
                r == Failure(DuplicateMember(member.requestId)) && members == old(members)
      ensures member.requestId !in old(MemberIds(members)) ==> r == Success(()) && members == old(members) + [member]
    {
      if IndexOf(members, member.requestId).Some? {
        return Failure(DuplicateMember(member.requestId));
      }
      members := members + [member];
      return Success(());
    }

    method SetStatus(r: RequestId, status: MemberStatus) returns (found: bool)
      modifies this
      ensures match BatchEngineSpec.SetStatus(old(members), r, status)
              case Some(ms) => found && members == ms
              case None => !found && members == old(members)
    {
      match IndexOf(members, r)
      case None => return false;
      case Some(i) =>
        members := members[i := members[i].(status := status)];
        return true;
    }

    method ListActive() returns (active: seq<BatchMember>)
      ensures active == ActiveMembers(members)
      ensures |active| == ActiveCount(members)
    {
      active := [];
      for i := 0 to |members|
        invariant active == ActiveMembers(members[..i])
        invariant |active| == ActiveCount(members[..i])
      {
        assert members[..i + 1][..i] == members[..i];
        if members[i].status == MemberActive {
          active := active + [members[i]];
        }
      }
      assert members[..|members|] == members;
    }
  }

  class BatchRecord {
    const batchId: BatchId
    const model: string
    const createdAt: Time
    const windowEnd: Time
    var state: BatchState
    var activatedAt: Option<Time>
    var completedAt: Option<Time>
    var failureReason: Option<string>
    var members: seq<BatchMember>

    constructor (batchId: BatchId, model: string, createdAt: Time, windowEnd: Time)
      ensures Value() == Batch(batchId, model, Created, createdAt, windowEnd, None, None, None, [])
      ensures this.batchId == batchId && this.model == model
    {
      this.batchId, this.model, this.createdAt, this.windowEnd := batchId, model, createdAt, windowEnd;
      state, activatedAt, completedAt, failureReason, members := Created, None, None, None, [];
    }

    function Value(): Batch
      reads this
    {
      Batch(batchId, model, state, createdAt, windowEnd, activatedAt, completedAt, failureReason, members)
    }
  }

  class ContinuousBatchEngine {
    const config: BatchConfig
    var batches: map<BatchId, BatchRecord>
    var order: seq<BatchId>
    var sets: map<BatchId, ActiveRequestSet>
    var requestToBatch: map<RequestId, BatchId>
    var activeByModel: map<string, BatchId>
    var assignments: map<RequestId, Assignment>

    ghost function BatchValues(): map<BatchId, Batch>
      reads this, batches.Values
    {
      map b | b in batches :: batches[b].Value()
    }

    ghost function MemberValues(): map<BatchId, seq<BatchMember>>
      reads this, sets.Values
    {
      map b | b in sets :: sets[b].members
    }

    ghost function State(): EngineState
      reads this, batches.Values, sets.Values
    {
      EngineState(BatchValues(), order, MemberValues(), requestToBatch, activeByModel, assignments)
    }

    /** Every id has its own record and its own member set. */
    ghost predicate Separate()
      reads this, batches.Values, sets.Values
    {
      && (forall b :: b in batches <==> b in sets)
      && (forall b :: b in batches ==> batches[b].batchId == b)
      && (forall b, c :: b in sets && c in sets && b != c ==> sets[b] != sets[c])
    }

    ghost predicate Valid()
      reads this, batches.Values, sets.Values
    {
      ValidConfig(config) && Separate() && EngineInv(config, State())
    }

    /** Old entries keep their objects; the objects of new entries are new. */
    twostate predicate Grown()
      reads this, batches.Values, sets.Values
    {
      && (forall b :: b in old(batches) ==> b in batches && batches[b] == old(batches)[b])
      && (forall b :: b in old(sets) ==> b in sets && sets[b] == old(sets)[b])
      && (forall b :: b in batches && b !in old(batches) ==> fresh(batches[b]))
      && (forall b :: b in sets && b !in old(sets) ==> fresh(sets[b]))
    }

    /** Growth in terms of the objects themselves. */
    twostate lemma GrownObjects()
      requires Grown()
      ensures forall o :: o in batches.Values ==> o in old(batches.Values) || fresh(o)
      ensures forall o :: o in sets.Values ==> o in old(sets.Values) || fresh(o)
    {
    }

    constructor (config: BatchConfig)
      requires ValidConfig(config)
      ensures Valid() && State() == EMPTY_ENGINE && this.config == config
      ensures batches == map[] && sets == map[]
    {
      this.config := config;
      batches, order, sets := map[], [], map[];
      requestToBatch, activeByModel, assignments := map[], map[], map[];
      new;
      assert State() == EMPTY_ENGINE;
    }

    /** The record stands for the batch, and is the one registered under its id. */
    ghost predicate Denotes(found: Option<BatchRecord>, batch: Option<Batch>)
      reads this, batches.Values
    {
      && found.Some? == batch.Some?
      && (found.Some? ==> found.value.batchId in batches && batches[found.value.batchId] == found.value)
      && (found.Some? ==> found.value.Value() == batch.value)
    }

    method ActiveFullBatch(model: string) returns (found: Option<BatchRecord>)
      requires Separate() && Listed(State())
      ensures Denotes(found, BatchEngineSpec.ActiveFullBatch(config, State(), model))
    {
      found := None;
      if model in activeByModel && activeByModel[model] in batches {
        var batch := batches[activeByModel[model]];
        if batch.state.Active? && ActiveCount(batch.members) >= config.maxBatchSize {
          found := Some(batch);
        }
      }
    }

    method FindAdmittableBatch(model: string, now: Time) returns (found: Option<BatchRecord>)
      requires Separate() && Listed(State())
      ensures Denotes(found, FindAdmittable(config, State(), model, now))
    {
      if model in activeByModel && activeByModel[model] in batches {
        var batch := batches[activeByModel[model]];
        if !Terminal(batch.state) && ActiveCount(batch.members) < config.maxBatchSize {
          return Some(batch);
        }
      }
      for i := 0 to |order|
        invariant ScanFilling(config, State(), order, model, now)
             == ScanFilling(config, State(), order[i..], model, now)
      {
        assert order[i] in order;
        var batch := batches[order[i]];
        if batch.model == model {
          if batch.state.Filling? {
            if ActiveCount(batch.members) < config.maxBatchSize {
              if now <= batch.windowEnd {
                return Some(batch);
              }
            }
          }
        }
      }
      return None;
    }

    method GlobalActiveCount() returns (count: nat)
      requires Separate() && Listed(State())
      ensures count == BatchEngineSpec.GlobalActiveCount(State())
    {
      count := 0;
      for i := 0 to |order|
        invariant count == SumStatus(order[..i], State().sets, MemberActive)
      {
        assert order[i] in order && order[..i + 1][..i] == order[..i];
        var active := sets[order[i]].ListActive();
        count := count + |active|;
      }
      assert order[..|order|] == order;
    }

    method NextSlotIndex(batch: BatchRecord) returns (index: nat)
      ensures index == NextSlot(batch.members)
      ensures index !in UsedSlots(batch.members)
      ensures forall i: nat :: i < index ==> i in UsedSlots(batch.members)
    {
      ghost var used := UsedSlots(batch.members);
      var taken := set m | m in batch.members && m.status.MemberActive? :: m.slotIndex;
      index := 0;
      while index in taken
        invariant taken == used
        invariant FreeSlotFrom(used, index) == FreeSlotFrom(used, 0)
        invariant forall i: nat :: i < index ==> i in used
        decreases |set u | u in used && u >= index|
      {
        assert (set u | u in used && u >= index) == (set u | u in used && u >= index + 1) + {index};
        index := index + 1;
      }
    }

    /** The abstract state is as it was when no object of the engine was written. */
    twostate lemma Untouched()
      requires unchanged(this)
      requires forall b :: b in batches ==> unchanged(batches[b])
      requires forall b :: b in sets ==> unchanged(sets[b])
      ensures State() == old(State())
    {
      assert BatchValues() == old(BatchValues());
      assert MemberValues() == old(MemberValues());
    }

    /** The abstract dictionaries after only the two entries of one batch have changed. */
    twostate lemma OneBatchChanged(b: BatchId)
      requires batches == old(batches) && sets == old(sets) && b in batches && b in sets
      requires forall x :: x in batches && x != b ==> batches[x].Value() == old(batches[x].Value())
      requires forall x :: x in sets && x != b ==> sets[x].members == old(sets[x].members)
      ensures BatchValues() == old(BatchValues())[b := batches[b].Value()]
      ensures MemberValues() == old(MemberValues())[b := sets[b].members]
    {
    }

    /** The abstract dictionaries after a new batch has been entered. */
    twostate lemma OneBatchAdded(b: BatchId, new record: BatchRecord, new members: ActiveRequestSet)
      requires batches == old(batches)[b := record] && sets == old(sets)[b := members]
      requires forall x :: x in old(batches) ==> old(batches)[x].Value() == old(batches[x].Value())
      requires forall x :: x in old(sets) ==> old(sets)[x].members == old(sets[x].members)
      ensures BatchValues() == old(BatchValues())[b := record.Value()]
      ensures MemberValues() == old(MemberValues())[b := members.members]
    {
    }

    method CreateBatch(model: string, now: Time, newId: BatchId) returns (batch: BatchRecord)
      requires Separate() && newId !in batches
      modifies this
      ensures Separate() && fresh(batch)
      ensures newId in sets && fresh(sets[newId])
      ensures batches == old(batches)[newId := batch] && sets == old(sets)[newId := sets[newId]]
      ensures State() == OpenedState(config, old(State()), model, now, newId)
      ensures batch.Value() == Batch(newId, model, Filling, now, now + config.windowMs, None, None, None, [])
    {
      batch := new BatchRecord(newId, model, now, now + config.windowMs);
      var members := new ActiveRequestSet();
      RegisterBatch(batch, members);
      var filling := Transition(batch.state, Filling);
      batch.state := filling.value;
      activeByModel := activeByModel[model := newId];
      assert batch.Value() == NewBatch(config, model, now, newId).(state := Filling);
      assert BatchValues() == old(BatchValues())[newId := batch.Value()]
          && MemberValues() == old(MemberValues())[newId := []] by {
        OneBatchAdded(newId, batch, members);
      }
    }

    /** Enters a new batch and its empty member set in the dictionaries. */
    method RegisterBatch(batch: BatchRecord, members: ActiveRequestSet)
      requires Separate() && batch.batchId !in batches
      requires batch !in batches.Values && members !in sets.Values
      modifies this`batches, this`sets, this`order
      ensures Separate()
      ensures batches == old(batches)[batch.batchId := batch] && sets == old(sets)[batch.batchId := members]
      ensures order == old(order) + [batch.batchId]
    {
      batches := batches[batch.batchId := batch];
      order := order + [batch.batchId];
      sets := sets[batch.batchId := members];
    }

    method ActivateBatch(batch: BatchRecord, now: Time)
      requires batch.state.Ready?
      modifies batch, this`activeByModel
      ensures batch.Value() == old(batch.Value()).(state := Active, activatedAt := Some(now))
      ensures activeByModel == old(activeByModel)[batch.model := batch.batchId]
    {
      var active := Transition(batch.state, Active);
      batch.state := active.value;
      batch.activatedAt := Some(now);
      activeByModel := activeByModel[batch.model := batch.batchId];
    }

    method AdvanceBatchAfterAdmission(batch: BatchRecord, now: Time)
      modifies batch, this`activeByModel
      ensures Advance(config, old(batch.Value()), now) == Success(batch.Value())
      ensures activeByModel == if batch.state == old(batch.state) then old(activeByModel)
                               else old(activeByModel)[batch.model := batch.batchId]
    {
      if batch.state.Filling? {
        if ActiveCount(batch.members) >= config.maxBatchSize {
          var ready := Transition(batch.state, Ready);
          batch.state := ready.value;
          ActivateBatch(batch, now);
        } else if now >= batch.windowEnd {
          var ready := Transition(batch.state, Ready);
          batch.state := ready.value;
          ActivateBatch(batch, now);
        }
      } else if batch.state.Ready? {
        ActivateBatch(batch, now);
      }
    }

    /** Adds a new member to a batch and its member set and advances the batch. */
    method JoinRecord(batch: BatchRecord, requestSet: ActiveRequestSet, item: QueueItem, now: Time) returns (slot: nat)
      requires batch.state.Filling? || batch.state.Active?
      requires requestSet.members == batch.members && item.requestId !in MemberIds(batch.members)
      requires batch.model in activeByModel && activeByModel[batch.model] == batch.batchId
      modifies batch, requestSet, this`activeByModel
      ensures batch.Value() == JoinedBatch(config, old(batch.Value()), item, now)
      ensures requestSet.members == batch.members
      ensures activeByModel == old(activeByModel)
      ensures slot == NextSlot(old(batch.members))
    {
      slot := NextSlotIndex(batch);
      var member := BatchMember(item.requestId, slot, item.request.model, now, MemberActive);
      var added := requestSet.AddRequest(member);
      assert added.Success?;
      batch.members := requestSet.members;
      AdvanceForm(config, old(batch.Value()), item, now);
      AdvanceBatchAfterAdmission(batch, now);
      assert activeByModel == old(activeByModel);
    }

    lemma OthersAreSeparate(b: BatchId)
      requires Separate() && b in batches
      ensures forall x :: x in batches && x != b ==> batches[x] != batches[b]
      ensures forall x :: x in sets && x != b ==> sets[x] != sets[b]
    {
    }

    /** Lets the item join the batch and stores its assignment. */
    method AddMember(batch: BatchRecord, item: QueueItem, now: Time) returns (assignment: Assignment)
      requires Separate() && batch.batchId in batches && batches[batch.batchId] == batch
      requires sets[batch.batchId].members == batch.members && (batch.state.Filling? || batch.state.Active?)
      requires item.requestId !in MemberIds(batch.members)
      requires batch.model in activeByModel && activeByModel[batch.model] == batch.batchId
      modifies this`requestToBatch, this`activeByModel, this`assignments, batch, sets[batch.batchId]
      ensures Separate()
      ensures batches == old(batches) && sets == old(sets)
      ensures State() == JoinedState(config, old(State()), batch.batchId, item, now)
      ensures assignment == NewAssignment(old(batch.Value()), item)
    {
      ghost var before := batch.Value();
      OthersAreSeparate(batch.batchId);
      var slot := JoinRecord(batch, sets[batch.batchId], item, now);
      requestToBatch := requestToBatch[item.requestId := batch.batchId];
      assignment := Assignment(item.requestId, slot, item.request);
      assignments := assignments[item.requestId := assignment];
      assert BatchValues() == old(BatchValues())[batch.batchId := batch.Value()]
          && MemberValues() == old(MemberValues())[batch.batchId := batch.members] by {
        OneBatchChanged(batch.batchId);
      }
      assert before == old(State()).batches[batch.batchId];
    }

    /** The accepting half of a placement: open a batch if none was found, then add the member. */
    method AdmitItem(found: Option<BatchRecord>, item: QueueItem, now: Time, newId: BatchId, reason: string)
      returns (outcome: PlaceOutcome)
      requires Separate() && newId !in batches && ReadyToJoin(config, State(), item, now, newId)
      requires found.Some? <==> item.request.model in activeByModel
      requires found.Some? ==> found.value.batchId in batches && batches[found.value.batchId] == found.value
                               && found.value.batchId == activeByModel[item.request.model]
      requires reason == if found.Some? then "batch_has_capacity" else "new_batch"
      modifies this, batches.Values, sets.Values
      ensures Separate()
      ensures State() == PlacedState(config, old(State()), item, now, newId)
      ensures outcome == PlacedOutcome(config, old(State()), item, now, newId)
      ensures Grown()
    {
      var batch: BatchRecord;
      if found.Some? {
        batch := found.value;
      } else {
        batch := CreateBatch(item.request.model, now, newId);
      }
      assert Grown();
      var assignment := AddMember(batch, item, now);
      outcome := Placed(item.requestId, batch.batchId, assignment, reason);
    }

    /** The checks of a placement; `found` is the record behind the batch the verdict names. */
    method CheckItem(item: QueueItem, now: Time) returns (verdict: Verdict, found: Option<BatchRecord>)
      requires Separate() && Listed(State())
      ensures verdict == CheckPlacement(config, State(), item, now)
      ensures verdict.Proceed? ==> Denotes(found, verdict.found)
    {
      ghost var s := State();
      found := None;
      if item.requestId in requestToBatch {
        return Refuse(Rejected(item.requestId, "request_already_batched", None)), None;
      }
      found := FindAdmittableBatch(item.request.model, now);
      var candidate := if found.Some? then Some(found.value.Value()) else None;
      Untouched();
      assert candidate == FindAdmittable(config, s, item.request.model, now);
      if found.None? {
        var full := ActiveFullBatch(item.request.model);
        Untouched();
        if full.Some? {
          return Refuse(Rejected(item.requestId, "batch_full_no_slots", Some(full.value.batchId))), None;
        }
      }
      var count := GlobalActiveCount();
      Untouched();
      match EvaluateAdmission(candidate, count, config, now)
      case Reject(reason) => verdict := Refuse(Rejected(item.requestId, reason, IdOf(candidate)));
      case Accept(reason) => verdict := Proceed(candidate, reason);
    }

    method PlaceSelectedLocked(item: QueueItem, now: Time, newId: BatchId) returns (outcome: PlaceOutcome)
      requires Separate() && Listed(State()) && newId !in batches
      requires AcceptanceForm(config, State(), item, now, newId)
      modifies this, batches.Values, sets.Values
      ensures Separate() && Grown()
      ensures Place(config, old(State()), item, now, newId) == Success((State(), outcome))
    {
      var verdict, found := CheckItem(item, now);
      match verdict
      case Refuse(refusal) => outcome := refusal;
      case Proceed(_, reason) => outcome := AdmitItem(found, item, now, newId, reason);
    }

    method PlaceSelected(item: QueueItem, now: Time, newId: BatchId) returns (outcome: PlaceOutcome)
      requires Valid() && newId !in batches
      modifies this, batches.Values, sets.Values
      ensures Valid() && Grown()
      ensures Place(config, old(State()), item, now, newId) == Success((State(), outcome))
      ensures PlacementIs(config, old(State()), item, now, newId, State(), outcome)
    {
      ghost var t, expected := PlacementWrittenOut(config, State(), item, now, newId);
      PlaceKeepsInv(config, State(), item, now, newId);
      AcceptanceFormHolds(config, State(), item, now, newId);
      outcome := PlaceSelectedLocked(item, now, newId);
    }

    /** A terminal batch is left alone; from any other state that does not allow COMPLETED the transition raises. */
    method CompleteBatch(batch: BatchRecord, now: Time) returns (raised: Option<EngineError>)
      modifies batch, this`activeByModel
      ensures Terminal(old(batch.state)) || !CanTransition(old(batch.state), Completed) ==>
                batch.Value() == old(batch.Value()) && activeByModel == old(activeByModel)
      ensures !Terminal(old(batch.state)) && CanTransition(old(batch.state), Completed) ==>
                && batch.Value() == old(batch.Value()).(state := Completed, completedAt := Some(now))
                && activeByModel == old(activeByModel) - {batch.model}
      ensures raised == if Terminal(old(batch.state)) || CanTransition(old(batch.state), Completed) then None
                        else Some(InvalidBatchTransition(old(batch.state), Completed))
    {
      if Terminal(batch.state) {
        return None;
      }
      var completed := Transition(batch.state, Completed);
      if completed.Failure? {
        return Some(completed.error);
      }
      batch.state := completed.value;
      batch.completedAt := Some(now);
      activeByModel := activeByModel - {batch.model};
      return None;
    }

    /** Likewise for FAILED. */
    method FailBatch(batch: BatchRecord, reason: string) returns (raised: Option<EngineError>)
      modifies batch, this`activeByModel
      ensures Terminal(old(batch.state)) || !CanTransition(old(batch.state), Failed) ==>
                batch.Value() == old(batch.Value()) && activeByModel == old(activeByModel)
      ensures !Terminal(old(batch.state)) && CanTransition(old(batch.state), Failed) ==>
                && batch.Value() == old(batch.Value()).(state := Failed, failureReason := Some(reason))
                && activeByModel == old(activeByModel) - {batch.model}
      ensures raised == if Terminal(old(batch.state)) || CanTransition(old(batch.state), Failed) then None
                        else Some(InvalidBatchTransition(old(batch.state), Failed))
    {
      if Terminal(batch.state) {
        return None;
      }
      var failed := Transition(batch.state, Failed);
      if failed.Failure? {
        return Some(failed.error);
      }
      batch.state := failed.value;
      batch.failureReason := Some(reason);
      activeByModel := activeByModel - {batch.model};
      return None;
    }

    /** Gives member i its new status and closes the batch where that is due. */
    method RetireMember(batch: BatchRecord, requestSet: ActiveRequestSet, r: RequestId, status: MemberStatus,
                        reason: string, now: Time)
      requires requestSet.members == batch.members && r in MemberIds(batch.members)
      requires batch.state in {Filling, Active, Completed, Failed}
      modifies batch, requestSet, this`activeByModel
      ensures batch.Value()
           == RetiredBatch(old(batch.Value()), IndexOf(old(batch.members), r).value, status, reason, now)
      ensures requestSet.members == batch.members
      ensures activeByModel == if batch.state == old(batch.state) then old(activeByModel)
                               else old(activeByModel) - {batch.model}
    {
      var found := requestSet.SetStatus(r, status);
      assert found;
      batch.members := requestSet.members;
      if status == MemberFailed {
        var raised := FailBatch(batch, reason);
        return;
      }
      var active := requestSet.ListActive();
      if |active| == 0 && batch.state == Active {
        var raised := CompleteBatch(batch, now);
      }
    }

    /** Retires request r, which batch b holds. */
    method RetireFrom(b: BatchId, r: RequestId, status: MemberStatus, reason: string, now: Time)
      returns (outcome: RetireOutcome)
      requires Separate() && b in batches && b in sets
      requires sets[b].members == batches[b].members && r in MemberIds(batches[b].members)
      requires batches[b].state in {Filling, Active, Completed, Failed}
      modifies this`activeByModel, batches[b], sets[b]
      ensures Separate() && batches == old(batches) && sets == old(sets)
      ensures IndexOf(old(batches[b].members), r).Some? && BatchEntry(old(State()), b)
      ensures State() == RetiredState(old(State()), b, IndexOf(old(batches[b].members), r).value, status, reason, now)
      ensures outcome == Retired(Some(b), r, true, reason, Some(old(batches[b].state)), Some(batches[b].state))
    {
      var batch, requestSet := batches[b], sets[b];
      var previous := batch.state;
      ghost var before := batch.Value();
      OthersAreSeparate(b);
      RetireMember(batch, requestSet, r, status, reason, now);
      assert BatchValues() == old(BatchValues())[b := batch.Value()]
          && MemberValues() == old(MemberValues())[b := batch.members] by {
        OneBatchChanged(b);
      }
      assert before == old(State()).batches[b];
      outcome := Retired(Some(b), r, true, reason, Some(previous), Some(batch.state));
    }

    method RetireRequest(r: RequestId, status: MemberStatus, reason: string, now: Time) returns (outcome: RetireOutcome)
      requires Valid()
      modifies this`activeByModel, batches.Values, sets.Values
      ensures Separate() && batches == old(batches) && sets == old(sets)
      ensures !status.MemberActive? ==> Valid()
      ensures Retire(old(State()), r, status, reason, now) == Success((State(), outcome))
      ensures RetiredAs(old(State()), r, status, reason, now, State(), outcome)
    {
      ghost var t, expected := RetirementWrittenOut(config, State(), r, status, reason, now);
      RetireIsExact(config, State(), r, status, reason, now);
      if r !in requestToBatch {
        return Retired(None, r, false, "request_not_in_batch", None, None);
      }
      var b := requestToBatch[r];
      assert BatchInv(config, State().batches[b]);
      outcome := RetireFrom(b, r, status, reason, now);
    }

    method CompleteRequest(r: RequestId, now: Time) returns (outcome: RetireOutcome)
      requires Valid()
      modifies this`activeByModel, batches.Values, sets.Values
      ensures Valid() && batches == old(batches) && sets == old(sets)
      ensures Retire(old(State()), r, MemberCompleted, "request_completed", now) == Success((State(), outcome))
    {
      outcome := RetireRequest(r, MemberCompleted, "request_completed", now);
    }

    method ReplaceRequest(r: RequestId, item: QueueItem, retiredAt: Time, placedAt: Time, newId: BatchId)
      returns (outcome: Option<PlaceOutcome>)
      requires Valid() && newId !in batches
      modifies this, batches.Values, sets.Values
      ensures Valid() && Grown()
      ensures Replace(config, old(State()), r, item, retiredAt, placedAt, newId) == Success((State(), outcome))
    {
      var retired := CompleteRequest(r, retiredAt);
      if !retired.success {
        return None;
      }
      ReplaceForm(config, old(State()), r, item, retiredAt, placedAt, newId, State(), retired);
      var placed := PlaceSelected(item, placedAt, newId);
      outcome := Some(placed);
    }

    method GetBatchAssignments(b: BatchId) returns (result: seq<Assignment>)
      ensures result == BatchAssignments(State(), b)
    {
      result := [];
      if b !in batches {
        return;
      }
      var ms := batches[b].members;
      for i := 0 to |ms|
        invariant result == AssignmentsOf(ms[..i], assignments)
      {
        assert ms[..i + 1][..i] == ms[..i];
        if ms[i].status == MemberActive {
          if ms[i].requestId in assignments {
            result := result + [assignments[ms[i].requestId]];
          }
        }
      }
      assert ms[..|ms|] == ms;
    }

    /** Counts batches and members; the four member totals account for every request ever placed. */
    method GetBatchStatistics() returns (stats: BatchStatistics)
      requires Valid()
      ensures StatisticsOf(State(), stats) && StatisticsAre(State(), stats)
      ensures stats.totalBatches == |batches| && stats.activeBatches == |activeByModel|
      ensures stats.totalActive <= config.maxActiveRequests
      ensures stats.totalActive + stats.totalCompleted + stats.totalFailed + stats.totalCancelled == |requestToBatch|
    {
      MembersAgree();
      ghost var s := State();
      Totals(s);
      stats := CountMembers(s);
      StatisticsWrittenOut(config, s, stats);
      Untouched();
    }

    lemma Totals(s: EngineState)
      requires Valid() && s == State()
      ensures |s.order| == |batches| && StateCount(s.order, s.batches, true) == |activeByModel|
      ensures SumStatus(s.order, s.sets, MemberActive) <= config.maxActiveRequests
      ensures SumStatus(s.order, s.sets, MemberActive) + SumStatus(s.order, s.sets, MemberCompleted)
              + SumStatus(s.order, s.sets, MemberFailed) + SumStatus(s.order, s.sets, MemberCancelled)
           == |requestToBatch|
    {
      StatisticsAddUp(config, s);
      assert BatchValues().Keys == batches.Keys;
    }

    lemma MembersAgree()
      requires Valid()
      ensures forall b :: b in batches ==> sets[b].members == batches[b].members
    {
      forall b | b in batches ensures sets[b].members == batches[b].members {
        assert State().batches[b].members == State().sets[b];
      }
    }

    method CountMembers(ghost s: EngineState) returns (stats: BatchStatistics)
      requires s == State() && Separate() && Listed(s)
      requires (forall b :: b in batches ==> sets[b].members == batches[b].members)
      ensures StatisticsOf(s, stats)
    {
      var activeBatches, fillingBatches := CountStates(s);
      var active, completed, failed, cancelled := CountStatuses(s);
      stats := BatchStatistics(|order|, activeBatches, fillingBatches, active, completed, failed, cancelled);
    }

    method CountStates(ghost s: EngineState) returns (live: nat, filling: nat)
      requires s == State() && Listed(s)
      ensures live == StateCount(s.order, s.batches, true) && filling == StateCount(s.order, s.batches, false)
    {
      live, filling := 0, 0;
      for i := 0 to |order|
        invariant live == StateCount(s.order[..i], s.batches, true)
        invariant filling == StateCount(s.order[..i], s.batches, false)
      {
        assert order[i] in order && order[..i + 1][..i] == order[..i];
        var batch := batches[order[i]];
        assert s.batches[order[i]] == batch.Value();
        if batch.state.Filling? || batch.state.Active? {
          live := live + 1;
        }
        if batch.state.Filling? {
          filling := filling + 1;
        }
      }
      assert order[..|order|] == order;
    }

    method CountStatuses(ghost s: EngineState) returns (active: nat, completed: nat, failed: nat, cancelled: nat)
      requires s == State() && Separate() && Listed(s)
      requires (forall b :: b in batches ==> sets[b].members == batches[b].members)
      ensures active == SumStatus(s.order, s.sets, MemberActive)
      ensures completed == SumStatus(s.order, s.sets, MemberCompleted)
      ensures failed == SumStatus(s.order, s.sets, MemberFailed)
      ensures cancelled == SumStatus(s.order, s.sets, MemberCancelled)
    {
      active, completed, failed, cancelled := 0, 0, 0, 0;
      for i := 0 to |order|
        invariant active == SumStatus(s.order[..i], s.sets, MemberActive)
        invariant completed == SumStatus(s.order[..i], s.sets, MemberCompleted)
        invariant failed == SumStatus(s.order[..i], s.sets, MemberFailed)
        invariant cancelled == SumStatus(s.order[..i], s.sets, MemberCancelled)
      {
        assert order[i] in order && order[..i + 1][..i] == order[..i];
        assert s.sets[order[i]] == batches[order[i]].members;
        var a, c, f, x := CountOne(batches[order[i]].members);
        active, completed, failed, cancelled := active + a, completed + c, failed + f, cancelled + x;
      }
      assert order[..|order|] == order;
    }

    /** The inner loop of the statistics: one counter for each status. */
    static method CountOne(ms: seq<BatchMember>) returns (active: nat, completed: nat, failed: nat, cancelled: nat)
      ensures active == CountStatus(ms, MemberActive) && completed == CountStatus(ms, MemberCompleted)
      ensures failed == CountStatus(ms, MemberFailed) && cancelled == CountStatus(ms, MemberCancelled)
    {
      active, completed, failed, cancelled := 0, 0, 0, 0;
      for i := 0 to |ms|
        invariant active == CountStatus(ms[..i], MemberActive) && completed == CountStatus(ms[..i], MemberCompleted)
        invariant failed == CountStatus(ms[..i], MemberFailed) && cancelled == CountStatus(ms[..i], MemberCancelled)
      {
        assert ms[..i + 1][..i] == ms[..i];
        match ms[i].status
        case MemberActive => active := active + 1;
        case MemberCompleted => completed := completed + 1;
        case MemberFailed => failed := failed + 1;
        case MemberCancelled => cancelled := cancelled + 1;
      }
      assert ms[..|ms|] == ms;
    }
  }
}
