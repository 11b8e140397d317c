/**
 The end of a full path in terms of what a caller can look up: the room in the registry and the queue, the selection,
 the engine at the turn of the request, and the adapter's answer for its batch. The path itself finds all of this by
 searching the results of the cycle and of the dispatch.
 */
module RequestPathOutcome {
  import opened Wrappers
  import opened Schemas
  import opened Sorting
  import opened RequestStates
  import opened Registry
  import opened WaitingQueueSpec
  import opened LifecycleSpec
  import opened Fairness
  import opened BatchEngineSpec
  import opened BatchEngineInvariant
  import opened SchedulingCycle
  import opened Delivery
  import opened DispatchService
  import opened DispatchRules
  import opened RequestPathSpec
  import opened RequestPathInvariant
  import opened CycleTurns

  // ---- The result for one batch ----

  /**
   What a dispatch of the pending batches does with batch b: it is sent once, unless it was submitted or is not ready.
   */
  function DispatchOf(cfg: Option<DispatchConfig>, d: DeliveryState, b: BatchId, adapter: Adapter)
    : Option<DispatchResult>
  {
    match cfg
    case None => None
    case Some(dispatch) =>
      if b in d.submitted || b !in d.engine.batches || !Dispatchable(d.engine.batches[b], dispatch.minMembers) then None
      else BatchOutcome(dispatch, d.engine.batches[b], BatchAssignments(d.engine, b), adapter)
  }

  lemma {:induction false} FindAppended(results: seq<DispatchResult>, o: DispatchResult, b: BatchId)
    ensures FindDispatch(results + [o], b)
         == if FindDispatch(results, b).Some? then FindDispatch(results, b)
            else if o.batchId == b then Some(o)
            else None
  {
    if results != [] {
      assert (results + [o])[1..] == results[1..] + [o];
      FindAppended(results[1..], o, b);
    }
  }

  lemma SubmitOneIsLocal(cfg: DispatchConfig, d: DeliveryState, b: BatchId, adapter: Adapter)
    requires forall c :: c in d.engine.batches ==> d.engine.batches[c].batchId == c
    ensures var (outcome, after) := SubmitOne(cfg, d, b, adapter);
      && after.engine == d.engine && (forall c :: c != b ==> (c in after.submitted <==> c in d.submitted))
      && outcome == DispatchOf(Some(cfg), d, b, adapter)
      && (outcome.Some? ==> outcome.value.batchId == b)
  {
    if b in d.engine.batches {
      OutcomeNamesBatch(cfg, d.engine.batches[b], BatchAssignments(d.engine, b), adapter);
    }
  }

  /** The search finds the result of the one attempt for the batch. */
  lemma {:induction false} FindsDispatch(cfg: DispatchConfig, d: DeliveryState, order: seq<BatchId>, adapter: Adapter,
                                         b: BatchId)
    requires forall c :: c in d.engine.batches ==> d.engine.batches[c].batchId == c
    requires Distinct(order)
    ensures var (results, after) := SubmitPending(cfg, d, order, adapter);
      && after.engine == d.engine && (b !in order ==> (b in after.submitted <==> b in d.submitted))
      && FindDispatch(results, b) == if b in order then DispatchOf(Some(cfg), d, b, adapter) else None
  {
    if order != [] {
      var init, last := order[..|order| - 1], order[|order| - 1];
      assert order == init + [last];
      FindsDispatch(cfg, d, init, adapter, b);
      var (results, before) := SubmitPending(cfg, d, init, adapter);
      SubmitOneIsLocal(cfg, before, last, adapter);
      var (outcome, after) := SubmitOne(cfg, before, last, adapter);
      if outcome.Some? {
        FindAppended(results, outcome.value, b);
      }
    }
  }

  // ---- The end of a queued request ----

  function FailedEntry(entry: Entry, reason: FailureReason, message: string): Entry {
    entry.(state := RequestState.Failed, failure := Some((reason, message)))
  }

  /**
   The entry of the request after its turn: `before` is the engine at the turn, `after` the engine it is dispatched
   from.
   */
  ghost function TurnEntry(cfg: PlatformConfig, d: DeliveryState, before: EngineState, after: EngineState, now: Time,
                           newId: BatchId, x: PathInputs): Entry
    requires Listed(before)
  {
    var queued, item := FreshEntry(x.submission, Queued, None), FreshItem(x.submission);
    if !Admissible(cfg.cycle.batch, before, item, now) then
      FailedEntry(queued, AdapterError, RefusalReason(cfg.cycle.batch, before, item, now))
    else
      var b := PlacementTarget(before, item.request.model, newId);
      FinishedEntry(queued, b, DispatchOf(cfg.dispatch, d.(engine := after), b, x.adapter), x.fetched)
  }

  /** There is a selection of this queue to place, and the ids for its new batches. */
  ghost predicate ReadyToCycle(cfg: CycleConfig, s: EngineState, queue: seq<QueueItem>, x: CycleInputs) {
    cfg.Valid() && EngineInv(cfg.batch, s) && FreshIds(s, x.newIds) && |queue| <= |x.newIds|
  }

  lemma TurnsAreListed(cfg: CycleConfig, s: EngineState, counts: Counts, queue: seq<QueueItem>, x: CycleInputs)
    requires ReadyToCycle(cfg, s, queue, x)
    ensures var selected := CycleSelected(cfg, counts, queue, x);
      && |selected| <= |x.newIds|
      && forall n :: 0 <= n <= |selected| ==> Listed(EngineAtTurn(cfg, s, queue, x, selected, n))
  {
    var items, selected := Scanned(queue, cfg.scanLimit), CycleSelected(cfg, counts, queue, x);
    SelectionIsIndexed(cfg, counts, queue, x.candidateClock, selected, CycleSkipped(cfg, counts, queue, x),
                       CountsAfterSelection(cfg.policy, counts, Candidates(items, x.candidateClock), cfg.selectLimit));
    forall n | 0 <= n <= |selected| ensures Listed(EngineAtTurn(cfg, s, queue, x, selected, n)) {
      var t, outcomes := PlaceAllSpec(cfg.batch, s, ItemById(items), selected[..n], x.placeClock, x.newIds);
    }
  }

  /** The entry of the request at position i of the selection. */
  ghost function SelectedEntry(cfg: PlatformConfig, d: DeliveryState, queue: seq<QueueItem>, x: PathInputs,
                               selected: seq<RequestId>, i: nat): Entry
    requires i < |selected| <= |x.cycle.newIds|
    requires Listed(EngineAtTurn(cfg.cycle, d.engine, queue, x.cycle, selected, i))
  {
    TurnEntry(cfg, d, EngineAtTurn(cfg.cycle, d.engine, queue, x.cycle, selected, i),
              EngineAtTurn(cfg.cycle, d.engine, queue, x.cycle, selected, |selected|), x.cycle.placeClock(i),
              x.cycle.newIds[i], x)
  }

  function PositionOf(ids: seq<RequestId>, r: RequestId): (i: nat)
    requires r in ids
    ensures i < |ids| && ids[i] == r
  {
    if ids[0] == r then 0 else PositionOf(ids[1..], r) + 1
  }

  /** The entry of a queued request after the cycle over this queue, the dispatch and the completion. */
  ghost function ScheduledEntry(cfg: PlatformConfig, d: DeliveryState, counts: Counts, queue: seq<QueueItem>,
                                x: PathInputs)
    : Entry
    requires ReadyToCycle(cfg.cycle, d.engine, queue, x.cycle)
  {
    TurnsAreListed(cfg.cycle, d.engine, counts, queue, x.cycle);
    var queued, r := FreshEntry(x.submission, Queued, None), x.submission.requestId;
    var selected := CycleSelected(cfg.cycle, counts, queue, x.cycle);
    if !Contains(Scanned(queue, cfg.cycle.scanLimit), r) then
      FailedEntry(queued, InternalError, "scheduler_did_not_select_request")
    else if r !in selected then queued
    else SelectedEntry(cfg, d, queue, x, selected, PositionOf(selected, r))
  }

  /** What finalization writes, from what its searches have found. */
  lemma FinalizeForm(s: PlatformState, r: RequestId, rejection: Option<PlaceOutcome>, placement: Option<PlaceOutcome>,
                     dispatch: Option<DispatchResult>, skipped: bool, fetched: Fetched, completedAt: Time)
    requires r in s.lifecycle.entries && s.lifecycle.entries[r].state.Queued?
    requires (rejection.Some? ==> rejection.value.Rejected?) && (placement.Some? ==> placement.value.Placed?)
    ensures var (t, error) := FinalizeWith(s, r, rejection, placement, dispatch, skipped, fetched, completedAt);
      var queued := s.lifecycle.entries[r];
      && t.lifecycle == WithEntry(s.lifecycle, r,
                                  if rejection.Some? then FailedEntry(queued, AdapterError, rejection.value.reason)
                                  else if placement.Some? then
                                    FinishedEntry(queued, placement.value.batchId, dispatch, fetched)
                                  else if skipped then queued
                                  else FailedEntry(queued, InternalError, "scheduler_did_not_select_request"))
      && error == (if rejection.None? && placement.Some? && IsAccepted(dispatch) && fetched.Raises?
                   then Some(CompletionRaised) else None)
      && t.counts == s.counts
      && t.delivery == (if rejection.None? && placement.Some? && IsAccepted(dispatch) && fetched.Fetched?
                        then s.delivery.(engine := CompleteMember(s.delivery.engine, r, completedAt)) else s.delivery)
  {
    if rejection.None? && placement.Some? {
      FinishPlacedForm(s, r, placement.value.batchId, dispatch, fetched, completedAt);
    } else if rejection.None? && skipped {
      assert WithEntry(s.lifecycle, r, s.lifecycle.entries[r]) == s.lifecycle;
    }
  }

  /** After a dispatch the search finds the result for a batch as DispatchOf gives it. */
  lemma DispatchFinds(cfg: PlatformConfig, s: PlatformState, adapter: Adapter, b: BatchId)
    requires Shape(s.delivery.engine)
    ensures FindDispatch(DispatchPending(cfg, s, adapter).1, b) == DispatchOf(cfg.dispatch, s.delivery, b, adapter)
    ensures DispatchPending(cfg, s, adapter).0.lifecycle == s.lifecycle
  {
    if cfg.dispatch.Some? {
      FindsDispatch(cfg.dispatch.value, s.delivery, s.delivery.engine.order, adapter, b);
    }
  }

  /** A listed queue, the cycle over it with its outcomes, and the dispatch after it. */
  ghost predicate Scheduled(cfg: PlatformConfig, listed: PlatformState, x: PathInputs, scheduled: PlatformState,
                            result: CycleResult, outcomes: seq<PlaceOutcome>, dispatched: PlatformState,
                            dispatches: seq<DispatchResult>)
  {
    && ReadyToCycle(cfg.cycle, listed.delivery.engine, listed.lifecycle.queue, x.cycle)
    && |result.selected| <= |x.cycle.newIds|
    && CycleParts(cfg.cycle, CycleState(listed.delivery.engine, listed.counts), listed.lifecycle.queue, x.cycle,
                  CycleState(scheduled.delivery.engine, scheduled.counts), result, outcomes)
    && scheduled == listed.(counts := scheduled.counts,
                            delivery := listed.delivery.(engine := scheduled.delivery.engine))
    && Shape(scheduled.delivery.engine)
    && (dispatched, dispatches) == DispatchPending(cfg, scheduled, x.adapter)
  }

  /** What the path relies on of the request it schedules: its entry, and its only item if it is still listed. */
  ghost predicate Waits(listed: PlatformState, x: Submission) {
    && x.requestId in listed.lifecycle.entries
    && listed.lifecycle.entries[x.requestId] == FreshEntry(x, Queued, None)
    && DistinctQueued(listed.lifecycle.queue)
    && forall y :: y in listed.lifecycle.queue && y.requestId == x.requestId ==> y == FreshItem(x)
  }

  /** Only the entry of the request is written, and the path raises where it leaves the request SUBMITTED. */
  ghost predicate EndsWith(outcome: (PlatformState, Option<PathError>), listed: PlatformState, x: PathInputs,
                           entry: Entry)
  {
    && outcome.0.lifecycle == WithEntry(listed.lifecycle, x.submission.requestId, entry)
    && outcome.1 == if entry.state.Submitted? then Some(CompletionRaised) else None
  }

  lemma UnselectedEnds(cfg: PlatformConfig, listed: PlatformState, x: PathInputs, scheduled: PlatformState,
                       result: CycleResult, outcomes: seq<PlaceOutcome>, dispatched: PlatformState,
                       dispatches: seq<DispatchResult>)
    requires Scheduled(cfg, listed, x, scheduled, result, outcomes, dispatched, dispatches)
    requires Waits(listed, x.submission)
    requires x.submission.requestId !in result.selected
    ensures EndsWith(Finalize(dispatched, x.submission.requestId, result, dispatches, x.fetched, x.completedAt),
                     listed, x, ScheduledEntry(cfg, listed.delivery, listed.counts, listed.lifecycle.queue, x))
  {
    var r, queue := x.submission.requestId, listed.lifecycle.queue;
    DispatchFinds(cfg, scheduled, x.adapter, 0);
    SelectionOfDistinct(cfg.cycle, listed.counts, queue, x.cycle);
    UnselectedHasNoOutcome(cfg.cycle, CycleState(listed.delivery.engine, listed.counts), queue, x.cycle,
                           CycleState(scheduled.delivery.engine, scheduled.counts), result, outcomes, r);
    FinalizeForm(dispatched, r, None, None, None, r in result.skipped, x.fetched, x.completedAt);
  }

  /** The item of a scanned request is the one it was queued with. */
  lemma ScannedItem(listed: PlatformState, x: Submission, limit: nat)
    requires Waits(listed, x) && Contains(Scanned(listed.lifecycle.queue, limit), x.requestId)
    ensures x.requestId in ItemById(Scanned(listed.lifecycle.queue, limit))
    ensures ItemById(Scanned(listed.lifecycle.queue, limit))[x.requestId] == FreshItem(x)
  {
    var items := Scanned(listed.lifecycle.queue, limit);
    var i :| 0 <= i < |items| && items[i].requestId == x.requestId;
    assert listed.lifecycle.queue[i] == items[i] && items[i] in listed.lifecycle.queue;
    ItemOfRequest(items, FreshItem(x));
  }

  /** The entry of the request that has turn i. */
  lemma EntryOfTurn(cfg: PlatformConfig, d: DeliveryState, counts: Counts, queue: seq<QueueItem>, x: PathInputs, i: nat,
                    selected: seq<RequestId>, before: EngineState, after: EngineState)
    requires ReadyToCycle(cfg.cycle, d.engine, queue, x.cycle) && DistinctQueued(queue)
    requires selected == CycleSelected(cfg.cycle, counts, queue, x.cycle) && |selected| <= |x.cycle.newIds|
    requires i < |selected| && selected[i] == x.submission.requestId
    requires Contains(Scanned(queue, cfg.cycle.scanLimit), x.submission.requestId)
    requires before == EngineAtTurn(cfg.cycle, d.engine, queue, x.cycle, selected, i) && Listed(before)
    requires after == EngineAtTurn(cfg.cycle, d.engine, queue, x.cycle, selected, |selected|)
    ensures ScheduledEntry(cfg, d, counts, queue, x)
         == TurnEntry(cfg, d, before, after, x.cycle.placeClock(i), x.cycle.newIds[i], x)
  {
    SelectionOfDistinct(cfg.cycle, counts, queue, x.cycle);
    assert PositionOf(selected, x.submission.requestId) == i;
  }

  lemma LastTurnIsAfter(cfg: CycleConfig, s: CycleState, queue: seq<QueueItem>, x: CycleInputs, t: CycleState,
                        result: CycleResult, outcomes: seq<PlaceOutcome>)
    requires cfg.Valid() && |result.selected| <= |x.newIds| && CycleParts(cfg, s, queue, x, t, result, outcomes)
    ensures t.engine == EngineAtTurn(cfg, s.engine, queue, x, result.selected, |result.selected|)
  {
    assert result.selected[..|result.selected|] == result.selected;
  }

  /** Finalization writes the entry of the turn. */
  lemma TurnEnds(cfg: PlatformConfig, listed: PlatformState, x: PathInputs, scheduled: PlatformState,
                 result: CycleResult, dispatched: PlatformState, dispatches: seq<DispatchResult>, before: EngineState,
                 now: Time, newId: BatchId)
    requires Waits(listed, x.submission) && Listed(before) && Shape(scheduled.delivery.engine)
    requires scheduled == listed.(counts := scheduled.counts,
                                  delivery := listed.delivery.(engine := scheduled.delivery.engine))
    requires (dispatched, dispatches) == DispatchPending(cfg, scheduled, x.adapter)
    requires var o := TurnOutcome(cfg.cycle.batch, before, FreshItem(x.submission), now, newId);
      && FindOutcome(result.placements, x.submission.requestId) == (if o.Placed? then Some(o) else None)
      && FindOutcome(result.rejections, x.submission.requestId) == (if o.Placed? then None else Some(o))
    ensures EndsWith(Finalize(dispatched, x.submission.requestId, result, dispatches, x.fetched, x.completedAt),
                     listed, x, TurnEntry(cfg, listed.delivery, before, scheduled.delivery.engine, now, newId, x))
  {
    var r, o := x.submission.requestId, TurnOutcome(cfg.cycle.batch, before, FreshItem(x.submission), now, newId);
    if o.Placed? {
      DispatchFinds(cfg, scheduled, x.adapter, o.batchId);
      FinalizeForm(dispatched, r, None, Some(o), FindDispatch(dispatches, o.batchId), r in result.skipped, x.fetched,
                   x.completedAt);
    } else {
      DispatchFinds(cfg, scheduled, x.adapter, 0);
      FinalizeForm(dispatched, r, Some(o), None, None, r in result.skipped, x.fetched, x.completedAt);
    }
  }

  lemma SelectedEnds(cfg: PlatformConfig, listed: PlatformState, x: PathInputs, scheduled: PlatformState,
                     result: CycleResult, outcomes: seq<PlaceOutcome>, dispatched: PlatformState,
                     dispatches: seq<DispatchResult>, i: nat)
    requires Scheduled(cfg, listed, x, scheduled, result, outcomes, dispatched, dispatches)
    requires Waits(listed, x.submission)
    requires i < |result.selected| && result.selected[i] == x.submission.requestId
    ensures EndsWith(Finalize(dispatched, x.submission.requestId, result, dispatches, x.fetched, x.completedAt),
                     listed, x, ScheduledEntry(cfg, listed.delivery, listed.counts, listed.lifecycle.queue, x))
  {
    var queue := listed.lifecycle.queue;
    var start := CycleState(listed.delivery.engine, listed.counts);
    var end := CycleState(scheduled.delivery.engine, scheduled.counts);
    var before := SelectedHasItsTurn(cfg.cycle, start, queue, x.cycle, end, result, outcomes, i);
    SelectedIsScanned(cfg, listed, x, result.selected, i);
    ScannedItem(listed, x.submission, cfg.cycle.scanLimit);
    LastTurnIsAfter(cfg.cycle, start, queue, x.cycle, end, result, outcomes);
    EntryOfTurn(cfg, listed.delivery, listed.counts, queue, x, i, result.selected, before, end.engine);
    TurnEnds(cfg, listed, x, scheduled, result, dispatched, dispatches, before, x.cycle.placeClock(i),
             x.cycle.newIds[i]);
  }

  lemma SelectedIsScanned(cfg: PlatformConfig, listed: PlatformState, x: PathInputs, selected: seq<RequestId>, i: nat)
    requires cfg.cycle.Valid() && selected == CycleSelected(cfg.cycle, listed.counts, listed.lifecycle.queue, x.cycle)
    requires i < |selected|
    ensures Contains(Scanned(listed.lifecycle.queue, cfg.cycle.scanLimit), selected[i])
  {
    SelectedAreScanned(PolicyKey(cfg.cycle.policy, listed.counts), Scanned(listed.lifecycle.queue, cfg.cycle.scanLimit),
                       x.cycle.candidateClock, cfg.cycle.selectLimit);
  }

  /** The scheduling half of the path leaves the entry that ScheduledEntry gives. */
  lemma ScheduledExact(cfg: PlatformConfig, s: PlatformState, x: PathInputs, listed: PlatformState)
    returns (t: PlatformState, error: Option<PathError>)
    requires PlatformInv(cfg, s) && ValidPlatform(cfg) && IdsSupplied(cfg, s, x.cycle)
    requires listed == ListQueue(cfg, s, x.listAt) && Waits(listed, x.submission)
    ensures Supplied(cfg, listed, x.cycle)
    ensures (t, error) == ScheduleAndFinalize(cfg, s, x)
    ensures ReadyToCycle(cfg.cycle, listed.delivery.engine, listed.lifecycle.queue, x.cycle)
    ensures EndsWith((t, error), listed, x,
                     ScheduledEntry(cfg, listed.delivery, listed.counts, listed.lifecycle.queue, x))
  {
    QueueIsSupplied(cfg, s, x.listAt, x.cycle);
    ListingKeepsInv(cfg, s, x.listAt);
    var scheduled, result := ScheduleKeepsInv(cfg, listed, x.cycle);
    var after, same, outcomes := CycleHasParts(cfg.cycle, CycleState(listed.delivery.engine, listed.counts),
                                               listed.lifecycle.queue, x.cycle);
    var (dispatched, dispatches) := DispatchPending(cfg, scheduled, x.adapter);
    var end := Finalize(dispatched, x.submission.requestId, result, dispatches, x.fetched, x.completedAt);
    t, error := end.0, end.1;
    assert Scheduled(cfg, listed, x, scheduled, result, outcomes, dispatched, dispatches);
    if i :| 0 <= i < |result.selected| && result.selected[i] == x.submission.requestId {
      SelectedEnds(cfg, listed, x, scheduled, result, outcomes, dispatched, dispatches, i);
    } else {
      UnselectedEnds(cfg, listed, x, scheduled, result, outcomes, dispatched, dispatches);
    }
  }

  // ---- The end of a full path ----

  /** The queue the scheduler lists for a submission that was queued: what has not expired, with the new item last. */
  function PathQueue(cfg: PlatformConfig, s: PlatformState, x: PathInputs): seq<QueueItem> {
    Remaining(cfg.lifecycle.queue, QueueBefore(cfg.lifecycle, s.lifecycle, x.submission) + [FreshItem(x.submission)],
              x.listAt)
  }

  ghost predicate FreshPath(cfg: PlatformConfig, s: PlatformState, x: PathInputs) {
    && PlatformInv(cfg, s) && ValidPlatform(cfg) && IdsSupplied(cfg, s, x.cycle)
    && x.submission.requestId !in s.lifecycle.entries
  }

  lemma PathQueueFits(cfg: PlatformConfig, s: PlatformState, x: PathInputs)
    requires FreshPath(cfg, s, x) && QueueingEntry(cfg.lifecycle, s.lifecycle, x.submission).state.Queued?
    ensures ReadyToCycle(cfg.cycle, s.delivery.engine, PathQueue(cfg, s, x), x.cycle)
  {
    FilterMembers(Not(Overdue(cfg.lifecycle.queue, x.listAt)),
                  QueueBefore(cfg.lifecycle, s.lifecycle, x.submission) + [FreshItem(x.submission)]);
  }

  /** The entry that a full path leaves behind; None where the registry has no room for it. */
  ghost function PathEntry(cfg: PlatformConfig, s: PlatformState, x: PathInputs): Option<Entry>
    requires FreshPath(cfg, s, x)
  {
    var queued := QueueingEntry(cfg.lifecycle, s.lifecycle, x.submission);
    if |s.lifecycle.entries| >= cfg.lifecycle.maxEntries then None
    else if queued.state.Queued? then
      PathQueueFits(cfg, s, x);
      Some(ScheduledEntry(cfg, s.delivery, s.counts, PathQueue(cfg, s, x), x))
    else Some(queued)
  }

  /** The registry, the queue and the error after a full path: beside the timeouts only the new entry is written. */
  ghost predicate PathExact(cfg: PlatformConfig, s: PlatformState, x: PathInputs, entry: Option<Entry>,
                            t: PlatformState, error: Option<PathError>)
  {
    var base := ProcessTimeouts(cfg.lifecycle, s.lifecycle, x.submission.timeoutsAt);
    match entry
    case None => t.lifecycle == base && error == Some(LifecycleRaised(NotFound(x.submission.requestId)))
    case Some(e) =>
      && t.lifecycle.entries == base.entries[x.submission.requestId := e]
      && t.lifecycle.queue
         == (if QueueingEntry(cfg.lifecycle, s.lifecycle, x.submission).state.Queued? then PathQueue(cfg, s, x)
                               else QueueingQueue(cfg.lifecycle, s.lifecycle, x.submission))
      && error == (if e.state.Submitted? then Some(CompletionRaised) else None)
  }

  // ---- When a path completes its request ----

  /**
   The new item is scanned exactly if it is still listed and the queue is within the scan limit, since it comes last.
   */
  lemma ScannedExactly(cfg: PlatformConfig, s: PlatformState, x: PathInputs)
    requires QueueInv(cfg.lifecycle, s.lifecycle) && x.submission.requestId !in s.lifecycle.entries
    ensures Contains(Scanned(PathQueue(cfg, s, x), cfg.cycle.scanLimit), x.submission.requestId)
       <==> x.listAt - x.submission.queuedAt <= cfg.lifecycle.queue.timeoutMs
            && |PathQueue(cfg, s, x)| <= cfg.cycle.scanLimit
  {
    var before, item := QueueBefore(cfg.lifecycle, s.lifecycle, x.submission), FreshItem(x.submission);
    var queue, kept := PathQueue(cfg, s, x), Remaining(cfg.lifecycle.queue, before, x.listAt);
    FilterAppend(Not(Overdue(cfg.lifecycle.queue, x.listAt)), before, item);
    KeptAreRegistered(cfg, s, x);
    assert queue == kept + (if x.listAt - item.enqueuedAt > cfg.lifecycle.queue.timeoutMs then [] else [item]);
    var items := Scanned(queue, cfg.cycle.scanLimit);
    forall k | 0 <= k < |kept| ensures kept[k].requestId != item.requestId {
      assert kept[k] in kept;
    }
    forall i | 0 <= i < |items| && items[i].requestId == item.requestId ensures i == |queue| - 1 == |kept| {
      assert queue[i] == items[i];
    }
    assert x.listAt - item.enqueuedAt <= cfg.lifecycle.queue.timeoutMs ==> queue[|queue| - 1] == item;
    assert x.listAt - item.enqueuedAt <= cfg.lifecycle.queue.timeoutMs && |queue| <= cfg.cycle.scanLimit ==>
             items[|queue| - 1].requestId == item.requestId;
  }

  lemma KeptAreRegistered(cfg: PlatformConfig, s: PlatformState, x: PathInputs)
    requires QueueInv(cfg.lifecycle, s.lifecycle)
    ensures forall y :: y in Remaining(cfg.lifecycle.queue, QueueBefore(cfg.lifecycle, s.lifecycle, x.submission),
                                       x.listAt) ==>
      y.requestId in s.lifecycle.entries
  {
    var base := Remaining(cfg.lifecycle.queue, s.lifecycle.queue, x.submission.timeoutsAt);
    FilterMembers(Not(Overdue(cfg.lifecycle.queue, x.submission.timeoutsAt)), s.lifecycle.queue);
    FilterMembers(Not(Overdue(cfg.lifecycle.queue, x.submission.expireAt)), base);
    FilterMembers(Not(Overdue(cfg.lifecycle.queue, x.listAt)), QueueBefore(cfg.lifecycle, s.lifecycle, x.submission));
  }

  /** The request has turn i, is admissible in it, its batch is sent and accepted, and the completion is fetched. */
  ghost predicate CompletesInTurn(cfg: PlatformConfig, s: PlatformState, x: PathInputs, selected: seq<RequestId>,
                                  i: nat)
    requires |selected| <= |x.cycle.newIds|
  {
    && i < |selected| && selected[i] == x.submission.requestId
    && var queue, item := PathQueue(cfg, s, x), FreshItem(x.submission);
       var before := EngineAtTurn(cfg.cycle, s.delivery.engine, queue, x.cycle, selected, i);
       var after := EngineAtTurn(cfg.cycle, s.delivery.engine, queue, x.cycle, selected, |selected|);
       && Listed(before) && Admissible(cfg.cycle.batch, before, item, x.cycle.placeClock(i))
       && IsAccepted(DispatchOf(cfg.dispatch, s.delivery.(engine := after),
                                PlacementTarget(before, item.request.model, x.cycle.newIds[i]), x.adapter))
       && x.fetched.Fetched?
  }

  /**
   There is room in the registry and in the queue, admission accepts, the item is listed within the scan limit, and the
   request completes in its turn.
   */
  ghost predicate Completes(cfg: PlatformConfig, s: PlatformState, x: PathInputs)
    requires FreshPath(cfg, s, x)
  {
    && |s.lifecycle.entries| < cfg.lifecycle.maxEntries && x.submission.verdict.Accept?
    && |QueueBefore(cfg.lifecycle, s.lifecycle, x.submission)| < cfg.lifecycle.queue.maxSize
    && x.listAt - x.submission.queuedAt <= cfg.lifecycle.queue.timeoutMs
    && |PathQueue(cfg, s, x)| <= cfg.cycle.scanLimit
    && var selected := CycleSelected(cfg.cycle, s.counts, PathQueue(cfg, s, x), x.cycle);
       |selected| <= |x.cycle.newIds| && exists i :: CompletesInTurn(cfg, s, x, selected, i)
  }

  lemma TurnCompletes(cfg: PlatformConfig, s: PlatformState, x: PathInputs, selected: seq<RequestId>, i: nat)
    requires i < |selected| <= |x.cycle.newIds| && selected[i] == x.submission.requestId
    requires Listed(EngineAtTurn(cfg.cycle, s.delivery.engine, PathQueue(cfg, s, x), x.cycle, selected, i))
    ensures SelectedEntry(cfg, s.delivery, PathQueue(cfg, s, x), x, selected, i).state == RequestState.Completed
       <==> CompletesInTurn(cfg, s, x, selected, i)
  {
  }

  lemma TurnIsPosition(cfg: PlatformConfig, s: PlatformState, x: PathInputs, selected: seq<RequestId>)
    requires |selected| <= |x.cycle.newIds| && DistinctIdList(selected)
    ensures (exists i :: CompletesInTurn(cfg, s, x, selected, i))
       <==> x.submission.requestId in selected
            && CompletesInTurn(cfg, s, x, selected, PositionOf(selected, x.submission.requestId))
  {
    forall i: nat | CompletesInTurn(cfg, s, x, selected, i)
      ensures x.submission.requestId in selected && i == PositionOf(selected, x.submission.requestId)
    {
    }
  }

  lemma ScheduledCompletes(cfg: PlatformConfig, s: PlatformState, x: PathInputs, selected: seq<RequestId>, entry: Entry)
    requires FreshPath(cfg, s, x) && ReadyToCycle(cfg.cycle, s.delivery.engine, PathQueue(cfg, s, x), x.cycle)
    requires selected == CycleSelected(cfg.cycle, s.counts, PathQueue(cfg, s, x), x.cycle)
    requires |selected| <= |x.cycle.newIds|
    requires Contains(Scanned(PathQueue(cfg, s, x), cfg.cycle.scanLimit), x.submission.requestId)
    requires entry == ScheduledEntry(cfg, s.delivery, s.counts, PathQueue(cfg, s, x), x)
    ensures entry.state == RequestState.Completed
       <==> x.submission.requestId in selected
            && CompletesInTurn(cfg, s, x, selected, PositionOf(selected, x.submission.requestId))
  {
    TurnsAreListed(cfg.cycle, s.delivery.engine, s.counts, PathQueue(cfg, s, x), x.cycle);
    if x.submission.requestId in selected {
      TurnCompletes(cfg, s, x, selected, PositionOf(selected, x.submission.requestId));
    }
  }

  /** The path leaves its request COMPLETED exactly under these conditions. */
  lemma CompletedExactly(cfg: PlatformConfig, s: PlatformState, x: PathInputs, entry: Option<Entry>)
    requires FreshPath(cfg, s, x) && entry == PathEntry(cfg, s, x)
    ensures entry.Some? && entry.value.state == RequestState.Completed <==> Completes(cfg, s, x)
  {
    if |s.lifecycle.entries| < cfg.lifecycle.maxEntries
      && QueueingEntry(cfg.lifecycle, s.lifecycle, x.submission).state.Queued?
    {
      PathQueueFits(cfg, s, x);
      ScannedExactly(cfg, s, x);
      PathQueueDistinct(cfg, s, x);
      TurnsAreListed(cfg.cycle, s.delivery.engine, s.counts, PathQueue(cfg, s, x), x.cycle);
      if Contains(Scanned(PathQueue(cfg, s, x), cfg.cycle.scanLimit), x.submission.requestId) {
        var selected := CycleSelected(cfg.cycle, s.counts, PathQueue(cfg, s, x), x.cycle);
        ScheduledCompletes(cfg, s, x, selected, entry.value);
        SelectionOfDistinct(cfg.cycle, s.counts, PathQueue(cfg, s, x), x.cycle);
        TurnIsPosition(cfg, s, x, selected);
      }
    }
  }

  lemma PathQueueDistinct(cfg: PlatformConfig, s: PlatformState, x: PathInputs)
    requires FreshPath(cfg, s, x)
    ensures DistinctQueued(PathQueue(cfg, s, x))
  {
    var before := QueueBefore(cfg.lifecycle, s.lifecycle, x.submission);
    var base := Remaining(cfg.lifecycle.queue, s.lifecycle.queue, x.submission.timeoutsAt);
    FilterMembers(Not(Overdue(cfg.lifecycle.queue, x.submission.timeoutsAt)), s.lifecycle.queue);
    FilterMembers(Not(Overdue(cfg.lifecycle.queue, x.submission.expireAt)), base);
    FilterDistinct(Not(Overdue(cfg.lifecycle.queue, x.submission.timeoutsAt)), s.lifecycle.queue);
    FilterDistinct(Not(Overdue(cfg.lifecycle.queue, x.submission.expireAt)), base);
    forall i | 0 <= i < |before| ensures before[i].requestId != x.submission.requestId {
      assert before[i] in before;
    }
    FilterDistinct(Not(Overdue(cfg.lifecycle.queue, x.listAt)), before + [FreshItem(x.submission)]);
  }

  // ---- What else a path leaves ----

  lemma FinalizeKeepsCounts(s: PlatformState, r: RequestId, result: CycleResult, dispatches: seq<DispatchResult>,
                            fetched: Fetched, completedAt: Time)
    ensures Finalize(s, r, result, dispatches, fetched, completedAt).0.counts == s.counts
  {
  }

  /** The fairness policy has counted the selection of the one cycle in the path. */
  lemma PathCounts(cfg: PlatformConfig, s: PlatformState, x: PathInputs, listed: PlatformState)
    requires PlatformInv(cfg, s) && ValidPlatform(cfg) && IdsSupplied(cfg, s, x.cycle)
    requires listed == ListQueue(cfg, s, x.listAt)
    ensures Supplied(cfg, listed, x.cycle)
    ensures ScheduleAndFinalize(cfg, s, x).0.counts
         == CycleCountsAfter(cfg.cycle, s.counts, listed.lifecycle.queue, x.cycle)
  {
    QueueIsSupplied(cfg, s, x.listAt, x.cycle);
    var (scheduled, result) := Schedule(cfg, listed, x.cycle);
    var after, same, outcomes := CycleHasParts(cfg.cycle, CycleState(listed.delivery.engine, listed.counts),
                                               listed.lifecycle.queue, x.cycle);
    var (dispatched, dispatches) := DispatchPending(cfg, scheduled, x.adapter);
    FinalizeKeepsCounts(dispatched, x.submission.requestId, result, dispatches, x.fetched, x.completedAt);
  }

  /** The dispatch of a path is one pass over all batches in the order in which they were opened. */
  lemma PathDispatch(cfg: PlatformConfig, s: PlatformState, adapter: Adapter)
    requires PlatformInv(cfg, s)
    ensures var (t, results) := DispatchPending(cfg, s, adapter);
      match cfg.dispatch
      case None => t == s && results == []
      case Some(dispatch) =>
        t == s.(delivery := t.delivery)
        && PassResults(dispatch, s.delivery, s.delivery.engine.order, adapter, results, t.delivery)
  {
    if cfg.dispatch.Some? {
      var results, after := PassAttemptsReady(cfg.dispatch.value, cfg.cycle.batch, s.delivery, s.delivery.engine.order,
                                              adapter);
    }
  }
}
