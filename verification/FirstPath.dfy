/** The first full path of a platform, from the empty state: how it ends, and that it can complete its request. */
module FirstPath {
  import opened Wrappers
  import opened Schemas
  import opened RequestStates
  import opened Registry
  import opened WaitingQueueSpec
  import opened LifecycleSpec
  import opened Fairness
  import opened BatchModels
  import opened BatchEngineSpec
  import opened BatchEngineInvariant
  import opened SchedulingCycle
  import opened Delivery
  import opened DispatchService
  import opened RequestPathSpec
  import opened RequestPathInvariant
  import opened CycleTurns
  import opened RequestPathOutcome
  import opened PlatformRuns

  /** There is room for the first request, admission accepts it, and its item is listed in time. */
  ghost predicate RoomForFirst(cfg: PlatformConfig, x: PathInputs) {
    && ValidPlatform(cfg) && cfg.lifecycle.maxEntries >= 1 && cfg.cycle.scanLimit >= 1 && cfg.cycle.selectLimit >= 1
    && cfg.lifecycle.queue.maxSize <= |x.cycle.newIds| && FreshIds(EMPTY_ENGINE, x.cycle.newIds)
    && x.submission.verdict.Accept? && x.listAt - x.submission.queuedAt <= cfg.lifecycle.queue.timeoutMs
  }

  /** Moreover the default backend accepts its batch, and the completion is fetched. */
  ghost predicate NothingInTheWay(cfg: PlatformConfig, x: PathInputs) {
    && RoomForFirst(cfg, x) && cfg.dispatch.Some? && cfg.dispatch.value.router.None?
    && (cfg.dispatch.value.minMembers.Some? ==> cfg.dispatch.value.minMembers.value <= 1)
    && Accepts(x.adapter, x.cycle.newIds[0], cfg.dispatch.value.defaultBackend)
    && x.fetched.Fetched?
  }

  /** Nothing is dispatched, or the only backend does not accept the batch. */
  ghost predicate NobodyAccepts(cfg: PlatformConfig, x: PathInputs) {
    && RoomForFirst(cfg, x)
    && (cfg.dispatch.Some? ==>
          && cfg.dispatch.value.router.None?
          && !Accepts(x.adapter, x.cycle.newIds[0], cfg.dispatch.value.defaultBackend))
  }

  /** There is such a platform, of the least size, and there are such inputs. */
  lemma NothingNeedBeInTheWay() returns (cfg: PlatformConfig, x: PathInputs)
    ensures NothingInTheWay(cfg, x)
  {
    cfg := PlatformConfig(LifecycleConfig(1, QueueConfig(1, 1)), CycleConfig(BatchConfig(1, 1, 1), Fifo, 1, 1),
                          Some(DispatchConfig("backend", None, None)));
    x := PathInputs(Submission(0, InferenceRequest("model", 0, 0, None), 0, LifecycleSpec.Verdict.Accept, 0, 0, 0), 0,
                    CycleInputs((k: nat) => 0, (k: nat) => 0, [0]), (b, id) => Answered(id, true, "accepted"),
                    Fetched(None), 0);
  }

  lemma FirstQueue(cfg: PlatformConfig, s: PlatformState, x: PathInputs)
    requires RoomForFirst(cfg, x) && Initial(s)
    ensures QueueingEntry(cfg.lifecycle, s.lifecycle, x.submission).state.Queued?
    ensures PathQueue(cfg, s, x) == [FreshItem(x.submission)]
  {
    assert QueueBefore(cfg.lifecycle, s.lifecycle, x.submission) == [];
    assert [] + [FreshItem(x.submission)] == [FreshItem(x.submission)];
    FilterAll(Not(Overdue(cfg.lifecycle.queue, x.listAt)), [FreshItem(x.submission)]);
  }

  lemma FirstSelection(cfg: CycleConfig, counts: Counts, item: QueueItem, x: CycleInputs)
    requires cfg.Valid() && cfg.scanLimit >= 1 && cfg.selectLimit >= 1
    ensures Scanned([item], cfg.scanLimit) == [item]
    ensures CycleSelected(cfg, counts, [item], x) == [item.requestId]
  {
    SelectionLength(PolicyKey(cfg.policy, counts), Candidates([item], x.candidateClock), cfg.selectLimit);
    SelectedAreScanned(PolicyKey(cfg.policy, counts), [item], x.candidateClock, cfg.selectLimit);
    assert Contains([item], CycleSelected(cfg, counts, [item], x)[0]);
  }

  lemma FirstIsAdmissible(cfg: BatchConfig, item: QueueItem, now: Time)
    requires ValidConfig(cfg)
    ensures Listed(EMPTY_ENGINE) && EngineInv(cfg, EMPTY_ENGINE) && Admissible(cfg, EMPTY_ENGINE, item, now)
  {
  }

  /** The first member alone in its batch. */
  lemma FirstBatch(cfg: BatchConfig, item: QueueItem, now: Time, newId: BatchId)
    requires ValidConfig(cfg)
    ensures var empty := NewBatch(cfg, item.request.model, now, newId).(state := Filling);
      var batch := JoinedBatch(cfg, empty, item, now);
      && batch.batchId == newId && (batch.state.Filling? || batch.state.Active?)
      && batch.members == [NewMember(empty, item, now)] && ActiveCount(batch.members) == 1
  {
    var empty := NewBatch(cfg, item.request.model, now, newId).(state := Filling);
    var m := NewMember(empty, item, now);
    assert empty.members + [m] == [m] && [m][..0] == [];
    assert CountStatus([m], MemberActive) == CountStatus([m][..0], MemberActive) + 1;
  }

  lemma FirstAssignments(m: BatchMember, assignments: map<RequestId, Assignment>)
    requires m.status.MemberActive? && m.requestId in assignments
    ensures AssignmentsOf([m], assignments) == [assignments[m.requestId]]
  {
    assert [m][..0] == [];
  }

  /** A batch that can be sent: it is not empty, and its only member has its assignment. */
  ghost predicate Sendable(t: EngineState, b: BatchId) {
    && b in t.batches && t.batches[b].batchId == b
    && (t.batches[b].state.Filling? || t.batches[b].state.Active?)
    && ActiveCount(t.batches[b].members) == 1 && BatchAssignments(t, b) != []
  }

  /** The engine after the first request has been placed: one batch with one active member. */
  lemma FirstPlacement(cfg: BatchConfig, item: QueueItem, now: Time, newId: BatchId) returns (t: EngineState)
    requires ValidConfig(cfg)
    ensures Listed(EMPTY_ENGINE) && Place(cfg, EMPTY_ENGINE, item, now, newId).Success?
    ensures t == Place(cfg, EMPTY_ENGINE, item, now, newId).value.0 && Sendable(t, newId)
  {
    FirstIsAdmissible(cfg, item, now);
    PlacementIsExact(cfg, EMPTY_ENGINE, item, now, newId);
    t := PlacedState(cfg, EMPTY_ENGINE, item, now, newId);
    FirstState(cfg, item, now, newId, t);
  }

  lemma FirstState(cfg: BatchConfig, item: QueueItem, now: Time, newId: BatchId, t: EngineState)
    requires ValidConfig(cfg) && t == PlacedState(cfg, EMPTY_ENGINE, item, now, newId)
    ensures Sendable(t, newId)
  {
    FirstBatch(cfg, item, now, newId);
    var empty := NewBatch(cfg, item.request.model, now, newId).(state := Filling);
    assert t.batches[newId] == JoinedBatch(cfg, empty, item, now);
    FirstAssignments(NewMember(empty, item, now), t.assignments);
  }

  lemma FirstTurns(cfg: CycleConfig, item: QueueItem, x: CycleInputs)
    requires cfg.Valid() && cfg.scanLimit >= 1 && |x.newIds| >= 1
    ensures EngineAtTurn(cfg, EMPTY_ENGINE, [item], x, [item.requestId], 0) == EMPTY_ENGINE
    ensures Listed(EMPTY_ENGINE)
    ensures Place(cfg.batch, EMPTY_ENGINE, item, x.placeClock(0), x.newIds[0]).Success? ==>
      EngineAtTurn(cfg, EMPTY_ENGINE, [item], x, [item.requestId], 1)
      == Place(cfg.batch, EMPTY_ENGINE, item, x.placeClock(0), x.newIds[0]).value.0
  {
    var items, selected := Scanned([item], cfg.scanLimit), [item.requestId];
    assert items == [item];
    ItemOfRequest(items, item);
    assert selected[..0] == [] && selected[..1] == selected;
    assert PlaceAll(cfg.batch, EMPTY_ENGINE, ItemById(items), selected[..0], x.placeClock, x.newIds)
        == Success((EMPTY_ENGINE, []));
  }

  lemma SentAndAccepted(dispatch: DispatchConfig, d: DeliveryState, b: BatchId, adapter: Adapter)
    requires dispatch.router.None? && (dispatch.minMembers.Some? ==> dispatch.minMembers.value <= 1)
    requires Sendable(d.engine, b) && b !in d.submitted && Accepts(adapter, b, dispatch.defaultBackend)
    ensures IsAccepted(DispatchOf(Some(dispatch), d, b, adapter))
  {
  }

  lemma SentAndRefused(dispatch: DispatchConfig, d: DeliveryState, b: BatchId, adapter: Adapter)
    requires dispatch.router.None? && !Accepts(adapter, b, dispatch.defaultBackend)
    requires b in d.engine.batches ==> d.engine.batches[b].batchId == b
    ensures !IsAccepted(DispatchOf(Some(dispatch), d, b, adapter))
  {
  }

  lemma FirstTurnEntry(cfg: PlatformConfig, s: PlatformState, x: PathInputs, after: EngineState)
    requires RoomForFirst(cfg, x) && Listed(EMPTY_ENGINE)
    ensures TurnEntry(cfg, s.delivery, EMPTY_ENGINE, after, x.cycle.placeClock(0), x.cycle.newIds[0], x)
         == FinishedEntry(FreshEntry(x.submission, Queued, None), x.cycle.newIds[0],
                          DispatchOf(cfg.dispatch, s.delivery.(engine := after), x.cycle.newIds[0],
                                     x.adapter), x.fetched)
  {
    FirstIsAdmissible(cfg.cycle.batch, FreshItem(x.submission), x.cycle.placeClock(0));
  }

  /** The entry of the first request: what the dispatch of the first batch makes of it. */
  lemma FirstPathEntry(cfg: PlatformConfig, s: PlatformState, x: PathInputs)
    returns (entry: Option<Entry>, after: EngineState)
    requires RoomForFirst(cfg, x) && Initial(s)
    ensures FreshPath(cfg, s, x) && entry == PathEntry(cfg, s, x) && Sendable(after, x.cycle.newIds[0])
    ensures entry == Some(FinishedEntry(FreshEntry(x.submission, Queued, None), x.cycle.newIds[0],
                                        DispatchOf(cfg.dispatch, s.delivery.(engine := after), x.cycle.newIds[0],
                                                   x.adapter),
                                        x.fetched))
  {
    InitialInv(cfg, s);
    var item, r := FreshItem(x.submission), x.submission.requestId;
    FirstQueue(cfg, s, x);
    PathQueueFits(cfg, s, x);
    FirstSelection(cfg.cycle, s.counts, item, x.cycle);
    FirstTurns(cfg.cycle, item, x.cycle);
    after := FirstPlacement(cfg.cycle.batch, item, x.cycle.placeClock(0), x.cycle.newIds[0]);
    FirstTurnEntry(cfg, s, x, after);
    assert [item][0].requestId == r;
    EntryOfTurn(cfg, s.delivery, s.counts, [item], x, 0, [r], EMPTY_ENGINE, after);
    entry := PathEntry(cfg, s, x);
  }

  /** Where nothing stands in the way, the full path of the first request completes it. */
  lemma FirstPathCompletes(cfg: PlatformConfig, s: PlatformState, x: PathInputs) returns (entry: Option<Entry>)
    requires NothingInTheWay(cfg, x) && Initial(s)
    ensures FreshPath(cfg, s, x) && entry == PathEntry(cfg, s, x)
    ensures entry.Some? && entry.value.state == RequestState.Completed
  {
    var after;
    entry, after := FirstPathEntry(cfg, s, x);
    SentAndAccepted(cfg.dispatch.value, s.delivery.(engine := after), x.cycle.newIds[0], x.adapter);
  }

  /** Where nobody accepts its batch, the full path of the first request fails it, with the batch it is in. */
  lemma FirstPathFails(cfg: PlatformConfig, s: PlatformState, x: PathInputs) returns (entry: Option<Entry>)
    requires NobodyAccepts(cfg, x) && Initial(s)
    ensures FreshPath(cfg, s, x) && entry == PathEntry(cfg, s, x)
    ensures entry.Some? && entry.value.state == RequestState.Failed && entry.value.batchId.Some?
  {
    var after;
    entry, after := FirstPathEntry(cfg, s, x);
    if cfg.dispatch.Some? {
      SentAndRefused(cfg.dispatch.value, s.delivery.(engine := after), x.cycle.newIds[0], x.adapter);
    }
  }
}
