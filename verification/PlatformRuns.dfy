/**
 Runs of the platform: full paths one after another, with background cycles, timeouts and queue operations between them.
 */
module PlatformRuns {
  import opened Wrappers
  import opened Schemas
  import opened RequestStates
  import opened Registry
  import opened WaitingQueueSpec
  import opened LifecycleSpec
  import opened BatchModels
  import opened BatchEngineSpec
  import opened BatchEngineRuns
  import opened SchedulingCycle
  import opened Delivery
  import opened RequestPathSpec
  import opened RequestPathInvariant
  import opened CycleTurns
  import opened RequestPathOutcome
  import opened RequestPathTheorems

  datatype PlatformEvent =
    | RunPath(x: PathInputs)
    | BackgroundCycle(listAt: Time, cycle: CycleInputs)
    | QueueTimeouts(now: Time)
    | ReadQueue(now: Time)
    | TakeHead(now: Time)
    | TakeOut(requestId: RequestId)
    | FailRequest(requestId: RequestId, reason: FailureReason, message: string)

  /** Submitted ids are fresh, and so are the ids for new batches. */
  ghost predicate PermittedEvent(cfg: PlatformConfig, s: PlatformState, e: PlatformEvent) {
    match e
    case RunPath(x) =>
      && x.submission.requestId !in s.lifecycle.entries && IdsSupplied(cfg, s, x.cycle)
      && Supplied(cfg, ListQueue(cfg, AfterQueued(cfg, s, x).0, x.listAt), x.cycle)
    case BackgroundCycle(listAt, x) => IdsSupplied(cfg, s, x) && Supplied(cfg, ListQueue(cfg, s, listAt), x)
    case _ => true
  }

  ghost function PlatformStep(cfg: PlatformConfig, s: PlatformState, e: PlatformEvent): PlatformState
    requires PermittedEvent(cfg, s, e)
  {
    match e
    case RunPath(x) => FullPath(cfg, s, x).0
    case BackgroundCycle(listAt, x) => Schedule(cfg, ListQueue(cfg, s, listAt), x).0
    case QueueTimeouts(now) => s.(lifecycle := ProcessTimeouts(cfg.lifecycle, s.lifecycle, now))
    case ReadQueue(now) => ListQueue(cfg, s, now)
    case TakeHead(now) => s.(lifecycle := s.lifecycle.(queue := Dequeue(cfg.lifecycle.queue, s.lifecycle.queue, now).0))
    case TakeOut(r) => s.(lifecycle := s.lifecycle.(queue := Remove(s.lifecycle.queue, r).0))
    case FailRequest(r, reason, message) => s.(lifecycle := MarkFailed(s.lifecycle, r, reason, message, None, None).0)
  }

  ghost predicate PlatformStepAt(cfg: PlatformConfig, states: seq<PlatformState>, events: seq<PlatformEvent>, i: nat)
    requires |states| == |events| + 1 && i < |events|
  {
    PermittedEvent(cfg, states[i], events[i]) && states[i + 1] == PlatformStep(cfg, states[i], events[i])
  }

  ghost predicate Initial(s: PlatformState) {
    s.lifecycle == LifecycleState(map[], []) && s.delivery == EMPTY_DELIVERY
  }

  ghost predicate IsPlatformRun(cfg: PlatformConfig, states: seq<PlatformState>, events: seq<PlatformEvent>) {
    && |states| == |events| + 1
    && Initial(states[0])
    && forall i :: 0 <= i < |events| ==> PlatformStepAt(cfg, states, events, i)
  }

  // ---- What one step does ----

  /** The reading of the clock at which a step times requests out, if it does. */
  function TimeoutReading(e: PlatformEvent): Option<Time> {
    match e
    case RunPath(x) => Some(x.submission.timeoutsAt)
    case QueueTimeouts(now) => Some(now)
    case _ => None
  }

  ghost predicate TimesOut(cfg: PlatformConfig, s: PlatformState, e: PlatformEvent, r: RequestId) {
    TimeoutReading(e).Some? && Expires(cfg.lifecycle, s.lifecycle, TimeoutReading(e).value, r)
  }

  predicate Fails(e: PlatformEvent, r: RequestId) {
    e.FailRequest? && e.requestId == r
  }

  /** The entry of a registered request after a step. */
  ghost function EntryAfter(cfg: PlatformConfig, s: PlatformState, e: PlatformEvent, r: RequestId): Entry
    requires r in s.lifecycle.entries
  {
    var entry := s.lifecycle.entries[r];
    if Fails(e, r) then FailedEntry(entry, e.reason, e.message)
    else if TimesOut(cfg, s, e, r) then TimeOut(entry)
    else entry
  }

  ghost predicate EntriesExact(cfg: PlatformConfig, s: PlatformState, e: PlatformEvent, t: PlatformState) {
    forall r :: r in s.lifecycle.entries ==>
      r in t.lifecycle.entries && t.lifecycle.entries[r] == EntryAfter(cfg, s, e, r)
  }

  /** Only a full path adds an entry, its own; with a backend id it names a batch that had not been submitted before. */
  ghost predicate NewEntry(s: PlatformState, e: PlatformEvent, r: RequestId, entry: Entry) {
    && e.RunPath? && r == e.x.submission.requestId
    && (entry.backendId.Some? ==> entry.batchId.Some? && entry.batchId.value !in s.delivery.submitted)
    && (entry.state.Submitted? ==> e.x.fetched.Raises?)
    && (entry.batchId.Some? && entry.batchId.value in s.delivery.submitted ==>
          entry.state == RequestState.Failed && entry.failure == Some((AdapterError, "batch_not_dispatched")))
  }

  ghost predicate NewEntries(s: PlatformState, e: PlatformEvent, t: PlatformState) {
    forall r :: r in t.lifecycle.entries && r !in s.lifecycle.entries ==> NewEntry(s, e, r, t.lifecycle.entries[r])
  }

  /** Nothing enters the queue but under a new id. */
  ghost predicate NoReentry(s: LifecycleState, t: LifecycleState) {
    forall y :: y in t.queue ==> y in s.queue || y.requestId !in s.entries
  }

  /** The active members of registered requests stay active. */
  ghost predicate ActiveStay(s: PlatformState, t: PlatformState) {
    forall r :: r in s.lifecycle.entries && HasStatus(s.delivery.engine, r, MemberActive) ==>
      HasStatus(t.delivery.engine, r, MemberActive)
  }

  /** The member of a request that its path placed without completing it is active. */
  ghost predicate NewMembers(s: PlatformState, t: PlatformState) {
    forall r :: r in t.lifecycle.entries && r !in s.lifecycle.entries && t.lifecycle.entries[r].batchId.Some?
                && t.lifecycle.entries[r].state != RequestState.Completed ==>
      HasStatus(t.delivery.engine, r, MemberActive)
  }

  /** What a step writes. */
  ghost predicate StepWrites(cfg: PlatformConfig, s: PlatformState, e: PlatformEvent, t: PlatformState) {
    && EntriesExact(cfg, s, e, t) && NewEntries(s, e, t) && NoReentry(s.lifecycle, t.lifecycle)
    && ActiveStay(s, t) && NewMembers(s, t)
  }

  /** What every step guarantees. */
  ghost predicate StepDone(cfg: PlatformConfig, s: PlatformState, e: PlatformEvent, t: PlatformState) {
    PlatformInv(cfg, t) && KeepsClaims(s.delivery, t.delivery) && StepWrites(cfg, s, e, t)
  }

  // ---- The steps ----

  lemma MembersStayActive(s: PlatformState, t: PlatformState)
    requires Extends(s.delivery.engine, t.delivery.engine) && MembersKept(s.delivery.engine, t.delivery.engine)
    ensures ActiveStay(s, t)
  {
    forall r | HasStatus(s.delivery.engine, r, MemberActive) ensures HasStatus(t.delivery.engine, r, MemberActive) {
      KeptStatus(s.delivery.engine, t.delivery.engine, r, MemberActive);
    }
  }

  /** A step that writes no entry, and the queue at most to take items out. */
  lemma QuietStep(cfg: PlatformConfig, s: PlatformState, e: PlatformEvent, t: PlatformState)
    requires t.lifecycle.entries == s.lifecycle.entries && ActiveStay(s, t)
    requires e.BackgroundCycle? || e.ReadQueue? || e.TakeHead? || e.TakeOut?
    requires forall y :: y in t.lifecycle.queue ==> y in s.lifecycle.queue
    ensures StepWrites(cfg, s, e, t)
  {
  }

  lemma QueueOnlyKeepsInv(cfg: PlatformConfig, s: PlatformState, queue: seq<QueueItem>)
    requires PlatformInv(cfg, s) && |queue| <= |s.lifecycle.queue| && DistinctQueued(queue)
    requires forall x :: x in queue ==> x in s.lifecycle.queue
    ensures PlatformInv(cfg, s.(lifecycle := s.lifecycle.(queue := queue)))
  {
  }

  lemma QueueStep(cfg: PlatformConfig, s: PlatformState, e: PlatformEvent, queue: seq<QueueItem>)
    requires PlatformInv(cfg, s) && (e.ReadQueue? || e.TakeHead? || e.TakeOut?)
    requires |queue| <= |s.lifecycle.queue| && DistinctQueued(queue)
    requires forall x :: x in queue ==> x in s.lifecycle.queue
    ensures StepDone(cfg, s, e, s.(lifecycle := s.lifecycle.(queue := queue)))
  {
    QueueOnlyKeepsInv(cfg, s, queue);
    KeepsItself(s.delivery);
    QuietStep(cfg, s, e, s.(lifecycle := s.lifecycle.(queue := queue)));
  }

  lemma ExpiryTakesOut(cfg: QueueConfig, queue: seq<QueueItem>, now: Time)
    requires DistinctQueued(queue)
    ensures var rest := Remaining(cfg, queue, now);
      |rest| <= |queue| && DistinctQueued(rest) && forall y :: y in rest ==> y in queue
  {
    FilterMembers(Not(Overdue(cfg, now)), queue);
    FilterDistinct(Not(Overdue(cfg, now)), queue);
  }

  lemma CycleStep(cfg: PlatformConfig, s: PlatformState, listAt: Time, x: CycleInputs)
    requires ValidPlatform(cfg) && PlatformInv(cfg, s) && PermittedEvent(cfg, s, BackgroundCycle(listAt, x))
    ensures StepDone(cfg, s, BackgroundCycle(listAt, x), PlatformStep(cfg, s, BackgroundCycle(listAt, x)))
  {
    ListingKeepsInv(cfg, s, listAt);
    ExpiryTakesOut(cfg.lifecycle.queue, s.lifecycle.queue, listAt);
    var t, result := ScheduleKeepsInv(cfg, ListQueue(cfg, s, listAt), x);
    MembersStayActive(s, t);
    QuietStep(cfg, s, BackgroundCycle(listAt, x), t);
  }

  lemma TakeOutStep(cfg: PlatformConfig, s: PlatformState, r: RequestId)
    requires PlatformInv(cfg, s)
    ensures StepDone(cfg, s, TakeOut(r), PlatformStep(cfg, s, TakeOut(r)))
  {
    RemoveIsFilter(s.lifecycle.queue, r);
    FilterMembers(Not(HasId(r)), s.lifecycle.queue);
    FilterDistinct(Not(HasId(r)), s.lifecycle.queue);
    QueueStep(cfg, s, TakeOut(r), Remove(s.lifecycle.queue, r).0);
  }

  lemma TimeoutWrites(cfg: PlatformConfig, s: PlatformState, now: Time, t: PlatformState)
    requires PlatformInv(cfg, s) && t == s.(lifecycle := ProcessTimeouts(cfg.lifecycle, s.lifecycle, now))
    ensures StepWrites(cfg, s, QueueTimeouts(now), t)
  {
    TimeOutAllForm(s.lifecycle.entries, Expired(cfg.lifecycle.queue, s.lifecycle.queue, now));
    ExpiryTakesOut(cfg.lifecycle.queue, s.lifecycle.queue, now);
  }

  lemma TimeoutStep(cfg: PlatformConfig, s: PlatformState, now: Time)
    requires PlatformInv(cfg, s)
    ensures StepDone(cfg, s, QueueTimeouts(now), PlatformStep(cfg, s, QueueTimeouts(now)))
  {
    TimeoutsKeepInv(cfg.lifecycle, s.lifecycle, s.delivery, now);
    KeepsItself(s.delivery);
    TimeoutWrites(cfg, s, now, PlatformStep(cfg, s, QueueTimeouts(now)));
  }

  lemma FailWrites(cfg: PlatformConfig, s: PlatformState, e: PlatformEvent, t: PlatformState)
    requires e.FailRequest? && t == s.(lifecycle := t.lifecycle) && t.lifecycle.queue == s.lifecycle.queue
    requires t.lifecycle == if e.requestId !in s.lifecycle.entries then s.lifecycle
      else WithEntry(s.lifecycle, e.requestId, FailedEntry(s.lifecycle.entries[e.requestId], e.reason, e.message))
    ensures StepWrites(cfg, s, e, t)
  {
  }

  lemma FailStep(cfg: PlatformConfig, s: PlatformState, e: PlatformEvent, t: PlatformState)
    requires PlatformInv(cfg, s) && e.FailRequest?
    requires t == s.(lifecycle := MarkFailed(s.lifecycle, e.requestId, e.reason, e.message, None, None).0)
    ensures StepDone(cfg, s, e, t)
  {
    KeepsItself(s.delivery);
    FailWrites(cfg, s, e, t);
    if e.requestId in s.lifecycle.entries {
      OneEntryKeepsInv(cfg, s, t, e.requestId, FailedEntry(s.lifecycle.entries[e.requestId], e.reason, e.message));
    }
  }

  // ---- The full path as a step ----

  /** A turn gives an entry with a backend id only where the batch was submitted by this very path. */
  lemma TurnEntryIsNew(cfg: PlatformConfig, s: PlatformState, before: EngineState, after: EngineState, now: Time,
                       newId: BatchId, x: PathInputs)
    requires Listed(before)
    ensures NewEntry(s, RunPath(x), x.submission.requestId, TurnEntry(cfg, s.delivery, before, after, now, newId, x))
  {
  }

  lemma ScheduledEntryIsNew(cfg: PlatformConfig, s: PlatformState, queue: seq<QueueItem>, x: PathInputs)
    requires ReadyToCycle(cfg.cycle, s.delivery.engine, queue, x.cycle)
    ensures NewEntry(s, RunPath(x), x.submission.requestId, ScheduledEntry(cfg, s.delivery, s.counts, queue, x))
  {
    TurnsAreListed(cfg.cycle, s.delivery.engine, s.counts, queue, x.cycle);
    var selected := CycleSelected(cfg.cycle, s.counts, queue, x.cycle);
    if Contains(Scanned(queue, cfg.cycle.scanLimit), x.submission.requestId) && x.submission.requestId in selected {
      var i := PositionOf(selected, x.submission.requestId);
      TurnEntryIsNew(cfg, s, EngineAtTurn(cfg.cycle, s.delivery.engine, queue, x.cycle, selected, i),
                     EngineAtTurn(cfg.cycle, s.delivery.engine, queue, x.cycle, selected, |selected|),
                     x.cycle.placeClock(i), x.cycle.newIds[i], x);
    }
  }

  lemma PathEntryIsNew(cfg: PlatformConfig, s: PlatformState, x: PathInputs, entry: Option<Entry>)
    requires FreshPath(cfg, s, x) && entry == PathEntry(cfg, s, x)
    ensures entry.Some? ==> NewEntry(s, RunPath(x), x.submission.requestId, entry.value)
  {
    if QueueingEntry(cfg.lifecycle, s.lifecycle, x.submission).state.Queued? {
      PathQueueFits(cfg, s, x);
      ScheduledEntryIsNew(cfg, s, PathQueue(cfg, s, x), x);
    }
  }

  lemma PathQueueItems(cfg: PlatformConfig, s: PlatformState, x: Submission, now: Time)
    ensures forall y :: y in Remaining(cfg.lifecycle.queue,
                                       QueueBefore(cfg.lifecycle, s.lifecycle, x) + [FreshItem(x)], now) ==>
      y in s.lifecycle.queue || y == FreshItem(x)
    ensures forall y :: y in QueueingQueue(cfg.lifecycle, s.lifecycle, x) ==>
      y in s.lifecycle.queue || y == FreshItem(x)
    ensures forall y :: y in Remaining(cfg.lifecycle.queue, s.lifecycle.queue, x.timeoutsAt) ==> y in s.lifecycle.queue
  {
    var base := Remaining(cfg.lifecycle.queue, s.lifecycle.queue, x.timeoutsAt);
    FilterMembers(Not(Overdue(cfg.lifecycle.queue, x.timeoutsAt)), s.lifecycle.queue);
    FilterMembers(Not(Overdue(cfg.lifecycle.queue, x.expireAt)), base);
    FilterMembers(Not(Overdue(cfg.lifecycle.queue, now)), QueueBefore(cfg.lifecycle, s.lifecycle, x) + [FreshItem(x)]);
  }

  lemma PathWrites(cfg: PlatformConfig, s: PlatformState, x: PathInputs, entry: Option<Entry>, t: PlatformState,
                   error: Option<PathError>)
    requires x.submission.requestId !in s.lifecycle.entries && PathExact(cfg, s, x, entry, t, error)
    requires OthersStayActive(s.delivery.engine, t.delivery.engine, x.submission.requestId)
    requires entry.Some? && entry.value.batchId.Some? && entry.value.state != RequestState.Completed ==>
      HasStatus(t.delivery.engine, x.submission.requestId, MemberActive)
    requires entry.Some? ==> NewEntry(s, RunPath(x), x.submission.requestId, entry.value)
    ensures StepWrites(cfg, s, RunPath(x), t)
  {
    TimeOutAllForm(s.lifecycle.entries, Expired(cfg.lifecycle.queue, s.lifecycle.queue, x.submission.timeoutsAt));
    PathQueueItems(cfg, s, x.submission, x.listAt);
  }

  lemma PathStep(cfg: PlatformConfig, s: PlatformState, x: PathInputs, t: PlatformState)
    requires ValidPlatform(cfg) && PlatformInv(cfg, s) && PermittedEvent(cfg, s, RunPath(x))
    requires t == FullPath(cfg, s, x).0
    ensures StepDone(cfg, s, RunPath(x), t)
  {
    var u, error, entry := FullPathKeepsInv(cfg, s, x);
    PathEntryIsNew(cfg, s, x, entry);
    PathWrites(cfg, s, x, entry, t, error);
  }

  lemma PlatformStepKeepsInv(cfg: PlatformConfig, s: PlatformState, e: PlatformEvent, t: PlatformState)
    requires ValidPlatform(cfg) && PlatformInv(cfg, s) && PermittedEvent(cfg, s, e) && t == PlatformStep(cfg, s, e)
    ensures StepDone(cfg, s, e, t)
  {
    match e
    case RunPath(x) => PathStep(cfg, s, x, t);
    case BackgroundCycle(listAt, x) => CycleStep(cfg, s, listAt, x);
    case QueueTimeouts(now) => TimeoutStep(cfg, s, now);
    case ReadQueue(now) =>
      ExpiryTakesOut(cfg.lifecycle.queue, s.lifecycle.queue, now);
      QueueStep(cfg, s, e, t.lifecycle.queue);
    case TakeHead(now) =>
      ExpiryTakesOut(cfg.lifecycle.queue, s.lifecycle.queue, now);
      QueueStep(cfg, s, e, t.lifecycle.queue);
    case TakeOut(r) => TakeOutStep(cfg, s, r);
    case FailRequest(r, reason, message) => FailStep(cfg, s, e, t);
  }

  // ---- Over a run ----

  lemma InitialInv(cfg: PlatformConfig, s: PlatformState)
    requires ValidPlatform(cfg) && Initial(s)
    ensures PlatformInv(cfg, s)
  {
    EmptyEngineInv(cfg.cycle.batch);
  }

  lemma StepOfRun(cfg: PlatformConfig, states: seq<PlatformState>, events: seq<PlatformEvent>, k: nat, s: PlatformState,
                  t: PlatformState)
    requires ValidPlatform(cfg) && IsPlatformRun(cfg, states, events) && k < |events| && s == states[k]
    requires t == states[k + 1]
    requires PlatformInv(cfg, s)
    ensures StepDone(cfg, s, events[k], t)
  {
    assert PlatformStepAt(cfg, states, events, k);
    PlatformStepKeepsInv(cfg, s, events[k], t);
  }

  /** Every reachable state s has the joint invariant. */
  lemma {:induction false} PlatformRunInv(cfg: PlatformConfig, states: seq<PlatformState>, events: seq<PlatformEvent>,
                                          k: nat, s: PlatformState)
    requires ValidPlatform(cfg) && IsPlatformRun(cfg, states, events) && k < |states| && s == states[k]
    ensures PlatformInv(cfg, s)
    decreases k
  {
    if k == 0 {
      InitialInv(cfg, s);
    } else {
      PlatformRunInv(cfg, states, events, k - 1, states[k - 1]);
      StepOfRun(cfg, states, events, k - 1, states[k - 1], s);
    }
  }

  /** Step k of a run writes what StepWrites says. */
  lemma RunStepDone(cfg: PlatformConfig, states: seq<PlatformState>, events: seq<PlatformEvent>, k: nat,
                    s: PlatformState, t: PlatformState)
    requires ValidPlatform(cfg) && IsPlatformRun(cfg, states, events) && k < |events| && s == states[k]
    requires t == states[k + 1]
    ensures PlatformInv(cfg, s) && StepDone(cfg, s, events[k], t)
  {
    PlatformRunInv(cfg, states, events, k, s);
    StepOfRun(cfg, states, events, k, s, t);
  }

  /** Every entry is in one of the six states in which a request can be between two calls. */
  lemma EveryEntryRests(cfg: PlatformConfig, states: seq<PlatformState>, events: seq<PlatformEvent>, k: nat,
                        s: PlatformState, r: RequestId)
    requires ValidPlatform(cfg) && IsPlatformRun(cfg, states, events) && k < |states| && s == states[k]
    requires r in s.lifecycle.entries
    ensures Resting(s.lifecycle.entries[r].state)
  {
    PlatformRunInv(cfg, states, events, k, s);
    assert EntryInv(s.lifecycle.entries[r], s.delivery, r);
  }

  // ---- Completed requests in the engine and at the adapter ----

  /** A completed request in terms of the engine and of the adapter. */
  ghost predicate CompletedThroughout(d: DeliveryState, entry: Entry, r: RequestId) {
    && r in d.engine.requestToBatch && entry.batchId == Some(d.engine.requestToBatch[r])
    && d.engine.requestToBatch[r] in d.submitted
    && Delivered(d, r)
    && HasStatus(d.engine, r, MemberCompleted)
  }

  lemma DeliveredIsSubmitted(d: DeliveryState, r: RequestId)
    requires AcceptedInv(d) && Delivered(d, r)
    ensures r in d.engine.requestToBatch && d.engine.requestToBatch[r] in d.submitted
  {
    var i: nat, p: nat :| DeliveredAt(d, r, i, p);
    assert d.accepted[i].payload[p] in d.accepted[i].payload && DispatchInv(d.engine, d.accepted[i]);
  }

  lemma CompletedEntry(d: DeliveryState, entry: Entry, r: RequestId)
    requires AcceptedInv(d) && EntryInv(entry, d, r) && entry.state == RequestState.Completed
    ensures CompletedThroughout(d, entry, r)
  {
    DeliveredIsSubmitted(d, r);
  }

  /**
   Cross-component safety: in every reachable state a COMPLETED entry names the batch the engine has the request in,
   the adapter accepted the dispatch of that batch, it contained the request, and the member is completed.
   */
  lemma CompletedEverywhere(cfg: PlatformConfig, states: seq<PlatformState>, events: seq<PlatformEvent>, k: nat,
                            s: PlatformState, r: RequestId)
    requires ValidPlatform(cfg) && IsPlatformRun(cfg, states, events) && k < |states| && s == states[k]
    requires r in s.lifecycle.entries && s.lifecycle.entries[r].state == RequestState.Completed
    ensures CompletedThroughout(s.delivery, s.lifecycle.entries[r], r)
  {
    PlatformRunInv(cfg, states, events, k, s);
    CompletedEntry(s.delivery, s.lifecycle.entries[r], r);
  }

  // ---- One submitted request for each batch ----

  /** No two requests with a backend id are in the same batch. */
  ghost predicate OnePerBatch(entries: Entries) {
    forall q, r :: q in entries && r in entries && q != r
                   && entries[q].backendId.Some? && entries[r].backendId.Some? ==>
      entries[q].batchId != entries[r].batchId
  }

  /** The batch of a request with a backend id has been submitted. */
  ghost predicate BackendsSubmitted(s: PlatformState) {
    forall r :: r in s.lifecycle.entries && s.lifecycle.entries[r].backendId.Some? ==>
      s.lifecycle.entries[r].batchId.Some? && s.lifecycle.entries[r].batchId.value in s.delivery.submitted
  }

  lemma BackendsAreSubmitted(cfg: PlatformConfig, s: PlatformState)
    requires PlatformInv(cfg, s)
    ensures BackendsSubmitted(s)
  {
    forall r | r in s.lifecycle.entries && s.lifecycle.entries[r].backendId.Some?
      ensures s.lifecycle.entries[r].batchId.Some? && s.lifecycle.entries[r].batchId.value in s.delivery.submitted
    {
      assert EntryInv(s.lifecycle.entries[r], s.delivery, r);
      DeliveredIsSubmitted(s.delivery, r);
    }
  }

  /**
   An entry with a backend id after a step: it had the ids before, or it is new and names a batch not submitted before.
   */
  lemma BackendAfterStep(cfg: PlatformConfig, s: PlatformState, e: PlatformEvent, t: PlatformState, r: RequestId)
    requires EntriesExact(cfg, s, e, t) && NewEntries(s, e, t)
    requires r in t.lifecycle.entries && t.lifecycle.entries[r].backendId.Some?
    ensures if r in s.lifecycle.entries
            then s.lifecycle.entries[r].backendId.Some?
                 && s.lifecycle.entries[r].batchId == t.lifecycle.entries[r].batchId
            else e.RunPath? && r == e.x.submission.requestId && t.lifecycle.entries[r].batchId.Some?
                 && t.lifecycle.entries[r].batchId.value !in s.delivery.submitted
  {
  }

  lemma StepKeepsOnePerBatch(cfg: PlatformConfig, s: PlatformState, e: PlatformEvent, t: PlatformState)
    requires BackendsSubmitted(s) && EntriesExact(cfg, s, e, t) && NewEntries(s, e, t)
    requires OnePerBatch(s.lifecycle.entries)
    ensures OnePerBatch(t.lifecycle.entries)
  {
    var after := t.lifecycle.entries;
    forall q, r | q in after && r in after && q != r && after[q].backendId.Some? && after[r].backendId.Some?
      ensures after[q].batchId != after[r].batchId
    {
      BackendAfterStep(cfg, s, e, t, q);
      BackendAfterStep(cfg, s, e, t, r);
    }
  }

  /**
   Whatever its size, at most one request of a batch is ever SUBMITTED or COMPLETED: the one whose path dispatched it.
   */
  lemma {:induction false} OneSubmittedPerBatch(cfg: PlatformConfig, states: seq<PlatformState>,
                                                events: seq<PlatformEvent>, k: nat, s: PlatformState)
    requires ValidPlatform(cfg) && IsPlatformRun(cfg, states, events) && k < |states| && s == states[k]
    ensures OnePerBatch(s.lifecycle.entries)
    decreases k
  {
    if k > 0 {
      OneSubmittedPerBatch(cfg, states, events, k - 1, states[k - 1]);
      RunStepDone(cfg, states, events, k - 1, states[k - 1], s);
      BackendsAreSubmitted(cfg, states[k - 1]);
      StepKeepsOnePerBatch(cfg, states[k - 1], events[k - 1], s);
    }
  }

  /** In particular two different COMPLETED requests never name the same batch. */
  lemma CompletedApart(cfg: PlatformConfig, states: seq<PlatformState>, events: seq<PlatformEvent>, k: nat,
                       s: PlatformState, q: RequestId, r: RequestId)
    requires ValidPlatform(cfg) && IsPlatformRun(cfg, states, events) && k < |states| && s == states[k] && q != r
    requires q in s.lifecycle.entries && s.lifecycle.entries[q].state == RequestState.Completed
    requires r in s.lifecycle.entries && s.lifecycle.entries[r].state == RequestState.Completed
    ensures s.lifecycle.entries[q].batchId != s.lifecycle.entries[r].batchId
  {
    PlatformRunInv(cfg, states, events, k, s);
    OneSubmittedPerBatch(cfg, states, events, k, s);
    assert EntryInv(s.lifecycle.entries[q], s.delivery, q) && EntryInv(s.lifecycle.entries[r], s.delivery, r);
  }

  // ---- What becomes of an entry ----

  /** The entry is as it was, but for a timeout or a failure. */
  ghost predicate OnlyEnds(before: Entry, after: Entry) {
    && after == before.(state := after.state, failure := after.failure)
    && after.state in {before.state, RequestState.TimedOut, RequestState.Failed}
  }

  lemma ExactOnlyEnds(cfg: PlatformConfig, s: PlatformState, e: PlatformEvent, t: PlatformState, r: RequestId)
    requires EntriesExact(cfg, s, e, t) && r in s.lifecycle.entries
    ensures r in t.lifecycle.entries && t.lifecycle.entries[r] == EntryAfter(cfg, s, e, r)
    ensures OnlyEnds(s.lifecycle.entries[r], t.lifecycle.entries[r])
  {
  }

  lemma RunStepOnlyEnds(cfg: PlatformConfig, states: seq<PlatformState>, events: seq<PlatformEvent>, k: nat,
                        s: PlatformState, t: PlatformState, r: RequestId)
    requires ValidPlatform(cfg) && IsPlatformRun(cfg, states, events) && k < |events| && s == states[k]
    requires t == states[k + 1]
    requires r in s.lifecycle.entries
    ensures r in t.lifecycle.entries && t.lifecycle.entries[r] == EntryAfter(cfg, s, events[k], r)
    ensures OnlyEnds(s.lifecycle.entries[r], t.lifecycle.entries[r])
  {
    RunStepDone(cfg, states, events, k, s, t);
    ExactOnlyEnds(cfg, s, events[k], t, r);
  }

  /**
   Once its path is over, a request only ever times out or is failed. In particular one that was skipped stays QUEUED
   until then, although later cycles may place it, and one that was not completed never is.
   */
  lemma {:induction false} LaterOnlyEnds(cfg: PlatformConfig, states: seq<PlatformState>, events: seq<PlatformEvent>,
                                         i: nat, j: nat, r: RequestId)
    requires ValidPlatform(cfg) && IsPlatformRun(cfg, states, events) && i <= j < |states|
    requires r in states[i].lifecycle.entries
    ensures r in states[j].lifecycle.entries && OnlyEnds(states[i].lifecycle.entries[r], states[j].lifecycle.entries[r])
    decreases j
  {
    if i < j {
      LaterOnlyEnds(cfg, states, events, i, j - 1, r);
      RunStepOnlyEnds(cfg, states, events, j - 1, states[j - 1], states[j], r);
    }
  }

  /** A request that its own path did not complete is never completed, although later cycles may place it. */
  lemma NeverCompletedLater(cfg: PlatformConfig, states: seq<PlatformState>, events: seq<PlatformEvent>, i: nat, j: nat,
                            r: RequestId)
    requires ValidPlatform(cfg) && IsPlatformRun(cfg, states, events) && i <= j < |states|
    requires r in states[i].lifecycle.entries && states[i].lifecycle.entries[r].state != RequestState.Completed
    ensures r in states[j].lifecycle.entries && states[j].lifecycle.entries[r].state != RequestState.Completed
  {
    LaterOnlyEnds(cfg, states, events, i, j, r);
  }

  /** Event k is the full path of r, and fetching the completion raised in it. */
  ghost predicate CompletionLost(events: seq<PlatformEvent>, k: nat, r: RequestId) {
    k < |events| && events[k].RunPath? && events[k].x.submission.requestId == r && events[k].x.fetched.Raises?
  }

  lemma SubmittedWrites(cfg: PlatformConfig, s: PlatformState, events: seq<PlatformEvent>, k: nat, t: PlatformState,
                        r: RequestId)
    requires k < |events| && EntriesExact(cfg, s, events[k], t) && NewEntries(s, events[k], t)
    requires r in t.lifecycle.entries && t.lifecycle.entries[r].state.Submitted?
    ensures if r in s.lifecycle.entries then s.lifecycle.entries[r].state.Submitted? else CompletionLost(events, k, r)
  {
  }

  lemma SubmittedStep(cfg: PlatformConfig, states: seq<PlatformState>, events: seq<PlatformEvent>, k: nat,
                      s: PlatformState, t: PlatformState, r: RequestId)
    requires ValidPlatform(cfg) && IsPlatformRun(cfg, states, events) && k < |events| && s == states[k]
    requires t == states[k + 1]
    requires r in t.lifecycle.entries && t.lifecycle.entries[r].state.Submitted?
    ensures if r in s.lifecycle.entries then s.lifecycle.entries[r].state.Submitted? else CompletionLost(events, k, r)
  {
    RunStepDone(cfg, states, events, k, s, t);
    SubmittedWrites(cfg, s, events, k, t, r);
  }

  /** A request is SUBMITTED between two calls only if fetching the completion raised in its path. */
  lemma {:induction false} SubmittedLostCompletion(cfg: PlatformConfig, states: seq<PlatformState>,
                                                   events: seq<PlatformEvent>, j: nat, t: PlatformState,
                                                   r: RequestId) returns (k: nat)
    requires ValidPlatform(cfg) && IsPlatformRun(cfg, states, events) && j < |states| && t == states[j]
    requires r in t.lifecycle.entries && t.lifecycle.entries[r].state.Submitted?
    ensures k < j && CompletionLost(events, k, r)
    decreases j
  {
    assert j > 0;
    SubmittedStep(cfg, states, events, j - 1, states[j - 1], t, r);
    if r in states[j - 1].lifecycle.entries {
      k := SubmittedLostCompletion(cfg, states, events, j - 1, states[j - 1], r);
    } else {
      k := j - 1;
    }
  }

  // ---- How long a request stays COMPLETED ----

  /**
   The entry of r is overwritten: the request is failed, or an item of it expires at a reading that times requests out.
   */
  ghost predicate Overwrites(cfg: PlatformConfig, s: PlatformState, e: PlatformEvent, r: RequestId) {
    Fails(e, r) || TimesOut(cfg, s, e, r)
  }

  lemma CompletedStep(cfg: PlatformConfig, states: seq<PlatformState>, events: seq<PlatformEvent>, k: nat,
                      s: PlatformState, t: PlatformState, r: RequestId)
    requires ValidPlatform(cfg) && IsPlatformRun(cfg, states, events) && k < |events| && s == states[k]
    requires t == states[k + 1]
    requires r in s.lifecycle.entries && s.lifecycle.entries[r].state == RequestState.Completed
    ensures r in t.lifecycle.entries
    ensures t.lifecycle.entries[r].state == (if Fails(events[k], r) then RequestState.Failed
                                             else if TimesOut(cfg, s, events[k], r) then RequestState.TimedOut
                                             else RequestState.Completed)
  {
    RunStepOnlyEnds(cfg, states, events, k, s, t, r);
  }

  ghost predicate NeverOverwritten(cfg: PlatformConfig, states: seq<PlatformState>, events: seq<PlatformEvent>, i: nat,
                                   j: nat, r: RequestId)
    requires |states| == |events| + 1 && j < |states|
  {
    forall k :: i <= k < j ==> !Overwrites(cfg, states[k], events[k], r)
  }

  /** Over a run a COMPLETED request is still COMPLETED exactly if no step in between fails it or times it out. */
  lemma {:induction false} CompletedUntilOverwritten(cfg: PlatformConfig, states: seq<PlatformState>,
                                                     events: seq<PlatformEvent>, i: nat, j: nat, r: RequestId)
    requires ValidPlatform(cfg) && IsPlatformRun(cfg, states, events) && i <= j < |states|
    requires r in states[i].lifecycle.entries && states[i].lifecycle.entries[r].state == RequestState.Completed
    ensures r in states[j].lifecycle.entries
    ensures states[j].lifecycle.entries[r].state == RequestState.Completed <==>
      NeverOverwritten(cfg, states, events, i, j, r)
    decreases j
  {
    if i < j {
      CompletedUntilOverwritten(cfg, states, events, i, j - 1, r);
      if states[j - 1].lifecycle.entries[r].state == RequestState.Completed {
        CompletedStep(cfg, states, events, j - 1, states[j - 1], states[j], r);
      } else {
        NeverCompletedLater(cfg, states, events, j - 1, j, r);
      }
    }
  }

  lemma StaysOut(s: LifecycleState, t: LifecycleState, r: RequestId)
    requires NoReentry(s, t) && r in s.entries && !Contains(s.queue, r)
    ensures !Contains(t.queue, r)
  {
    forall i | 0 <= i < |t.queue| ensures t.queue[i].requestId != r {
      assert t.queue[i] in t.queue;
    }
  }

  /** A registered request that has left the queue never enters it again. */
  lemma {:induction false} NeverRequeued(cfg: PlatformConfig, states: seq<PlatformState>, events: seq<PlatformEvent>,
                                         i: nat, j: nat, r: RequestId)
    requires ValidPlatform(cfg) && IsPlatformRun(cfg, states, events) && i <= j < |states|
    requires r in states[i].lifecycle.entries && !Contains(states[i].lifecycle.queue, r)
    ensures r in states[j].lifecycle.entries && !Contains(states[j].lifecycle.queue, r)
    decreases j
  {
    if i < j {
      NeverRequeued(cfg, states, events, i, j - 1, r);
      RunStepDone(cfg, states, events, j - 1, states[j - 1], states[j]);
      LaterOnlyEnds(cfg, states, events, i, j, r);
      StaysOut(states[j - 1].lifecycle, states[j].lifecycle, r);
    }
  }

  lemma OutsideQueueNeverExpires(cfg: PlatformConfig, s: PlatformState, now: Time, r: RequestId)
    requires !Contains(s.lifecycle.queue, r)
    ensures !Expires(cfg.lifecycle, s.lifecycle, now, r)
  {
    var expired := Expired(cfg.lifecycle.queue, s.lifecycle.queue, now);
    FilterMembers(Overdue(cfg.lifecycle.queue, now), s.lifecycle.queue);
    forall i | 0 <= i < |expired| ensures expired[i].requestId != r {
      assert expired[i] in s.lifecycle.queue;
    }
  }

  ghost predicate NeverFailed(events: seq<PlatformEvent>, i: nat, j: nat, r: RequestId)
    requires j <= |events|
  {
    forall k :: i <= k < j ==> !Fails(events[k], r)
  }

  /** Once a COMPLETED request is out of the queue, only a call that fails it takes it out of COMPLETED. */
  lemma CompletedForGood(cfg: PlatformConfig, states: seq<PlatformState>, events: seq<PlatformEvent>, i: nat, j: nat,
                         r: RequestId)
    requires ValidPlatform(cfg) && IsPlatformRun(cfg, states, events) && i <= j < |states|
    requires r in states[i].lifecycle.entries && states[i].lifecycle.entries[r].state == RequestState.Completed
    requires !Contains(states[i].lifecycle.queue, r)
    ensures r in states[j].lifecycle.entries
    ensures states[j].lifecycle.entries[r].state == RequestState.Completed <==> NeverFailed(events, i, j, r)
  {
    CompletedUntilOverwritten(cfg, states, events, i, j, r);
    forall k | i <= k < j ensures Overwrites(cfg, states[k], events[k], r) <==> Fails(events[k], r) {
      NeverRequeued(cfg, states, events, i, k, r);
      if TimeoutReading(events[k]).Some? {
        OutsideQueueNeverExpires(cfg, states[k], TimeoutReading(events[k]).value, r);
      }
    }
  }

  /** The reading of the clock at which an event lists the queue without timing anything out. */
  function ListingTime(e: PlatformEvent): Option<Time> {
    match e
    case BackgroundCycle(listAt, _) => Some(listAt)
    case ReadQueue(now) => Some(now)
    case TakeHead(now) => Some(now)
    case _ => None
  }

  lemma ExpiredIsDropped(cfg: QueueConfig, queue: seq<QueueItem>, now: Time, r: RequestId)
    requires DistinctQueued(queue) && Contains(Expired(cfg, queue, now), r)
    ensures !Contains(Remaining(cfg, queue, now), r)
  {
    var expired, rest := Expired(cfg, queue, now), Remaining(cfg, queue, now);
    FilterMembers(Overdue(cfg, now), queue);
    FilterMembers(Not(Overdue(cfg, now)), queue);
    var i :| 0 <= i < |expired| && expired[i].requestId == r;
    assert expired[i] in queue;
    forall j | 0 <= j < |rest| ensures rest[j].requestId != r {
      assert rest[j] in queue && rest[j] != expired[i];
    }
  }

  lemma CycleListing(cfg: PlatformConfig, s: PlatformState, listAt: Time, x: CycleInputs)
    requires ValidPlatform(cfg) && PlatformInv(cfg, s) && PermittedEvent(cfg, s, BackgroundCycle(listAt, x))
    ensures Schedule(cfg, ListQueue(cfg, s, listAt), x).0.lifecycle == ListQueue(cfg, s, listAt).lifecycle
  {
    ListingKeepsInv(cfg, s, listAt);
    var t, result := ScheduleKeepsInv(cfg, ListQueue(cfg, s, listAt), x);
  }

  /** Such an event leaves in the queue only what has not expired. */
  lemma ListingExpires(cfg: PlatformConfig, s: PlatformState, e: PlatformEvent, t: PlatformState)
    requires ValidPlatform(cfg) && PlatformInv(cfg, s) && PermittedEvent(cfg, s, e) && t == PlatformStep(cfg, s, e)
    requires ListingTime(e).Some?
    ensures forall y :: y in t.lifecycle.queue ==>
      y in Remaining(cfg.lifecycle.queue, s.lifecycle.queue, ListingTime(e).value)
  {
    if e.BackgroundCycle? {
      CycleListing(cfg, s, e.listAt, e.cycle);
    }
  }

  /** So it drops the overdue item of a request without a trace. */
  lemma ListingDrops(cfg: PlatformConfig, s: PlatformState, e: PlatformEvent, t: PlatformState, r: RequestId)
    requires ValidPlatform(cfg) && PlatformInv(cfg, s) && PermittedEvent(cfg, s, e) && t == PlatformStep(cfg, s, e)
    requires ListingTime(e).Some? && Expires(cfg.lifecycle, s.lifecycle, ListingTime(e).value, r)
    ensures !Contains(t.lifecycle.queue, r)
  {
    var rest := Remaining(cfg.lifecycle.queue, s.lifecycle.queue, ListingTime(e).value);
    ExpiredIsDropped(cfg.lifecycle.queue, s.lifecycle.queue, ListingTime(e).value, r);
    ListingExpires(cfg, s, e, t);
    forall i | 0 <= i < |t.lifecycle.queue| ensures t.lifecycle.queue[i].requestId != r {
      assert t.lifecycle.queue[i] in rest;
    }
  }

  /**
   A listing that finds a COMPLETED request overdue makes COMPLETED permanent: it drops the item, so that no timeout
   reaches the request any more.
   */
  lemma ListingKeepsCompleted(cfg: PlatformConfig, states: seq<PlatformState>, events: seq<PlatformEvent>, m: nat,
                              j: nat, r: RequestId)
    requires ValidPlatform(cfg) && IsPlatformRun(cfg, states, events) && m < j < |states|
    requires r in states[m].lifecycle.entries && states[m].lifecycle.entries[r].state == RequestState.Completed
    requires ListingTime(events[m]).Some?
    requires Expires(cfg.lifecycle, states[m].lifecycle, ListingTime(events[m]).value, r)
    ensures r in states[j].lifecycle.entries
    ensures states[j].lifecycle.entries[r].state == RequestState.Completed <==> NeverFailed(events, m, j, r)
  {
    PlatformRunInv(cfg, states, events, m, states[m]);
    CompletedStep(cfg, states, events, m, states[m], states[m + 1], r);
    assert PlatformStepAt(cfg, states, events, m);
    ListingDrops(cfg, states[m], events[m], states[m + 1], r);
    CompletedForGood(cfg, states, events, m + 1, j, r);
  }
}
