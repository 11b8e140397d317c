/** What holds between the registry, the batch engine and the delivery record after any run of the full path. */
module RequestPathInvariant {
  import opened Wrappers
  import opened Schemas
  import opened RequestStates
  import opened Registry
  import opened WaitingQueueSpec
  import opened LifecycleSpec
  import opened BatchModels
  import opened BatchEngineSpec
  import opened BatchEngineInvariant
  import opened BatchEngineRuns
  import opened SchedulingCycle
  import opened Delivery
  import opened DispatchService
  import opened RequestPathSpec

  // ---- Delivery of one request ----

  /** The adapter has accepted a dispatch that contains the request. */
  ghost predicate Delivered(d: DeliveryState, r: RequestId) {
    exists i: nat, p: nat :: DeliveredAt(d, r, i, p)
  }

  lemma DeliveredStays(d: DeliveryState, e: DeliveryState, r: RequestId)
    requires Delivered(d, r) && d.accepted <= e.accepted
    ensures Delivered(e, r)
  {
    var i: nat, p: nat :| DeliveredAt(d, r, i, p);
    assert DeliveredAt(e, r, i, p);
  }

  /** The dispatch of a batch carries every active member of it. */
  lemma PayloadCarries(cfg: BatchConfig, s: EngineState, r: RequestId) returns (p: nat)
    requires EngineInv(cfg, s) && HasStatus(s, r, MemberActive)
    ensures var payload := BatchAssignments(s, s.requestToBatch[r]);
      p < |payload| && payload[p].requestId == r
  {
    var b := s.requestToBatch[r];
    var ms := s.batches[b].members;
    var m :| m in ms && m.requestId == r && m.status == MemberActive;
    assert ms == s.sets[b];
    forall x | x in ms ensures x.requestId in s.assignments {
      assert Assigned(s, x);
    }
    PayloadIsComplete(ms, s.assignments);
    assert Assigned(s, m);
    var payload := BatchAssignments(s, b);
    assert s.assignments[r] in payload;
    p :| 0 <= p < |payload| && payload[p] == s.assignments[r];
  }

  /** If the dispatch of the batch of an active member is accepted, the member has been delivered. */
  lemma SubmitOneDelivers(cfg: DispatchConfig, engineCfg: BatchConfig, d: DeliveryState, b: BatchId, adapter: Adapter,
                          r: RequestId)
    requires DeliveryInv(engineCfg, d) && d.inFlight.None? && HasStatus(d.engine, r, MemberActive)
    ensures var (outcome, after) := SubmitOne(cfg, d, b, adapter);
      outcome.Some? && outcome.value.accepted && outcome.value.batchId == d.engine.requestToBatch[r] ==>
        Delivered(after, r)
  {
    SubmitOneKeepsInv(cfg, engineCfg, d, b, adapter);
    var (outcome, after) := SubmitOne(cfg, d, b, adapter);
    if outcome.Some? && outcome.value.accepted && outcome.value.batchId == d.engine.requestToBatch[r] {
      var p := PayloadCarries(engineCfg, d.engine, r);
      assert DeliveredAt(after, r, |d.accepted|, p);
    }
  }

  ghost predicate AcceptedDelivers(results: seq<DispatchResult>, d: DeliveryState, r: RequestId)
    requires r in d.engine.requestToBatch
  {
    forall res :: res in results && res.accepted && res.batchId == d.engine.requestToBatch[r] ==> Delivered(d, r)
  }

  /** An accepted result for the batch of an active member means that the member has been delivered. */
  lemma {:induction false} SubmitPendingDelivers(cfg: DispatchConfig, engineCfg: BatchConfig, d: DeliveryState,
                                                 order: seq<BatchId>, adapter: Adapter, r: RequestId)
    returns (results: seq<DispatchResult>, after: DeliveryState)
    requires DeliveryInv(engineCfg, d) && d.inFlight.None? && HasStatus(d.engine, r, MemberActive)
    ensures (results, after) == SubmitPending(cfg, d, order, adapter)
    ensures after.engine == d.engine && AcceptedDelivers(results, after, r)
  {
    var pending := SubmitPending(cfg, d, order, adapter);
    results, after := pending.0, pending.1;
    if order != [] {
      var n := |order| - 1;
      SubmitPendingKeepsInv(cfg, engineCfg, d, order[..n], adapter);
      var front, before := SubmitPendingDelivers(cfg, engineCfg, d, order[..n], adapter, r);
      SubmitOneKeepsInv(cfg, engineCfg, before, order[n], adapter);
      SubmitOneDelivers(cfg, engineCfg, before, order[n], adapter, r);
      forall res | res in results && res.accepted && res.batchId == d.engine.requestToBatch[r]
        ensures Delivered(after, r)
      {
        if res in front {
          DeliveredStays(before, after, r);
        }
      }
    }
  }

  // ---- Completing a member ----

  /** Completing member i keeps the status of every other member, and every member that was completed. */
  lemma RetiredKeepsStatus(s: EngineState, b: BatchId, i: nat, reason: string, now: Time, r: RequestId,
                           status: MemberStatus)
    requires BatchEntry(s, b) && i < |s.sets[b]| && HasStatus(s, r, status)
    requires r != s.sets[b][i].requestId || status == MemberCompleted
    ensures HasStatus(RetiredState(s, b, i, MemberCompleted, reason, now), r, status)
  {
    var t := RetiredState(s, b, i, MemberCompleted, reason, now);
    var c := s.requestToBatch[r];
    var m :| m in s.batches[c].members && m.requestId == r && m.status == status;
    var j :| 0 <= j < |s.batches[c].members| && s.batches[c].members[j] == m;
    assert t.batches[c].members[j].requestId == r && t.batches[c].members[j].status == status;
    assert t.batches[c].members[j] in t.batches[c].members;
  }

  lemma RetiredIsCompleted(s: EngineState, r: RequestId, reason: string, now: Time)
    requires r in s.requestToBatch && BatchEntry(s, s.requestToBatch[r])
    requires IndexOf(s.sets[s.requestToBatch[r]], r).Some?
    ensures var b := s.requestToBatch[r];
      HasStatus(RetiredState(s, b, IndexOf(s.sets[b], r).value, MemberCompleted, reason, now), r, MemberCompleted)
  {
    var b := s.requestToBatch[r];
    var i := IndexOf(s.sets[b], r).value;
    var t := RetiredState(s, b, i, MemberCompleted, reason, now);
    assert t.batches[b].members[i] in t.batches[b].members;
  }

  /** Completing a batched request completes its member, and no completed member of any request is lost. */
  lemma CompleteMemberForm(cfg: BatchConfig, s: EngineState, r: RequestId, now: Time)
    requires EngineInv(cfg, s) && r in s.requestToBatch
    ensures var t := CompleteMember(s, r, now);
      && EngineInv(cfg, t) && Extends(s, t) && HasStatus(t, r, MemberCompleted)
      && t.requestToBatch == s.requestToBatch
  {
    RetireIsExact(cfg, s, r, MemberCompleted, "request_completed", now);
    RetirementExtends(cfg, s, r, MemberCompleted, "request_completed", now);
    RetiredIsCompleted(s, r, "request_completed", now);
  }

  lemma CompleteMemberKeeps(cfg: BatchConfig, s: EngineState, r: RequestId, now: Time, other: RequestId,
                            status: MemberStatus)
    requires EngineInv(cfg, s) && r in s.requestToBatch && HasStatus(s, other, status)
    requires other != r || status == MemberCompleted
    ensures HasStatus(CompleteMember(s, r, now), other, status)
  {
    RetireIsExact(cfg, s, r, MemberCompleted, "request_completed", now);
    var b := s.requestToBatch[r];
    RetiredKeepsStatus(s, b, IndexOf(s.sets[b], r).value, "request_completed", now, other, status);
  }

  // ---- The invariant ----

  /** The states in which a request can be between two calls. */
  predicate Resting(state: RequestState) {
    state in {Queued, Submitted, RequestState.Completed, RequestState.Failed, RequestState.TimedOut,
              RequestState.Rejected}
  }

  /**
   The entry names the batch of the engine. A request with a backend id was delivered, whatever became of it since; one
   that is SUBMITTED or COMPLETED has a backend id, and the member of a COMPLETED one is completed.
   */
  ghost predicate EntryInv(entry: Entry, d: DeliveryState, r: RequestId) {
    && Resting(entry.state)
    && (entry.batchId.Some? ==> r in d.engine.requestToBatch && d.engine.requestToBatch[r] == entry.batchId.value)
    && (entry.backendId.Some? ==> entry.batchId.Some? && Delivered(d, r))
    && (entry.state in {Submitted, RequestState.Completed} ==> entry.backendId.Some?)
    && (entry.state == RequestState.Completed ==> HasStatus(d.engine, r, MemberCompleted))
  }

  ghost predicate EntriesInv(entries: Entries, d: DeliveryState) {
    forall r :: r in entries ==> EntryInv(entries[r], d, r)
  }

  /** The queue is within its size, holds no id twice, and holds registered requests only. */
  ghost predicate QueueInv(cfg: LifecycleConfig, s: LifecycleState) {
    && |s.queue| <= cfg.queue.maxSize && DistinctQueued(s.queue)
    && forall x :: x in s.queue ==> x.requestId in s.entries
  }

  ghost predicate ValidPlatform(cfg: PlatformConfig) {
    cfg.cycle.Valid() && cfg.lifecycle.queue.Valid()
  }

  ghost predicate PlatformInv(cfg: PlatformConfig, s: PlatformState) {
    && DeliveryInv(cfg.cycle.batch, s.delivery) && s.delivery.inFlight.None?
    && QueueInv(cfg.lifecycle, s.lifecycle)
    && EntriesInv(s.lifecycle.entries, s.delivery)
  }

  /** Whatever only adds to the records keeps what an entry claims. */
  ghost predicate KeepsClaims(d: DeliveryState, e: DeliveryState) {
    && Extends(d.engine, e.engine) && d.accepted <= e.accepted
    && forall r :: HasStatus(d.engine, r, MemberCompleted) ==> HasStatus(e.engine, r, MemberCompleted)
  }

  lemma ClaimsKept(d: DeliveryState, e: DeliveryState, entry: Entry, r: RequestId)
    requires KeepsClaims(d, e) && EntryInv(entry, d, r)
    ensures EntryInv(entry, e, r)
  {
    if entry.backendId.Some? {
      DeliveredStays(d, e, r);
    }
  }

  lemma EntriesKept(d: DeliveryState, e: DeliveryState, entries: Entries)
    requires KeepsClaims(d, e) && EntriesInv(entries, d)
    ensures EntriesInv(entries, e)
  {
    forall r | r in entries ensures EntryInv(entries[r], e, r) {
      ClaimsKept(d, e, entries[r], r);
    }
  }

  lemma ClaimsTransitive(d: DeliveryState, e: DeliveryState, f: DeliveryState)
    requires KeepsClaims(d, e) && KeepsClaims(e, f)
    ensures KeepsClaims(d, f)
  {
    ExtendsTransitive(d.engine, e.engine, f.engine);
  }

  // ---- The control plane ----

  lemma TimedOutEntry(entry: Entry, d: DeliveryState, r: RequestId)
    requires EntryInv(entry, d, r)
    ensures EntryInv(TimeOut(entry), d, r)
  {
  }

  lemma ExpiryKeepsQueueInv(cfg: LifecycleConfig, s: LifecycleState, now: Time)
    requires QueueInv(cfg, s)
    ensures QueueInv(cfg, s.(queue := Remaining(cfg.queue, s.queue, now)))
  {
    FilterMembers(Not(Overdue(cfg.queue, now)), s.queue);
    FilterDistinct(Not(Overdue(cfg.queue, now)), s.queue);
  }

  lemma TimeoutsKeepInv(cfg: LifecycleConfig, s: LifecycleState, d: DeliveryState, now: Time)
    requires EntriesInv(s.entries, d) && QueueInv(cfg, s)
    ensures EntriesInv(ProcessTimeouts(cfg, s, now).entries, d) && QueueInv(cfg, ProcessTimeouts(cfg, s, now))
    ensures ProcessTimeouts(cfg, s, now).entries.Keys == s.entries.Keys
  {
    var t := ProcessTimeouts(cfg, s, now);
    TimeOutAllForm(s.entries, Expired(cfg.queue, s.queue, now));
    ExpiryKeepsQueueInv(cfg, s, now);
    forall r | r in t.entries ensures EntryInv(t.entries[r], d, r) {
      TimedOutEntry(s.entries[r], d, r);
    }
  }

  /** The entry of a submission in some state. */
  function FreshEntry(x: Submission, state: RequestState, failure: Option<(FailureReason, string)>): Entry {
    Entry(x.request, x.arrivalTime, state, None, None, failure, None)
  }

  /** The item under which a submission waits. */
  function FreshItem(x: Submission): QueueItem {
    QueuedItem(x.requestId, FreshEntry(x, Admitted, None), x.queuedAt)
  }

  /** The queue that a submission finds once both expiries before its enqueue are done. */
  function QueueBefore(cfg: LifecycleConfig, s: LifecycleState, x: Submission): seq<QueueItem> {
    Remaining(cfg.queue, Remaining(cfg.queue, s.queue, x.timeoutsAt), x.expireAt)
  }

  /** The entry with which a submission that the registry has room for leaves admission and queueing. */
  function QueueingEntry(cfg: LifecycleConfig, s: LifecycleState, x: Submission): Entry {
    match x.verdict
    case Refuse(reason) =>
      FreshEntry(x, RequestState.Rejected, Some((FailureReason.QueueFull, RejectionMessage(reason))))
    case Accept =>
      if |QueueBefore(cfg, s, x)| >= cfg.queue.maxSize
      then FreshEntry(x, RequestState.Rejected, Some((FailureReason.QueueFull, "queue_full")))
      else FreshEntry(x, Queued, None)
  }

  /** The queue after such a submission. */
  function QueueingQueue(cfg: LifecycleConfig, s: LifecycleState, x: Submission): seq<QueueItem> {
    if x.verdict.Refuse? then Remaining(cfg.queue, s.queue, x.timeoutsAt)
    else if |QueueBefore(cfg, s, x)| >= cfg.queue.maxSize then QueueBefore(cfg, s, x)
    else QueueBefore(cfg, s, x) + [FreshItem(x)]
  }

  lemma EnqueueForm(cfg: LifecycleConfig, s: LifecycleState, x: Submission, rest: seq<QueueItem>)
    requires s.entries[x.requestId := FreshEntry(x, Admitted, None)] == s.entries
    requires rest == Remaining(cfg.queue, s.queue, x.expireAt) && !Contains(rest, x.requestId)
    ensures EnqueueFromAdmitted(cfg, s, x.requestId, x.expireAt, x.queuedAt)
         == (if |rest| < cfg.queue.maxSize
             then LifecycleState(s.entries[x.requestId := FreshEntry(x, Queued, None)], rest + [FreshItem(x)])
             else LifecycleState(s.entries[x.requestId := FreshEntry(x, RequestState.Rejected,
                                                                     Some((FailureReason.QueueFull, "queue_full")))],
                                 rest),
             None)
  {
    assert x.requestId in s.entries && s.entries[x.requestId] == FreshEntry(x, Admitted, None);
  }

  /** The state of the registry just before a fresh submission is enqueued. */
  function AdmittedState(s: LifecycleState, x: Submission): LifecycleState {
    WithEntry(s, x.requestId, FreshEntry(x, Admitted, None))
  }

  lemma AdmissionSteps(cfg: LifecycleConfig, s: LifecycleState, x: Submission)
    requires x.requestId !in s.entries && |s.entries| < cfg.maxEntries
    ensures var r := x.requestId;
      var registered := Register(cfg, s, r, x.request, x.arrivalTime, Received);
      var validated := TransitionRequest(registered.0, r, Validated, None, None);
      var admitted := RunAdmission(validated.0, r, x.verdict);
      && registered.1.None? && validated.1.None? && admitted.1.None?
      && admitted.0 == (match x.verdict
                        case Accept => AdmittedState(s, x)
                        case Refuse(reason) =>
                          WithEntry(s, r, FreshEntry(x, RequestState.Rejected,
                                                     Some((FailureReason.QueueFull, RejectionMessage(reason))))))
  {
    var r := x.requestId;
    var registered := Register(cfg, s, r, x.request, x.arrivalTime, Received);
    var validated := TransitionRequest(registered.0, r, Validated, None, None);
    assert registered.0 == WithEntry(s, r, FreshEntry(x, Received, None));
    assert validated.0 == WithEntry(s, r, FreshEntry(x, Validated, None));
  }

  lemma SubmissionSteps(cfg: LifecycleConfig, s: LifecycleState, base: LifecycleState, x: Submission)
    requires QueueInv(cfg, base) && x.requestId !in base.entries && |base.entries| < cfg.maxEntries
    requires base.queue == Remaining(cfg.queue, s.queue, x.timeoutsAt)
    ensures var r := x.requestId;
      var registered := Register(cfg, base, r, x.request, x.arrivalTime, Received);
      var validated := TransitionRequest(registered.0, r, Validated, None, None);
      var admitted := RunAdmission(validated.0, r, x.verdict);
      var enqueued := EnqueueFromAdmitted(cfg, admitted.0, r, x.expireAt, x.queuedAt);
      var t := if x.verdict.Accept? then enqueued.0 else admitted.0;
      && registered.1.None? && validated.1.None? && admitted.1.None? && (x.verdict.Accept? ==> enqueued.1.None?)
      && (x.verdict.Accept? ==> admitted.0.entries[r].state.Admitted?)
      && (x.verdict.Refuse? ==> admitted.0.entries[r].state.Rejected?)
      && t == LifecycleState(base.entries[r := QueueingEntry(cfg, s, x)], QueueingQueue(cfg, s, x))
  {
    AdmissionSteps(cfg, base, x);
    if x.verdict.Accept? {
      FilterMembers(Not(Overdue(cfg.queue, x.expireAt)), base.queue);
      forall i | 0 <= i < |QueueBefore(cfg, s, x)| ensures QueueBefore(cfg, s, x)[i].requestId != x.requestId {
        assert QueueBefore(cfg, s, x)[i] in base.queue;
      }
      EnqueueForm(cfg, AdmittedState(base, x), x, QueueBefore(cfg, s, x));
    }
  }

  lemma SameKeysSameSize(a: Entries, b: Entries)
    requires a.Keys == b.Keys
    ensures |a| == |b|
  {
    assert |a.Keys| == |a| && |b.Keys| == |b|;
  }

  /**
   A fresh submission is rejected by admission, rejected by a full queue, or queued as the last item; it raises exactly
   where the registry is full. Nothing else is written but for the timeouts that come first.
   */
  lemma SubmissionForm(cfg: LifecycleConfig, s: LifecycleState, x: Submission)
    requires QueueInv(cfg, s) && x.requestId !in s.entries
    ensures var base := ProcessTimeouts(cfg, s, x.timeoutsAt);
      ProcessThroughQueued(cfg, s, x)
      == if |s.entries| >= cfg.maxEntries then (base, Some(NotFound(x.requestId)))
         else (LifecycleState(base.entries[x.requestId := QueueingEntry(cfg, s, x)], QueueingQueue(cfg, s, x)), None)
  {
    var base := ProcessTimeouts(cfg, s, x.timeoutsAt);
    TimeOutAllForm(s.entries, Expired(cfg.queue, s.queue, x.timeoutsAt));
    ExpiryKeepsQueueInv(cfg, s, x.timeoutsAt);
    SameKeysSameSize(base.entries, s.entries);
    if |s.entries| < cfg.maxEntries {
      SubmissionSteps(cfg, s, base, x);
    }
  }

  /** What a submission leaves in the queue is distinct, within the size, and registered. */
  lemma QueueingKeepsQueueInv(cfg: LifecycleConfig, s: LifecycleState, base: LifecycleState, x: Submission)
    requires QueueInv(cfg, base) && x.requestId !in base.entries
    requires base.queue == Remaining(cfg.queue, s.queue, x.timeoutsAt)
    ensures QueueInv(cfg,
                     LifecycleState(base.entries[x.requestId := QueueingEntry(cfg, s, x)], QueueingQueue(cfg, s, x)))
    ensures forall y :: y in QueueingQueue(cfg, s, x) ==> y in base.queue || y == FreshItem(x)
  {
    ExpiryKeepsQueueInv(cfg, base, x.expireAt);
    FilterMembers(Not(Overdue(cfg.queue, x.expireAt)), base.queue);
  }

  // ---- The scheduler ----

  lemma CycleKeepsClaims(s: EngineState, t: EngineState, d: DeliveryState)
    requires Extends(s, t) && MembersKept(s, t) && d.engine == s
    ensures KeepsClaims(d, d.(engine := t))
  {
    forall r | HasStatus(s, r, MemberCompleted) ensures HasStatus(t, r, MemberCompleted) {
      KeptStatus(s, t, r, MemberCompleted);
    }
  }

  /** A cycle succeeds, keeps the invariant, and records what it placed. */
  lemma ScheduleKeepsInv(cfg: PlatformConfig, s: PlatformState, x: CycleInputs)
    returns (t: PlatformState, result: CycleResult)
    requires PlatformInv(cfg, s) && Supplied(cfg, s, x) && FreshIds(s.delivery.engine, x.newIds)
    ensures (t, result) == Schedule(cfg, s, x)
    ensures PlatformInv(cfg, t) && KeepsClaims(s.delivery, t.delivery) && t.lifecycle == s.lifecycle
    ensures CycleSpec(cfg.cycle, CycleState(s.delivery.engine, s.counts), s.lifecycle.queue,
                      CycleState(t.delivery.engine, t.counts), result)
  {
    var after, r := CycleIsExact(cfg.cycle, CycleState(s.delivery.engine, s.counts), s.lifecycle.queue, x);
    result := r;
    t := s.(counts := after.counts, delivery := s.delivery.(engine := after.engine));
    CycleKeepsClaims(s.delivery.engine, after.engine, s.delivery);
    ExtendedAcceptedInv(s.delivery, t.delivery);
    EntriesKept(s.delivery, t.delivery, s.lifecycle.entries);
  }

  /** Dispatching keeps the invariant; an accepted result for the batch of an active member delivers the member. */
  lemma DispatchKeepsInv(cfg: PlatformConfig, s: PlatformState, adapter: Adapter)
    returns (t: PlatformState, results: seq<DispatchResult>)
    requires PlatformInv(cfg, s)
    ensures (t, results) == DispatchPending(cfg, s, adapter)
    ensures PlatformInv(cfg, t) && KeepsClaims(s.delivery, t.delivery)
    ensures t.lifecycle == s.lifecycle && t.delivery.engine == s.delivery.engine
    ensures forall r :: HasStatus(s.delivery.engine, r, MemberActive) ==> AcceptedDelivers(results, t.delivery, r)
  {
    var pending := DispatchPending(cfg, s, adapter);
    t, results := pending.0, pending.1;
    NothingExtends(s.delivery.engine);
    if cfg.dispatch.Some? {
      SubmitPendingKeepsInv(cfg.dispatch.value, cfg.cycle.batch, s.delivery, s.delivery.engine.order, adapter);
      forall r | HasStatus(s.delivery.engine, r, MemberActive) ensures AcceptedDelivers(results, t.delivery, r) {
        var rs, d := SubmitPendingDelivers(cfg.dispatch.value, cfg.cycle.batch, s.delivery, s.delivery.engine.order,
                                           adapter, r);
      }
      EntriesKept(s.delivery, t.delivery, s.lifecycle.entries);
    }
  }

  lemma ListingKeepsInv(cfg: PlatformConfig, s: PlatformState, now: Time)
    requires PlatformInv(cfg, s)
    ensures PlatformInv(cfg, ListQueue(cfg, s, now))
  {
    ExpiryKeepsQueueInv(cfg.lifecycle, s.lifecycle, now);
  }

  /** There are enough new batch ids for any queue, and they are fresh. */
  ghost predicate IdsSupplied(cfg: PlatformConfig, s: PlatformState, x: CycleInputs) {
    cfg.lifecycle.queue.maxSize <= |x.newIds| && FreshIds(s.delivery.engine, x.newIds)
  }

  lemma QueueIsSupplied(cfg: PlatformConfig, s: PlatformState, now: Time, x: CycleInputs)
    requires QueueInv(cfg.lifecycle, s.lifecycle) && ValidPlatform(cfg) && cfg.lifecycle.queue.maxSize <= |x.newIds|
    ensures Supplied(cfg, ListQueue(cfg, s, now), x)
  {
    FilterMembers(Not(Overdue(cfg.lifecycle.queue, now)), s.lifecycle.queue);
  }

  // ---- Finalizing ----

  lemma {:induction false} FoundOutcome(outcomes: seq<PlaceOutcome>, r: RequestId)
    ensures match FindOutcome(outcomes, r)
            case Some(o) => o in outcomes && o.requestId == r
            case None => forall o :: o in outcomes ==> o.requestId != r
  {
    if outcomes != [] {
      FoundOutcome(outcomes[1..], r);
    }
  }

  lemma {:induction false} FoundDispatch(results: seq<DispatchResult>, b: BatchId)
    ensures match FindDispatch(results, b)
            case Some(res) => res in results && res.batchId == b
            case None => true
  {
    if results != [] {
      FoundDispatch(results[1..], b);
    }
  }

  /** The reason a placed request fails for when its batch was not accepted. */
  function NotAcceptedReason(dispatch: Option<DispatchResult>): string {
    if dispatch.Some? then dispatch.value.reason else "batch_not_dispatched"
  }

  /** The entry of a placed request, in terms of the result for its batch and of what asking for the completion gave. */
  function FinishedEntry(queued: Entry, b: BatchId, dispatch: Option<DispatchResult>, fetched: Fetched): Entry {
    var named := queued.(batchId := Some(b));
    if !IsAccepted(dispatch) then
      named.(state := RequestState.Failed, failure := Some((AdapterError, NotAcceptedReason(dispatch))))
    else
      var submitted := named.(state := Submitted, backendId := Some(dispatch.value.backendId));
      match fetched
      case Raises => submitted
      case Fetched(completion) => WithCompletion(submitted, completion).(state := RequestState.Completed)
  }

  lemma AdvancePlacedForm(s: LifecycleState, r: RequestId, b: BatchId, dispatch: Option<DispatchResult>)
    requires r in s.entries && s.entries[r].state.Queued?
    ensures AdvancePlaced(s, r, b, dispatch)
         == (WithEntry(s, r, FinishedEntry(s.entries[r], b, dispatch, Raises)), None)
  {
    var queued := s.entries[r];
    var e1 := queued.(state := Scheduled, batchId := Some(b));
    var e2 := e1.(state := Batched);
    assert TransitionRequest(s, r, Scheduled, Some(b), None) == (WithEntry(s, r, e1), None);
    Overwritten(s, r, e1, e2);
    assert TransitionRequest(WithEntry(s, r, e1), r, Batched, None, None) == (WithEntry(s, r, e2), None);
    if IsAccepted(dispatch) {
      var e3 := e2.(state := Submitted, backendId := Some(dispatch.value.backendId));
      Overwritten(s, r, e2, e3);
      assert TransitionRequest(WithEntry(s, r, e2), r, Submitted, None, Some(dispatch.value.backendId))
          == (WithEntry(s, r, e3), None);
    } else {
      var e3 := e2.(state := RequestState.Failed, failure := Some((AdapterError, NotAcceptedReason(dispatch))));
      Overwritten(s, r, e2, e3);
      assert MarkFailed(WithEntry(s, r, e2), r, AdapterError, NotAcceptedReason(dispatch), Some(b), None)
          == (WithEntry(s, r, e3), None);
    }
  }

  /** What finishing does to a queued request that was placed in batch b. */
  lemma FinishPlacedForm(s: PlatformState, r: RequestId, b: BatchId, dispatch: Option<DispatchResult>, fetched: Fetched,
                         completedAt: Time)
    requires r in s.lifecycle.entries && s.lifecycle.entries[r].state.Queued?
    ensures var (t, error) := FinishPlaced(s, r, b, dispatch, fetched, completedAt);
      && t.lifecycle == WithEntry(s.lifecycle, r, FinishedEntry(s.lifecycle.entries[r], b, dispatch, fetched))
      && error == (if IsAccepted(dispatch) && fetched.Raises? then Some(CompletionRaised) else None)
      && t.counts == s.counts
      && t.delivery == (if IsAccepted(dispatch) && fetched.Fetched?
                        then s.delivery.(engine := CompleteMember(s.delivery.engine, r, completedAt)) else s.delivery)
  {
    AdvancePlacedForm(s.lifecycle, r, b, dispatch);
    if IsAccepted(dispatch) && fetched.Fetched? {
      var submitted := AdvancePlaced(s.lifecycle, r, b, dispatch).0.entries[r];
      var recorded := WithCompletion(submitted, fetched.completion);
      Overwritten(s.lifecycle, r, submitted, recorded);
      Overwritten(s.lifecycle, r, recorded, recorded.(state := RequestState.Completed));
    }
  }

  lemma Overwritten(s: LifecycleState, r: RequestId, before: Entry, after: Entry)
    ensures WithEntry(WithEntry(s, r, before), r, after) == WithEntry(s, r, after)
  {
  }
}
