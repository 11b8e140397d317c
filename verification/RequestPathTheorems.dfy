/** What a full path keeps: the joint invariant, the entries of other requests, and the members that are active. */
module RequestPathTheorems {
  import opened Wrappers
  import opened Schemas
  import opened RequestStates
  import opened Registry
  import opened WaitingQueueSpec
  import opened LifecycleSpec
  import opened BatchModels
  import opened BatchEngineSpec
  import opened BatchEngineInvariant
  import opened BatchEngineRuns
  import opened SchedulingCycle
  import opened Delivery
  import opened DispatchService
  import opened RequestPathSpec
  import opened RequestPathInvariant
  import opened RequestPathOutcome

  // ---- Finalizing one request ----

  /** Every member that is active stays so, but for the member of r. */
  ghost predicate OthersStayActive(s: EngineState, t: EngineState, r: RequestId) {
    forall q :: q != r && HasStatus(s, q, MemberActive) ==> HasStatus(t, q, MemberActive)
  }

  /** Only the entry of r differs; if r was placed, its member is active unless the entry is COMPLETED. */
  ghost predicate Finalized(s: PlatformState, t: PlatformState, r: RequestId) {
    && r in t.lifecycle.entries
    && t.lifecycle == WithEntry(s.lifecycle, r, t.lifecycle.entries[r])
    && KeepsClaims(s.delivery, t.delivery) && OthersStayActive(s.delivery.engine, t.delivery.engine, r)
    && (t.lifecycle.entries[r].batchId.Some? && t.lifecycle.entries[r].state != RequestState.Completed ==>
          HasStatus(t.delivery.engine, r, MemberActive))
  }

  lemma KeepsItself(d: DeliveryState)
    ensures KeepsClaims(d, d)
  {
    NothingExtends(d.engine);
  }

  lemma CompletionKeepsClaims(cfg: BatchConfig, d: DeliveryState, r: RequestId, now: Time)
    requires EngineInv(cfg, d.engine) && r in d.engine.requestToBatch
    ensures KeepsClaims(d, d.(engine := CompleteMember(d.engine, r, now)))
    ensures OthersStayActive(d.engine, CompleteMember(d.engine, r, now), r)
  {
    CompleteMemberForm(cfg, d.engine, r, now);
    forall q | HasStatus(d.engine, q, MemberCompleted)
      ensures HasStatus(CompleteMember(d.engine, r, now), q, MemberCompleted)
    {
      CompleteMemberKeeps(cfg, d.engine, r, now, q, MemberCompleted);
    }
    forall q | q != r && HasStatus(d.engine, q, MemberActive)
      ensures HasStatus(CompleteMember(d.engine, r, now), q, MemberActive)
    {
      CompleteMemberKeeps(cfg, d.engine, r, now, q, MemberActive);
    }
  }

  lemma DeliveryAfterCompletion(cfg: BatchConfig, d: DeliveryState, r: RequestId, now: Time)
    requires DeliveryInv(cfg, d) && r in d.engine.requestToBatch
    ensures DeliveryInv(cfg, d.(engine := CompleteMember(d.engine, r, now)))
  {
    CompleteMemberForm(cfg, d.engine, r, now);
    ExtendedAcceptedInv(d, d.(engine := CompleteMember(d.engine, r, now)));
  }

  /** Completing the member of a delivered request keeps all that the entries and the dispatches rely on. */
  lemma CompletionEffect(cfg: BatchConfig, d: DeliveryState, r: RequestId, now: Time) returns (e: DeliveryState)
    requires DeliveryInv(cfg, d) && r in d.engine.requestToBatch
    ensures e == d.(engine := CompleteMember(d.engine, r, now))
    ensures DeliveryInv(cfg, e) && KeepsClaims(d, e) && OthersStayActive(d.engine, e.engine, r)
    ensures HasStatus(e.engine, r, MemberCompleted) && e.engine.requestToBatch == d.engine.requestToBatch
  {
    CompleteMemberForm(cfg, d.engine, r, now);
    CompletionKeepsClaims(cfg, d, r, now);
    DeliveryAfterCompletion(cfg, d, r, now);
    e := d.(engine := CompleteMember(d.engine, r, now));
  }

  lemma OneEntryKeepsInv(cfg: PlatformConfig, s: PlatformState, t: PlatformState, r: RequestId, entry: Entry)
    requires PlatformInv(cfg, s) && r in s.lifecycle.entries && t.lifecycle == WithEntry(s.lifecycle, r, entry)
    requires KeepsClaims(s.delivery, t.delivery)
    requires DeliveryInv(cfg.cycle.batch, t.delivery) && t.delivery.inFlight.None? && EntryInv(entry, t.delivery, r)
    ensures PlatformInv(cfg, t)
  {
    EntriesKept(s.delivery, t.delivery, s.lifecycle.entries);
    EntryAdded(s.lifecycle.entries, t.delivery, r, entry);
  }

  lemma EntryAdded(entries: Entries, d: DeliveryState, r: RequestId, entry: Entry)
    requires EntriesInv(entries, d) && EntryInv(entry, d, r)
    ensures EntriesInv(entries[r := entry], d)
  {
  }

  lemma FinishPlacedKeepsInv(cfg: PlatformConfig, s: PlatformState, r: RequestId, b: BatchId,
                             dispatches: seq<DispatchResult>, fetched: Fetched, completedAt: Time)
    requires PlatformInv(cfg, s) && r in s.lifecycle.entries && s.lifecycle.entries[r].state.Queued?
    requires HasStatus(s.delivery.engine, r, MemberActive) && s.delivery.engine.requestToBatch[r] == b
    requires AcceptedDelivers(dispatches, s.delivery, r)
    ensures var (t, error) := FinishPlaced(s, r, b, FindDispatch(dispatches, b), fetched, completedAt);
      PlatformInv(cfg, t) && Finalized(s, t, r)
  {
    FoundDispatch(dispatches, b);
    FinishPlacedForm(s, r, b, FindDispatch(dispatches, b), fetched, completedAt);
    var (t, error) := FinishPlaced(s, r, b, FindDispatch(dispatches, b), fetched, completedAt);
    KeepsItself(s.delivery);
    var e := CompletionEffect(cfg.cycle.batch, s.delivery, r, completedAt);
    PlacedResult(cfg, s, r, b, FindDispatch(dispatches, b), fetched, t, e);
  }

  lemma PlacedResult(cfg: PlatformConfig, s: PlatformState, r: RequestId, b: BatchId, dispatch: Option<DispatchResult>,
                     fetched: Fetched, t: PlatformState, e: DeliveryState)
    requires PlatformInv(cfg, s) && r in s.lifecycle.entries && s.lifecycle.entries[r].state.Queued?
    requires HasStatus(s.delivery.engine, r, MemberActive) && s.delivery.engine.requestToBatch[r] == b
    requires IsAccepted(dispatch) ==> Delivered(s.delivery, r)
    requires t.lifecycle == WithEntry(s.lifecycle, r, FinishedEntry(s.lifecycle.entries[r], b, dispatch, fetched))
    requires t.delivery == if IsAccepted(dispatch) && fetched.Fetched? then e else s.delivery
    requires DeliveryInv(cfg.cycle.batch, e) && e.inFlight.None? && KeepsClaims(s.delivery, e)
    requires KeepsClaims(s.delivery, s.delivery) && HasStatus(e.engine, r, MemberCompleted)
    requires OthersStayActive(s.delivery.engine, e.engine, r)
    ensures PlatformInv(cfg, t) && Finalized(s, t, r)
  {
    FinishedKeepsInv(cfg, s, r, b, dispatch, fetched, t, t.delivery,
                     FinishedEntry(s.lifecycle.entries[r], b, dispatch, fetched));
  }

  lemma FinishedKeepsInv(cfg: PlatformConfig, s: PlatformState, r: RequestId, b: BatchId,
                         dispatch: Option<DispatchResult>, fetched: Fetched, t: PlatformState, e: DeliveryState,
                         entry: Entry)
    requires PlatformInv(cfg, s) && r in s.lifecycle.entries && s.lifecycle.entries[r].state.Queued?
    requires HasStatus(s.delivery.engine, r, MemberActive) && s.delivery.engine.requestToBatch[r] == b
    requires IsAccepted(dispatch) ==> Delivered(s.delivery, r)
    requires t.lifecycle == WithEntry(s.lifecycle, r, entry)
    requires entry == FinishedEntry(s.lifecycle.entries[r], b, dispatch, fetched)
    requires t.delivery == e && DeliveryInv(cfg.cycle.batch, e) && e.inFlight.None?
    requires KeepsClaims(s.delivery, e) && OthersStayActive(s.delivery.engine, e.engine, r)
    requires if IsAccepted(dispatch) && fetched.Fetched? then HasStatus(e.engine, r, MemberCompleted)
             else e == s.delivery
    ensures PlatformInv(cfg, t) && Finalized(s, t, r)
  {
    if IsAccepted(dispatch) {
      DeliveredStays(s.delivery, e, r);
    }
    var queued := s.lifecycle.entries[r];
    PlacedEntryInv(queued, b, dispatch, fetched, e, r);
    OneEntryKeepsInv(cfg, s, t, r, entry);
    FinishedIsFinalized(s, r, t, entry);
  }

  lemma FinishedIsFinalized(s: PlatformState, r: RequestId, t: PlatformState, entry: Entry)
    requires t.lifecycle == WithEntry(s.lifecycle, r, entry)
    requires KeepsClaims(s.delivery, t.delivery) && OthersStayActive(s.delivery.engine, t.delivery.engine, r)
    requires entry.state != RequestState.Completed ==>
      t.delivery == s.delivery && HasStatus(s.delivery.engine, r, MemberActive)
    ensures Finalized(s, t, r)
  {
  }

  lemma PlacedEntryInv(queued: Entry, b: BatchId, dispatch: Option<DispatchResult>, fetched: Fetched, d: DeliveryState,
                       r: RequestId)
    requires queued.state.Queued? && EntryInv(queued, d, r)
    requires r in d.engine.requestToBatch && d.engine.requestToBatch[r] == b
    requires IsAccepted(dispatch) ==> Delivered(d, r)
    requires IsAccepted(dispatch) && fetched.Fetched? ==> HasStatus(d.engine, r, MemberCompleted)
    ensures EntryInv(FinishedEntry(queued, b, dispatch, fetched), d, r)
  {
  }

  lemma MarkFailedKeepsInv(cfg: PlatformConfig, s: PlatformState, r: RequestId, reason: FailureReason, message: string)
    requires PlatformInv(cfg, s) && r in s.lifecycle.entries && s.lifecycle.entries[r].batchId.None?
    ensures var t := s.(lifecycle := MarkFailed(s.lifecycle, r, reason, message, None, None).0);
      PlatformInv(cfg, t) && Finalized(s, t, r)
  {
    KeepsItself(s.delivery);
    OneEntryKeepsInv(cfg, s, s.(lifecycle := MarkFailed(s.lifecycle, r, reason, message, None, None).0), r,
                     s.lifecycle.entries[r].(state := RequestState.Failed, failure := Some((reason, message))));
  }

  /** What finalization relies on: the results of the cycle and of the dispatch, for the state they led to. */
  ghost predicate ResultsHold(s: PlatformState, result: CycleResult, dispatches: seq<DispatchResult>, r: RequestId) {
    && (forall o :: o in result.placements ==> o.Placed? && Recorded(s.delivery.engine, o))
    && (forall o :: o in result.rejections ==> o.Rejected?)
    && (forall o :: o in result.placements && o.requestId == r ==>
          r in s.delivery.engine.requestToBatch && AcceptedDelivers(dispatches, s.delivery, r))
  }

  lemma FinalizeKeepsInv(cfg: PlatformConfig, s: PlatformState, r: RequestId, result: CycleResult,
                         dispatches: seq<DispatchResult>, fetched: Fetched, completedAt: Time)
    requires PlatformInv(cfg, s) && ResultsHold(s, result, dispatches, r)
    requires r in s.lifecycle.entries && s.lifecycle.entries[r].state.Queued? && s.lifecycle.entries[r].batchId.None?
    ensures var (t, error) := Finalize(s, r, result, dispatches, fetched, completedAt);
      PlatformInv(cfg, t) && Finalized(s, t, r)
  {
    FoundOutcome(result.rejections, r);
    FoundOutcome(result.placements, r);
    match FindOutcome(result.rejections, r)
    case Some(rejection) => MarkFailedKeepsInv(cfg, s, r, AdapterError, rejection.reason);
    case None =>
      match FindOutcome(result.placements, r)
      case Some(o) => FinishPlacedKeepsInv(cfg, s, r, o.batchId, dispatches, fetched, completedAt);
      case None =>
        if r in result.skipped {
          KeepsItself(s.delivery);
          assert s.lifecycle == WithEntry(s.lifecycle, r, s.lifecycle.entries[r]);
        } else {
          MarkFailedKeepsInv(cfg, s, r, InternalError, "scheduler_did_not_select_request");
        }
  }

  // ---- The full path ----

  lemma ScheduledResultsHold(s: PlatformState, t: PlatformState, result: CycleResult, dispatches: seq<DispatchResult>,
                             r: RequestId)
    requires forall o :: o in result.placements ==> o.Placed? && Recorded(s.delivery.engine, o)
    requires forall o :: o in result.rejections ==> o.Rejected?
    requires t.delivery.engine == s.delivery.engine
    requires forall q :: HasStatus(s.delivery.engine, q, MemberActive) ==> AcceptedDelivers(dispatches, t.delivery, q)
    ensures ResultsHold(t, result, dispatches, r)
  {
    forall o | o in result.placements && o.requestId == r
      ensures r in t.delivery.engine.requestToBatch && AcceptedDelivers(dispatches, t.delivery, r)
    {
      assert Recorded(s.delivery.engine, o);
      assert HasStatus(s.delivery.engine, r, MemberActive);
    }
  }

  lemma CycleKeepsActive(s: EngineState, t: EngineState, r: RequestId)
    requires Extends(s, t) && MembersKept(s, t)
    ensures OthersStayActive(s, t, r)
  {
    forall q | q != r && HasStatus(s, q, MemberActive) ensures HasStatus(t, q, MemberActive) {
      KeptStatus(s, t, q, MemberActive);
    }
  }

  /** Scheduling and finalizing a queued request keeps the invariant; only its own entry is written. */
  lemma ScheduleAndFinalizeKeepsInv(cfg: PlatformConfig, s: PlatformState, x: PathInputs)
    returns (t: PlatformState, error: Option<PathError>)
    requires PlatformInv(cfg, s) && ValidPlatform(cfg) && IdsSupplied(cfg, s, x.cycle)
    requires StaysQueued(s, x.submission.requestId) && s.lifecycle.entries[x.submission.requestId].batchId.None?
    requires Supplied(cfg, ListQueue(cfg, s, x.listAt), x.cycle)
    ensures (t, error) == ScheduleAndFinalize(cfg, s, x)
    ensures PlatformInv(cfg, t) && Finalized(ListQueue(cfg, s, x.listAt), t, x.submission.requestId)
  {
    var r, listed := x.submission.requestId, ListQueue(cfg, s, x.listAt);
    ListingKeepsInv(cfg, s, x.listAt);
    var scheduled, result := ScheduleKeepsInv(cfg, listed, x.cycle);
    var dispatched, dispatches := DispatchKeepsInv(cfg, scheduled, x.adapter);
    ScheduledResultsHold(scheduled, dispatched, result, dispatches, r);
    FinalizeKeepsInv(cfg, dispatched, r, result, dispatches, x.fetched, x.completedAt);
    var end := Finalize(dispatched, r, result, dispatches, x.fetched, x.completedAt);
    t, error := end.0, end.1;
    CycleKeepsActive(listed.delivery.engine, scheduled.delivery.engine, r);
    FinalizedFromListed(listed, scheduled, dispatched, t, r);
  }

  lemma FinalizedFromListed(listed: PlatformState, scheduled: PlatformState, dispatched: PlatformState,
                            t: PlatformState, r: RequestId)
    requires scheduled.lifecycle == listed.lifecycle && dispatched.lifecycle == listed.lifecycle
    requires KeepsClaims(listed.delivery, scheduled.delivery) && KeepsClaims(scheduled.delivery, dispatched.delivery)
    requires OthersStayActive(listed.delivery.engine, scheduled.delivery.engine, r)
    requires dispatched.delivery.engine == scheduled.delivery.engine && Finalized(dispatched, t, r)
    ensures Finalized(listed, t, r)
  {
    ClaimsTransitive(listed.delivery, scheduled.delivery, dispatched.delivery);
    ClaimsTransitive(listed.delivery, dispatched.delivery, t.delivery);
  }

  /** What the half of the path up to the queue leads to. */
  ghost predicate SubmittedAs(cfg: PlatformConfig, s: PlatformState, x: PathInputs, t: PlatformState,
                              error: Option<PathError>)
  {
    var r, base := x.submission.requestId, ProcessTimeouts(cfg.lifecycle, s.lifecycle, x.submission.timeoutsAt);
    if |s.lifecycle.entries| >= cfg.lifecycle.maxEntries
    then t.lifecycle == base && error == Some(LifecycleRaised(NotFound(r)))
    else
      && t.lifecycle == LifecycleState(base.entries[r := QueueingEntry(cfg.lifecycle, s.lifecycle, x.submission)],
                                       QueueingQueue(cfg.lifecycle, s.lifecycle, x.submission))
      && error.None?
  }

  lemma QueuedStateInv(cfg: PlatformConfig, s: PlatformState, x: PathInputs)
    returns (t: PlatformState, error: Option<PathError>)
    requires PlatformInv(cfg, s) && x.submission.requestId !in s.lifecycle.entries
    ensures (t, error) == AfterQueued(cfg, s, x)
    ensures PlatformInv(cfg, t) && t == s.(lifecycle := t.lifecycle) && SubmittedAs(cfg, s, x, t, error)
  {
    var end := AfterQueued(cfg, s, x);
    t, error := end.0, end.1;
    SubmissionForm(cfg.lifecycle, s.lifecycle, x.submission);
    assert SubmittedAs(cfg, s, x, t, error);
    SubmittedKeepsInv(cfg, s, x, t, error);
  }

  lemma SubmittedKeepsInv(cfg: PlatformConfig, s: PlatformState, x: PathInputs, t: PlatformState,
                          error: Option<PathError>)
    requires PlatformInv(cfg, s) && x.submission.requestId !in s.lifecycle.entries
    requires SubmittedAs(cfg, s, x, t, error) && t == s.(lifecycle := t.lifecycle)
    ensures PlatformInv(cfg, t)
  {
    var base := ProcessTimeouts(cfg.lifecycle, s.lifecycle, x.submission.timeoutsAt);
    TimeoutsKeepInv(cfg.lifecycle, s.lifecycle, s.delivery, x.submission.timeoutsAt);
    QueueingKeepsQueueInv(cfg.lifecycle, s.lifecycle, base, x.submission);
    EntryAdded(base.entries, s.delivery, x.submission.requestId,
               QueueingEntry(cfg.lifecycle, s.lifecycle, x.submission));
  }

  /** The listed state in the path of a submission that was queued. */
  ghost predicate ListedForPath(cfg: PlatformConfig, s: PlatformState, x: PathInputs, listed: PlatformState) {
    var base := ProcessTimeouts(cfg.lifecycle, s.lifecycle, x.submission.timeoutsAt);
    && |s.lifecycle.entries| < cfg.lifecycle.maxEntries
    && QueueingEntry(cfg.lifecycle, s.lifecycle, x.submission).state.Queued?
    && listed == s.(lifecycle :=
                      LifecycleState(base.entries[x.submission.requestId := FreshEntry(x.submission, Queued, None)],
                                     PathQueue(cfg, s, x)))
  }

  lemma QueuedWaits(cfg: PlatformConfig, s: PlatformState, x: PathInputs, queued: PlatformState)
    requires FreshPath(cfg, s, x) && |s.lifecycle.entries| < cfg.lifecycle.maxEntries
    requires (queued, None) == AfterQueued(cfg, s, x) && StaysQueued(queued, x.submission.requestId)
    ensures queued.lifecycle.entries[x.submission.requestId] == FreshEntry(x.submission, Queued, None)
    ensures PlatformInv(cfg, queued)
    ensures ListedForPath(cfg, s, x, ListQueue(cfg, queued, x.listAt))
    ensures Waits(ListQueue(cfg, queued, x.listAt), x.submission)
  {
    var t, error := QueuedStateInv(cfg, s, x);
    var base := ProcessTimeouts(cfg.lifecycle, s.lifecycle, x.submission.timeoutsAt);
    TimeoutsKeepInv(cfg.lifecycle, s.lifecycle, s.delivery, x.submission.timeoutsAt);
    QueueingKeepsQueueInv(cfg.lifecycle, s.lifecycle, base, x.submission);
    ListingKeepsInv(cfg, queued, x.listAt);
    FilterMembers(Not(Overdue(cfg.lifecycle.queue, x.listAt)), queued.lifecycle.queue);
  }

  /** What a full path that leaves this entry guarantees. */
  ghost predicate PathDone(cfg: PlatformConfig, s: PlatformState, x: PathInputs, entry: Option<Entry>, t: PlatformState,
                           error: Option<PathError>)
  {
    && PlatformInv(cfg, t) && KeepsClaims(s.delivery, t.delivery) && PathExact(cfg, s, x, entry, t, error)
    && OthersStayActive(s.delivery.engine, t.delivery.engine, x.submission.requestId)
    && (entry.Some? && entry.value.batchId.Some? && entry.value.state != RequestState.Completed ==>
          HasStatus(t.delivery.engine, x.submission.requestId, MemberActive))
  }

  /**
   The full path keeps the invariant, writes the entry of no other request but to time it out, and leaves its own
   request in the entry that PathEntry gives. It raises only where the registry is full or fetching the completion
   raises, and never an invalid transition.
   */
  lemma FullPathKeepsInv(cfg: PlatformConfig, s: PlatformState, x: PathInputs)
    returns (t: PlatformState, error: Option<PathError>, entry: Option<Entry>)
    requires FreshPath(cfg, s, x)
    ensures Supplied(cfg, ListQueue(cfg, AfterQueued(cfg, s, x).0, x.listAt), x.cycle)
    ensures (t, error) == FullPath(cfg, s, x) && entry == PathEntry(cfg, s, x)
    ensures PathDone(cfg, s, x, entry, t, error)
  {
    t, error := QueuedStateInv(cfg, s, x);
    var queued := t;
    QueueIsSupplied(cfg, queued, x.listAt, x.cycle);
    FullPathForm(cfg, s, x, queued, error);
    if error.None? && StaysQueued(queued, x.submission.requestId) {
      t, error, entry := QueuedPathKeepsInv(cfg, s, x, queued);
    } else {
      entry := SettledEntry(cfg, s, x, t, error);
      SettledPathDone(cfg, s, x, entry, t, error);
    }
  }

  /** The entry where the path ends before the scheduler is called. */
  lemma SettledEntry(cfg: PlatformConfig, s: PlatformState, x: PathInputs, t: PlatformState, error: Option<PathError>)
    returns (entry: Option<Entry>)
    requires FreshPath(cfg, s, x) && SubmittedAs(cfg, s, x, t, error)
    requires error.Some? || !StaysQueued(t, x.submission.requestId)
    ensures entry == PathEntry(cfg, s, x)
    ensures entry == if |s.lifecycle.entries| >= cfg.lifecycle.maxEntries then None
                     else Some(QueueingEntry(cfg.lifecycle, s.lifecycle, x.submission))
    ensures entry.Some? ==> !entry.value.state.Queued?
  {
    entry := if |s.lifecycle.entries| >= cfg.lifecycle.maxEntries then None
             else Some(QueueingEntry(cfg.lifecycle, s.lifecycle, x.submission));
    assert |s.lifecycle.entries| < cfg.lifecycle.maxEntries ==>
             t.lifecycle.entries[x.submission.requestId] == QueueingEntry(cfg.lifecycle, s.lifecycle, x.submission);
  }

  lemma SettledPathDone(cfg: PlatformConfig, s: PlatformState, x: PathInputs, entry: Option<Entry>, t: PlatformState,
                        error: Option<PathError>)
    requires PlatformInv(cfg, t) && t.delivery == s.delivery && SubmittedAs(cfg, s, x, t, error)
    requires entry == if |s.lifecycle.entries| >= cfg.lifecycle.maxEntries then None
                      else Some(QueueingEntry(cfg.lifecycle, s.lifecycle, x.submission))
    requires entry.Some? ==> !entry.value.state.Queued?
    ensures PathDone(cfg, s, x, entry, t, error)
  {
    KeepsItself(s.delivery);
    SettledExact(cfg, s, x, entry, t, error);
  }

  lemma SettledExact(cfg: PlatformConfig, s: PlatformState, x: PathInputs, entry: Option<Entry>, t: PlatformState,
                     error: Option<PathError>)
    requires SubmittedAs(cfg, s, x, t, error)
    requires entry == if |s.lifecycle.entries| >= cfg.lifecycle.maxEntries then None
                      else Some(QueueingEntry(cfg.lifecycle, s.lifecycle, x.submission))
    requires entry.Some? ==> !entry.value.state.Queued?
    ensures PathExact(cfg, s, x, entry, t, error) && (entry.Some? ==> entry.value.batchId.None?)
  {
  }

  lemma QueuedPathKeepsInv(cfg: PlatformConfig, s: PlatformState, x: PathInputs, queued: PlatformState)
    returns (t: PlatformState, error: Option<PathError>, entry: Option<Entry>)
    requires FreshPath(cfg, s, x) && |s.lifecycle.entries| < cfg.lifecycle.maxEntries
    requires (queued, None) == AfterQueued(cfg, s, x) && StaysQueued(queued, x.submission.requestId)
    requires Supplied(cfg, ListQueue(cfg, queued, x.listAt), x.cycle)
    ensures (t, error) == ScheduleAndFinalize(cfg, queued, x) && entry == PathEntry(cfg, s, x)
    ensures PathDone(cfg, s, x, entry, t, error)
  {
    var listed := ListQueue(cfg, queued, x.listAt);
    QueuedWaits(cfg, s, x, queued);
    var u, f := ScheduledExact(cfg, queued, x, listed);
    t, error := ScheduleAndFinalizeKeepsInv(cfg, queued, x);
    entry := PathEntryForm(cfg, s, x, listed);
    ScheduledPathDone(cfg, s, x, listed, entry.value, t, error);
  }

  lemma PathEntryForm(cfg: PlatformConfig, s: PlatformState, x: PathInputs, listed: PlatformState)
    returns (entry: Option<Entry>)
    requires FreshPath(cfg, s, x) && ListedForPath(cfg, s, x, listed)
    requires ReadyToCycle(cfg.cycle, listed.delivery.engine, listed.lifecycle.queue, x.cycle)
    ensures entry == PathEntry(cfg, s, x)
    ensures entry == Some(ScheduledEntry(cfg, listed.delivery, listed.counts, listed.lifecycle.queue, x))
  {
    entry := PathEntry(cfg, s, x);
  }

  lemma ScheduledPathDone(cfg: PlatformConfig, s: PlatformState, x: PathInputs, listed: PlatformState, entry: Entry,
                          t: PlatformState, error: Option<PathError>)
    requires ListedForPath(cfg, s, x, listed) && PlatformInv(cfg, t)
    requires Finalized(listed, t, x.submission.requestId) && EndsWith((t, error), listed, x, entry)
    ensures PathDone(cfg, s, x, Some(entry), t, error)
  {
    ListedExact(cfg, s, x, listed, entry, t, error);
    ClaimsFromListed(cfg, s, x, listed, t);
  }

  lemma ListedExact(cfg: PlatformConfig, s: PlatformState, x: PathInputs, listed: PlatformState, entry: Entry,
                    t: PlatformState, error: Option<PathError>)
    requires ListedForPath(cfg, s, x, listed) && EndsWith((t, error), listed, x, entry)
    ensures PathExact(cfg, s, x, Some(entry), t, error)
    ensures x.submission.requestId in t.lifecycle.entries && t.lifecycle.entries[x.submission.requestId] == entry
  {
    var r, base := x.submission.requestId, ProcessTimeouts(cfg.lifecycle, s.lifecycle, x.submission.timeoutsAt);
    assert base.entries[r := FreshEntry(x.submission, Queued, None)][r := entry] == base.entries[r := entry];
  }

  lemma ClaimsFromListed(cfg: PlatformConfig, s: PlatformState, x: PathInputs, listed: PlatformState, t: PlatformState)
    requires ListedForPath(cfg, s, x, listed) && Finalized(listed, t, x.submission.requestId)
    ensures KeepsClaims(s.delivery, t.delivery)
    ensures OthersStayActive(s.delivery.engine, t.delivery.engine, x.submission.requestId)
  {
  }

  /** The entry of the request, and the queue, in the state that a full path leaves. */
  lemma EntryOfPath(cfg: PlatformConfig, s: PlatformState, x: PathInputs, entry: Option<Entry>, t: PlatformState,
                    error: Option<PathError>)
    requires x.submission.requestId !in s.lifecycle.entries && PathExact(cfg, s, x, entry, t, error)
    ensures x.submission.requestId in t.lifecycle.entries <==> entry.Some?
    ensures entry.Some? ==> t.lifecycle.entries[x.submission.requestId] == entry.value
    ensures entry.Some? && QueueingEntry(cfg.lifecycle, s.lifecycle, x.submission).state.Queued? ==>
      t.lifecycle.queue == PathQueue(cfg, s, x)
  {
    TimeOutAllForm(s.lifecycle.entries, Expired(cfg.lifecycle.queue, s.lifecycle.queue, x.submission.timeoutsAt));
  }
}
