/**
 When each call of the lifecycle raises, and what an entry holds after it; and what becomes of an id submitted twice.
 */
module LifecycleRules {
  import opened Wrappers
  import opened Schemas
  import opened RequestStates
  import opened Registry
  import opened WaitingQueueSpec
  import opened LifecycleSpec

  /** The entry of r is now `entry`, and nothing else has changed. */
  ghost predicate OnlyEntry(s: LifecycleState, t: LifecycleState, r: RequestId, entry: Entry) {
    t.queue == s.queue && t.entries == s.entries[r := entry]
  }

  /** A request enters the registry RECEIVED or VALIDATED and bare, where there is room. */
  lemma RegistrationOutcome(cfg: LifecycleConfig, s: LifecycleState, r: RequestId, request: InferenceRequest,
                            arrivalTime: Time, initial: RequestState)
    ensures var (t, error) := Register(cfg, s, r, request, arrivalTime, initial);
      && (error.None? <==> initial in {Received, Validated} && |s.entries| < cfg.maxEntries)
      && (error.None? ==> OnlyEntry(s, t, r, Entry(request, arrivalTime, initial, None, None, None, None)))
      && (error.Some? ==> t == s)
      && (error.Some? ==> error.value == if initial in {Received, Validated} then RegistryFull
                                         else InvalidTransition(r, Received, initial))
  {
  }

  /** Admission decides a VALIDATED request and raises for any other; a refusal without a text has a default one. */
  lemma AdmissionOutcome(s: LifecycleState, r: RequestId, verdict: LifecycleSpec.Verdict)
    requires r in s.entries
    ensures var (t, error) := RunAdmission(s, r, verdict);
      if s.entries[r].state != Validated then t
          == s && error == Some(InvalidTransition(r, s.entries[r].state, Admitted))
      else
        && error == None
        && OnlyEntry(s, t, r,
                     match verdict
                     case Accept => s.entries[r].(state := Admitted)
                     case Refuse(reason) =>
                       s.entries[r].(state := Rejected,
                                     failure := Some((FailureReason.QueueFull,
                                                      if reason in {None, Some("")} then "admission rejected"
                                                      else reason.value))))
  {
    EntriesIntoStates(Validated);
  }

  /** Only a SUBMITTED or STREAMING request is completed, although the table would allow it from DECODING too. */
  lemma CompletionOutcome(s: LifecycleState, r: RequestId, completion: Option<Completion>)
    requires r in s.entries
    ensures var (t, error) := CompleteRequest(s, r, completion);
      if s.entries[r].state in {Submitted, Streaming} then
        && error == None
        && OnlyEntry(s, t, r, s.entries[r].(state := RequestState.Completed,
                                            completion := if completion == None then s.entries[r].completion
                                                          else completion))
      else t == s && error == Some(InvalidTransition(r, s.entries[r].state, RequestState.Completed))
  {
    EntriesIntoStates(s.entries[r].state);
  }

  /** A registered request is failed from any state, with the reason and the ids that were passed. */
  lemma FailureOutcome(s: LifecycleState, r: RequestId, reason: FailureReason, message: string,
                       batchId: Option<BatchId>, backendId: Option<BackendName>)
    requires r in s.entries
    ensures var (t, error) := MarkFailed(s, r, reason, message, batchId, backendId);
      && error == None
      && OnlyEntry(s, t, r, s.entries[r].(state := Failed, failure := Some((reason, message)),
                                          batchId := if batchId == None then s.entries[r].batchId else batchId,
                                          backendId := if backendId == None then s.entries[r].backendId else backendId))
  {
  }

  /** No call on an id that is not registered changes anything. */
  lemma UnknownRequest(cfg: LifecycleConfig, s: LifecycleState, r: RequestId, to: RequestState,
                       verdict: LifecycleSpec.Verdict, completion: Option<Completion>, expireAt: Time, now: Time)
    requires r !in s.entries
    ensures TransitionRequest(s, r, to, None, None) == (s, Some(NotFound(r)))
    ensures RunAdmission(s, r, verdict) == (s, Some(NotFound(r)))
    ensures EnqueueFromAdmitted(cfg, s, r, expireAt, now) == (s, Some(NotFound(r)))
    ensures CompleteRequest(s, r, completion) == (s, Some(NotFound(r)))
    ensures MarkFailed(s, r, InternalError, "", None, None) == (s, Some(NotFound(r)))
  {
  }

  /** A request that times out ends TIMED_OUT with this reason and text, and keeps the rest of its entry. */
  lemma TimeoutOutcome(cfg: LifecycleConfig, s: LifecycleState, now: Time, r: RequestId, item: QueueItem)
    requires r in s.entries && item in s.queue && item.requestId == r && now - item.enqueuedAt > cfg.queue.timeoutMs
    ensures var t := ProcessTimeouts(cfg, s, now);
      && r in t.entries
      && t.entries[r] == s.entries[r].(state := RequestState.TimedOut,
                                       failure := Some((QueueTimeout, "queue wait timeout exceeded")))
  {
    var expired := Expired(cfg.queue, s.queue, now);
    FilterMembers(Overdue(cfg.queue, now), s.queue);
    assert item in expired;
    var i :| 0 <= i < |expired| && expired[i] == item;
    assert expired[i].requestId == r;
    TimeOutAllForm(s.entries, expired);
  }

  /** An enqueue is for ADMITTED requests only. */
  lemma EnqueueNeedsAdmission(cfg: LifecycleConfig, s: LifecycleState, r: RequestId, expireAt: Time, now: Time)
    requires r in s.entries && s.entries[r].state != Admitted
    ensures EnqueueFromAdmitted(cfg, s, r, expireAt, now) == (s, Some(NotAdmitted(r)))
  {
  }

  /**
   A second submission of an id that still waits in the queue: its new record, once admitted, ends FAILED, while the
   item keeps its place.
   */
  lemma ResubmissionFails(cfg: LifecycleConfig, s: LifecycleState, x: Submission)
    requires |s.entries| < cfg.maxEntries && x.verdict.Accept? && InQueue(StillListed(cfg, s, x), x.requestId)
    ensures var (t, error) := ProcessThroughQueued(cfg, s, x);
      && error == None && t.queue == StillListed(cfg, s, x)
      && x.requestId in t.entries
      && t.entries[x.requestId] == Entry(x.request, x.arrivalTime, RequestState.Failed, None, None,
                                         Some((InternalError, "control plane error")), None)
  {
    var r, base := x.requestId, ProcessTimeouts(cfg, s, x.timeoutsAt);
    TimeOutAllForm(s.entries, Expired(cfg.queue, s.queue, x.timeoutsAt));
    assert |base.entries| == |base.entries.Keys| == |s.entries.Keys| == |s.entries|;
    var admitted := WithEntry(base, r, Entry(x.request, x.arrivalTime, Admitted, None, None, None, None));
    AdmissionOfFresh(cfg, base, x, admitted);
    var rest := Remaining(cfg.queue, base.queue, x.expireAt);
    var item :| item in rest && item.requestId == r;
    var i :| 0 <= i < |rest| && rest[i] == item;
    assert Contains(rest, r);
    assert EnqueueFromAdmitted(cfg, admitted, r, x.expireAt, x.queuedAt)
        == (admitted.(queue := rest), Some(DuplicateInQueue(r)));
  }

  /** The queue once both expiries of a submission are done. */
  function StillListed(cfg: LifecycleConfig, s: LifecycleState, x: Submission): seq<QueueItem> {
    Remaining(cfg.queue, Remaining(cfg.queue, s.queue, x.timeoutsAt), x.expireAt)
  }

  lemma AdmissionOfFresh(cfg: LifecycleConfig, base: LifecycleState, x: Submission, admitted: LifecycleState)
    requires |base.entries| < cfg.maxEntries && x.verdict.Accept?
    requires admitted == WithEntry(base, x.requestId, Entry(x.request, x.arrivalTime, Admitted, None, None, None, None))
    ensures var r := x.requestId;
      var registered := Register(cfg, base, r, x.request, x.arrivalTime, Received);
      && registered.1 == None
      && var validated := TransitionRequest(registered.0, r, Validated, None, None);
         && validated.1 == None && RunAdmission(validated.0, r, x.verdict) == (admitted, None)
  {
    var r := x.requestId;
    var registered := Register(cfg, base, r, x.request, x.arrivalTime, Received).0;
    var validated := TransitionRequest(registered, r, Validated, None, None).0;
    assert validated == WithEntry(base, r, Entry(x.request, x.arrivalTime, Validated, None, None, None, None));
    assert RunAdmission(validated, r, x.verdict).0.entries == admitted.entries;
  }

  /**
   The enqueue of an ADMITTED request drops what is overdue; an id still in the queue raises, a full queue rejects the
   request, and else it is QUEUED behind the others, entering now, in the class it asked for or in the standard one.
   */
  lemma EnqueueOutcome(cfg: LifecycleConfig, s: LifecycleState, r: RequestId, expireAt: Time, now: Time)
    requires r in s.entries && s.entries[r].state == Admitted
    ensures var (t, error) := EnqueueFromAdmitted(cfg, s, r, expireAt, now);
      var entry, rest := s.entries[r], Filter((x: QueueItem) => expireAt - x.enqueuedAt <= cfg.queue.timeoutMs,
                                              s.queue);
      if InQueue(rest, r) then t == s.(queue := rest) && error == Some(DuplicateInQueue(r))
      else
        && error == None
        && if |rest| >= cfg.queue.maxSize then
             && t.queue == rest
             && t.entries
                 == s.entries[r := entry.(state := Rejected, failure := Some((FailureReason.QueueFull, "queue_full")))]
           else
             && t.queue == rest + [QueueItem(r, entry.request, entry.arrivalTime, now,
                                             match entry.request.priorityClass
                                             case Some(asked) => asked
                                             case None => Standard)]
             && t.entries == s.entries[r := entry.(state := Queued)]
  {
    EnqueueReturns(cfg.queue, s.queue, QueuedItem(r, s.entries[r], now), expireAt);
  }
}
