/**
 The request lifecycle as operations on the registry and the waiting queue, and which of its writes follow the table.
 */
module LifecycleSpec {
  import opened Wrappers
  import opened Schemas
  import opened RequestStates
  import opened Registry
  import opened WaitingQueueSpec

  datatype LifecycleConfig = LifecycleConfig(maxEntries: nat, queue: QueueConfig)

  datatype LifecycleState = LifecycleState(entries: Entries, queue: seq<QueueItem>)

  datatype LifecycleError =
    | NotFound(requestId: RequestId)
    | InvalidTransition(requestId: RequestId, from: RequestState, to: RequestState)
    | RegistryFull
    | NotAdmitted(requestId: RequestId)
    | DuplicateInQueue(requestId: RequestId)

  /** The state after a call, and the exception it raised, if any. */
  type Outcome = (LifecycleState, Option<LifecycleError>)

  datatype Verdict = Accept | Refuse(reason: Option<string>)

  function WithEntry(s: LifecycleState, r: RequestId, entry: Entry): LifecycleState {
    s.(entries := s.entries[r := entry])
  }

  /** Writes the ids that were passed; an id that was not passed stays. */
  function WithIds(entry: Entry, batchId: Option<BatchId>, backendId: Option<BackendName>): Entry {
    entry.(batchId := if batchId.Some? then batchId else entry.batchId,
           backendId := if backendId.Some? then backendId else entry.backendId)
  }

  function Register(cfg: LifecycleConfig, s: LifecycleState, r: RequestId, request: InferenceRequest, arrivalTime: Time,
                    initial: RequestState): Outcome
  {
    if initial !in {Received, Validated} then (s, Some(InvalidTransition(r, Received, initial)))
    else if |s.entries| >= cfg.maxEntries then (s, Some(RegistryFull))
    else (WithEntry(s, r, Entry(request, arrivalTime, initial, None, None, None, None)), None)
  }

  /** The ids are written before the transition is checked. */
  function TransitionRequest(s: LifecycleState, r: RequestId, to: RequestState, batchId: Option<BatchId>,
                             backendId: Option<BackendName>): Outcome
  {
    if r !in s.entries then (s, Some(NotFound(r)))
    else
      var entry := WithIds(s.entries[r], batchId, backendId);
      if IsAllowed(entry.state, to) then (WithEntry(s, r, entry.(state := to)), None)
      else (WithEntry(s, r, entry), Some(InvalidTransition(r, entry.state, to)))
  }

  function RejectionMessage(reason: Option<string>): string {
    if reason.Some? && reason.value != "" then reason.value else "admission rejected"
  }

  function RunAdmission(s: LifecycleState, r: RequestId, verdict: Verdict): Outcome {
    if r !in s.entries then (s, Some(NotFound(r)))
    else
      var entry := s.entries[r];
      if !entry.state.Validated? then (s, Some(InvalidTransition(r, entry.state, Admitted)))
      else
        match verdict
        case Accept => TransitionRequest(s, r, Admitted, None, None)
        case Refuse(reason) =>
          var failure := Some((FailureReason.QueueFull, RejectionMessage(reason)));
          (WithEntry(s, r, entry.(state := Rejected, failure := failure)), None)
  }

  function QueuedItem(r: RequestId, entry: Entry, now: Time): QueueItem {
    QueueItem(r, entry.request, entry.arrivalTime, now,
              if entry.request.priorityClass.Some? then entry.request.priorityClass.value else Standard)
  }

  function EnqueueFromAdmitted(cfg: LifecycleConfig, s: LifecycleState, r: RequestId, expireAt: Time, now: Time)
    : Outcome
  {
    if r !in s.entries then (s, Some(NotFound(r)))
    else
      var entry := s.entries[r];
      if !entry.state.Admitted? then (s, Some(NotAdmitted(r)))
      else
        var (items, outcome) := Enqueue(cfg.queue, s.queue, QueuedItem(r, entry, now), expireAt);
        var t := s.(queue := items);
        match outcome
        case Enqueued(_) => (WithEntry(t, r, entry.(state := Queued)), None)
        case AlreadyQueued => (t, Some(DuplicateInQueue(r)))
        case QueueFull =>
          (WithEntry(t, r, entry.(state := Rejected, failure := Some((FailureReason.QueueFull, "queue_full")))), None)
  }

  /** Writes the completion that was passed; without one the entry stays. */
  function WithCompletion(entry: Entry, completion: Option<Completion>): Entry {
    if completion.Some? then entry.(completion := completion) else entry
  }

  function CompleteRequest(s: LifecycleState, r: RequestId, completion: Option<Completion>): Outcome {
    if r !in s.entries then (s, Some(NotFound(r)))
    else if s.entries[r].state !in {Submitted, Streaming} then
      (s, Some(InvalidTransition(r, s.entries[r].state, RequestState.Completed)))
    else
      TransitionRequest(WithEntry(s, r, WithCompletion(s.entries[r], completion)), r, RequestState.Completed, None,
                        None)
  }

  /** Fails the request whatever its state. */
  function MarkFailed(s: LifecycleState, r: RequestId, reason: FailureReason, message: string, batchId: Option<BatchId>,
                      backendId: Option<BackendName>): Outcome
  {
    if r !in s.entries then (s, Some(NotFound(r)))
    else
      var failed := WithIds(s.entries[r], batchId, backendId).(state := Failed, failure := Some((reason, message)));
      (WithEntry(s, r, failed), None)
  }

  const TIMEOUT_MESSAGE := "queue wait timeout exceeded"

  function TimeOut(entry: Entry): Entry {
    entry.(state := RequestState.TimedOut, failure := Some((QueueTimeout, TIMEOUT_MESSAGE)))
  }

  function TimeOutAll(entries: Entries, expired: seq<QueueItem>): Entries {
    if expired == [] then entries
    else
      var before, r := TimeOutAll(entries, expired[..|expired| - 1]), expired[|expired| - 1].requestId;
      if r in before then before[r := TimeOut(before[r])] else before
  }

  /** Every expired request is timed out, whatever its state. */
  function ProcessTimeouts(cfg: LifecycleConfig, s: LifecycleState, now: Time): LifecycleState {
    LifecycleState(TimeOutAll(s.entries, Expired(cfg.queue, s.queue, now)), Remaining(cfg.queue, s.queue, now))
  }

  /** The inputs of one submission: the request, the admission verdict, and the clock readings in order. */
  datatype Submission = Submission(
    requestId: RequestId,
    request: InferenceRequest,
    arrivalTime: Time,
    verdict: Verdict,
    timeoutsAt: Time,
    expireAt: Time,
    queuedAt: Time
  )

  const CONTROL_PLANE_ERROR := "control plane error"

  /** An exception other than an invalid transition marks the request failed. */
  function FailOnError(outcome: Outcome, r: RequestId): Outcome {
    if outcome.1.None? || outcome.1.value.InvalidTransition? then outcome
    else MarkFailed(outcome.0, r, InternalError, CONTROL_PLANE_ERROR, None, None)
  }

  /** The path of a registered request to the queue. */
  function FromReceived(cfg: LifecycleConfig, s: LifecycleState, x: Submission): Outcome {
    var r := x.requestId;
    var validated := TransitionRequest(s, r, Validated, None, None);
    if validated.1.Some? then FailOnError(validated, r)
    else
      var admitted := RunAdmission(validated.0, r, x.verdict);
      if admitted.1.Some? then FailOnError(admitted, r)
      else if admitted.0.entries[r].state.Rejected? then admitted
      else FailOnError(EnqueueFromAdmitted(cfg, admitted.0, r, x.expireAt, x.queuedAt), r)
  }

  function ProcessThroughQueued(cfg: LifecycleConfig, s: LifecycleState, x: Submission): Outcome {
    var registered := Register(cfg, ProcessTimeouts(cfg, s, x.timeoutsAt), x.requestId, x.request, x.arrivalTime,
                               Received);
    if registered.1.Some? then FailOnError(registered, x.requestId) else FromReceived(cfg, registered.0, x)
  }

  lemma EnqueueKeepsEntries(cfg: LifecycleConfig, s: LifecycleState, r: RequestId, expireAt: Time, now: Time)
    ensures EnqueueFromAdmitted(cfg, s, r, expireAt, now).0.entries.Keys == s.entries.Keys
  {
  }

  /** Where the path to the queue does not raise, the request is registered. */
  lemma SubmittedIsRegistered(cfg: LifecycleConfig, s: LifecycleState, x: Submission)
    requires ProcessThroughQueued(cfg, s, x).1.None?
    ensures x.requestId in ProcessThroughQueued(cfg, s, x).0.entries
  {
    var r := x.requestId;
    var registered := Register(cfg, ProcessTimeouts(cfg, s, x.timeoutsAt), r, x.request, x.arrivalTime, Received);
    if registered.1.None? {
      var validated := TransitionRequest(registered.0, r, Validated, None, None);
      var admitted := RunAdmission(validated.0, r, x.verdict);
      EnqueueKeepsEntries(cfg, admitted.0, r, x.expireAt, x.queuedAt);
    }
  }

  // ---- The writes of one call ----

  datatype LifecycleEvent =
    | RegisterEvent(requestId: RequestId, request: InferenceRequest, arrivalTime: Time, initial: RequestState)
    | TransitionEvent(requestId: RequestId, to: RequestState, batchId: Option<BatchId>, backendId: Option<BackendName>)
    | AdmissionEvent(requestId: RequestId, verdict: Verdict)
    | EnqueueEvent(requestId: RequestId, expireAt: Time, now: Time)
    | CompleteEvent(requestId: RequestId, completion: Option<Completion>)

  function LifecycleStep(cfg: LifecycleConfig, s: LifecycleState, e: LifecycleEvent): Outcome {
    match e
    case RegisterEvent(r, request, arrivalTime, initial) => Register(cfg, s, r, request, arrivalTime, initial)
    case TransitionEvent(r, to, batchId, backendId) => TransitionRequest(s, r, to, batchId, backendId)
    case AdmissionEvent(r, verdict) => RunAdmission(s, r, verdict)
    case EnqueueEvent(r, expireAt, now) => EnqueueFromAdmitted(cfg, s, r, expireAt, now)
    case CompleteEvent(r, completion) => CompleteRequest(s, r, completion)
  }

  /** The entry is as it was, or moved along one edge of the table. */
  ghost predicate EntryFollowsTable(before: Entry, after: Entry) {
    before.state == after.state || IsAllowed(before.state, after.state)
  }

  ghost predicate FollowsTableStep(s: LifecycleState, t: LifecycleState) {
    forall r :: r in s.entries ==> r in t.entries && EntryFollowsTable(s.entries[r], t.entries[r])
  }

  /** Every state written by these operations, including the writes that bypass the check, is an edge of the table. */
  lemma WritesFollowTable(cfg: LifecycleConfig, s: LifecycleState, e: LifecycleEvent)
    requires e.RegisterEvent? ==> e.requestId !in s.entries
    ensures FollowsTableStep(s, LifecycleStep(cfg, s, e).0)
  {
    assert IsAllowed(Validated, Rejected) && IsAllowed(Admitted, Rejected) && IsAllowed(Admitted, Queued);
  }

  // ---- Runs ----

  ghost predicate LifecycleStepAt(cfg: LifecycleConfig, states: seq<LifecycleState>, events: seq<LifecycleEvent>,
                                  i: nat)
    requires |states| == |events| + 1 && i < |events|
  {
    && states[i + 1] == LifecycleStep(cfg, states[i], events[i]).0
    && (events[i].RegisterEvent? ==> events[i].requestId !in states[i].entries)
  }

  /** A run in which every registered id is fresh. */
  ghost predicate IsLifecycleRun(cfg: LifecycleConfig, states: seq<LifecycleState>, events: seq<LifecycleEvent>) {
    && |states| == |events| + 1
    && states[0].entries == map[]
    && forall i :: 0 <= i < |events| ==> LifecycleStepAt(cfg, states, events, i)
  }

  /** How often the state of r changed up to the last of these states. */
  function Changes(states: seq<LifecycleState>, r: RequestId): nat {
    if |states| <= 1 then 0
    else
      var last, before := states[|states| - 1], states[|states| - 2];
      Changes(states[..|states| - 1], r)
      + (if r in before.entries && r in last.entries && before.entries[r].state != last.entries[r].state then 1 else 0)
  }

  lemma {:induction false} ChangesWithinRank(cfg: LifecycleConfig, states: seq<LifecycleState>,
                                             events: seq<LifecycleEvent>, k: nat, r: RequestId)
    requires IsLifecycleRun(cfg, states, events) && k < |states|
    ensures r !in states[k].entries ==> Changes(states[..k + 1], r) == 0
    ensures r in states[k].entries ==> Changes(states[..k + 1], r) <= Rank(states[k].entries[r].state)
    decreases k
  {
    if k > 0 {
      ChangesWithinRank(cfg, states, events, k - 1, r);
      assert LifecycleStepAt(cfg, states, events, k - 1);
      assert states[..k + 1][..k] == states[..k];
      WritesFollowTable(cfg, states[k - 1], events[k - 1]);
      if r in states[k - 1].entries && states[k - 1].entries[r].state != states[k].entries[r].state {
        EdgesRaiseRank(states[k - 1].entries[r].state, states[k].entries[r].state);
      }
    }
  }

  /** Over any run each request changes state at most nine times. */
  lemma AtMostNineChanges(cfg: LifecycleConfig, states: seq<LifecycleState>, events: seq<LifecycleEvent>, r: RequestId)
    requires IsLifecycleRun(cfg, states, events)
    ensures Changes(states, r) <= MAX_RANK
  {
    ChangesWithinRank(cfg, states, events, |events|, r);
    assert states[..|states|] == states;
  }

  /** Over any run a request in a terminal state stays in it. */
  lemma {:induction false} TerminalIsAbsorbing(cfg: LifecycleConfig, states: seq<LifecycleState>,
                                               events: seq<LifecycleEvent>, i: nat, j: nat, r: RequestId)
    requires IsLifecycleRun(cfg, states, events) && i <= j < |states|
    requires r in states[i].entries && IsTerminal(states[i].entries[r].state)
    ensures r in states[j].entries && states[j].entries[r].state == states[i].entries[r].state
    decreases j
  {
    if i < j {
      TerminalIsAbsorbing(cfg, states, events, i, j - 1, r);
      assert LifecycleStepAt(cfg, states, events, j - 1);
      WritesFollowTable(cfg, states[j - 1], events[j - 1]);
    }
  }

  // ---- The writes that do not follow the table ----

  /** `mark_failed` moves along the table exactly when the request was neither terminal nor VALIDATED. */
  lemma MarkFailedFollowsTable(s: LifecycleState, r: RequestId, reason: FailureReason, message: string,
                               batchId: Option<BatchId>, backendId: Option<BackendName>)
    requires r in s.entries
    ensures var t := MarkFailed(s, r, reason, message, batchId, backendId).0;
      IsAllowed(s.entries[r].state, t.entries[r].state) <==>
        !IsTerminal(s.entries[r].state) && !s.entries[r].state.Validated?
  {
  }

  /** A completed request can be marked failed. */
  lemma MarkFailedOverwritesCompleted(s: LifecycleState, r: RequestId)
    requires r in s.entries && s.entries[r].state == RequestState.Completed
    ensures var t := MarkFailed(s, r, InternalError, "late failure", None, None).0;
      t.entries[r].state == Failed && !FollowsTableStep(s, t)
  {
    var t := MarkFailed(s, r, InternalError, "late failure", None, None).0;
    assert !EntryFollowsTable(s.entries[r], t.entries[r]);
  }

  lemma {:induction false} TimeOutAllForm(entries: Entries, expired: seq<QueueItem>)
    ensures TimeOutAll(entries, expired).Keys == entries.Keys
    ensures forall r :: r in entries ==>
      TimeOutAll(entries, expired)[r] == if Contains(expired, r) then TimeOut(entries[r]) else entries[r]
  {
    if expired != [] {
      var init, last := expired[..|expired| - 1], expired[|expired| - 1];
      TimeOutAllForm(entries, init);
      forall r | r in entries ensures Contains(expired, r) <==> Contains(init, r) || last.requestId == r {
        if Contains(init, r) {
          var i :| 0 <= i < |init| && init[i].requestId == r;
          assert expired[i].requestId == r;
        }
        if last.requestId == r {
          assert expired[|expired| - 1].requestId == r;
        }
      }
    }
  }

  /** The requests whose items expire at this time. */
  ghost predicate Expires(cfg: LifecycleConfig, s: LifecycleState, now: Time, r: RequestId) {
    Contains(Expired(cfg.queue, s.queue, now), r)
  }

  /**
   `process_timeouts` times out exactly the expired requests, and follows the table exactly when each of them was
   QUEUED, SCHEDULED, PREFILLING or DECODING, or timed out already.
   */
  lemma TimeoutsFollowTable(cfg: LifecycleConfig, s: LifecycleState, now: Time)
    ensures var t := ProcessTimeouts(cfg, s, now);
      && t.entries.Keys == s.entries.Keys
      && (forall r :: r in s.entries && Expires(cfg, s, now, r) ==> t.entries[r] == TimeOut(s.entries[r]))
      && (forall r :: r in s.entries && !Expires(cfg, s, now, r) ==> t.entries[r] == s.entries[r])
      && (FollowsTableStep(s, t) <==>
            forall r :: r in s.entries && Expires(cfg, s, now, r) ==>
              s.entries[r].state in {Queued, Scheduled, Prefilling, Decoding, RequestState.TimedOut})
  {
    TimeOutAllForm(s.entries, Expired(cfg.queue, s.queue, now));
    var t := ProcessTimeouts(cfg, s, now);
    forall r | r in s.entries && Expires(cfg, s, now, r)
      ensures EntryFollowsTable(s.entries[r], t.entries[r]) <==>
              s.entries[r].state in {Queued, Scheduled, Prefilling, Decoding, RequestState.TimedOut}
    {
      assert t.entries[r] == TimeOut(s.entries[r]);
    }
  }

  // ---- From SUBMITTED on ----

  /** The calls of the streaming path on a SUBMITTED request raise nothing and complete it. */
  lemma StreamedRequestCompletes(s: LifecycleState, r: RequestId, completion: Option<Completion>)
    requires r in s.entries && s.entries[r].state == Submitted
    ensures var streaming := TransitionRequest(s, r, Streaming, None, None);
      && streaming == (WithEntry(s, r, s.entries[r].(state := Streaming)), None)
      && var done := CompleteRequest(streaming.0, r, completion);
         && done.1 == None && done.0.queue == s.queue
         && done.0.entries
            == s.entries[r := s.entries[r].(state := RequestState.Completed,
                                            completion := if completion.Some? then completion
                                                          else s.entries[r].completion)]
  {
    EntriesIntoStates(Submitted);
    EntriesIntoStates(Streaming);
  }

  /** Whatever is not terminal can be cancelled, so also a SUBMITTED or STREAMING request; the ids passed are kept. */
  lemma LiveRequestCancels(s: LifecycleState, r: RequestId, batchId: Option<BatchId>, backendId: Option<BackendName>)
    requires r in s.entries
    ensures var (t, error) := TransitionRequest(s, r, Cancelled, batchId, backendId);
      && (error.None? <==>
            s.entries[r].state !in {RequestState.Completed, Failed, RequestState.TimedOut, Rejected, Cancelled})
      && t.entries.Keys == s.entries.Keys && t.queue == s.queue
      && t.entries[r].state == (if error.None? then Cancelled else s.entries[r].state)
      && t.entries[r].batchId == (if batchId.Some? then batchId else s.entries[r].batchId)
      && t.entries[r].backendId == (if backendId.Some? then backendId else s.entries[r].backendId)
      && (error.Some? ==> error == Some(InvalidTransition(r, s.entries[r].state, Cancelled)))
  {
    EntriesIntoStates(s.entries[r].state);
  }
}
