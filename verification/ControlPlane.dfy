/** The control plane with its mutable records: registry, queue service and lifecycle manager. */
module ControlPlane {
  import opened Wrappers
  import opened Schemas
  import opened RequestStates
  import opened Registry
  import opened WaitingQueueSpec
  import opened WaitingQueue
  import opened LifecycleSpec

  class InMemoryRequestRegistry {
    const maxEntries: nat
    var entries: map<RequestId, RegisteredRequest>

    constructor (maxEntries: nat)
      ensures this.maxEntries == maxEntries && entries == map[] && Valid()
    {
      this.maxEntries, entries := maxEntries, map[];
    }

    ghost function Values(): Entries
      reads this, entries.Values`state, entries.Values`batchId, entries.Values`backendId, entries.Values`failure
      reads entries.Values`completion
    {
      map r | r in entries :: entries[r].Value()
    }

    /** Every record is kept under its own id. */
    ghost predicate Valid()
      reads this
    {
      forall r :: r in entries ==> entries[r].requestId == r
    }

    twostate lemma OneEntryChanged(r: RequestId)
      requires old(Valid()) && entries == old(entries) && r in entries
      requires forall q :: q in entries && q != r ==> entries[q].Value() == old(entries[q].Value())
      ensures Values() == old(Values())[r := entries[r].Value()]
    {
    }

    twostate lemma EntryAdded(r: RequestId, new entry: RegisteredRequest)
      requires entries == old(entries)[r := entry]
      requires forall q :: q in old(entries) && q != r ==> old(entries)[q].Value() == old(entries[q].Value())
      ensures Values() == old(Values())[r := entry.Value()]
    {
    }

    lemma SameSize()
      ensures |Values()| == |entries|
    {
      assert Values().Keys == entries.Keys;
      assert |Values().Keys| == |Values()| && |entries.Keys| == |entries|;
    }

    twostate lemma ValuesKept()
      requires entries == old(entries)
      requires forall q :: q in entries ==> entries[q].Value() == old(entries[q].Value())
      ensures Values() == old(Values())
    {
    }

    method Register(entry: RegisteredRequest) returns (full: bool)
      requires Valid()
      modifies this`entries
      ensures Valid() && full == (old(|entries|) >= maxEntries)
      ensures entries == if full then old(entries) else old(entries)[entry.requestId := entry]
    {
      if |entries| >= maxEntries {
        return true;
      }
      entries := entries[entry.requestId := entry];
      return false;
    }
  }

  class QueueService {
    const registry: InMemoryRequestRegistry
    const ops: QueueOperations

    constructor (registry: InMemoryRequestRegistry, ops: QueueOperations)
      requires registry.Valid() && ops.Valid() && ops.items == []
      ensures this.registry == registry && this.ops == ops && Valid()
    {
      this.registry, this.ops := registry, ops;
    }

    function Config(): LifecycleConfig {
      LifecycleConfig(registry.maxEntries, ops.cfg)
    }

    ghost function State(): LifecycleState
      reads registry, registry.entries.Values`state, registry.entries.Values`batchId, registry.entries.Values`backendId
      reads registry.entries.Values`failure, registry.entries.Values`completion, ops
    {
      LifecycleState(registry.Values(), ops.Contents())
    }

    /** The records in the queue are those of the registry. */
    ghost predicate Linked()
      reads registry, ops
    {
      forall q :: q in ops.items ==> q.requestId in registry.entries && registry.entries[q.requestId] == q.entry
    }

    ghost predicate Valid()
      reads registry, ops, ops.Records(), ops.QueuedEntries()
    {
      registry.Valid() && ops.Valid() && Linked()
    }

    /** The two writes of a direct state change: the failure, if there is one, and the state. */
    method WriteEntry(entry: RegisteredRequest, state: RequestState, failure: Option<(FailureReason, string)>)
      requires Valid() && entry.requestId in registry.entries && registry.entries[entry.requestId] == entry
      modifies entry`state, entry`failure
      ensures Valid()
      ensures State()
           == WithEntry(old(State()), entry.requestId, old(entry.Value()).(state := state, failure := failure))
    {
      entry.state := state;
      entry.failure := failure;
      registry.OneEntryChanged(entry.requestId);
      ops.StillValid();
    }

    method EnqueueFromAdmitted(r: RequestId, expireAt: Time, now: Time) returns (error: Option<LifecycleError>)
      requires Valid()
      modifies registry.entries.Values, ops, ops.Records()`position
      ensures Valid() && registry.entries == old(registry.entries)
      ensures (State(), error) == LifecycleSpec.EnqueueFromAdmitted(Config(), old(State()), r, expireAt, now)
      ensures forall q :: q in ops.items ==> q in old(ops.items) || fresh(q)
    {
      if r !in registry.entries {
        return Some(NotFound(r));
      }
      var entry := registry.entries[r];
      if entry.state != Admitted {
        return Some(NotAdmitted(r));
      }
      ghost var before := State();
      var outcome := ops.Enqueue(entry, expireAt, now);
      registry.ValuesKept();
      assert State().entries == before.entries;
      match outcome
      case AlreadyQueued => error := Some(DuplicateInQueue(r));
      case QueueFull =>
        WriteEntry(entry, RequestState.Rejected, Some((FailureReason.QueueFull, "queue_full")));
        error := None;
      case Enqueued(_) =>
        WriteEntry(entry, RequestState.Queued, entry.failure);
        error := None;
    }

    /** The record is one of the registry. */
    ghost predicate Registered(q: QueuedRequest)
      reads registry
    {
      q.requestId == q.entry.requestId && q.requestId in registry.entries && registry.entries[q.requestId] == q.entry
    }

    method TimeOutRecords(expired: seq<QueuedRequest>)
      requires Valid() && forall q :: q in expired ==> Registered(q)
      modifies registry.entries.Values`state, registry.entries.Values`failure
      ensures Valid()
      ensures State() == LifecycleState(TimeOutAll(old(registry.Values()), QueueItems(expired)), old(ops.Contents()))
    {
      ghost var before, overdue := State(), QueueItems(expired);
      for i := 0 to |expired|
        invariant Valid()
        invariant State() == before.(entries := TimeOutAll(before.entries, overdue[..i]))
      {
        assert overdue[..i + 1][..i] == overdue[..i] && overdue[i].requestId == expired[i].requestId;
        assert Registered(expired[i]);
        WriteEntry(expired[i].entry, RequestState.TimedOut, Some((QueueTimeout, TIMEOUT_MESSAGE)));
      }
      assert overdue[..|expired|] == overdue;
    }

    method ProcessTimeouts(now: Time)
      requires Valid()
      modifies registry.entries.Values, ops, ops.Records()`position
      ensures Valid() && registry.entries == old(registry.entries)
      ensures State() == LifecycleSpec.ProcessTimeouts(Config(), old(State()), now)
      ensures forall q :: q in ops.items ==> q in old(ops.items)
    {
      var expired := ops.ExpireTimeouts(now);
      registry.ValuesKept();
      TimeOutRecords(expired);
    }
  }

  class LifecycleManager {
    const registry: InMemoryRequestRegistry
    const queue: QueueService

    constructor (registry: InMemoryRequestRegistry, queue: QueueService)
      requires queue.registry == registry && queue.Valid()
      ensures this.registry == registry && this.queue == queue && Valid()
    {
      this.registry, this.queue := registry, queue;
    }

    ghost predicate Valid()
      reads registry, queue.registry, queue.ops, queue.ops.Records(), queue.ops.QueuedEntries()
    {
      queue.registry == registry && queue.Valid()
    }

    /** The objects of the control plane. */
    ghost function Footprint(): set<object>
      reads registry, queue.ops
    {
      {registry, queue.ops} + (set r | r in registry.entries :: registry.entries[r]) + (set q | q in queue.ops.items)
    }

    /** None of these objects belongs to the control plane. */
    ghost predicate Outside(others: set<object>)
      reads registry, queue.ops
    {
      && registry !in others && queue.ops !in others
      && (forall r :: r in registry.entries ==> registry.entries[r] !in others)
      && (forall q :: q in queue.ops.items ==> q !in others)
    }

    /** The control plane is as it was when none of its objects was written. */
    twostate lemma Untouched()
      requires old(Valid()) && forall o :: o in old(Footprint()) ==> unchanged(o)
      ensures Valid() && queue.State() == old(queue.State())
    {
      assert registry in old(Footprint()) && queue.ops in old(Footprint());
      forall r | r in registry.entries ensures registry.entries[r].Value() == old(registry.entries[r].Value()) {
        assert registry.entries[r] in old(Footprint());
      }
      registry.ValuesKept();
      forall i | 0 <= i < |queue.ops.items|
        ensures queue.ops.items[i].position == old(queue.ops.items[i].position)
        ensures queue.ops.items[i].entry.queuePosition == old(queue.ops.items[i].entry.queuePosition)
      {
        assert queue.ops.items[i] in old(Footprint());
        assert registry.entries[queue.ops.items[i].requestId] in old(Footprint());
      }
      queue.ops.StillValid();
    }

    /** Keeps the queue valid when only fields that the lifecycle owns were written. */
    method WriteIds(entry: RegisteredRequest, batchId: Option<BatchId>, backendId: Option<BackendName>)
      requires Valid() && entry.requestId in registry.entries && registry.entries[entry.requestId] == entry
      modifies entry`batchId, entry`backendId
      ensures Valid()
      ensures queue.State()
           == WithEntry(old(queue.State()), entry.requestId, WithIds(old(entry.Value()), batchId, backendId))
    {
      if batchId.Some? {
        entry.batchId := batchId;
      }
      if backendId.Some? {
        entry.backendId := backendId;
      }
      registry.OneEntryChanged(entry.requestId);
      queue.ops.StillValid();
    }

    /**
     An id that is registered already gets a new record; the queue then needs it not to be waiting under the old one.
     */
    method Register(r: RequestId, request: InferenceRequest, arrivalTime: Time, initial: RequestState)
      returns (error: Option<LifecycleError>)
      requires Valid()
      modifies registry`entries
      ensures !Contains(queue.ops.Contents(), r) ==> Valid()
      ensures registry.Valid() && queue.ops.Valid() && queue.ops.Contents() == old(queue.ops.Contents())
      ensures (queue.State(), error)
           == LifecycleSpec.Register(queue.Config(), old(queue.State()), r, request, arrivalTime, initial)
      ensures error.Some? ==> registry.entries == old(registry.entries) && Valid()
      ensures error.None? ==>
        && r in registry.entries && fresh(registry.entries[r])
        && registry.entries == old(registry.entries)[r := registry.entries[r]]
    {
      registry.SameSize();
      if initial !in {Received, Validated} {
        return Some(InvalidTransition(r, Received, initial));
      }
      var entry := new RegisteredRequest(r, request, arrivalTime, initial);
      var full := registry.Register(entry);
      queue.ops.StillValid();
      if full {
        registry.ValuesKept();
        return Some(RegistryFull);
      }
      registry.EntryAdded(r, entry);
      NotWaiting(r);
      return None;
    }

    lemma NotWaiting(r: RequestId)
      ensures !Contains(queue.ops.Contents(), r) <==> forall q :: q in queue.ops.items ==> q.requestId != r
    {
      forall i | 0 <= i < |queue.ops.items| ensures queue.ops.Contents()[i].requestId == queue.ops.items[i].requestId {
      }
    }

    method Transition(r: RequestId, to: RequestState, batchId: Option<BatchId>, backendId: Option<BackendName>)
      returns (error: Option<LifecycleError>)
      requires Valid()
      modifies registry.entries.Values`state, registry.entries.Values`batchId, registry.entries.Values`backendId
      modifies registry.entries.Values`failure
      ensures Valid()
      ensures (queue.State(), error) == TransitionRequest(old(queue.State()), r, to, batchId, backendId)
    {
      if r !in registry.entries {
        return Some(NotFound(r));
      }
      var entry := registry.entries[r];
      ghost var before := queue.State();
      WriteIds(entry, batchId, backendId);
      ghost var written := WithIds(before.entries[r], batchId, backendId);
      assert entry.Value() == written by {
        assert queue.State().entries[r] == entry.Value();
      }
      if !IsAllowed(entry.state, to) {
        return Some(InvalidTransition(r, entry.state, to));
      }
      queue.WriteEntry(entry, to, entry.failure);
      Rewritten(before, r, written, written.(state := to));
      return None;
    }

    method RunAdmission(r: RequestId, verdict: Verdict) returns (error: Option<LifecycleError>)
      requires Valid()
      modifies registry.entries.Values`state, registry.entries.Values`batchId, registry.entries.Values`backendId
      modifies registry.entries.Values`failure
      ensures Valid()
      ensures (queue.State(), error) == LifecycleSpec.RunAdmission(old(queue.State()), r, verdict)
    {
      if r !in registry.entries {
        return Some(NotFound(r));
      }
      var entry := registry.entries[r];
      if entry.state != Validated {
        return Some(InvalidTransition(r, entry.state, Admitted));
      }
      match verdict
      case Accept => error := Transition(r, Admitted, None, None);
      case Refuse(reason) =>
        queue.WriteEntry(entry, RequestState.Rejected, Some((FailureReason.QueueFull, RejectionMessage(reason))));
        error := None;
    }

    method MarkFailed(r: RequestId, reason: FailureReason, message: string, batchId: Option<BatchId>,
                      backendId: Option<BackendName>)
      returns (error: Option<LifecycleError>)
      requires Valid()
      modifies registry.entries.Values`state, registry.entries.Values`batchId, registry.entries.Values`backendId
      modifies registry.entries.Values`failure
      ensures Valid()
      ensures (queue.State(), error)
           == LifecycleSpec.MarkFailed(old(queue.State()), r, reason, message, batchId, backendId)
    {
      if r !in registry.entries {
        return Some(NotFound(r));
      }
      var entry := registry.entries[r];
      ghost var before := queue.State();
      ghost var written := WithIds(before.entries[r], batchId, backendId);
      WriteIds(entry, batchId, backendId);
      assert entry.Value() == written by {
        assert queue.State().entries[r] == entry.Value();
      }
      if IsAllowed(entry.state, RequestState.Failed) {
        var refused := Transition(r, RequestState.Failed, None, None);
        assert entry.Value() == written.(state := RequestState.Failed) by {
          assert queue.State().entries[r] == entry.Value();
        }
        Rewritten(before, r, written, written.(state := RequestState.Failed));
      }
      ghost var failed := entry.Value();
      queue.WriteEntry(entry, RequestState.Failed, Some((reason, message)));
      Rewritten(before, r, failed, written.(state := RequestState.Failed, failure := Some((reason, message))));
      return None;
    }

    method WriteCompletion(entry: RegisteredRequest, completion: Option<Completion>)
      requires Valid() && entry.requestId in registry.entries && registry.entries[entry.requestId] == entry
      modifies entry`completion
      ensures Valid()
      ensures queue.State()
           == WithEntry(old(queue.State()), entry.requestId, WithCompletion(old(entry.Value()), completion))
    {
      if completion.Some? {
        entry.completion := completion;
      }
      registry.OneEntryChanged(entry.requestId);
      queue.ops.StillValid();
    }

    method CompleteRequest(r: RequestId, completion: Option<Completion>) returns (error: Option<LifecycleError>)
      requires Valid()
      modifies registry.entries.Values`state, registry.entries.Values`batchId, registry.entries.Values`backendId
      modifies registry.entries.Values`failure, registry.entries.Values`completion
      ensures Valid()
      ensures (queue.State(), error) == LifecycleSpec.CompleteRequest(old(queue.State()), r, completion)
    {
      if r !in registry.entries {
        return Some(NotFound(r));
      }
      if registry.entries[r].state !in {Submitted, Streaming} {
        return Some(InvalidTransition(r, registry.entries[r].state, RequestState.Completed));
      }
      WriteCompletion(registry.entries[r], completion);
      error := Transition(r, RequestState.Completed, None, None);
    }

    /** The handler around the path to the queue. */
    method FailOn(raised: Option<LifecycleError>, r: RequestId) returns (error: Option<LifecycleError>)
      requires Valid()
      modifies registry.entries.Values`state, registry.entries.Values`batchId, registry.entries.Values`backendId
      modifies registry.entries.Values`failure
      ensures Valid()
      ensures (queue.State(), error) == FailOnError((old(queue.State()), raised), r)
    {
      if raised.None? || raised.value.InvalidTransition? {
        return raised;
      }
      error := MarkFailed(r, InternalError, CONTROL_PLANE_ERROR, None, None);
    }

    /** From a fresh record to the queue. */
    method AdmitAndEnqueue(x: Submission) returns (error: Option<LifecycleError>)
      requires Valid()
      modifies registry.entries.Values, queue.ops, queue.ops.Records()`position
      ensures Valid() && registry.entries == old(registry.entries)
      ensures (queue.State(), error) == FromReceived(queue.Config(), old(queue.State()), x)
      ensures forall q :: q in queue.ops.items ==> q in old(queue.ops.items) || fresh(q)
    {
      var r := x.requestId;
      error := Transition(r, Validated, None, None);
      if error.Some? {
        error := FailOn(error, r);
        return;
      }
      error := RunAdmission(r, x.verdict);
      if error.Some? {
        error := FailOn(error, r);
        return;
      }
      if registry.entries[r].state == RequestState.Rejected {
        return;
      }
      error := queue.EnqueueFromAdmitted(r, x.expireAt, x.queuedAt);
      error := FailOn(error, r);
    }

    /** The id may be registered already, but must not be waiting in the queue. */
    method ProcessThroughQueued(x: Submission) returns (error: Option<LifecycleError>)
      requires Valid() && !Contains(queue.ops.Contents(), x.requestId)
      modifies registry`entries, registry.entries.Values, queue.ops, queue.ops.Records()`position
      ensures Valid()
      ensures (queue.State(), error) == LifecycleSpec.ProcessThroughQueued(queue.Config(), old(queue.State()), x)
      ensures forall q :: q in registry.entries ==>
        (q in old(registry.entries) && registry.entries[q] == old(registry.entries)[q]) || fresh(registry.entries[q])
      ensures forall q :: q in queue.ops.items ==> q in old(queue.ops.items) || fresh(q)
    {
      StillNotWaiting(queue.ops.cfg, queue.ops.Contents(), x.timeoutsAt, x.requestId);
      queue.ProcessTimeouts(x.timeoutsAt);
      error := Register(x.requestId, x.request, x.arrivalTime, Received);
      if error.Some? {
        error := FailOn(error, x.requestId);
        return;
      }
      error := AdmitAndEnqueue(x);
    }
  }

  lemma StillNotWaiting(cfg: QueueConfig, items: seq<QueueItem>, now: Time, r: RequestId)
    requires !Contains(items, r)
    ensures !Contains(Remaining(cfg, items, now), r)
  {
    FilterMembers(Not(Overdue(cfg, now)), items);
    var rest := Remaining(cfg, items, now);
    forall i | 0 <= i < |rest| ensures rest[i].requestId != r {
      assert rest[i] in items;
    }
  }

  lemma Rewritten(s: LifecycleState, r: RequestId, before: Entry, after: Entry)
    ensures WithEntry(WithEntry(s, r, before), r, after) == WithEntry(s, r, after)
  {
  }
}
