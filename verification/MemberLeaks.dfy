/**
 Members that no step of a run retires: a request that its path placed without completing it keeps its slot and counts
 against the global limit over the rest of the run, whatever becomes of its entry.
 */
module MemberLeaks {
  import opened Wrappers
  import opened Schemas
  import opened RequestStates
  import opened Registry
  import opened BatchModels
  import opened BatchEngineSpec
  import opened BatchEngineInvariant
  import opened SchedulingCycle
  import opened BatchRecords
  import opened RequestPathSpec
  import opened RequestPathInvariant
  import opened RequestPathTheorems
  import opened PlatformRuns
  import opened FirstPath

  lemma ActiveStep(cfg: PlatformConfig, states: seq<PlatformState>, events: seq<PlatformEvent>, k: nat,
                   s: PlatformState, t: PlatformState, r: RequestId)
    requires ValidPlatform(cfg) && IsPlatformRun(cfg, states, events) && k < |events| && s == states[k]
    requires t == states[k + 1]
    requires r in s.lifecycle.entries && HasStatus(s.delivery.engine, r, MemberActive)
    ensures HasStatus(t.delivery.engine, r, MemberActive)
  {
    RunStepDone(cfg, states, events, k, s, t);
  }

  /** Once the path of a request is over, its member, if active, stays active over the rest of the run. */
  lemma {:induction false} MemberStaysActive(cfg: PlatformConfig, states: seq<PlatformState>,
                                             events: seq<PlatformEvent>, i: nat, j: nat, r: RequestId)
    requires ValidPlatform(cfg) && IsPlatformRun(cfg, states, events) && i <= j < |states|
    requires r in states[i].lifecycle.entries && HasStatus(states[i].delivery.engine, r, MemberActive)
    ensures HasStatus(states[j].delivery.engine, r, MemberActive)
    decreases j
  {
    if i < j {
      MemberStaysActive(cfg, states, events, i, j - 1, r);
      LaterOnlyEnds(cfg, states, events, i, j - 1, r);
      ActiveStep(cfg, states, events, j - 1, states[j - 1], states[j], r);
    }
  }

  /** Between these two states the request was registered, and this is its entry. */
  ghost predicate Registers(s: PlatformState, t: PlatformState, r: RequestId, entry: Entry) {
    r !in s.lifecycle.entries && r in t.lifecycle.entries && t.lifecycle.entries[r] == entry
  }

  lemma PathLeaves(cfg: PlatformConfig, states: seq<PlatformState>, events: seq<PlatformEvent>, k: nat,
                   s: PlatformState, t: PlatformState, r: RequestId, entry: Entry)
    requires ValidPlatform(cfg) && IsPlatformRun(cfg, states, events) && k < |events| && s == states[k]
    requires t == states[k + 1]
    requires Registers(s, t, r, entry) && entry.batchId.Some?
    ensures entry.state != RequestState.Completed ==> HasStatus(t.delivery.engine, r, MemberActive)
    ensures entry.batchId.value in s.delivery.submitted ==>
      entry.state == RequestState.Failed && entry.failure == Some((AdapterError, "batch_not_dispatched"))
  {
    RunStepDone(cfg, states, events, k, s, t);
    NewEntryFacts(cfg, s, events[k], t, r, entry);
  }

  lemma NewEntryFacts(cfg: PlatformConfig, s: PlatformState, e: PlatformEvent, t: PlatformState, r: RequestId,
                      entry: Entry)
    requires NewEntries(s, e, t) && NewMembers(s, t) && Registers(s, t, r, entry) && entry.batchId.Some?
    ensures entry.state != RequestState.Completed ==> HasStatus(t.delivery.engine, r, MemberActive)
    ensures entry.batchId.value in s.delivery.submitted ==>
      entry.state == RequestState.Failed && entry.failure == Some((AdapterError, "batch_not_dispatched"))
  {
  }

  /** A request that its path placed without completing it keeps an active member over the rest of the run. */
  lemma UncompletedMemberLeaks(cfg: PlatformConfig, states: seq<PlatformState>, events: seq<PlatformEvent>, k: nat,
                               j: nat, r: RequestId, entry: Entry)
    requires ValidPlatform(cfg) && IsPlatformRun(cfg, states, events) && k < j < |states|
    requires Registers(states[k], states[k + 1], r, entry)
    requires entry.batchId.Some? && entry.state != RequestState.Completed
    ensures HasStatus(states[j].delivery.engine, r, MemberActive)
  {
    PathLeaves(cfg, states, events, k, states[k], states[k + 1], r, entry);
    MemberStaysActive(cfg, states, events, k + 1, j, r);
  }

  /**
   A request whose path placed it in a batch that was submitted before ends FAILED as not dispatched, and stays so or
   times out, while its member stays active.
   */
  lemma LateJoinerFailsButStays(cfg: PlatformConfig, states: seq<PlatformState>, events: seq<PlatformEvent>, k: nat,
                                j: nat, r: RequestId, entry: Entry)
    requires ValidPlatform(cfg) && IsPlatformRun(cfg, states, events) && k < j < |states|
    requires Registers(states[k], states[k + 1], r, entry)
    requires entry.batchId.Some? && entry.batchId.value in states[k].delivery.submitted
    ensures entry.state == RequestState.Failed && entry.failure == Some((AdapterError, "batch_not_dispatched"))
    ensures r in states[j].lifecycle.entries
    ensures states[j].lifecycle.entries[r].state in {RequestState.Failed, RequestState.TimedOut}
    ensures HasStatus(states[j].delivery.engine, r, MemberActive)
  {
    PathLeaves(cfg, states, events, k, states[k], states[k + 1], r, entry);
    UncompletedMemberLeaks(cfg, states, events, k, j, r, entry);
    LaterOnlyEnds(cfg, states, events, k + 1, j, r);
  }

  // ---- Capacity ----

  /** Once as many members have leaked as the global limit allows, the engine refuses every placement from then on. */
  lemma LeaksExhaustCapacity(cfg: PlatformConfig, states: seq<PlatformState>, events: seq<PlatformEvent>, i: nat,
                             j: nat, s: EngineState, leaked: set<RequestId>, item: QueueItem, now: Time, newId: BatchId)
    requires ValidPlatform(cfg) && IsPlatformRun(cfg, states, events) && i <= j < |states|
    requires s == states[j].delivery.engine
    requires forall r :: r in leaked ==>
      r in states[i].lifecycle.entries && HasStatus(states[i].delivery.engine, r, MemberActive)
    requires |leaked| >= cfg.cycle.batch.maxActiveRequests && newId !in s.batches
    ensures Listed(s) && Place(cfg.cycle.batch, s, item, now, newId).Success?
    ensures Place(cfg.cycle.batch, s, item, now, newId).value.1.Rejected?
  {
    PlatformRunInv(cfg, states, events, j, states[j]);
    forall r | r in leaked ensures HasStatus(s, r, MemberActive) {
      MemberStaysActive(cfg, states, events, i, j, r);
    }
    LeakedAreCounted(cfg.cycle.batch, s, leaked);
    PlaceKeepsInv(cfg.cycle.batch, s, item, now, newId);
  }

  /** Requests with an active member are at most as many as the global count says. */
  lemma LeakedAreCounted(cfg: BatchConfig, s: EngineState, leaked: set<RequestId>)
    requires EngineInv(cfg, s) && forall r :: r in leaked ==> HasStatus(s, r, MemberActive)
    ensures |leaked| <= GlobalActiveCount(s)
  {
    ActiveRequestsAreCounted(cfg, s);
    forall r | r in leaked ensures r in ActiveRequests(s) {
      var ms := s.batches[s.requestToBatch[r]].members;
      var m :| m in ms && m.requestId == r && m.status == MemberActive;
    }
    SubsetSize(leaked, ActiveRequests(s));
  }

  lemma FirstLeaks(cfg: PlatformConfig, states: seq<PlatformState>, events: seq<PlatformEvent>, x: PathInputs,
                   s: PlatformState, t: PlatformState)
    requires ValidPlatform(cfg) && IsPlatformRun(cfg, states, events) && NobodyAccepts(cfg, x)
    requires |events| >= 1 && events[0] == RunPath(x) && s == states[0] && t == states[1]
    ensures x.submission.requestId in t.lifecycle.entries
    ensures HasStatus(t.delivery.engine, x.submission.requestId, MemberActive)
  {
    var entry := FirstPathFails(cfg, s, x);
    var u, error, e := FullPathKeepsInv(cfg, s, x);
    assert PlatformStepAt(cfg, states, events, 0);
    EntryOfPath(cfg, s, x, entry, t, error);
  }

  /** With a global limit of one, a single request that nobody accepts is enough. */
  lemma OneFailureExhaustsCapacity(cfg: PlatformConfig, states: seq<PlatformState>, events: seq<PlatformEvent>, j: nat,
                                   x: PathInputs, s: EngineState, item: QueueItem, now: Time, newId: BatchId)
    requires ValidPlatform(cfg) && IsPlatformRun(cfg, states, events) && NobodyAccepts(cfg, x)
    requires |events| >= 1 && events[0] == RunPath(x) && cfg.cycle.batch.maxActiveRequests == 1
    requires 1 <= j < |states| && s == states[j].delivery.engine && newId !in s.batches
    ensures Listed(s) && Place(cfg.cycle.batch, s, item, now, newId).Success?
    ensures Place(cfg.cycle.batch, s, item, now, newId).value.1.Rejected?
  {
    FirstLeaks(cfg, states, events, x, states[0], states[1]);
    LeaksExhaustCapacity(cfg, states, events, 1, j, s, {x.submission.requestId}, item, now, newId);
  }
}
