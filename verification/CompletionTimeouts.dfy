/**
 A request that was completed is still in the waiting queue, so it can time out afterwards: when it does, and runs in
 which it does and does not.
 */
module CompletionTimeouts {
  import opened Wrappers
  import opened Schemas
  import opened RequestStates
  import opened Registry
  import opened WaitingQueueSpec
  import opened LifecycleSpec
  import opened SchedulingCycle
  import opened RequestPathSpec
  import opened RequestPathInvariant
  import opened RequestPathOutcome
  import opened RequestPathTheorems
  import opened FirstPath
  import opened PlatformRuns

  // ---- When a completed request times out ----

  lemma OnlyItemExpires(cfg: QueueConfig, queue: seq<QueueItem>, item: QueueItem, now: Time)
    requires item in queue && forall y :: y in queue && y.requestId == item.requestId ==> y == item
    ensures Contains(Expired(cfg, queue, now), item.requestId) <==> now - item.enqueuedAt > cfg.timeoutMs
  {
    var expired := Expired(cfg, queue, now);
    FilterMembers(Overdue(cfg, now), queue);
    if Contains(expired, item.requestId) {
      var i :| 0 <= i < |expired| && expired[i].requestId == item.requestId;
      assert expired[i] in queue;
    }
    if now - item.enqueuedAt > cfg.timeoutMs {
      assert item in expired;
      var i :| 0 <= i < |expired| && expired[i] == item;
      assert expired[i].requestId == item.requestId;
    }
  }

  /** Only a scanned request is completed. */
  lemma CompletedWasScanned(cfg: PlatformConfig, s: PlatformState, queue: seq<QueueItem>, x: PathInputs, entry: Entry)
    requires ReadyToCycle(cfg.cycle, s.delivery.engine, queue, x.cycle)
    requires entry == ScheduledEntry(cfg, s.delivery, s.counts, queue, x) && entry.state == RequestState.Completed
    ensures Contains(queue, x.submission.requestId)
  {
    var items := Scanned(queue, cfg.cycle.scanLimit);
    var i :| 0 <= i < |items| && items[i].requestId == x.submission.requestId;
    assert queue[i] == items[i];
  }

  lemma CompletedWasQueued(cfg: PlatformConfig, s: PlatformState, x: PathInputs, entry: Option<Entry>)
    requires FreshPath(cfg, s, x) && entry == PathEntry(cfg, s, x)
    requires entry.Some? && entry.value.state == RequestState.Completed
    ensures QueueingEntry(cfg.lifecycle, s.lifecycle, x.submission).state.Queued?
    ensures Contains(PathQueue(cfg, s, x), x.submission.requestId)
  {
    PathQueueFits(cfg, s, x);
    CompletedWasScanned(cfg, s, PathQueue(cfg, s, x), x, entry.value);
  }

  /** The only item of the request in the queue it leaves behind is the one it was queued with. */
  lemma ItemLeftBehind(cfg: PlatformConfig, s: PlatformState, x: PathInputs)
    requires PlatformInv(cfg, s) && x.submission.requestId !in s.lifecycle.entries
    requires Contains(PathQueue(cfg, s, x), x.submission.requestId)
    ensures FreshItem(x.submission) in PathQueue(cfg, s, x)
    ensures forall y :: y in PathQueue(cfg, s, x) && y.requestId == x.submission.requestId ==>
      y == FreshItem(x.submission)
  {
    PathQueueItems(cfg, s, x.submission, x.listAt);
    var queue := PathQueue(cfg, s, x);
    var i :| 0 <= i < |queue| && queue[i].requestId == x.submission.requestId;
    assert queue[i] in queue;
  }

  lemma ItemTimesOut(cfg: PlatformConfig, t: PlatformState, x: PathInputs, now: Time)
    requires x.submission.requestId in t.lifecycle.entries && FreshItem(x.submission) in t.lifecycle.queue
    requires forall y :: y in t.lifecycle.queue && y.requestId == x.submission.requestId ==>
      y == FreshItem(x.submission)
    ensures var r, u := x.submission.requestId, ProcessTimeouts(cfg.lifecycle, t.lifecycle, now);
      && r in u.entries
      && u.entries[r] == if now - x.submission.queuedAt > cfg.lifecycle.queue.timeoutMs
                         then TimeOut(t.lifecycle.entries[r])
                         else t.lifecycle.entries[r]
  {
    TimeOutAllForm(t.lifecycle.entries, Expired(cfg.lifecycle.queue, t.lifecycle.queue, now));
    OnlyItemExpires(cfg.lifecycle.queue, t.lifecycle.queue, FreshItem(x.submission), now);
  }

  /**
   Timeouts processed on the state in which its path completed a request overwrite COMPLETED by TIMED_OUT exactly when
   its waiting time is over.
   */
  lemma CompletionIsOverwritten(cfg: PlatformConfig, s: PlatformState, x: PathInputs, now: Time)
    returns (t: PlatformState, error: Option<PathError>)
    requires FreshPath(cfg, s, x)
    ensures Supplied(cfg, ListQueue(cfg, AfterQueued(cfg, s, x).0, x.listAt), x.cycle)
    ensures (t, error) == FullPath(cfg, s, x)
    ensures var r := x.submission.requestId;
      r in t.lifecycle.entries && t.lifecycle.entries[r].state == RequestState.Completed ==>
        var u := ProcessTimeouts(cfg.lifecycle, t.lifecycle, now);
        && r in u.entries
        && u.entries[r].state
           == (if now - x.submission.queuedAt > cfg.lifecycle.queue.timeoutMs then RequestState.TimedOut
                                  else RequestState.Completed)
  {
    var entry;
    t, error, entry := FullPathKeepsInv(cfg, s, x);
    EntryOfPath(cfg, s, x, entry, t, error);
    if entry.Some? && entry.value.state == RequestState.Completed {
      CompletedWasQueued(cfg, s, x, entry);
      ItemLeftBehind(cfg, s, x);
      ItemTimesOut(cfg, t, x, now);
    }
  }

  // ---- Runs in which it times out, and in which it does not ----

  lemma FirstStep(cfg: PlatformConfig, s: PlatformState, x: PathInputs) returns (t: PlatformState)
    requires NothingInTheWay(cfg, x) && Initial(s)
    ensures PermittedEvent(cfg, s, RunPath(x)) && t == PlatformStep(cfg, s, RunPath(x))
    ensures x.submission.requestId in t.lifecycle.entries
    ensures t.lifecycle.entries[x.submission.requestId].state == RequestState.Completed
    ensures FreshItem(x.submission) in t.lifecycle.queue && DistinctQueued(t.lifecycle.queue)
    ensures forall y :: y in t.lifecycle.queue && y.requestId == x.submission.requestId ==> y == FreshItem(x.submission)
  {
    var entry := FirstPathCompletes(cfg, s, x);
    var u, error, e := FullPathKeepsInv(cfg, s, x);
    t := u;
    EntryOfPath(cfg, s, x, entry, t, error);
    CompletedWasQueued(cfg, s, x, entry);
    ItemLeftBehind(cfg, s, x);
  }

  /** A run in which the first request is COMPLETED and times out afterwards. */
  lemma CompletedThenTimedOut(cfg: PlatformConfig, s: PlatformState, x: PathInputs, now: Time)
    returns (states: seq<PlatformState>, events: seq<PlatformEvent>)
    requires NothingInTheWay(cfg, x) && Initial(s) && now - x.submission.queuedAt > cfg.lifecycle.queue.timeoutMs
    ensures IsPlatformRun(cfg, states, events) && events == [RunPath(x), QueueTimeouts(now)]
    ensures var r := x.submission.requestId;
      && r in states[1].lifecycle.entries && states[1].lifecycle.entries[r].state == RequestState.Completed
      && r in states[2].lifecycle.entries && states[2].lifecycle.entries[r].state == RequestState.TimedOut
  {
    events := [RunPath(x), QueueTimeouts(now)];
    var t := FirstStep(cfg, s, x);
    ItemTimesOut(cfg, t, x, now);
    states := [s, t, PlatformStep(cfg, t, QueueTimeouts(now))];
    assert PlatformStepAt(cfg, states, events, 0) && PlatformStepAt(cfg, states, events, 1);
  }

  /** A run in which a listing comes first, and it stays COMPLETED. */
  lemma ListedThenCompleted(cfg: PlatformConfig, s: PlatformState, x: PathInputs, now: Time)
    returns (states: seq<PlatformState>, events: seq<PlatformEvent>)
    requires NothingInTheWay(cfg, x) && Initial(s) && now - x.submission.queuedAt > cfg.lifecycle.queue.timeoutMs
    ensures IsPlatformRun(cfg, states, events) && events == [RunPath(x), ReadQueue(now), QueueTimeouts(now)]
    ensures var r := x.submission.requestId;
      && r in states[1].lifecycle.entries && states[1].lifecycle.entries[r].state == RequestState.Completed
      && r in states[3].lifecycle.entries && states[3].lifecycle.entries[r].state == RequestState.Completed
  {
    events := [RunPath(x), ReadQueue(now), QueueTimeouts(now)];
    var t := FirstStep(cfg, s, x);
    var u := PlatformStep(cfg, t, ReadQueue(now));
    states := [s, t, u, PlatformStep(cfg, u, QueueTimeouts(now))];
    assert PlatformStepAt(cfg, states, events, 0) && PlatformStepAt(cfg, states, events, 1)
        && PlatformStepAt(cfg, states, events, 2);
    OnlyItemExpires(cfg.lifecycle.queue, t.lifecycle.queue, FreshItem(x.submission), now);
    ListingKeepsCompleted(cfg, states, events, 1, 3, x.submission.requestId);
  }
}
