/** The waiting queue with its mutable records; every method is proved equal to its operation on the items. */
module WaitingQueue {
  import opened Wrappers
  import opened Schemas
  import opened Registry
  import opened WaitingQueueSpec

  class QueuedRequest {
    const requestId: RequestId
    const entry: RegisteredRequest
    const enteredAt: Time
    const priorityClass: PriorityClass
    var position: nat

    constructor (entry: RegisteredRequest, enteredAt: Time, position: nat, priorityClass: PriorityClass)
      ensures this.requestId == entry.requestId && this.entry == entry
      ensures this.enteredAt == enteredAt && this.position == position && this.priorityClass == priorityClass
    {
      this.requestId, this.entry, this.enteredAt := entry.requestId, entry, enteredAt;
      this.position, this.priorityClass := position, priorityClass;
    }

    function ToQueueItem(): QueueItem {
      QueueItem(requestId, entry.request, entry.arrivalTime, enteredAt, priorityClass)
    }
  }

  function QueueItems(records: seq<QueuedRequest>): seq<QueueItem> {
    seq(|records|, i requires 0 <= i < |records| => records[i].ToQueueItem())
  }

  function PriorityOf(request: InferenceRequest): PriorityClass {
    if request.priorityClass.Some? then request.priorityClass.value else Standard
  }

  /** The item a request becomes when it enters the queue. */
  function EntryItem(entry: RegisteredRequest, now: Time): QueueItem {
    QueueItem(entry.requestId, entry.request, entry.arrivalTime, now, PriorityOf(entry.request))
  }

  class QueueOperations {
    const cfg: QueueConfig
    var items: seq<QueuedRequest>

    constructor (cfg: QueueConfig)
      requires cfg.Valid()
      ensures this.cfg == cfg && Valid() && items == []
    {
      this.cfg, items := cfg, [];
    }

    ghost function Records(): set<QueuedRequest>
      reads this
    {
      set q | q in items
    }

    ghost function QueuedEntries(): set<RegisteredRequest>
      reads this
    {
      set q | q in items :: q.entry
    }

    function Contents(): seq<QueueItem>
      reads this
    {
      QueueItems(items)
    }

    ghost predicate WellFormed()
      reads this
    {
      cfg.Valid() && |items| <= cfg.maxSize && DistinctQueued(Contents())
      && forall q :: q in items ==> q.requestId == q.entry.requestId
    }

    /** Positions are exactly 1 to n, on the queue record and on the registered request. */
    ghost predicate Positioned()
      reads this, Records(), QueuedEntries()
    {
      forall i :: 0 <= i < |items| ==> items[i].position == i + 1 && items[i].entry.queuePosition == Some(i + 1)
    }

    ghost predicate Valid()
      reads this, Records(), QueuedEntries()
    {
      WellFormed() && Positioned()
    }

    /** Writing other fields of the records in the queue does not touch it. */
    twostate lemma StillValid()
      requires old(Valid()) && items == old(items)
      requires forall i :: 0 <= i < |items| ==>
        items[i].position == old(items[i].position) && items[i].entry.queuePosition == old(items[i].entry.queuePosition)
      ensures Valid() && Contents() == old(Contents())
    {
    }

    method ReindexPositions()
      requires WellFormed()
      modifies Records()`position, QueuedEntries()`queuePosition
      ensures Valid()
    {
      for i := 0 to |items|
        invariant forall j :: 0 <= j < i ==> items[j].position == j + 1 && items[j].entry.queuePosition == Some(j + 1)
      {
        forall j | 0 <= j < i ensures items[j] != items[i] && items[j].entry != items[i].entry {
          assert Contents()[j].requestId != Contents()[i].requestId;
        }
        items[i].position := i + 1;
        items[i].entry.queuePosition := Some(i + 1);
      }
    }

    /** The loop of the expiry: overdue records to one list, the others to the other. */
    method SplitOverdue(now: Time) returns (expired: seq<QueuedRequest>, remaining: seq<QueuedRequest>)
      ensures QueueItems(remaining) == Remaining(cfg, Contents(), now)
      ensures QueueItems(expired) == Expired(cfg, Contents(), now)
      ensures (forall q :: q in expired ==> q in items) && (forall q :: q in remaining ==> q in items)
    {
      ghost var all := Contents();
      expired, remaining := [], [];
      for i := 0 to |items|
        invariant QueueItems(remaining) == Remaining(cfg, all[..i], now)
        invariant QueueItems(expired) == Expired(cfg, all[..i], now)
        invariant (forall q :: q in expired ==> q in items) && (forall q :: q in remaining ==> q in items)
      {
        var item := items[i];
        assert all[..i + 1] == all[..i] + [item.ToQueueItem()];
        FilterAppend(Overdue(cfg, now), all[..i], item.ToQueueItem());
        FilterAppend(Not(Overdue(cfg, now)), all[..i], item.ToQueueItem());
        if now - item.enteredAt > cfg.timeoutMs {
          expired := expired + [item];
        } else {
          remaining := remaining + [item];
        }
      }
      assert all[..|items|] == all;
    }

    method ExpireTimeouts(now: Time) returns (expired: seq<QueuedRequest>)
      requires Valid()
      modifies this, Records()`position, QueuedEntries()`queuePosition
      ensures Valid()
      ensures Contents() == Remaining(cfg, old(Contents()), now)
      ensures QueueItems(expired) == Expired(cfg, old(Contents()), now)
      ensures (forall q :: q in expired ==> q in old(items)) && (forall q :: q in items ==> q in old(items))
    {
      ghost var before := Contents();
      var remaining: seq<QueuedRequest>;
      expired, remaining := SplitOverdue(now);
      FilterMembers(Not(Overdue(cfg, now)), before);
      FilterDistinct(Not(Overdue(cfg, now)), before);
      assert |remaining| == |QueueItems(remaining)|;
      items := remaining;
      ReindexPositions();
    }

    method Contains(r: RequestId) returns (found: bool)
      ensures found == WaitingQueueSpec.Contains(Contents(), r)
    {
      for i := 0 to |items|
        invariant forall j :: 0 <= j < i ==> Contents()[j].requestId != r
      {
        if items[i].requestId == r {
          assert Contents()[i].requestId == r;
          return true;
        }
      }
      return false;
    }

    method Append(entry: RegisteredRequest, now: Time) returns (position: nat)
      requires Valid() && |items| < cfg.maxSize && !WaitingQueueSpec.Contains(Contents(), entry.requestId)
      modifies this`items, entry`queuePosition, entry`queueEnteredAt
      ensures Valid() && Contents() == old(Contents()) + [EntryItem(entry, now)] && position == |Contents()|
      ensures |items| == old(|items|) + 1 && items[..|items| - 1] == old(items)
      ensures items[|items| - 1].entry == entry && fresh(items[|items| - 1])
      ensures entry.queueEnteredAt == Some(now) && entry.queuePosition == Some(position)
    {
      ghost var before := Contents();
      position := |items| + 1;
      var queued := new QueuedRequest(entry, now, position, PriorityOf(entry.request));
      forall i | 0 <= i < |items| ensures items[i].entry != entry {
        assert before[i].requestId == items[i].requestId;
      }
      items := items + [queued];
      entry.queueEnteredAt := Some(now);
      entry.queuePosition := Some(position);
      assert Contents() == before + [EntryItem(entry, now)];
    }

    /** `expireAt` and `now` are the two clock readings: at the expiry, and when the request enters. */
    method Enqueue(entry: RegisteredRequest, expireAt: Time, now: Time) returns (outcome: EnqueueOutcome)
      requires Valid()
      modifies this, Records()`position, QueuedEntries()`queuePosition, entry`queuePosition, entry`queueEnteredAt
      ensures Valid()
      ensures (Contents(), outcome) == WaitingQueueSpec.Enqueue(cfg, old(Contents()), EntryItem(entry, now), expireAt)
      ensures outcome.Enqueued? ==>
                && items != [] && items[|items| - 1].entry == entry && fresh(items[|items| - 1])
                && entry.queueEnteredAt == Some(now) && entry.queuePosition == Some(outcome.position)
      ensures forall q :: q in items ==> q in old(items) || (outcome.Enqueued? && q == items[|items| - 1])
    {
      var expired := ExpireTimeouts(expireAt);
      var duplicate := Contains(entry.requestId);
      if duplicate {
        return AlreadyQueued;
      }
      if |items| >= cfg.maxSize {
        return QueueFull;
      }
      var position := Append(entry, now);
      outcome := Enqueued(position);
    }

    method Dequeue(now: Time) returns (head: Option<QueuedRequest>)
      requires Valid()
      modifies this, Records()`position, QueuedEntries()`queuePosition
      ensures Valid()
      ensures Contents() == WaitingQueueSpec.Dequeue(cfg, old(Contents()), now).0
      ensures (if head.Some? then Some(head.value.ToQueueItem()) else None)
           == WaitingQueueSpec.Dequeue(cfg, old(Contents()), now).1
    {
      var expired := ExpireTimeouts(now);
      if items == [] {
        return None;
      }
      head := Some(items[0]);
      ghost var rest := Contents();
      items := items[1..];
      assert Contents() == rest[1..];
      ReindexPositions();
    }

    method Peek(now: Time) returns (head: Option<QueuedRequest>)
      requires Valid()
      modifies this, Records()`position, QueuedEntries()`queuePosition
      ensures Valid() && Contents() == Remaining(cfg, old(Contents()), now)
      ensures head.Some? <==> Contents() != []
      ensures head.Some? ==> head.value.ToQueueItem() == Contents()[0]
    {
      var expired := ExpireTimeouts(now);
      head := if items == [] then None else Some(items[0]);
    }

    method FindIndex(r: RequestId) returns (index: Option<nat>)
      ensures index == IndexOfId(Contents(), r)
    {
      for i := 0 to |items|
        invariant forall j :: 0 <= j < i ==> Contents()[j].requestId != r
      {
        if items[i].requestId == r {
          FirstIndex(Contents(), r, i);
          return Some(i);
        }
      }
      return None;
    }

    method Remove(r: RequestId) returns (removed: Option<QueuedRequest>)
      requires Valid()
      modifies this, Records()`position, QueuedEntries()`queuePosition
      ensures Valid()
      ensures Contents() == WaitingQueueSpec.Remove(old(Contents()), r).0
      ensures (if removed.Some? then Some(removed.value.ToQueueItem()) else None)
           == WaitingQueueSpec.Remove(old(Contents()), r).1
    {
      ghost var before := Contents();
      var index := FindIndex(r);
      if index.None? {
        return None;
      }
      var i := index.value;
      removed := Some(items[i]);
      items := items[..i] + items[i + 1..];
      assert Contents() == before[..i] + before[i + 1..] == WaitingQueueSpec.Remove(before, r).0;
      RemoveIsFilter(before, r);
      FilterDistinct(Not(HasId(r)), before);
      ReindexPositions();
    }

    method Clear() returns (count: nat)
      requires Valid()
      modifies this`items
      ensures Valid() && Contents() == [] && count == |old(Contents())|
    {
      count := |items|;
      items := [];
    }

    method ListItems(now: Time) returns (listed: seq<QueuedRequest>)
      requires Valid()
      modifies this, Records()`position, QueuedEntries()`queuePosition
      ensures Valid() && Contents() == Remaining(cfg, old(Contents()), now)
      ensures listed == items && (forall q :: q in items ==> q in old(items))
    {
      var expired := ExpireTimeouts(now);
      listed := items;
    }
  }

  lemma {:induction false} FirstIndex(items: seq<QueueItem>, r: RequestId, i: nat)
    requires i < |items| && items[i].requestId == r && forall j :: 0 <= j < i ==> items[j].requestId != r
    ensures IndexOfId(items, r) == Some(i)
  {
    if i > 0 {
      FirstIndex(items[1..], r, i - 1);
    }
  }
}
