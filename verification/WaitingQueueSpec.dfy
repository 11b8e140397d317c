/** The waiting queue as a sequence of items and the operations on it, and what holds over every run of them. */
module WaitingQueueSpec {
  import opened Wrappers
  import opened Schemas

  datatype QueueConfig = QueueConfig(maxSize: nat, timeoutMs: nat) {
    predicate Valid() {
      maxSize >= 1 && timeoutMs >= 1
    }
  }

  datatype EnqueueOutcome = Enqueued(position: nat) | AlreadyQueued | QueueFull

  function Filter<T>(p: T -> bool, xs: seq<T>): seq<T> {
    if xs == [] then []
    else Filter(p, xs[..|xs| - 1]) + (if p(xs[|xs| - 1]) then [xs[|xs| - 1]] else [])
  }

  function Not<T>(p: T -> bool): T -> bool {
    (x: T) => !p(x)
  }

  // ---- Operations ----

  function Overdue(cfg: QueueConfig, now: Time): QueueItem -> bool {
    (item: QueueItem) => now - item.enqueuedAt > cfg.timeoutMs
  }

  function HasId(r: RequestId): QueueItem -> bool {
    (item: QueueItem) => item.requestId == r
  }

  function Everything(): QueueItem -> bool {
    (item: QueueItem) => true
  }

  function Remaining(cfg: QueueConfig, items: seq<QueueItem>, now: Time): seq<QueueItem> {
    Filter(Not(Overdue(cfg, now)), items)
  }

  function Expired(cfg: QueueConfig, items: seq<QueueItem>, now: Time): seq<QueueItem> {
    Filter(Overdue(cfg, now), items)
  }

  predicate Contains(items: seq<QueueItem>, r: RequestId) {
    exists i :: 0 <= i < |items| && items[i].requestId == r
  }

  /** The item carries the time of its entry; the expiry before it reads the clock on its own. */
  function Enqueue(cfg: QueueConfig, items: seq<QueueItem>, item: QueueItem, expireAt: Time)
    : (seq<QueueItem>, EnqueueOutcome)
  {
    var rest := Remaining(cfg, items, expireAt);
    if Contains(rest, item.requestId) then (rest, AlreadyQueued)
    else if |rest| >= cfg.maxSize then (rest, QueueFull)
    else (rest + [item], Enqueued(|rest| + 1))
  }

  function Dequeue(cfg: QueueConfig, items: seq<QueueItem>, now: Time): (seq<QueueItem>, Option<QueueItem>) {
    var rest := Remaining(cfg, items, now);
    if rest == [] then (rest, None) else (rest[1..], Some(rest[0]))
  }

  /** The position of the first item with this id, if there is one. */
  function IndexOfId(items: seq<QueueItem>, r: RequestId): (index: Option<nat>)
    ensures index.Some? ==> index.value < |items| && items[index.value].requestId == r
    ensures index.None? <==> !Contains(items, r)
  {
    if items == [] then None
    else if items[0].requestId == r then Some(0)
    else
      match IndexOfId(items[1..], r)
      case Some(i) => Some(i + 1)
      case None =>
        assert forall k :: 0 < k < |items| ==> items[k] == items[1..][k - 1];
        None
  }

  function Remove(items: seq<QueueItem>, r: RequestId): (seq<QueueItem>, Option<QueueItem>) {
    match IndexOfId(items, r)
    case Some(i) => (items[..i] + items[i + 1..], Some(items[i]))
    case None => (items, None)
  }

  // ---- Filtering ----

  lemma {:induction false} FilterMembers<T>(p: T -> bool, xs: seq<T>)
    ensures |Filter(p, xs)| <= |xs|
    ensures forall x :: x in Filter(p, xs) <==> x in xs && p(x)
  {
    if xs != [] {
      FilterMembers(p, xs[..|xs| - 1]);
      assert xs == xs[..|xs| - 1] + [xs[|xs| - 1]];
    }
  }

  lemma {:induction false} FilterAppend<T>(p: T -> bool, xs: seq<T>, y: T)
    ensures Filter(p, xs + [y]) == Filter(p, xs) + (if p(y) then [y] else [])
  {
    assert (xs + [y])[..|xs|] == xs;
  }

  lemma {:induction false} FilterConcat<T>(p: T -> bool, xs: seq<T>, ys: seq<T>)
    ensures Filter(p, xs + ys) == Filter(p, xs) + Filter(p, ys)
  {
    if ys == [] {
      assert xs + ys == xs;
    } else {
      var init, last := ys[..|ys| - 1], ys[|ys| - 1];
      FilterConcat(p, xs, init);
      FilterAppend(p, xs + init, last);
      assert (xs + init) + [last] == xs + ys;
    }
  }

  lemma {:induction false} FilterAll<T>(p: T -> bool, xs: seq<T>)
    requires forall i :: 0 <= i < |xs| ==> p(xs[i])
    ensures Filter(p, xs) == xs
  {
    if xs != [] {
      FilterAll(p, xs[..|xs| - 1]);
    }
  }

  lemma {:induction false} FilterNone<T>(p: T -> bool, xs: seq<T>)
    requires forall i :: 0 <= i < |xs| ==> !p(xs[i])
    ensures Filter(p, xs) == []
  {
    if xs != [] {
      FilterNone(p, xs[..|xs| - 1]);
    }
  }

  /** Filtering a list of which p holds for the second part only leaves the second part. */
  lemma FilterParts<T>(p: T -> bool, xs: seq<T>, ys: seq<T>)
    requires forall i :: 0 <= i < |xs| ==> !p(xs[i])
    requires forall i :: 0 <= i < |ys| ==> p(ys[i])
    ensures Filter(p, xs + ys) == ys
  {
    FilterConcat(p, xs, ys);
    FilterNone(p, xs);
    FilterAll(p, ys);
  }

  lemma FilterFirstPart<T>(p: T -> bool, xs: seq<T>, ys: seq<T>)
    requires forall i :: 0 <= i < |xs| ==> p(xs[i])
    requires forall i :: 0 <= i < |ys| ==> !p(ys[i])
    ensures Filter(p, xs + ys) == xs
  {
    FilterConcat(p, xs, ys);
    FilterAll(p, xs);
    FilterNone(p, ys);
  }

  /** Where p holds from position k on and nowhere before, filtering drops the first k elements. */
  lemma FilterSuffix<T>(p: T -> bool, xs: seq<T>, k: nat)
    requires k <= |xs| && (forall i :: 0 <= i < |xs| ==> (p(xs[i]) <==> k <= i))
    ensures Filter(p, xs) == xs[k..]
    ensures Filter(Not(p), xs) == xs[..k]
  {
    var front, back := xs[..k], xs[k..];
    assert xs == front + back;
    assert forall i :: 0 <= i < |front| ==> front[i] == xs[i];
    assert forall i :: 0 <= i < |back| ==> back[i] == xs[k + i];
    FilterParts(p, front, back);
    FilterFirstPart(Not(p), front, back);
  }

  lemma FilterSkips<T>(p: T -> bool, front: seq<T>, x: T, back: seq<T>)
    requires !p(x) && (forall i :: 0 <= i < |front| ==> p(front[i])) && (forall i :: 0 <= i < |back| ==> p(back[i]))
    ensures Filter(p, front + [x] + back) == front + back
  {
    FilterConcat(p, front + [x], back);
    FilterFirstPart(p, front, [x]);
    FilterAll(p, back);
  }

  lemma {:induction false} NotNot<T>(p: T -> bool, xs: seq<T>)
    ensures Filter(Not(Not(p)), xs) == Filter(p, xs)
  {
    if xs != [] {
      NotNot(p, xs[..|xs| - 1]);
    }
  }

  // ---- Runs ----

  datatype Fate = Waiting | Dequeued | Removed | TimedOut

  /** Beside the queue, the ledger of everything ever enqueued, in order, and what became of each entry. */
  datatype Ledger = Ledger(items: seq<QueueItem>, history: seq<QueueItem>, fates: seq<Fate>, clock: Time)

  datatype QueueEvent =
    | EnqueueItem(item: QueueItem, expireAt: Time)
    | DequeueHead(now: Time)
    | RemoveById(requestId: RequestId)
    | ExpireItems(now: Time)
    | ClearAll

  /** The waiting entries that satisfy p meet their fate. */
  function Mark(history: seq<QueueItem>, fates: seq<Fate>, p: QueueItem -> bool, fate: Fate): (marked: seq<Fate>)
    requires |history| == |fates|
  {
    seq(|fates|, i requires 0 <= i < |fates| => if fates[i].Waiting? && p(history[i]) then fate else fates[i])
  }

  function StillWaiting(history: seq<QueueItem>, fates: seq<Fate>): seq<QueueItem>
    requires |history| == |fates|
  {
    if history == [] then []
    else
      var n := |history| - 1;
      StillWaiting(history[..n], fates[..n]) + (if fates[n].Waiting? then [history[n]] else [])
  }

  function AfterExpiry(cfg: QueueConfig, s: Ledger, now: Time): Ledger
    requires |s.history| == |s.fates|
  {
    s.(items := Remaining(cfg, s.items, now), fates := Mark(s.history, s.fates, Overdue(cfg, now), TimedOut),
       clock := now)
  }

  function LedgerStep(cfg: QueueConfig, s: Ledger, e: QueueEvent): Ledger
    requires |s.history| == |s.fates|
  {
    match e
    case EnqueueItem(item, expireAt) =>
      var t := AfterExpiry(cfg, s, expireAt);
      var (items, outcome) := Enqueue(cfg, s.items, item, expireAt);
      if outcome.Enqueued? then Ledger(items, t.history + [item], t.fates + [Waiting], item.enqueuedAt)
      else t.(items := items)
    case DequeueHead(now) =>
      var t := AfterExpiry(cfg, s, now);
      var (items, head) := Dequeue(cfg, s.items, now);
      if head.Some? then t.(items := items, fates := Mark(t.history, t.fates, HasId(head.value.requestId), Dequeued))
      else t.(items := items)
    case RemoveById(r) =>
      s.(items := Remove(s.items, r).0, fates := Mark(s.history, s.fates, HasId(r), Removed))
    case ExpireItems(now) => AfterExpiry(cfg, s, now)
    case ClearAll => s.(items := [], fates := Mark(s.history, s.fates, Everything(), Removed))
  }

  /** Every clock reading is at or after the one before it. */
  predicate Timely(s: Ledger, e: QueueEvent) {
    match e
    case EnqueueItem(item, expireAt) => s.clock <= expireAt <= item.enqueuedAt
    case DequeueHead(now) => s.clock <= now
    case ExpireItems(now) => s.clock <= now
    case _ => true
  }

  ghost predicate LedgerStepAt(cfg: QueueConfig, states: seq<Ledger>, events: seq<QueueEvent>, i: nat)
    requires |states| == |events| + 1 && i < |events|
  {
    |states[i].history| == |states[i].fates| ==> states[i + 1] == LedgerStep(cfg, states[i], events[i])
  }

  ghost predicate IsQueueRun(cfg: QueueConfig, states: seq<Ledger>, events: seq<QueueEvent>) {
    && |states| == |events| + 1
    && states[0].items == [] && states[0].history == [] && states[0].fates == []
    && forall i :: 0 <= i < |events| ==> LedgerStepAt(cfg, states, events, i)
  }

  ghost predicate IsTimelyRun(cfg: QueueConfig, states: seq<Ledger>, events: seq<QueueEvent>) {
    IsQueueRun(cfg, states, events) && forall i :: 0 <= i < |events| ==> Timely(states[i], events[i])
  }

  // ---- The invariant ----

  ghost predicate DistinctQueued(items: seq<QueueItem>) {
    forall i, j :: 0 <= i < j < |items| ==> items[i].requestId != items[j].requestId
  }

  ghost predicate LedgerInv(cfg: QueueConfig, s: Ledger) {
    && |s.history| == |s.fates|
    && s.items == StillWaiting(s.history, s.fates)
    && |s.items| <= cfg.maxSize
    && DistinctQueued(s.items)
  }

  lemma {:induction false} FilterDistinct(p: QueueItem -> bool, items: seq<QueueItem>)
    requires DistinctQueued(items)
    ensures DistinctQueued(Filter(p, items))
  {
    if items != [] {
      var init, last := items[..|items| - 1], items[|items| - 1];
      FilterDistinct(p, init);
      FilterMembers(p, init);
      forall x | x in Filter(p, init) ensures x.requestId != last.requestId {
        assert x in init;
      }
    }
  }

  /** The entries that still wait after a marking are those that waited and do not satisfy p, in order. */
  lemma {:induction false} MarkFilters(history: seq<QueueItem>, fates: seq<Fate>, p: QueueItem -> bool, fate: Fate)
    requires |history| == |fates| && !fate.Waiting?
    ensures StillWaiting(history, Mark(history, fates, p, fate)) == Filter(Not(p), StillWaiting(history, fates))
  {
    if history != [] {
      var n, marked := |history| - 1, Mark(history, fates, p, fate);
      MarkFilters(history[..n], fates[..n], p, fate);
      assert marked[..n] == Mark(history[..n], fates[..n], p, fate);
      var front := StillWaiting(history[..n], fates[..n]);
      assert StillWaiting(history, marked) == Filter(Not(p), front) + (if marked[n].Waiting? then [history[n]] else []);
      FilterAppend(Not(p), front, history[n]);
      assert fates[n].Waiting? ==> (marked[n].Waiting? <==> Not(p)(history[n]));
      assert !fates[n].Waiting? ==> StillWaiting(history, fates) == front && !marked[n].Waiting?;
    }
  }

  lemma AppendWaits(history: seq<QueueItem>, fates: seq<Fate>, item: QueueItem)
    requires |history| == |fates|
    ensures StillWaiting(history + [item], fates + [Waiting]) == StillWaiting(history, fates) + [item]
  {
    assert (history + [item])[..|history|] == history && (fates + [Waiting])[..|fates|] == fates;
  }

  lemma RemoveIsFilter(items: seq<QueueItem>, r: RequestId)
    requires DistinctQueued(items)
    ensures Remove(items, r).0 == Filter(Not(HasId(r)), items)
  {
    match IndexOfId(items, r)
    case Some(i) =>
      assert items == items[..i] + [items[i]] + items[i + 1..];
      FilterSkips(Not(HasId(r)), items[..i], items[i], items[i + 1..]);
    case None => FilterSuffix(Not(HasId(r)), items, 0);
  }

  lemma ExpiryKeepsInv(cfg: QueueConfig, s: Ledger, now: Time)
    requires LedgerInv(cfg, s)
    ensures LedgerInv(cfg, AfterExpiry(cfg, s, now))
  {
    MarkFilters(s.history, s.fates, Overdue(cfg, now), TimedOut);
    FilterDistinct(Not(Overdue(cfg, now)), s.items);
    FilterMembers(Not(Overdue(cfg, now)), s.items);
  }

  lemma DropHeadKeepsInv(cfg: QueueConfig, t: Ledger)
    requires LedgerInv(cfg, t) && t.items != []
    ensures LedgerInv(cfg, t.(items := t.items[1..],
                              fates := Mark(t.history, t.fates, HasId(t.items[0].requestId), Dequeued)))
  {
    var other := Not(HasId(t.items[0].requestId));
    MarkFilters(t.history, t.fates, HasId(t.items[0].requestId), Dequeued);
    FilterSuffix(other, t.items, 1);
  }

  lemma AppendKeepsInv(cfg: QueueConfig, t: Ledger, item: QueueItem)
    requires LedgerInv(cfg, t) && !Contains(t.items, item.requestId) && |t.items| < cfg.maxSize
    ensures LedgerInv(cfg, Ledger(t.items + [item], t.history + [item], t.fates + [Waiting], item.enqueuedAt))
  {
    AppendWaits(t.history, t.fates, item);
  }

  lemma RemoveKeepsInv(cfg: QueueConfig, s: Ledger, r: RequestId)
    requires LedgerInv(cfg, s)
    ensures LedgerInv(cfg, LedgerStep(cfg, s, RemoveById(r)))
  {
    MarkFilters(s.history, s.fates, HasId(r), Removed);
    RemoveIsFilter(s.items, r);
    FilterDistinct(Not(HasId(r)), s.items);
    FilterMembers(Not(HasId(r)), s.items);
  }

  lemma ClearKeepsInv(cfg: QueueConfig, s: Ledger)
    requires LedgerInv(cfg, s)
    ensures LedgerInv(cfg, LedgerStep(cfg, s, ClearAll))
  {
    MarkFilters(s.history, s.fates, Everything(), Removed);
    FilterSuffix(Not(Everything()), s.items, |s.items|);
  }

  lemma LedgerStepKeepsInv(cfg: QueueConfig, s: Ledger, e: QueueEvent)
    requires LedgerInv(cfg, s)
    ensures LedgerInv(cfg, LedgerStep(cfg, s, e))
  {
    match e
    case EnqueueItem(item, expireAt) =>
      ExpiryKeepsInv(cfg, s, expireAt);
      var t := AfterExpiry(cfg, s, expireAt);
      if !Contains(t.items, item.requestId) && |t.items| < cfg.maxSize {
        AppendKeepsInv(cfg, t, item);
      }
    case DequeueHead(now) =>
      ExpiryKeepsInv(cfg, s, now);
      var t := AfterExpiry(cfg, s, now);
      if t.items != [] {
        DropHeadKeepsInv(cfg, t);
      }
    case RemoveById(r) => RemoveKeepsInv(cfg, s, r);
    case ExpireItems(now) => ExpiryKeepsInv(cfg, s, now);
    case ClearAll => ClearKeepsInv(cfg, s);
  }

  /**
   In every reachable state the queue is within its size, holds no id twice, and is the order-preserving
   subsequence of the enqueue history whose entries still wait.
   */
  lemma {:induction false} QueueRunInv(cfg: QueueConfig, states: seq<Ledger>, events: seq<QueueEvent>, k: nat)
    requires IsQueueRun(cfg, states, events) && k < |states|
    ensures LedgerInv(cfg, states[k])
    decreases k
  {
    if k > 0 {
      QueueRunInv(cfg, states, events, k - 1);
      assert LedgerStepAt(cfg, states, events, k - 1);
      LedgerStepKeepsInv(cfg, states[k - 1], events[k - 1]);
    }
  }

  // ---- Every entry meets one fate ----

  /** History and the fates already met are never rewritten. */
  ghost predicate FatesAreFinal(s: Ledger, t: Ledger) {
    && |s.history| == |s.fates| && |t.history| == |t.fates|
    && s.history <= t.history
    && forall i :: 0 <= i < |s.fates| && !s.fates[i].Waiting? ==> t.fates[i] == s.fates[i]
  }

  lemma StepKeepsFates(cfg: QueueConfig, s: Ledger, e: QueueEvent)
    requires |s.history| == |s.fates|
    ensures FatesAreFinal(s, LedgerStep(cfg, s, e))
  {
  }

  lemma {:induction false} FatesStayMet(cfg: QueueConfig, states: seq<Ledger>, events: seq<QueueEvent>, i: nat, j: nat)
    requires IsQueueRun(cfg, states, events) && i <= j < |states|
    ensures FatesAreFinal(states[i], states[j])
    decreases j
  {
    QueueRunInv(cfg, states, events, i);
    if i < j {
      FatesStayMet(cfg, states, events, i, j - 1);
      assert LedgerStepAt(cfg, states, events, j - 1);
      StepKeepsFates(cfg, states[j - 1], events[j - 1]);
      FinalTransitive(states[i], states[j - 1], states[j]);
    }
  }

  lemma FinalTransitive(s: Ledger, t: Ledger, u: Ledger)
    requires FatesAreFinal(s, t) && FatesAreFinal(t, u)
    ensures FatesAreFinal(s, u)
  {
  }

  function CountFate(fates: seq<Fate>, fate: Fate): nat {
    if fates == [] then 0 else CountFate(fates[..|fates| - 1], fate) + (if fates[|fates| - 1] == fate then 1 else 0)
  }

  lemma {:induction false} FatesPartition(fates: seq<Fate>)
    ensures |fates| == CountFate(fates, Waiting) + CountFate(fates, Dequeued) + CountFate(fates, Removed)
                       + CountFate(fates, TimedOut)
  {
    if fates != [] {
      FatesPartition(fates[..|fates| - 1]);
    }
  }

  lemma {:induction false} WaitingCount(history: seq<QueueItem>, fates: seq<Fate>)
    requires |history| == |fates|
    ensures |StillWaiting(history, fates)| == CountFate(fates, Waiting)
  {
    if history != [] {
      WaitingCount(history[..|history| - 1], fates[..|fates| - 1]);
    }
  }

  /** Everything ever enqueued is waiting, dequeued, removed or expired, and the counts add up. */
  lemma QueueConservation(cfg: QueueConfig, states: seq<Ledger>, events: seq<QueueEvent>, k: nat)
    requires IsQueueRun(cfg, states, events) && k < |states|
    ensures var s := states[k];
      |s.history|
          == |s.items| + CountFate(s.fates, Dequeued) + CountFate(s.fates, Removed) + CountFate(s.fates, TimedOut)
  {
    QueueRunInv(cfg, states, events, k);
    FatesPartition(states[k].fates);
    WaitingCount(states[k].history, states[k].fates);
  }

  // ---- First in, first out ----

  /** The head of the queue is the first entry of the history that waits. */
  lemma {:induction false} HeadIsOldest(history: seq<QueueItem>, fates: seq<Fate>) returns (first: nat)
    requires |history| == |fates| && StillWaiting(history, fates) != []
    ensures first < |history| && fates[first].Waiting? && history[first] == StillWaiting(history, fates)[0]
    ensures forall i :: 0 <= i < first ==> !fates[i].Waiting?
  {
    var n := |history| - 1;
    if StillWaiting(history[..n], fates[..n]) == [] {
      NobodyWaits(history[..n], fates[..n]);
      first := n;
      forall i | 0 <= i < n ensures !fates[i].Waiting? {
        assert fates[i] == fates[..n][i];
      }
    } else {
      first := HeadIsOldest(history[..n], fates[..n]);
      forall i | 0 <= i < first ensures !fates[i].Waiting? {
        assert fates[i] == fates[..n][i];
      }
    }
  }

  lemma {:induction false} NobodyWaits(history: seq<QueueItem>, fates: seq<Fate>)
    requires |history| == |fates| && StillWaiting(history, fates) == []
    ensures forall i :: 0 <= i < |fates| ==> !fates[i].Waiting?
  {
    if history != [] {
      var n := |history| - 1;
      NobodyWaits(history[..n], fates[..n]);
      forall i | 0 <= i < n ensures !fates[i].Waiting? {
        assert fates[i] == fates[..n][i];
      }
    }
  }

  lemma {:induction false} WaitingIsListed(history: seq<QueueItem>, fates: seq<Fate>, i: nat)
    requires |history| == |fates| && i < |fates| && fates[i].Waiting?
    ensures history[i] in StillWaiting(history, fates)
  {
    var n := |history| - 1;
    if i < n {
      WaitingIsListed(history[..n], fates[..n], i);
    }
  }

  lemma {:induction false} WaitingIdsDiffer(history: seq<QueueItem>, fates: seq<Fate>, i: nat, j: nat)
    requires |history| == |fates| && i < j < |fates| && fates[i].Waiting? && fates[j].Waiting?
    requires DistinctQueued(StillWaiting(history, fates))
    ensures history[i].requestId != history[j].requestId
  {
    var n := |history| - 1;
    var front := StillWaiting(history[..n], fates[..n]);
    assert fates[n].Waiting? ==> StillWaiting(history, fates)[..|front|] == front;
    if j < n {
      WaitingIdsDiffer(history[..n], fates[..n], i, j);
    } else {
      WaitingIsListed(history[..n], fates[..n], i);
      var p :| 0 <= p < |front| && front[p] == history[i];
      var all := StillWaiting(history, fates);
      assert all[p] == history[i] && all[|front|] == history[n];
    }
  }

  /** A dequeue takes the oldest entry: once entry i is dequeued, nothing enqueued before it waits. */
  lemma DequeueTakesOldest(cfg: QueueConfig, s: Ledger, now: Time, i: nat, k: nat)
    requires LedgerInv(cfg, s) && k < i < |s.history| && s.fates[i].Waiting?
    requires LedgerStep(cfg, s, DequeueHead(now)).fates[i].Dequeued?
    ensures !LedgerStep(cfg, s, DequeueHead(now)).fates[k].Waiting?
    ensures s.fates[k].Waiting? ==> !LedgerStep(cfg, s, DequeueHead(now)).fates[k].Dequeued?
  {
    var t := AfterExpiry(cfg, s, now);
    ExpiryKeepsInv(cfg, s, now);
    assert t.items == StillWaiting(t.history, t.fates) && t.items != [];
    var first := HeadIsOldest(t.history, t.fates);
    if first != i {
      WaitingIdsDiffer(t.history, t.fates, first, i);
    }
  }

  lemma OnlyDequeuesDequeue(cfg: QueueConfig, s: Ledger, e: QueueEvent, i: nat)
    requires |s.history| == |s.fates| && i < |s.history| && s.fates[i].Waiting?
    requires LedgerStep(cfg, s, e).fates[i].Dequeued?
    ensures e.DequeueHead?
  {
  }

  /** Over every run entries are dequeued in the order in which they were enqueued. */
  lemma DequeuedInOrder(cfg: QueueConfig, states: seq<Ledger>, events: seq<QueueEvent>, t: nat, u: nat, i: nat, k: nat)
    requires IsQueueRun(cfg, states, events) && t < |events| && u < |events| && k < i
    requires i < |states[t].fates| && i < |states[t + 1].fates| && states[t].fates[i].Waiting?
    requires states[t + 1].fates[i].Dequeued?
    requires k < |states[u].fates| && k < |states[u + 1].fates| && states[u].fates[k].Waiting?
    requires states[u + 1].fates[k].Dequeued?
    ensures u < t
  {
    QueueRunInv(cfg, states, events, t);
    assert LedgerStepAt(cfg, states, events, t);
    OnlyDequeuesDequeue(cfg, states[t], events[t], i);
    DequeueTakesOldest(cfg, states[t], events[t].now, i, k);
    if t < u {
      QueueRunInv(cfg, states, events, t + 1);
      FatesStayMet(cfg, states, events, t + 1, u);
    }
  }

  // ---- With a clock that does not go back ----

  ghost predicate SortedTimes(items: seq<QueueItem>) {
    forall i, j :: 0 <= i < j < |items| ==> items[i].enqueuedAt <= items[j].enqueuedAt
  }

  ghost predicate ClockInv(s: Ledger) {
    SortedTimes(s.items) && forall x :: x in s.items ==> x.enqueuedAt <= s.clock
  }

  lemma {:induction false} FilterSortedTimes(p: QueueItem -> bool, items: seq<QueueItem>)
    requires SortedTimes(items)
    ensures SortedTimes(Filter(p, items))
  {
    if items != [] {
      var init, last := items[..|items| - 1], items[|items| - 1];
      FilterSortedTimes(p, init);
      FilterMembers(p, init);
      forall x | x in Filter(p, init) ensures x.enqueuedAt <= last.enqueuedAt {
        assert x in init;
      }
    }
  }

  lemma ClockAfterExpiry(cfg: QueueConfig, s: Ledger, now: Time)
    requires |s.history| == |s.fates| && ClockInv(s) && s.clock <= now
    ensures ClockInv(AfterExpiry(cfg, s, now))
  {
    FilterSortedTimes(Not(Overdue(cfg, now)), s.items);
    FilterMembers(Not(Overdue(cfg, now)), s.items);
  }

  lemma ClockAfterRemoval(cfg: QueueConfig, s: Ledger, r: RequestId)
    requires LedgerInv(cfg, s) && ClockInv(s)
    ensures ClockInv(LedgerStep(cfg, s, RemoveById(r)))
  {
    RemoveIsFilter(s.items, r);
    FilterSortedTimes(Not(HasId(r)), s.items);
    FilterMembers(Not(HasId(r)), s.items);
  }

  lemma ClockAfterEntry(cfg: QueueConfig, s: Ledger, item: QueueItem, expireAt: Time)
    requires LedgerInv(cfg, s) && ClockInv(s) && s.clock <= expireAt <= item.enqueuedAt
    ensures ClockInv(LedgerStep(cfg, s, EnqueueItem(item, expireAt)))
  {
    ClockAfterExpiry(cfg, s, expireAt);
  }

  lemma StepKeepsClock(cfg: QueueConfig, s: Ledger, e: QueueEvent)
    requires LedgerInv(cfg, s) && ClockInv(s) && Timely(s, e)
    ensures ClockInv(LedgerStep(cfg, s, e))
  {
    match e
    case EnqueueItem(item, expireAt) => ClockAfterEntry(cfg, s, item, expireAt);
    case DequeueHead(now) => ClockAfterExpiry(cfg, s, now);
    case RemoveById(r) => ClockAfterRemoval(cfg, s, r);
    case ExpireItems(now) => ClockAfterExpiry(cfg, s, now);
    case ClearAll =>
  }

  /** In sorted order, what is overdue is a prefix: expiry returns it and leaves the rest as it was. */
  lemma {:induction false} ExpiryTakesPrefix(cfg: QueueConfig, items: seq<QueueItem>, now: Time) returns (k: nat)
    requires SortedTimes(items)
    ensures k <= |items| && Remaining(cfg, items, now) == items[k..] && Expired(cfg, items, now) == items[..k]
    ensures forall i :: 0 <= i < |items| ==> (i < k <==> now - items[i].enqueuedAt > cfg.timeoutMs)
  {
    k := 0;
    while k < |items| && now - items[k].enqueuedAt > cfg.timeoutMs
      invariant k <= |items| && forall i :: 0 <= i < k ==> now - items[i].enqueuedAt > cfg.timeoutMs
    {
      k := k + 1;
    }
    FilterSuffix(Not(Overdue(cfg, now)), items, k);
    NotNot(Overdue(cfg, now), items);
  }

  lemma {:induction false} TimelyRunInv(cfg: QueueConfig, states: seq<Ledger>, events: seq<QueueEvent>, k: nat)
    requires IsTimelyRun(cfg, states, events) && k < |states|
    ensures LedgerInv(cfg, states[k]) && ClockInv(states[k])
    decreases k
  {
    QueueRunInv(cfg, states, events, k);
    if k > 0 {
      TimelyRunInv(cfg, states, events, k - 1);
      assert LedgerStepAt(cfg, states, events, k - 1);
      StepKeepsClock(cfg, states[k - 1], events[k - 1]);
    }
  }

  /** Over a run whose clock does not go back, expiry always takes exactly a prefix of the queue. */
  lemma ExpiryIsPrefixOfRun(cfg: QueueConfig, states: seq<Ledger>, events: seq<QueueEvent>, n: nat, now: Time)
    returns (k: nat)
    requires IsTimelyRun(cfg, states, events) && n < |states|
    ensures var items := states[n].items;
      k <= |items| && Remaining(cfg, items, now) == items[k..] && Expired(cfg, items, now) == items[..k]
  {
    TimelyRunInv(cfg, states, events, n);
    k := ExpiryTakesPrefix(cfg, states[n].items, now);
  }

  // ---- With any clock ----

  /** At this reading of the clock, expiry leaves the queue from some position on. */
  ghost predicate TakesPrefix(cfg: QueueConfig, items: seq<QueueItem>, now: Time) {
    exists k :: 0 <= k <= |items| && Remaining(cfg, items, now) == items[k..]
  }

  /**
   When an item entered at a later time than one behind it, expiry at some moment drops the second and keeps the first.
   */
  lemma InversionIsNoPrefix(cfg: QueueConfig, items: seq<QueueItem>, i: nat, j: nat, now: Time)
    requires DistinctQueued(items) && i < j < |items| && items[i].enqueuedAt > items[j].enqueuedAt
    requires now == items[j].enqueuedAt + cfg.timeoutMs + 1
    ensures !TakesPrefix(cfg, items, now)
  {
    var rest := Remaining(cfg, items, now);
    FilterMembers(Not(Overdue(cfg, now)), items);
    assert items[i] in rest && items[j] !in rest;
    forall k | 0 <= k <= |items| ensures rest != items[k..] {
      BackOf(items, k, i, j);
    }
  }

  /** What the back of a queue holds of two of its items. */
  lemma BackOf(items: seq<QueueItem>, k: nat, i: nat, j: nat)
    requires DistinctQueued(items) && i < j < |items| && k <= |items|
    ensures items[i] in items[k..] ==> items[j] in items[k..]
  {
    if items[i] in items[k..] {
      var p :| 0 <= p < |items[k..]| && items[k..][p] == items[i];
      assert items[k + p].requestId == items[i].requestId;
      assert items[k..][j - k] == items[j];
    }
  }

  /**
   Expiry takes a prefix of the queue at every reading of the clock exactly when the items entered in order of time.
   */
  lemma ExpiryIsPrefixIffSorted(cfg: QueueConfig, items: seq<QueueItem>)
    requires DistinctQueued(items)
    ensures (forall now: Time :: TakesPrefix(cfg, items, now)) <==> SortedTimes(items)
  {
    if SortedTimes(items) {
      forall now: Time ensures TakesPrefix(cfg, items, now) {
        var k := ExpiryTakesPrefix(cfg, items, now);
      }
    } else {
      var i, j :| 0 <= i < j < |items| && items[i].enqueuedAt > items[j].enqueuedAt;
      InversionIsNoPrefix(cfg, items, i, j, items[j].enqueuedAt + cfg.timeoutMs + 1);
    }
  }

  /** A clock that goes back between two enqueues leads to such a queue. */
  lemma ClockGoingBackExpiresSecond(cfg: QueueConfig, first: QueueItem, second: QueueItem)
    returns (states: seq<Ledger>, events: seq<QueueEvent>)
    requires cfg.maxSize >= 2 && first.requestId != second.requestId && first.enqueuedAt > second.enqueuedAt
    ensures IsQueueRun(cfg, states, events) && states[|events|].items == [first, second]
    ensures !TakesPrefix(cfg, states[|events|].items, second.enqueuedAt + cfg.timeoutMs + 1)
  {
    events := [EnqueueItem(first, first.enqueuedAt), EnqueueItem(second, second.enqueuedAt)];
    var start := Ledger([], [], [], first.enqueuedAt);
    var middle := Ledger([first], [first], [Waiting], first.enqueuedAt);
    var end := Ledger([first, second], [first, second], [Waiting, Waiting], second.enqueuedAt);
    states := [start, middle, end];
    assert LedgerStep(cfg, start, events[0]) == middle;
    FilterAll(Not(Overdue(cfg, second.enqueuedAt)), [first]);
    assert LedgerStep(cfg, middle, events[1]) == end;
    assert LedgerStepAt(cfg, states, events, 0) && LedgerStepAt(cfg, states, events, 1);
    InversionIsNoPrefix(cfg, [first, second], 0, 1, second.enqueuedAt + cfg.timeoutMs + 1);
  }

  // ---- What the operations return ----

  ghost predicate InQueue(items: seq<QueueItem>, r: RequestId) {
    exists x :: x in items && x.requestId == r
  }

  /** Removal takes out the first item with the id and returns it; where there is none, nothing changes. */
  lemma RemovalReturnsItem(items: seq<QueueItem>, r: RequestId)
    ensures match Remove(items, r)
            case (rest, None) => rest == items && !InQueue(items, r)
            case (rest, Some(item)) =>
              && item.requestId == r
              && exists i :: 0 <= i < |items| && items[i] == item && rest == items[..i] + items[i + 1..]
                          && forall k :: 0 <= k < i ==> items[k].requestId != r
  {
    match IndexOfId(items, r)
    case None =>
      forall x | x in items ensures x.requestId != r {
        var i :| 0 <= i < |items| && items[i] == x;
      }
    case Some(i) => FirstWithId(items, r);
  }

  lemma {:induction false} FirstWithId(items: seq<QueueItem>, r: RequestId)
    requires IndexOfId(items, r).Some?
    ensures forall k :: 0 <= k < IndexOfId(items, r).value ==> items[k].requestId != r
  {
    if items[0].requestId != r {
      FirstWithId(items[1..], r);
      assert forall k :: 0 < k < |items| ==> items[k] == items[1..][k - 1];
    }
  }

  /**
   An enqueue drops what is overdue; then an id that is still there is turned away first, a full queue second, and any
   other item is put last at the position that is the new size.
   */
  lemma EnqueueReturns(cfg: QueueConfig, items: seq<QueueItem>, item: QueueItem, expireAt: Time)
    ensures var rest := Filter((x: QueueItem) => expireAt - x.enqueuedAt <= cfg.timeoutMs, items);
      Enqueue(cfg, items, item, expireAt)
      == if InQueue(rest, item.requestId) then (rest, AlreadyQueued)
         else if |rest| >= cfg.maxSize then (rest, QueueFull)
         else (rest + [item], Enqueued(|rest + [item]|))
  {
    var kept := (x: QueueItem) => expireAt - x.enqueuedAt <= cfg.timeoutMs;
    var rest := Remaining(cfg, items, expireAt);
    SameFilter(kept, Not(Overdue(cfg, expireAt)), items);
    if Contains(rest, item.requestId) {
      var i :| 0 <= i < |rest| && rest[i].requestId == item.requestId;
      assert rest[i] in rest;
    }
  }

  lemma {:induction false} SameFilter<T(!new)>(p: T -> bool, q: T -> bool, xs: seq<T>)
    requires forall x :: p(x) == q(x)
    ensures Filter(p, xs) == Filter(q, xs)
  {
    if xs != [] {
      SameFilter(p, q, xs[..|xs| - 1]);
    }
  }

  /** A dequeue drops what is overdue and returns the first of the others, if there is one. */
  lemma DequeueReturns(cfg: QueueConfig, items: seq<QueueItem>, now: Time)
    ensures var rest := Filter((x: QueueItem) => now - x.enqueuedAt <= cfg.timeoutMs, items);
      Dequeue(cfg, items, now) == if rest == [] then ([], None) else (rest[1..], Some(rest[0]))
  {
    SameFilter((x: QueueItem) => now - x.enqueuedAt <= cfg.timeoutMs, Not(Overdue(cfg, now)), items);
  }

  // ---- What a step does to the fates ----

  /** The fate of entry i after a step, from what the step expires, returns or removes. */
  ghost predicate FateAfter(cfg: QueueConfig, s: Ledger, e: QueueEvent, t: Ledger, i: nat)
    requires i < |s.history| == |s.fates| && i < |t.fates|
  {
    var overdue := (now: Time) => now - s.history[i].enqueuedAt > cfg.timeoutMs;
    s.fates[i] == Waiting ==>
      match e
      case EnqueueItem(_, expireAt) => t.fates[i] == if overdue(expireAt) then TimedOut else Waiting
      case ExpireItems(now) => t.fates[i] == if overdue(now) then TimedOut else Waiting
      case RemoveById(r) => t.fates[i] == if s.history[i].requestId == r then Removed else Waiting
      case ClearAll => t.fates[i] == Removed
      case DequeueHead(now) =>
        t.fates[i] == if overdue(now) then TimedOut
                      else if Dequeue(cfg, s.items, now).1 == Some(s.history[i]) then Dequeued
                      else Waiting
  }

  lemma DequeuedFate(cfg: QueueConfig, s: Ledger, now: Time, i: nat)
    requires LedgerInv(cfg, s) && i < |s.history| && s.fates[i] == Waiting
    ensures FateAfter(cfg, s, DequeueHead(now), LedgerStep(cfg, s, DequeueHead(now)), i)
  {
    var t := AfterExpiry(cfg, s, now);
    ExpiryKeepsInv(cfg, s, now);
    if t.items != [] && t.fates[i] == Waiting {
      var first := HeadIsOldest(t.history, t.fates);
      if first < i {
        WaitingIdsDiffer(t.history, t.fates, first, i);
      }
    }
  }

  /** Over any run each step gives a waiting entry the fate that its outcome says, and no other. */
  lemma FatesAreOutcomes(cfg: QueueConfig, states: seq<Ledger>, events: seq<QueueEvent>, k: nat, i: nat)
    requires IsQueueRun(cfg, states, events) && k < |events| && i < |states[k].fates|
    ensures |states[k].history| == |states[k].fates| && i < |states[k + 1].fates|
    ensures FateAfter(cfg, states[k], events[k], states[k + 1], i)
  {
    QueueRunInv(cfg, states, events, k);
    assert LedgerStepAt(cfg, states, events, k);
    if events[k].DequeueHead? && states[k].fates[i] == Waiting {
      DequeuedFate(cfg, states[k], events[k].now, i);
    }
  }
}
