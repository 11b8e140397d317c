/**
 What each policy selects, in terms of the queue items alone: the scanned positions in an order in which the rule of the
 policy, written out, decides every pair.
 */
module PolicyRules {
  import opened Wrappers
  import opened Schemas
  import opened Sorting
  import opened Policies
  import opened Fairness
  import opened WaitingQueueSpec
  import opened BatchEngineSpec
  import opened BatchEngineInvariant
  import opened SchedulingCycle
  import opened CycleTurns

  // ---- The rules ----

  /** The tokens a job is estimated to need: a quarter of the characters, but at least one, and what it may generate. */
  function Tokens(item: QueueItem): nat {
    (if item.request.promptChars < 4 then 1 else item.request.promptChars / 4) + item.request.maxTokens
  }

  /** How long the item has waited and how old the request is, each in units of its objective. */
  function Pressure(item: QueueItem, now: Time, queueObjective: real, ageObjective: real): real
    requires queueObjective > 0.0 && ageObjective > 0.0
  {
    (now - item.enqueuedAt) as real / queueObjective + (now - item.arrivalTime) as real / ageObjective
  }

  /** What the client asked for; failing that, the class the queue gave. */
  function ClassOf(item: QueueItem): PriorityClass {
    match item.request.priorityClass
    case Some(priorityClass) => priorityClass
    case None => item.priorityClass
  }

  function TimesServed(counts: Counts, priorityClass: PriorityClass): nat {
    if priorityClass !in counts then 0 else counts[priorityClass]
  }

  /** Selections of a class so far per weight; a class that is not one of the three has the standard weight. */
  function ServedPerWeight(w: Weights, counts: Counts, priorityClass: PriorityClass): real
    requires w.Positive()
  {
    if priorityClass == Elevated then TimesServed(counts, Elevated) as real / w.elevated
    else if priorityClass == Background then TimesServed(counts, Background) as real / w.background
    else TimesServed(counts, priorityClass) as real / w.standard
  }

  /** The item at position i is taken before the one at position j. */
  ghost predicate Sooner(policy: Policy, counts: Counts, items: seq<QueueItem>, clock: nat -> Time, i: nat, j: nat)
    requires ValidPolicy(policy) && i < |items| && j < |items|
  {
    match policy
    case Fifo => i < j
    case ShortestJobFirst =>
      Tokens(items[i]) < Tokens(items[j]) || (Tokens(items[i]) == Tokens(items[j]) && i < j)
    case LatencyAware(q, a) =>
      var pi, pj := Pressure(items[i], clock(i), q, a), Pressure(items[j], clock(j), q, a);
      pi > pj || (pi == pj && i < j)
    case WeightedFairness(w) =>
      var si, sj := ServedPerWeight(w, counts, ClassOf(items[i])), ServedPerWeight(w, counts, ClassOf(items[j]));
      var wi, wj := clock(i) - items[i].enqueuedAt, clock(j) - items[j].enqueuedAt;
      si < sj || (si == sj && (wi > wj || (wi == wj && i < j)))
  }

  /** The candidate that stands for a scanned item, field by field. */
  lemma CandidateOfItem(items: seq<QueueItem>, clock: nat -> Time, i: nat)
    requires i < |items|
    ensures var item, c := items[i], Candidates(items, clock)[i];
      && c.requestId == item.requestId && c.model == item.request.model && c.queuePosition == i + 1
      && c.queueWaitMs == clock(i) - item.enqueuedAt && c.enqueuedAt == item.enqueuedAt
      && c.requestAgeMs == clock(i) - item.arrivalTime
      && c.maxTokens == item.request.maxTokens && c.inputTokens + c.maxTokens == c.jobTokens == Tokens(item)
      && c.priorityClass == ClassOf(item)
  {
  }

  // ---- The order of a policy ----

  ghost predicate IsOrder(order: seq<nat>, n: nat) {
    |order| == n && Distinct(order) && forall a :: 0 <= a < n ==> order[a] < n
  }

  /** A permutation of candidates at positions 1, 2, ... gives an order of positions. */
  lemma PositionsOf(cs: seq<SchedulingCandidate>, sorted: seq<SchedulingCandidate>) returns (order: seq<nat>)
    requires forall i :: 0 <= i < |cs| ==> cs[i].queuePosition == i + 1
    requires multiset(sorted) == multiset(cs) && |sorted| == |cs|
    ensures IsOrder(order, |cs|) && forall a :: 0 <= a < |cs| ==> sorted[a] == cs[order[a]]
  {
    PermutedStayDifferent(cs, sorted);
    forall a | 0 <= a < |sorted|
      ensures 1 <= sorted[a].queuePosition <= |cs| && sorted[a] == cs[sorted[a].queuePosition - 1]
    {
      assert sorted[a] in multiset(cs);
      var i :| 0 <= i < |cs| && cs[i] == sorted[a];
    }
    order := seq(|sorted|, a requires 0 <= a < |sorted| => (sorted[a].queuePosition - 1) as nat);
  }

  /** The positions of candidates in a sorted list of them. */
  lemma SortedPositions(key: SchedulingCandidate -> seq<real>, cs: seq<SchedulingCandidate>) returns (order: seq<nat>)
    requires forall i :: 0 <= i < |cs| ==> cs[i].queuePosition == i + 1
    ensures IsOrder(order, |cs|) && |Ordered(key, cs)| == |cs|
    ensures forall a :: 0 <= a < |cs| ==> Ordered(key, cs)[a] == cs[order[a]]
    ensures forall a, b :: 0 <= a < b < |cs| ==> KeyLeq(key(cs[order[a]]), key(cs[order[b]]))
  {
    var sorted := Ordered(key, cs);
    ByKeyIsPreorder(key);
    SortSpec(ByKey(key), cs);
    assert |multiset(sorted)| == |sorted| && |multiset(cs)| == |cs|;
    order := PositionsOf(cs, sorted);
    forall a, b | 0 <= a < b < |cs| ensures KeyLeq(key(cs[order[a]]), key(cs[order[b]])) {
      assert ByKey(key)(sorted[a], sorted[b]);
    }
  }

  lemma PairOrder(a: real, b: real, d: real, e: real)
    requires KeyLeq([a, b], [d, e])
    ensures a < d || (a == d && b <= e)
  {
    assert [a, b][1..] == [b] && [d, e][1..] == [e];
  }

  lemma QuadrupleOrder(a: real, b: real, c: real, x: real, d: real, e: real, f: real, y: real)
    requires KeyLeq([a, b, c, x], [d, e, f, y])
    ensures a < d || (a == d && (b < e || (b == e && c <= f)))
  {
    assert [a, b, c, x][1..] == [b, c, x] && [d, e, f, y][1..] == [e, f, y];
    TripleOrder(b, c, x, e, f, y);
  }

  /** What the key of the fairness policy says of two candidates. */
  ghost predicate FairlySooner(w: Weights, counts: Counts, c: SchedulingCandidate, d: SchedulingCandidate)
    requires w.Positive()
  {
    var sc, sd := ServedPerWeight(w, counts, c.priorityClass), ServedPerWeight(w, counts, d.priorityClass);
    || sc < sd
    || (sc == sd && c.queueWaitMs > d.queueWaitMs)
    || (sc == sd && c.queueWaitMs == d.queueWaitMs && c.queuePosition <= d.queuePosition)
  }

  lemma FairKeyRule(w: Weights, counts: Counts, c: SchedulingCandidate, d: SchedulingCandidate)
    requires w.Positive() && KeyLeq(FairKey(w, counts)(c), FairKey(w, counts)(d))
    ensures FairlySooner(w, counts, c, d)
  {
    QuadrupleOrder(Ratio(w, counts, c.priorityClass), -(c.queueWaitMs as real), c.queuePosition as real,
                   c.enqueuedAt as real, Ratio(w, counts, d.priorityClass), -(d.queueWaitMs as real),
                   d.queuePosition as real, d.enqueuedAt as real);
  }

  lemma ShortestJobRule(c: SchedulingCandidate, d: SchedulingCandidate)
    requires KeyLeq(ShortestJobKey()(c), ShortestJobKey()(d))
    ensures c.jobTokens < d.jobTokens || (c.jobTokens == d.jobTokens && c.queuePosition <= d.queuePosition)
  {
    TripleOrder(c.jobTokens as real, c.queuePosition as real, c.enqueuedAt as real,
                d.jobTokens as real, d.queuePosition as real, d.enqueuedAt as real);
  }

  lemma LatencyRule(q: real, a: real, c: SchedulingCandidate, d: SchedulingCandidate)
    requires q > 0.0 && a > 0.0 && KeyLeq(LatencyKey(q, a)(c), LatencyKey(q, a)(d))
    ensures Score(q, a, c) > Score(q, a, d) || (Score(q, a, c) == Score(q, a, d) && c.queuePosition <= d.queuePosition)
  {
    TripleOrder(-Score(q, a, c), c.queuePosition as real, c.enqueuedAt as real,
                -Score(q, a, d), d.queuePosition as real, d.enqueuedAt as real);
  }

  lemma FifoRule(c: SchedulingCandidate, d: SchedulingCandidate)
    requires KeyLeq(FifoKey()(c), FifoKey()(d))
    ensures c.queuePosition <= d.queuePosition
  {
    PairOrder(c.queuePosition as real, c.enqueuedAt as real, d.queuePosition as real, d.enqueuedAt as real);
  }

  /** The keys rank one scanned item before another only if the rule takes it sooner. */
  lemma KeyFollowsRule(policy: Policy, counts: Counts, items: seq<QueueItem>, clock: nat -> Time, i: nat, j: nat)
    requires ValidPolicy(policy) && i < |items| && j < |items| && i != j
    requires KeyLeq(PolicyKey(policy, counts)(ToCandidate(items[i], i + 1, clock(i))),
                    PolicyKey(policy, counts)(ToCandidate(items[j], j + 1, clock(j))))
    ensures Sooner(policy, counts, items, clock, i, j)
  {
    var ci, cj := ToCandidate(items[i], i + 1, clock(i)), ToCandidate(items[j], j + 1, clock(j));
    match policy
    case Fifo => FifoRule(ci, cj);
    case ShortestJobFirst => ShortestJobRule(ci, cj);
    case LatencyAware(q, a) => LatencyRule(q, a, ci, cj);
    case WeightedFairness(w) => FairKeyRule(w, counts, ci, cj);
  }

  // ---- What a cycle selects ----

  /** The ids of the items at these positions. */
  function IdsAt(items: seq<QueueItem>, order: seq<nat>): seq<RequestId>
    requires forall a :: 0 <= a < |order| ==> order[a] < |items|
  {
    seq(|order|, a requires 0 <= a < |order| => items[order[a]].requestId)
  }

  /** Every pair of the order is decided by the rule. */
  ghost predicate FollowsRule(policy: Policy, counts: Counts, items: seq<QueueItem>, clock: nat -> Time,
                              order: seq<nat>)
    requires ValidPolicy(policy) && IsOrder(order, |items|)
  {
    forall a, b :: 0 <= a < b < |order| ==> Sooner(policy, counts, items, clock, order[a], order[b])
  }

  /**
   Whichever policy is configured, a cycle orders the first scanLimit items of the queue by the rule of the policy,
   selects the first selectLimit of them in this order and skips the others.
   */
  lemma CycleFollowsRule(cfg: CycleConfig, counts: Counts, queue: seq<QueueItem>, clock: nat -> Time)
    returns (items: seq<QueueItem>, order: seq<nat>)
    requires cfg.Valid()
    ensures items == if |queue| <= cfg.scanLimit then queue else queue[..cfg.scanLimit]
    ensures IsOrder(order, |items|) && FollowsRule(cfg.policy, counts, items, clock, order)
    ensures var m := if |items| <= cfg.selectLimit then |items| else cfg.selectLimit;
      var key, candidates := PolicyKey(cfg.policy, counts), Candidates(Scanned(queue, cfg.scanLimit), clock);
      && SelectedIds(key, candidates, cfg.selectLimit) == IdsAt(items, order[..m])
      && SkippedIds(key, candidates, cfg.selectLimit) == IdsAt(items, order[m..])
  {
    items := Scanned(queue, cfg.scanLimit);
    var key, cs := PolicyKey(cfg.policy, counts), Candidates(items, clock);
    order := SortedPositions(key, cs);
    KeyOrderFollowsRule(cfg.policy, counts, items, clock, order);
    IdsOfOrder(items, cs, Ordered(key, cs), order, Min(cfg.selectLimit, |cs|));
  }

  lemma KeyOrderFollowsRule(policy: Policy, counts: Counts, items: seq<QueueItem>, clock: nat -> Time, order: seq<nat>)
    requires ValidPolicy(policy) && IsOrder(order, |items|)
    requires forall a, b :: 0 <= a < b < |order| ==>
      KeyLeq(PolicyKey(policy, counts)(Candidates(items, clock)[order[a]]),
             PolicyKey(policy, counts)(Candidates(items, clock)[order[b]]))
    ensures FollowsRule(policy, counts, items, clock, order)
  {
    forall a, b | 0 <= a < b < |order| ensures Sooner(policy, counts, items, clock, order[a], order[b]) {
      KeyFollowsRule(policy, counts, items, clock, order[a], order[b]);
    }
  }

  lemma IdsOfOrder(items: seq<QueueItem>, cs: seq<SchedulingCandidate>, sorted: seq<SchedulingCandidate>,
                   order: seq<nat>, m: nat)
    requires |cs| == |items| == |sorted| == |order| && m <= |order|
    requires forall i :: 0 <= i < |cs| ==> cs[i].requestId == items[i].requestId
    requires forall a :: 0 <= a < |order| ==> order[a] < |items| && sorted[a] == cs[order[a]]
    ensures Ids(sorted[..m]) == IdsAt(items, order[..m]) && Ids(sorted[m..]) == IdsAt(items, order[m..])
  {
  }

  /** In terms of ids: a scanned item that is selected comes sooner by the rule than one that is skipped. */
  lemma SelectedComesSooner(cfg: CycleConfig, counts: Counts, queue: seq<QueueItem>, clock: nat -> Time, i: nat, j: nat)
    requires cfg.Valid() && DistinctQueued(queue) && i < |queue| && j < |queue| && i < cfg.scanLimit
    requires j < cfg.scanLimit
    requires queue[i].requestId
          in SelectedIds(PolicyKey(cfg.policy, counts), Candidates(Scanned(queue, cfg.scanLimit), clock),
                         cfg.selectLimit)
    requires queue[j].requestId
          in SkippedIds(PolicyKey(cfg.policy, counts), Candidates(Scanned(queue, cfg.scanLimit), clock),
                        cfg.selectLimit)
    ensures Sooner(cfg.policy, counts, Scanned(queue, cfg.scanLimit), clock, i, j)
  {
    var items, order := CycleFollowsRule(cfg, counts, queue, clock);
    var m := if |items| <= cfg.selectLimit then |items| else cfg.selectLimit;
    var a := PlaceOf(items, order[..m], i);
    var b := PlaceOf(items, order[m..], j);
    SoonerAcross(cfg.policy, counts, items, clock, order, m, a, b);
  }

  lemma SoonerAcross(policy: Policy, counts: Counts, items: seq<QueueItem>, clock: nat -> Time, order: seq<nat>, m: nat,
                     a: nat, b: nat)
    requires ValidPolicy(policy) && IsOrder(order, |items|) && FollowsRule(policy, counts, items, clock, order)
    requires a < m <= |order| && b < |order| - m
    ensures Sooner(policy, counts, items, clock, order[..m][a], order[m..][b])
  {
  }

  /** The place of a position in an order, from its id. */
  lemma PlaceOf(items: seq<QueueItem>, order: seq<nat>, i: nat) returns (a: nat)
    requires DistinctQueued(items) && i < |items| && forall b :: 0 <= b < |order| ==> order[b] < |items|
    requires items[i].requestId in IdsAt(items, order)
    ensures a < |order| && order[a] == i
  {
    a :| 0 <= a < |order| && IdsAt(items, order)[a] == items[i].requestId;
    assert items[order[a]].requestId == items[i].requestId;
  }

  /**
   Shortest job first: no skipped item needs fewer tokens than a selected one, and ties go to the earlier in the queue.
   */
  lemma ShortestJobsAreSelected(cfg: CycleConfig, counts: Counts, queue: seq<QueueItem>, clock: nat -> Time, i: nat,
                                j: nat)
    requires cfg.Valid() && cfg.policy == ShortestJobFirst && DistinctQueued(queue)
    requires i < |queue| && j < |queue| && i < cfg.scanLimit && j < cfg.scanLimit
    requires queue[i].requestId
          in SelectedIds(PolicyKey(cfg.policy, counts), Candidates(Scanned(queue, cfg.scanLimit), clock),
                         cfg.selectLimit)
    requires queue[j].requestId
          in SkippedIds(PolicyKey(cfg.policy, counts), Candidates(Scanned(queue, cfg.scanLimit), clock),
                        cfg.selectLimit)
    ensures Tokens(queue[i]) <= Tokens(queue[j]) && (Tokens(queue[i]) == Tokens(queue[j]) ==> i < j)
  {
    SelectedComesSooner(cfg, counts, queue, clock, i, j);
  }

  /**
   The fairness policy on any candidates: selected before skipped by what the classes have been served per weight; among
   candidates of one class no one that waited longer, or equally long at an earlier position, is skipped.
   */
  lemma FairSelection(w: Weights, counts: Counts, candidates: seq<SchedulingCandidate>, limit: nat,
                      c: SchedulingCandidate, d: SchedulingCandidate)
    requires w.Positive()
    requires var ordered := Ordered(FairKey(w, counts), candidates);
      c in ordered[..Min(limit, |ordered|)] && d in ordered[Min(limit, |ordered|)..]
    ensures ServedPerWeight(w, counts, c.priorityClass) <= ServedPerWeight(w, counts, d.priorityClass)
    ensures c.priorityClass == d.priorityClass ==>
      c.queueWaitMs > d.queueWaitMs || (c.queueWaitMs == d.queueWaitMs && c.queuePosition <= d.queuePosition)
  {
    var ordered := Ordered(FairKey(w, counts), candidates);
    var m := Min(limit, |ordered|);
    var i :| 0 <= i < m && ordered[..m][i] == c;
    var j :| 0 <= j < |ordered| - m && ordered[m..][j] == d;
    SelectionSpec(FairKey(w, counts), candidates, limit);
    assert KeyLeq(FairKey(w, counts)(ordered[..m][i]), FairKey(w, counts)(ordered[m..][j]));
    FairKeyRule(w, counts, c, d);
  }

  // ---- What the fairness policy remembers ----

  /** How many of the items at these positions are of a class. */
  function ItemsOfClass(items: seq<QueueItem>, order: seq<nat>, priorityClass: PriorityClass): nat
    requires forall a :: 0 <= a < |order| ==> order[a] < |items|
  {
    if order == [] then 0
    else
      ItemsOfClass(items, order[..|order| - 1], priorityClass)
      + (if ClassOf(items[order[|order| - 1]]) == priorityClass then 1 else 0)
  }

  lemma {:induction false} ItemsAreCandidates(items: seq<QueueItem>, order: seq<nat>, chosen: seq<SchedulingCandidate>,
                                              priorityClass: PriorityClass)
    requires |chosen| == |order| && forall a :: 0 <= a < |order| ==> order[a] < |items|
    requires forall a :: 0 <= a < |order| ==> chosen[a].priorityClass == ClassOf(items[order[a]])
    ensures OfClass(chosen, priorityClass) == ItemsOfClass(items, order, priorityClass)
  {
    if order != [] {
      ItemsAreCandidates(items, order[..|order| - 1], chosen[..|order| - 1], priorityClass);
    }
  }

  /**
   The order of a cycle once more, with the counts after it: under the fairness policy each class has been served once
   more for each selected item of the class, and under any other policy nothing is counted.
   */
  lemma CycleCounts(cfg: CycleConfig, counts: Counts, queue: seq<QueueItem>, clock: nat -> Time,
                    priorityClass: PriorityClass)
    returns (items: seq<QueueItem>, chosen: seq<nat>)
    requires cfg.Valid()
    ensures items == Scanned(queue, cfg.scanLimit) && forall a :: 0 <= a < |chosen| ==> chosen[a] < |items|
    ensures SelectedIds(PolicyKey(cfg.policy, counts), Candidates(items, clock), cfg.selectLimit)
         == IdsAt(items, chosen)
    ensures var after := CountsAfterSelection(cfg.policy, counts, Candidates(items, clock), cfg.selectLimit);
      if cfg.policy.WeightedFairness?
      then TimesServed(after, priorityClass)
          == TimesServed(counts, priorityClass) + ItemsOfClass(items, chosen, priorityClass)
      else after == counts
  {
    items := Scanned(queue, cfg.scanLimit);
    var key, cs := PolicyKey(cfg.policy, counts), Candidates(items, clock);
    var order := SortedPositions(key, cs);
    var m := Min(cfg.selectLimit, |cs|);
    chosen := order[..m];
    IdsOfOrder(items, cs, Ordered(key, cs), order, m);
    if cfg.policy.WeightedFairness? {
      var selected := Selected(cfg.policy.weights, counts, cs, cfg.selectLimit);
      RecordCounts(counts, selected, priorityClass);
      ItemsAreCandidates(items, chosen, selected, priorityClass);
    }
  }

  // ---- A whole cycle ----

  /** A cycle reports the ids in the order of the rule, and a reason that says how much of the queue was placed. */
  lemma RunFollowsRule(cfg: CycleConfig, s: CycleState, queue: seq<QueueItem>, x: CycleInputs)
    returns (t: CycleState, result: CycleResult, items: seq<QueueItem>, order: seq<nat>)
    requires cfg.Valid() && EngineInv(cfg.batch, s.engine) && |queue| <= |x.newIds| && FreshIds(s.engine, x.newIds)
    ensures RunCycle(cfg, s, queue, x) == Success((t, result))
    ensures items == if |queue| <= cfg.scanLimit then queue else queue[..cfg.scanLimit]
    ensures IsOrder(order, |items|) && FollowsRule(cfg.policy, s.counts, items, x.candidateClock, order)
    ensures var m := if |items| <= cfg.selectLimit then |items| else cfg.selectLimit;
      result.selected == IdsAt(items, order[..m]) && result.skipped == IdsAt(items, order[m..])
    ensures result.reason
         == if items == [] then "queue_empty"
            else if result.placements == [] then "no_candidates_selected"
            else if result.skipped == [] && result.rejections == [] then "all_candidates_selected"
            else "partial_selection"
  {
    items, order := CycleFollowsRule(cfg, s.counts, queue, x.candidateClock);
    var outcomes;
    t, result, outcomes := CycleHasParts(cfg, s, queue, x);
  }
}
