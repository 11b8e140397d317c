/** The scheduler policies: each orders the candidates by a key and selects a prefix. */
module Policies {
  import opened Schemas
  import opened Sorting

  datatype SchedulingCandidate = SchedulingCandidate(
    requestId: RequestId,
    model: string,
    queuePosition: nat,
    queueWaitMs: int,
    enqueuedAt: Time,
    maxTokens: nat,
    inputTokens: nat,
    jobTokens: nat,
    priorityClass: PriorityClass,
    requestAgeMs: int
  )

  datatype SchedulingDecision = SchedulingDecision(
    requestId: RequestId,
    selected: bool,
    reason: string,
    queuePosition: nat
  )

  // ---- Keys ----

  /** Tuples compare like sequences: by the first component that differs. */
  predicate KeyLeq(a: seq<real>, b: seq<real>) {
    a == [] || (b != [] && (a[0] < b[0] || (a[0] == b[0] && KeyLeq(a[1..], b[1..]))))
  }

  function ByKey(key: SchedulingCandidate -> seq<real>): (SchedulingCandidate, SchedulingCandidate) -> bool {
    (a: SchedulingCandidate, b: SchedulingCandidate) => KeyLeq(key(a), key(b))
  }

  lemma {:induction false} KeyLeqTotal(a: seq<real>, b: seq<real>)
    ensures KeyLeq(a, b) || KeyLeq(b, a)
  {
    if a != [] && b != [] && a[0] == b[0] {
      KeyLeqTotal(a[1..], b[1..]);
    }
  }

  lemma {:induction false} KeyLeqTransitive(a: seq<real>, b: seq<real>, c: seq<real>)
    requires KeyLeq(a, b) && KeyLeq(b, c)
    ensures KeyLeq(a, c)
  {
    if a != [] && a[0] == b[0] && b[0] == c[0] {
      KeyLeqTransitive(a[1..], b[1..], c[1..]);
    }
  }

  lemma ByKeyIsPreorder(key: SchedulingCandidate -> seq<real>)
    ensures TotalPreorder(ByKey(key))
  {
    var leq := ByKey(key);
    forall x, y ensures leq(x, y) || leq(y, x) {
      KeyLeqTotal(key(x), key(y));
    }
    forall x, y, z | leq(x, y) && leq(y, z) ensures leq(x, z) {
      KeyLeqTransitive(key(x), key(y), key(z));
    }
  }

  function FifoKey(): SchedulingCandidate -> seq<real> {
    (c: SchedulingCandidate) => [c.queuePosition as real, c.enqueuedAt as real]
  }

  function ShortestJobKey(): SchedulingCandidate -> seq<real> {
    (c: SchedulingCandidate) => [c.jobTokens as real, c.queuePosition as real, c.enqueuedAt as real]
  }

  /** The two latency objectives are positive. */
  function Score(queueObjective: real, ageObjective: real, c: SchedulingCandidate): real
    requires queueObjective > 0.0 && ageObjective > 0.0
  {
    c.queueWaitMs as real / queueObjective + c.requestAgeMs as real / ageObjective
  }

  function LatencyKey(queueObjective: real, ageObjective: real): SchedulingCandidate -> seq<real>
    requires queueObjective > 0.0 && ageObjective > 0.0
  {
    (c: SchedulingCandidate) => [-Score(queueObjective, ageObjective, c), c.queuePosition as real, c.enqueuedAt as real]
  }

  // ---- Selection ----

  function Min(a: nat, b: nat): nat {
    if a <= b then a else b
  }

  function Ordered(key: SchedulingCandidate -> seq<real>, candidates: seq<SchedulingCandidate>)
    : seq<SchedulingCandidate>
  {
    Sort(ByKey(key), candidates)
  }

  function Ids(candidates: seq<SchedulingCandidate>): seq<RequestId> {
    seq(|candidates|, i requires 0 <= i < |candidates| => candidates[i].requestId)
  }

  /** The ids a policy with this key selects from the candidates. */
  function SelectedIds(key: SchedulingCandidate -> seq<real>, candidates: seq<SchedulingCandidate>, limit: nat)
    : seq<RequestId>
  {
    var ordered := Ordered(key, candidates);
    Ids(ordered[..Min(limit, |ordered|)])
  }

  function SkippedIds(key: SchedulingCandidate -> seq<real>, candidates: seq<SchedulingCandidate>, limit: nat)
    : seq<RequestId>
  {
    var ordered := Ordered(key, candidates);
    Ids(ordered[Min(limit, |ordered|)..])
  }

  /** One decision for each candidate in order: selected for this reason up to the limit, and then past the limit. */
  ghost predicate DecidedAs(decisions: seq<SchedulingDecision>, ordered: seq<SchedulingCandidate>, limit: nat,
                            selectedReason: string)
  {
    && |decisions| == |ordered|
    && forall i :: 0 <= i < |ordered| ==>
         decisions[i] == SchedulingDecision(ordered[i].requestId, i < limit,
                                            if i < limit then selectedReason else "max_candidates_reached",
                                            ordered[i].queuePosition)
  }

  /** Splits an ordered list into decisions, selected ids and skipped ids. */
  method BuildDecisions(ordered: seq<SchedulingCandidate>, limit: nat, selectedReason: string, skippedReason: string)
    returns (decisions: seq<SchedulingDecision>, selected: seq<RequestId>, skipped: seq<RequestId>)
    ensures |decisions| == |ordered|
    ensures forall i :: 0 <= i < |ordered| ==>
              decisions[i] == SchedulingDecision(ordered[i].requestId, i < limit,
                                                 if i < limit then selectedReason else skippedReason,
                                                 ordered[i].queuePosition)
    ensures selected == Ids(ordered[..Min(limit, |ordered|)])
    ensures skipped == Ids(ordered[Min(limit, |ordered|)..])
  {
    decisions, selected, skipped := [], [], [];
    for i := 0 to |ordered|
      invariant |decisions| == i
      invariant forall j :: 0 <= j < i ==>
                  decisions[j] == SchedulingDecision(ordered[j].requestId, j < limit,
                                                     if j < limit then selectedReason else skippedReason,
                                                     ordered[j].queuePosition)
      invariant selected == Ids(ordered[..Min(limit, i)])
      invariant skipped == Ids(ordered[Min(limit, i)..i])
    {
      var candidate := ordered[i];
      if i < limit {
        decisions :=
          decisions + [SchedulingDecision(candidate.requestId, true, selectedReason, candidate.queuePosition)];
        selected := selected + [candidate.requestId];
      } else {
        decisions :=
          decisions + [SchedulingDecision(candidate.requestId, false, skippedReason, candidate.queuePosition)];
        skipped := skipped + [candidate.requestId];
      }
    }
  }

  /**
   For every policy: selected and skipped together are a key-sorted, stable permutation of the candidates, the
   selection has min(limit, n) elements, and no skipped candidate ranks before a selected one.
   */
  lemma SelectionSpec(key: SchedulingCandidate -> seq<real>, candidates: seq<SchedulingCandidate>, limit: nat)
    ensures var ordered := Ordered(key, candidates);
      var selected, skipped := ordered[..Min(limit, |ordered|)], ordered[Min(limit, |ordered|)..];
      && multiset(selected + skipped) == multiset(candidates)
      && |selected| == Min(limit, |candidates|)
      && SelectedIds(key, candidates, limit) == Ids(selected) && SkippedIds(key, candidates, limit) == Ids(skipped)
      && (forall i, j :: 0 <= i < |selected| && 0 <= j < |skipped| ==> KeyLeq(key(selected[i]), key(skipped[j])))
      && (forall i, j :: 0 <= i < j < |selected| ==> KeyLeq(key(selected[i]), key(selected[j])))
      && (forall c :: Ties(ByKey(key), selected + skipped, c) == Ties(ByKey(key), candidates, c))
  {
    var ordered := Ordered(key, candidates);
    ByKeyIsPreorder(key);
    SortSpec(ByKey(key), candidates);
    var m := Min(limit, |ordered|);
    assert ordered[..m] + ordered[m..] == ordered;
    forall i, j | 0 <= i < m && 0 <= j < |ordered| - m ensures KeyLeq(key(ordered[i]), key(ordered[m..][j])) {
      assert ByKey(key)(ordered[i], ordered[m + j]);
    }
    forall i, j | 0 <= i < j < m ensures KeyLeq(key(ordered[i]), key(ordered[j])) {
      assert ByKey(key)(ordered[i], ordered[j]);
    }
  }

  // ---- The queue reader ----

  function InputTokens(item: QueueItem): nat {
    if item.request.promptChars / 4 >= 1 then item.request.promptChars / 4 else 1
  }

  /** The candidate for an item; `now` is the clock reading made for this item. */
  function ToCandidate(item: QueueItem, position: nat, now: Time): SchedulingCandidate {
    SchedulingCandidate(
      item.requestId, item.request.model, position, now - item.enqueuedAt, item.enqueuedAt, item.request.maxTokens,
      InputTokens(item), InputTokens(item) + item.request.maxTokens,
      if item.request.priorityClass.Some? then item.request.priorityClass.value else item.priorityClass,
      now - item.arrivalTime)
  }

  /** The candidates for the scanned items, at positions 1, 2, ...; the clock is read once for each item. */
  function ItemsToCandidates(items: seq<QueueItem>, clock: seq<Time>): seq<SchedulingCandidate>
    requires |clock| == |items|
  {
    seq(|items|, i requires 0 <= i < |items| => ToCandidate(items[i], i + 1, clock[i]))
  }

  lemma ScannedAreSorted(items: seq<QueueItem>, clock: seq<Time>)
    requires |clock| == |items|
    ensures SortedBy(ByKey(FifoKey()), ItemsToCandidates(items, clock))
  {
    var cs := ItemsToCandidates(items, clock);
    forall i, j | 0 <= i < j < |cs| ensures ByKey(FifoKey())(cs[i], cs[j]) {
      assert FifoKey()(cs[i])[0] < FifoKey()(cs[j])[0];
    }
  }

  /** The FIFO policy keeps the order of the scanned queue. */
  lemma FifoKeepsQueueOrder(items: seq<QueueItem>, clock: seq<Time>, limit: nat)
    requires |clock| == |items|
    ensures Ordered(FifoKey(), ItemsToCandidates(items, clock)) == ItemsToCandidates(items, clock)
    ensures SelectedIds(FifoKey(), ItemsToCandidates(items, clock), limit)
         == seq(Min(limit, |items|), i requires 0 <= i < Min(limit, |items|) => items[i].requestId)
  {
    ScannedAreSorted(items, clock);
    var cs := ItemsToCandidates(items, clock);
    SortOfSorted(ByKey(FifoKey()), cs);
    assert SelectedIds(FifoKey(), cs, limit) == Ids(cs[..Min(limit, |cs|)]);
  }

  /** The clock reading between two neighbours advances, weighted, by no more than their times are apart. */
  ghost predicate ClockKeepsPace(items: seq<QueueItem>, clock: seq<Time>, queueObjective: real, ageObjective: real)
    requires |clock| == |items| && queueObjective > 0.0 && ageObjective > 0.0
  {
    forall i :: 0 <= i && i + 1 < |items| ==>
      (clock[i + 1] - clock[i]) as real / queueObjective + (clock[i + 1] - clock[i]) as real / ageObjective
      <= (items[i + 1].enqueuedAt - items[i].enqueuedAt) as real / queueObjective
         + (items[i + 1].arrivalTime - items[i].arrivalTime) as real / ageObjective
  }

  lemma DivideDifference(a: int, b: int, objective: real)
    requires objective > 0.0
    ensures (a - b) as real / objective == a as real / objective - b as real / objective
  {
  }

  lemma ScoreGap(items: seq<QueueItem>, clock: seq<Time>, q: real, a: real, i: nat, j: nat)
    requires |clock| == |items| && q > 0.0 && a > 0.0 && i < |items| && j < |items|
    ensures Score(q, a, ToCandidate(items[i], i + 1, clock[i])) - Score(q, a, ToCandidate(items[j], j + 1, clock[j]))
         == (items[j].enqueuedAt - items[i].enqueuedAt) as real / q
             + (items[j].arrivalTime - items[i].arrivalTime) as real / a
            - ((clock[j] - clock[i]) as real / q + (clock[j] - clock[i]) as real / a)
  {
    DivideDifference(clock[i], items[i].enqueuedAt, q);
    DivideDifference(clock[i], items[i].arrivalTime, a);
    DivideDifference(clock[j], items[j].enqueuedAt, q);
    DivideDifference(clock[j], items[j].arrivalTime, a);
    DivideDifference(items[j].enqueuedAt, items[i].enqueuedAt, q);
    DivideDifference(items[j].arrivalTime, items[i].arrivalTime, a);
    DivideDifference(clock[j], clock[i], q);
    DivideDifference(clock[j], clock[i], a);
  }

  ghost predicate ScoresFall(items: seq<QueueItem>, clock: seq<Time>, q: real, a: real)
    requires |clock| == |items| && q > 0.0 && a > 0.0
  {
    forall i, j :: 0 <= i < j < |items| ==>
      Score(q, a, ToCandidate(items[i], i + 1, clock[i])) >= Score(q, a, ToCandidate(items[j], j + 1, clock[j]))
  }

  lemma {:induction false} NeighboursSuffice(items: seq<QueueItem>, clock: seq<Time>, q: real, a: real, i: nat, j: nat)
    requires |clock| == |items| && q > 0.0 && a > 0.0 && ClockKeepsPace(items, clock, q, a)
    requires i <= j < |items|
    ensures Score(q, a, ToCandidate(items[i], i + 1, clock[i])) >= Score(q, a, ToCandidate(items[j], j + 1, clock[j]))
    decreases j
  {
    if i < j {
      NeighboursSuffice(items, clock, q, a, i, j - 1);
      ScoreGap(items, clock, q, a, j - 1, j);
      assert j - 1 + 1 < |items|;
    }
  }

  lemma PaceMakesScoresFall(items: seq<QueueItem>, clock: seq<Time>, q: real, a: real)
    requires |clock| == |items| && q > 0.0 && a > 0.0 && ClockKeepsPace(items, clock, q, a)
    ensures ScoresFall(items, clock, q, a)
  {
    forall i, j | 0 <= i < j < |items|
      ensures Score(q, a, ToCandidate(items[i], i + 1, clock[i])) >= Score(q, a, ToCandidate(items[j], j + 1, clock[j]))
    {
      NeighboursSuffice(items, clock, q, a, i, j);
    }
  }

  lemma FallingScoresKeepPace(items: seq<QueueItem>, clock: seq<Time>, q: real, a: real, i: nat)
    requires |clock| == |items| && q > 0.0 && a > 0.0 && ScoresFall(items, clock, q, a) && i + 1 < |items|
    ensures (clock[i + 1] - clock[i]) as real / q + (clock[i + 1] - clock[i]) as real / a
         <= (items[i + 1].enqueuedAt - items[i].enqueuedAt) as real / q
            + (items[i + 1].arrivalTime - items[i].arrivalTime) as real / a
  {
    ScoreGap(items, clock, q, a, i, i + 1);
    assert Score(q, a, ToCandidate(items[i], i + 1, clock[i]))
        >= Score(q, a, ToCandidate(items[i + 1], i + 2, clock[i + 1]));
  }

  lemma PaceIsFallingScores(items: seq<QueueItem>, clock: seq<Time>, q: real, a: real)
    requires |clock| == |items| && q > 0.0 && a > 0.0
    ensures ClockKeepsPace(items, clock, q, a) <==> ScoresFall(items, clock, q, a)
  {
    if ClockKeepsPace(items, clock, q, a) {
      PaceMakesScoresFall(items, clock, q, a);
    }
    if ScoresFall(items, clock, q, a) {
      forall i | 0 <= i && i + 1 < |items|
        ensures (clock[i + 1] - clock[i]) as real / q + (clock[i + 1] - clock[i]) as real / a
             <= (items[i + 1].enqueuedAt - items[i].enqueuedAt) as real / q
                + (items[i + 1].arrivalTime - items[i].arrivalTime) as real / a
      {
        FallingScoresKeepPace(items, clock, q, a, i);
      }
    }
  }

  lemma LatencyOrderIsScores(items: seq<QueueItem>, clock: seq<Time>, q: real, a: real)
    requires |clock| == |items| && q > 0.0 && a > 0.0
    ensures SortedBy(ByKey(LatencyKey(q, a)), ItemsToCandidates(items, clock)) <==> ScoresFall(items, clock, q, a)
  {
    var cs, leq := ItemsToCandidates(items, clock), ByKey(LatencyKey(q, a));
    forall i, j | 0 <= i < j < |items|
      ensures leq(cs[i], cs[j]) <==>
              Score(q, a, ToCandidate(items[i], i + 1, clock[i])) >= Score(q, a, ToCandidate(items[j], j + 1, clock[j]))
    {
      TripleOrder(-Score(q, a, cs[i]), cs[i].queuePosition as real, cs[i].enqueuedAt as real,
                  -Score(q, a, cs[j]), cs[j].queuePosition as real, cs[j].enqueuedAt as real);
    }
  }

  lemma TripleOrder(a: real, b: real, c: real, d: real, e: real, f: real)
    ensures KeyLeq([a, b, c], [d, e, f]) <==> a < d || (a == d && (b < e || (b == e && c <= f)))
  {
    assert [a, b, c][1..] == [b, c] && [d, e, f][1..] == [e, f];
    assert KeyLeq([a, b, c], [d, e, f]) <==> a < d || (a == d && KeyLeq([b, c], [e, f]));
    assert [b, c][1..] == [c] && [e, f][1..] == [f];
    assert KeyLeq([b, c], [e, f]) <==> b < e || (b == e && KeyLeq([c], [f]));
    assert KeyLeq([c], [f]) <==> c <= f;
  }

  // ---- The latency-aware policy against FIFO ----

  function CandidateScore(items: seq<QueueItem>, clock: seq<Time>, q: real, a: real, i: nat): real
    requires |clock| == |items| && q > 0.0 && a > 0.0 && i < |items|
  {
    Score(q, a, ToCandidate(items[i], i + 1, clock[i]))
  }

  /**
   The first m scanned items keep pace with the clock from one to the next, and no later item scores above the last of
   them.
   */
  ghost predicate PrefixLeads(items: seq<QueueItem>, clock: seq<Time>, q: real, a: real, m: nat)
    requires |clock| == |items| && q > 0.0 && a > 0.0 && m <= |items|
  {
    && ClockKeepsPace(items[..m], clock[..m], q, a)
    && (m > 0 ==> forall i :: m <= i < |items| ==>
          CandidateScore(items, clock, q, a, i) <= CandidateScore(items, clock, q, a, m - 1))
  }

  ghost predicate DistinctItems(items: seq<QueueItem>) {
    forall i, j :: 0 <= i < j < |items| ==> items[i].requestId != items[j].requestId
  }

  lemma LatencyPrecedes(items: seq<QueueItem>, clock: seq<Time>, q: real, a: real, i: nat, j: nat)
    requires |clock| == |items| && q > 0.0 && a > 0.0 && i < j < |items|
    ensures var cs := ItemsToCandidates(items, clock);
      ByKey(LatencyKey(q, a))(cs[i], cs[j])
      <==> CandidateScore(items, clock, q, a, i) >= CandidateScore(items, clock, q, a, j)
  {
    var cs := ItemsToCandidates(items, clock);
    TripleOrder(-Score(q, a, cs[i]), cs[i].queuePosition as real, cs[i].enqueuedAt as real,
                -Score(q, a, cs[j]), cs[j].queuePosition as real, cs[j].enqueuedAt as real);
  }

  lemma PrefixOfCandidates(items: seq<QueueItem>, clock: seq<Time>, m: nat)
    requires |clock| == |items| && m <= |items|
    ensures ItemsToCandidates(items, clock)[..m] == ItemsToCandidates(items[..m], clock[..m])
  {
  }

  lemma LatencyPrefixIsPace(items: seq<QueueItem>, clock: seq<Time>, q: real, a: real, m: nat)
    requires |clock| == |items| && q > 0.0 && a > 0.0 && m <= |items|
    ensures SortedBy(ByKey(LatencyKey(q, a)), ItemsToCandidates(items, clock)[..m])
       <==> ClockKeepsPace(items[..m], clock[..m], q, a)
  {
    PrefixOfCandidates(items, clock, m);
    LatencyOrderIsScores(items[..m], clock[..m], q, a);
    PaceIsFallingScores(items[..m], clock[..m], q, a);
  }

  lemma LatencyRestIsScores(items: seq<QueueItem>, clock: seq<Time>, q: real, a: real, m: nat)
    requires |clock| == |items| && q > 0.0 && a > 0.0 && 0 < m <= |items|
    ensures var cs := ItemsToCandidates(items, clock);
      (forall i :: m <= i < |cs| ==> ByKey(LatencyKey(q, a))(cs[m - 1], cs[i]))
      <==> (forall i :: m <= i < |items| ==>
              CandidateScore(items, clock, q, a, i) <= CandidateScore(items, clock, q, a, m - 1))
  {
    var cs := ItemsToCandidates(items, clock);
    forall i | m <= i < |items|
      ensures ByKey(LatencyKey(q, a))(cs[m - 1], cs[i])
         <==> CandidateScore(items, clock, q, a, i) <= CandidateScore(items, clock, q, a, m - 1)
    {
      LatencyPrecedes(items, clock, q, a, m - 1, i);
    }
  }

  /** The latency-aware policy leaves the first m scanned items in front, in order, exactly when they lead. */
  lemma LatencyKeepsPrefix(items: seq<QueueItem>, clock: seq<Time>, q: real, a: real, m: nat)
    requires |clock| == |items| && q > 0.0 && a > 0.0 && m <= |items|
    ensures var cs := ItemsToCandidates(items, clock);
      && |Ordered(LatencyKey(q, a), cs)| == |cs|
      && (Ordered(LatencyKey(q, a), cs)[..m] == cs[..m] <==> PrefixLeads(items, clock, q, a, m))
  {
    ByKeyIsPreorder(LatencyKey(q, a));
    PrefixIsKept(ByKey(LatencyKey(q, a)), ItemsToCandidates(items, clock), m);
    LatencyPrefixIsPace(items, clock, q, a, m);
    if m > 0 {
      LatencyRestIsScores(items, clock, q, a, m);
    }
  }

  /** Selections of the same length with the same ids are the same candidates, if no id occurs twice. */
  lemma SameIdsSameCandidates(xs: seq<SchedulingCandidate>, sorted: seq<SchedulingCandidate>, m: nat)
    requires multiset(sorted) == multiset(xs) && m <= |xs| && m <= |sorted| && Ids(sorted[..m]) == Ids(xs[..m])
    requires forall i, j :: 0 <= i < j < |xs| ==> xs[i].requestId != xs[j].requestId
    ensures sorted[..m] == xs[..m]
  {
    forall i | 0 <= i < m ensures sorted[i] == xs[i] {
      assert Ids(sorted[..m])[i] == Ids(xs[..m])[i];
      assert sorted[i] in multiset(xs);
    }
  }

  /** A policy selects the first ids exactly when its order starts with the first candidates. */
  lemma SelectsPrefix(key: SchedulingCandidate -> seq<real>, xs: seq<SchedulingCandidate>, limit: nat)
    requires forall i, j :: 0 <= i < j < |xs| ==> xs[i].requestId != xs[j].requestId
    ensures var m := Min(limit, |xs|);
      && |Ordered(key, xs)| == |xs|
      && (SelectedIds(key, xs, limit) == Ids(xs[..m]) <==> Ordered(key, xs)[..m] == xs[..m])
  {
    ByKeyIsPreorder(key);
    SortSpec(ByKey(key), xs);
    var ordered, m := Ordered(key, xs), Min(limit, |xs|);
    if Ids(ordered[..m]) == Ids(xs[..m]) {
      SameIdsSameCandidates(xs, ordered, m);
    }
  }

  lemma FifoSelectsFirst(items: seq<QueueItem>, clock: seq<Time>, limit: nat)
    requires |clock| == |items|
    ensures var cs := ItemsToCandidates(items, clock);
      SelectedIds(FifoKey(), cs, limit) == Ids(cs[..Min(limit, |cs|)])
  {
    FifoKeepsQueueOrder(items, clock, limit);
  }

  /** The latency-aware policy selects what FIFO selects exactly when the selected items lead the queue. */
  lemma LatencySelectsLikeFifo(items: seq<QueueItem>, clock: seq<Time>, q: real, a: real, limit: nat)
    requires |clock| == |items| && q > 0.0 && a > 0.0 && DistinctItems(items)
    ensures var cs := ItemsToCandidates(items, clock);
      SelectedIds(LatencyKey(q, a), cs, limit) == SelectedIds(FifoKey(), cs, limit)
      <==> PrefixLeads(items, clock, q, a, Min(limit, |items|))
  {
    FifoSelectsFirst(items, clock, limit);
    SelectsPrefix(LatencyKey(q, a), ItemsToCandidates(items, clock), limit);
    LatencyKeepsPrefix(items, clock, q, a, Min(limit, |items|));
  }

  /**
   The latency-aware policy orders the whole queue like FIFO exactly when the clock keeps pace while it is scanned.
   */
  lemma LatencyAwareIsFifo(items: seq<QueueItem>, clock: seq<Time>, queueObjective: real, ageObjective: real)
    requires |clock| == |items| && queueObjective > 0.0 && ageObjective > 0.0
    ensures Ordered(LatencyKey(queueObjective, ageObjective), ItemsToCandidates(items, clock))
         == Ordered(FifoKey(), ItemsToCandidates(items, clock))
        <==> ClockKeepsPace(items, clock, queueObjective, ageObjective)
  {
    var cs := ItemsToCandidates(items, clock);
    FifoKeepsQueueOrder(items, clock, 0);
    ByKeyIsPreorder(LatencyKey(queueObjective, ageObjective));
    SortedIsFixed(ByKey(LatencyKey(queueObjective, ageObjective)), cs);
    LatencyOrderIsScores(items, clock, queueObjective, ageObjective);
    PaceIsFallingScores(items, clock, queueObjective, ageObjective);
  }

  /** The two policies select the same ids for every limit exactly when the clock keeps pace with the whole queue. */
  lemma LatencyAlwaysSelectsLikeFifo(items: seq<QueueItem>, clock: seq<Time>, q: real, a: real)
    requires |clock| == |items| && q > 0.0 && a > 0.0 && DistinctItems(items)
    ensures var cs := ItemsToCandidates(items, clock);
      (forall limit :: SelectedIds(LatencyKey(q, a), cs, limit) == SelectedIds(FifoKey(), cs, limit))
      <==> ClockKeepsPace(items, clock, q, a)
  {
    var cs := ItemsToCandidates(items, clock);
    LatencyAwareIsFifo(items, clock, q, a);
    assert items[..|items|] == items && clock[..|items|] == clock;
    LatencySelectsLikeFifo(items, clock, q, a, |items|);
    if ClockKeepsPace(items, clock, q, a) {
      forall limit ensures SelectedIds(LatencyKey(q, a), cs, limit) == SelectedIds(FifoKey(), cs, limit) {
        assert Ordered(LatencyKey(q, a), cs) == Ordered(FifoKey(), cs);
      }
    }
  }

  lemma QuotientSign(d: int, objective: real)
    requires objective > 0.0 && d >= 0
    ensures d as real / objective >= 0.0
    ensures d == 0 ==> d as real / objective == 0.0
  {
  }

  /** With one clock reading for the whole scan, ordered arrival and enqueue times suffice, whatever the objectives. */
  lemma SteadyClockIsFifo(items: seq<QueueItem>, now: Time, queueObjective: real, ageObjective: real, limit: nat)
    requires queueObjective > 0.0 && ageObjective > 0.0
    requires forall i :: 0 <= i && i + 1 < |items| ==>
               items[i].enqueuedAt <= items[i + 1].enqueuedAt && items[i].arrivalTime <= items[i + 1].arrivalTime
    ensures var cs := ItemsToCandidates(items, seq(|items|, _ => now));
      SelectedIds(LatencyKey(queueObjective, ageObjective), cs, limit) == SelectedIds(FifoKey(), cs, limit)
  {
    var clock := seq(|items|, _ => now);
    forall i | 0 <= i && i + 1 < |items|
      ensures (clock[i + 1] - clock[i]) as real / queueObjective + (clock[i + 1] - clock[i]) as real / ageObjective
           <= (items[i + 1].enqueuedAt - items[i].enqueuedAt) as real / queueObjective
              + (items[i + 1].arrivalTime - items[i].arrivalTime) as real / ageObjective
    {
      QuotientSign(items[i + 1].enqueuedAt - items[i].enqueuedAt, queueObjective);
      QuotientSign(items[i + 1].arrivalTime - items[i].arrivalTime, ageObjective);
      QuotientSign(clock[i + 1] - clock[i], queueObjective);
      QuotientSign(clock[i + 1] - clock[i], ageObjective);
    }
    assert ClockKeepsPace(items, clock, queueObjective, ageObjective);
    LatencyAwareIsFifo(items, clock, queueObjective, ageObjective);
  }

  /**
   With a clock that moves during the scan they do not: of two requests that tie in every time, the later is taken.
   */
  lemma MovingClockReorders(first: QueueItem, second: QueueItem, queueObjective: real, ageObjective: real)
    requires queueObjective > 0.0 && ageObjective > 0.0
    requires first.enqueuedAt == second.enqueuedAt == 0 && first.arrivalTime == second.arrivalTime == 0
    ensures SelectedIds(LatencyKey(queueObjective, ageObjective), ItemsToCandidates([first, second], [5, 6]), 1)
         == [second.requestId]
    ensures SelectedIds(FifoKey(), ItemsToCandidates([first, second], [5, 6]), 1) == [first.requestId]
  {
    var cs := ItemsToCandidates([first, second], [5, 6]);
    FifoKeepsQueueOrder([first, second], [5, 6], 1);
    var leq := ByKey(LatencyKey(queueObjective, ageObjective));
    assert cs == [cs[0], cs[1]];
    LargerScore(queueObjective, ageObjective);
    assert !leq(cs[0], cs[1]);
    assert cs[..1] == [cs[0]];
    assert Sort(leq, cs[..1]) == Insert(leq, [], cs[0]) by {
      assert cs[..1][..0] == [];
    }
    assert Sort(leq, cs) == Insert(leq, [cs[0]], cs[1]);
    assert [cs[0]][..0] == [];
    assert Sort(leq, cs) == [cs[1], cs[0]];
  }

  lemma LargerScore(q: real, a: real)
    requires q > 0.0 && a > 0.0
    ensures 5.0 / q + 5.0 / a < 6.0 / q + 6.0 / a
  {
  }
}
