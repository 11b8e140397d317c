/**
 What one cycle does for one request: whether the policy selects it, skips it or never sees it, and the outcome of its
 turn among the placements, in terms of the engine as the turns before it have left it.
 */
module CycleTurns {
  import opened Wrappers
  import opened Schemas
  import opened Sorting
  import opened Policies
  import opened Fairness
  import opened BatchModels
  import opened BatchEngineSpec
  import opened BatchEngineInvariant
  import opened WaitingQueueSpec
  import opened SchedulingCycle
  import opened RequestPathSpec
  import opened RequestPathInvariant

  /** The ids that a cycle over this queue selects, in order. */
  function CycleSelected(cfg: CycleConfig, counts: Counts, queue: seq<QueueItem>, x: CycleInputs): seq<RequestId>
    requires cfg.Valid()
  {
    SelectedIds(PolicyKey(cfg.policy, counts), Candidates(Scanned(queue, cfg.scanLimit), x.candidateClock),
                cfg.selectLimit)
  }

  function CycleSkipped(cfg: CycleConfig, counts: Counts, queue: seq<QueueItem>, x: CycleInputs): seq<RequestId>
    requires cfg.Valid()
  {
    SkippedIds(PolicyKey(cfg.policy, counts), Candidates(Scanned(queue, cfg.scanLimit), x.candidateClock),
               cfg.selectLimit)
  }

  /** The counts of the fairness policy after a cycle over this queue. */
  function CycleCountsAfter(cfg: CycleConfig, counts: Counts, queue: seq<QueueItem>, x: CycleInputs): Counts
    requires cfg.Valid()
  {
    CountsAfterSelection(cfg.policy, counts, Candidates(Scanned(queue, cfg.scanLimit), x.candidateClock),
                         cfg.selectLimit)
  }

  /** The engine when n ids of the selection have had their turn. */
  function EngineAtTurn(cfg: CycleConfig, s: EngineState, queue: seq<QueueItem>, x: CycleInputs,
                        selected: seq<RequestId>, n: nat)
    : EngineState
    requires n <= |selected| <= |x.newIds|
  {
    match PlaceAll(cfg.batch, s, ItemById(Scanned(queue, cfg.scanLimit)), selected[..n], x.placeClock, x.newIds)
    case Success((t, _)) => t
    case Failure(_) => s
  }

  // ---- Selection from a queue without repetitions ----

  ghost predicate DistinctCandidates(cs: seq<SchedulingCandidate>) {
    forall i, j :: 0 <= i < j < |cs| ==> cs[i].requestId != cs[j].requestId
  }

  lemma PermutedStayDistinct(cs: seq<SchedulingCandidate>, permuted: seq<SchedulingCandidate>)
    requires DistinctCandidates(cs) && multiset(permuted) == multiset(cs)
    ensures DistinctCandidates(permuted)
  {
    PermutedStayDifferent(cs, permuted);
    forall i, j | 0 <= i < j < |permuted| ensures permuted[i].requestId != permuted[j].requestId {
      assert permuted[i] in multiset(cs) && permuted[j] in multiset(cs);
    }
  }

  ghost predicate DistinctIdList(ids: seq<RequestId>) {
    forall i, j :: 0 <= i < j < |ids| ==> ids[i] != ids[j]
  }

  /** The ids of a list, cut at position m, in terms of the list. */
  lemma CutIds(ordered: seq<SchedulingCandidate>, m: nat)
    requires DistinctCandidates(ordered) && m <= |ordered|
    ensures DistinctIdList(Ids(ordered[..m]))
    ensures forall r :: r in Ids(ordered[m..]) <==>
      (exists k :: 0 <= k < |ordered| && ordered[k].requestId == r) && r !in Ids(ordered[..m])
  {
    var front, back := Ids(ordered[..m]), Ids(ordered[m..]);
    assert forall k :: 0 <= k < m ==> front[k] == ordered[k].requestId;
    forall r | r in back ensures r !in front && exists k :: 0 <= k < |ordered| && ordered[k].requestId == r {
      var k :| 0 <= k < |back| && back[k] == r;
      assert ordered[m + k].requestId == r;
    }
    forall r | (exists k :: 0 <= k < |ordered| && ordered[k].requestId == r) && r !in front ensures r in back {
      var k :| 0 <= k < |ordered| && ordered[k].requestId == r;
      assert back[k - m] == r;
    }
  }

  lemma OrderedDistinct(key: SchedulingCandidate -> seq<real>, cs: seq<SchedulingCandidate>)
    returns (ordered: seq<SchedulingCandidate>)
    requires DistinctCandidates(cs)
    ensures ordered == Ordered(key, cs) && DistinctCandidates(ordered) && multiset(ordered) == multiset(cs)
  {
    ordered := Ordered(key, cs);
    ByKeyIsPreorder(key);
    SortSpec(ByKey(key), cs);
    PermutedStayDistinct(cs, ordered);
  }

  /**
   A queue without repetitions gives a selection without repetitions; skipped is what was scanned and not selected.
   */
  lemma SelectionOfDistinct(cfg: CycleConfig, counts: Counts, queue: seq<QueueItem>, x: CycleInputs)
    requires cfg.Valid() && DistinctQueued(queue)
    ensures DistinctIdList(CycleSelected(cfg, counts, queue, x))
    ensures forall r :: r in CycleSkipped(cfg, counts, queue, x)
                   <==> Contains(Scanned(queue, cfg.scanLimit), r) && r !in CycleSelected(cfg, counts, queue, x)
  {
    var items, key := Scanned(queue, cfg.scanLimit), PolicyKey(cfg.policy, counts);
    var cs := Candidates(items, x.candidateClock);
    var ordered := OrderedDistinct(key, cs);
    CutIds(ordered, Min(cfg.selectLimit, |ordered|));
    forall r ensures (exists k :: 0 <= k < |ordered| && ordered[k].requestId == r) <==> Contains(items, r) {
      OrderedIds(items, cs, ordered, r);
    }
  }

  lemma OrderedIds(items: seq<QueueItem>, cs: seq<SchedulingCandidate>, ordered: seq<SchedulingCandidate>, r: RequestId)
    requires multiset(ordered) == multiset(cs) && |cs| == |items|
    requires forall i :: 0 <= i < |cs| ==> cs[i].requestId == items[i].requestId
    ensures (exists k :: 0 <= k < |ordered| && ordered[k].requestId == r) <==> Contains(items, r)
  {
    if Contains(items, r) {
      var i :| 0 <= i < |items| && items[i].requestId == r;
      assert cs[i] in multiset(ordered);
    }
    if exists k :: 0 <= k < |ordered| && ordered[k].requestId == r {
      var k :| 0 <= k < |ordered| && ordered[k].requestId == r;
      assert ordered[k] in multiset(cs);
      var i :| 0 <= i < |cs| && cs[i] == ordered[k];
      assert items[i].requestId == r;
    }
  }

  // ---- The turn of one id ----

  /** What a placement gives in this state, decided by admissibility alone. */
  ghost function TurnOutcome(cfg: BatchConfig, before: EngineState, item: QueueItem, now: Time, newId: BatchId)
    : PlaceOutcome
    requires Listed(before)
  {
    if Admissible(cfg, before, item, now) then PlacedOutcome(cfg, before, item, now, newId)
    else Rejected(item.requestId, RefusalReason(cfg, before, item, now), RefusalBatch(before, item))
  }

  lemma PlaceGivesTurnOutcome(cfg: BatchConfig, s: EngineState, item: QueueItem, now: Time, newId: BatchId)
    requires ValidConfig(cfg) && EngineInv(cfg, s) && newId !in s.batches
    ensures Place(cfg, s, item, now, newId).Success?
    ensures Place(cfg, s, item, now, newId).value.1 == TurnOutcome(cfg, s, item, now, newId)
  {
    if Admissible(cfg, s, item, now) {
      PlacementIsExact(cfg, s, item, now, newId);
    } else {
      RefusalIsExact(cfg, s, item, now, newId);
    }
  }

  /** The ids before position i have been placed, which led to this state. */
  ghost predicate ReachesTurn(cfg: BatchConfig, s: EngineState, byId: map<RequestId, QueueItem>,
                              selected: seq<RequestId>, clock: nat -> Time, newIds: seq<BatchId>, i: nat,
                              before: EngineState)
    requires i < |selected| <= |newIds|
  {
    && PlaceAll(cfg, s, byId, selected[..i], clock, newIds).Success?
    && PlaceAll(cfg, s, byId, selected[..i], clock, newIds).value.0 == before
    && EngineInv(cfg, before) && newIds[i] !in before.batches
  }

  /** Turn i of the selection gives this outcome. */
  ghost predicate TurnGives(cfg: BatchConfig, s: EngineState, byId: map<RequestId, QueueItem>, selected: seq<RequestId>,
                            clock: nat -> Time, newIds: seq<BatchId>, i: nat, before: EngineState,
                            outcome: PlaceOutcome)
    requires i < |selected| <= |newIds| && selected[i] in byId
  {
    && ReachesTurn(cfg, s, byId, selected, clock, newIds, i, before)
    && outcome == TurnOutcome(cfg, before, byId[selected[i]], clock(i), newIds[i])
  }

  lemma LastTurn(cfg: BatchConfig, s: EngineState, byId: map<RequestId, QueueItem>, selected: seq<RequestId>,
                 clock: nat -> Time, newIds: seq<BatchId>, outcomes: seq<PlaceOutcome>, t: EngineState)
    returns (before: EngineState)
    requires ValidConfig(cfg) && EngineInv(cfg, s) && |selected| <= |newIds| && FreshIds(s, newIds)
    requires Indexed(byId, selected) && selected != [] && |outcomes| == |selected|
    requires PlaceAll(cfg, s, byId, selected, clock, newIds) == Success((t, outcomes))
    ensures TurnGives(cfg, s, byId, selected, clock, newIds, |selected| - 1, before, outcomes[|selected| - 1])
  {
    var n := |selected| - 1;
    var u, front := PlaceAllSpec(cfg, s, byId, selected[..n], clock, newIds);
    before := u;
    NextIdIsFresh(s, before, newIds, n);
    PlaceGivesTurnOutcome(cfg, before, byId[selected[n]], clock(n), newIds[n]);
    LastOutcome(cfg, s, byId, selected, clock, newIds, before, front, t, outcomes);
  }

  lemma TurnOfPrefix(cfg: BatchConfig, s: EngineState, byId: map<RequestId, QueueItem>, selected: seq<RequestId>,
                     clock: nat -> Time, newIds: seq<BatchId>, i: nat, before: EngineState, outcome: PlaceOutcome)
    requires i < |selected| - 1 && |selected| <= |newIds| && selected[i] in byId
    requires TurnGives(cfg, s, byId, selected[..|selected| - 1], clock, newIds, i, before, outcome)
    ensures TurnGives(cfg, s, byId, selected, clock, newIds, i, before, outcome)
  {
    assert selected[..|selected| - 1][..i] == selected[..i];
  }

  /** Outcome i of a selection is the one that the engine gives once the ids before it have been placed. */
  lemma {:induction false} PlaceAllTurn(cfg: BatchConfig, s: EngineState, byId: map<RequestId, QueueItem>,
                                        selected: seq<RequestId>, clock: nat -> Time, newIds: seq<BatchId>, i: nat,
                                        outcomes: seq<PlaceOutcome>, t: EngineState) returns (before: EngineState)
    requires ValidConfig(cfg) && EngineInv(cfg, s) && |selected| <= |newIds| && FreshIds(s, newIds)
    requires Indexed(byId, selected) && i < |selected| && |outcomes| == |selected|
    requires PlaceAll(cfg, s, byId, selected, clock, newIds) == Success((t, outcomes))
    ensures TurnGives(cfg, s, byId, selected, clock, newIds, i, before, outcomes[i])
    decreases |selected|
  {
    var n := |selected| - 1;
    if i == n {
      before := LastTurn(cfg, s, byId, selected, clock, newIds, outcomes, t);
    } else {
      before := EarlierTurn(cfg, s, byId, selected, clock, newIds, i, outcomes, t);
    }
  }

  lemma {:induction false} EarlierTurn(cfg: BatchConfig, s: EngineState, byId: map<RequestId, QueueItem>,
                                       selected: seq<RequestId>, clock: nat -> Time, newIds: seq<BatchId>, i: nat,
                                       outcomes: seq<PlaceOutcome>, t: EngineState) returns (before: EngineState)
    requires ValidConfig(cfg) && EngineInv(cfg, s) && |selected| <= |newIds| && FreshIds(s, newIds)
    requires Indexed(byId, selected) && i < |selected| - 1 && |outcomes| == |selected|
    requires PlaceAll(cfg, s, byId, selected, clock, newIds) == Success((t, outcomes))
    ensures TurnGives(cfg, s, byId, selected, clock, newIds, i, before, outcomes[i])
    decreases |selected|, 0
  {
    var front := selected[..|selected| - 1];
    var u, init := PlaceAllSpec(cfg, s, byId, front, clock, newIds);
    assert |init| == |front| by {
      assert OutcomesMatch(s, u, front, init);
    }
    FrontOutcomes(cfg, s, byId, selected, clock, newIds, u, init, t, outcomes);
    before := PlaceAllTurn(cfg, s, byId, front, clock, newIds, i, init, u);
    TurnOfPrefix(cfg, s, byId, selected, clock, newIds, i, before, outcomes[i]);
  }

  lemma LastOutcome(cfg: BatchConfig, s: EngineState, byId: map<RequestId, QueueItem>, selected: seq<RequestId>,
                    clock: nat -> Time, newIds: seq<BatchId>, u: EngineState, init: seq<PlaceOutcome>, t: EngineState,
                    outcomes: seq<PlaceOutcome>)
    requires selected != [] && |selected| <= |newIds| && selected[|selected| - 1] in byId && Listed(u)
    requires PlaceAll(cfg, s, byId, selected[..|selected| - 1], clock, newIds) == Success((u, init))
    requires PlaceAll(cfg, s, byId, selected, clock, newIds) == Success((t, outcomes))
    requires |init| == |selected| - 1
    requires Place(cfg, u, byId[selected[|selected| - 1]], clock(|selected| - 1), newIds[|selected| - 1]).Success?
    ensures outcomes
         == init
             + [Place(cfg, u, byId[selected[|selected| - 1]], clock(|selected| - 1), newIds[|selected| - 1]).value.1]
  {
  }

  lemma FrontOutcomes(cfg: BatchConfig, s: EngineState, byId: map<RequestId, QueueItem>, selected: seq<RequestId>,
                             clock: nat -> Time, newIds: seq<BatchId>, u: EngineState, init: seq<PlaceOutcome>,
                             t: EngineState, outcomes: seq<PlaceOutcome>)
    requires selected != [] && |selected| <= |newIds| && |init| == |selected| - 1
    requires PlaceAll(cfg, s, byId, selected[..|selected| - 1], clock, newIds) == Success((u, init))
    requires PlaceAll(cfg, s, byId, selected, clock, newIds) == Success((t, outcomes))
    ensures outcomes[..|init|] == init
  {
  }

  // ---- Finding the outcome ----

  /** Where the ids are distinct, the search finds the one outcome for an id on the list where it belongs. */
  lemma FindsOutcome(selected: seq<RequestId>, outcomes: seq<PlaceOutcome>, i: nat)
    requires DistinctIdList(selected) && OutcomeIds(outcomes) == selected && i < |selected|
    ensures FindOutcome(Filter(IsPlacement(), outcomes), selected[i])
         == if outcomes[i].Placed? then Some(outcomes[i]) else None
    ensures FindOutcome(Filter(Not(IsPlacement()), outcomes), selected[i])
         == if outcomes[i].Placed? then None else Some(outcomes[i])
  {
    FoundIn(selected, outcomes, i, IsPlacement());
    FoundIn(selected, outcomes, i, Not(IsPlacement()));
  }

  lemma FoundIn(selected: seq<RequestId>, outcomes: seq<PlaceOutcome>, i: nat, p: PlaceOutcome -> bool)
    requires DistinctIdList(selected) && OutcomeIds(outcomes) == selected && i < |selected|
    ensures FindOutcome(Filter(p, outcomes), selected[i]) == if p(outcomes[i]) then Some(outcomes[i]) else None
  {
    var kept := Filter(p, outcomes);
    FilterMembers(p, outcomes);
    FoundOutcome(kept, selected[i]);
    assert OutcomeIds(outcomes)[i] == outcomes[i].requestId;
    match FindOutcome(kept, selected[i])
    case Some(o) =>
      var j :| 0 <= j < |outcomes| && outcomes[j] == o;
      assert OutcomeIds(outcomes)[j] == o.requestId;
    case None => assert outcomes[i] !in kept;
  }

  lemma FindsNothing(selected: seq<RequestId>, outcomes: seq<PlaceOutcome>, r: RequestId, p: PlaceOutcome -> bool)
    requires OutcomeIds(outcomes) == selected && r !in selected
    ensures FindOutcome(Filter(p, outcomes), r) == None
  {
    FilterMembers(p, outcomes);
    FoundOutcome(Filter(p, outcomes), r);
    assert forall j :: 0 <= j < |outcomes| ==> outcomes[j].requestId == selected[j];
  }

  // ---- The turn of a request in a cycle ----

  /** The outcomes behind the result of a cycle. */
  ghost predicate CycleParts(cfg: CycleConfig, s: CycleState, queue: seq<QueueItem>, x: CycleInputs, t: CycleState,
                             result: CycleResult, outcomes: seq<PlaceOutcome>)
    requires cfg.Valid() && |result.selected| <= |x.newIds|
  {
    var items := Scanned(queue, cfg.scanLimit);
    && result
        == ResultOf(CycleSelected(cfg, s.counts, queue, x), CycleSkipped(cfg, s.counts, queue, x), outcomes, |items|)
    && PlaceAll(cfg.batch, s.engine, ItemById(items), result.selected, x.placeClock, x.newIds)
        == Success((t.engine, outcomes))
    && Indexed(ItemById(items), result.selected) && OutcomeIds(outcomes) == result.selected
  }

  lemma CycleHasParts(cfg: CycleConfig, s: CycleState, queue: seq<QueueItem>, x: CycleInputs)
    returns (t: CycleState, result: CycleResult, outcomes: seq<PlaceOutcome>)
    requires cfg.Valid() && EngineInv(cfg.batch, s.engine) && |queue| <= |x.newIds| && FreshIds(s.engine, x.newIds)
    ensures RunCycle(cfg, s, queue, x) == Success((t, result))
    ensures |result.selected| <= |x.newIds| && CycleParts(cfg, s, queue, x, t, result, outcomes)
    ensures t.counts == CycleCountsAfter(cfg, s.counts, queue, x)
  {
    var items := Scanned(queue, cfg.scanLimit);
    var selected, skipped := CycleSelected(cfg, s.counts, queue, x), CycleSkipped(cfg, s.counts, queue, x);
    var counts := CycleCountsAfter(cfg, s.counts, queue, x);
    SelectionIsIndexed(cfg, s.counts, queue, x.candidateClock, selected, skipped, counts);
    var engine, all := PlaceAllSpec(cfg.batch, s.engine, ItemById(items), selected, x.placeClock, x.newIds);
    CycleForm(cfg, s, queue, x, selected, skipped, counts, engine, all);
    t, result, outcomes := CycleState(engine, counts), ResultOf(selected, skipped, all, |items|), all;
    OutcomesCarryIds(s.engine, engine, selected, outcomes);
  }

  lemma OutcomesCarryIds(s: EngineState, t: EngineState, selected: seq<RequestId>, outcomes: seq<PlaceOutcome>)
    requires OutcomesMatch(s, t, selected, outcomes)
    ensures OutcomeIds(outcomes) == selected
  {
    forall i | 0 <= i < |selected| ensures outcomes[i].requestId == selected[i] {
      assert OutcomeFor(s, t, selected[i], outcomes[i]);
    }
  }

  /** A request that is not selected has no outcome. */
  lemma UnselectedHasNoOutcome(cfg: CycleConfig, s: CycleState, queue: seq<QueueItem>, x: CycleInputs, t: CycleState,
                               result: CycleResult, outcomes: seq<PlaceOutcome>, r: RequestId)
    requires cfg.Valid() && |result.selected| <= |x.newIds| && CycleParts(cfg, s, queue, x, t, result, outcomes)
    requires r !in result.selected
    ensures FindOutcome(result.placements, r) == None && FindOutcome(result.rejections, r) == None
  {
    FindsNothing(result.selected, outcomes, r, IsPlacement());
    FindsNothing(result.selected, outcomes, r, Not(IsPlacement()));
  }

  /** The turn of the request at position i of the selection, and where its outcome is found. */
  lemma SelectedHasItsTurn(cfg: CycleConfig, s: CycleState, queue: seq<QueueItem>, x: CycleInputs, t: CycleState,
                           result: CycleResult, outcomes: seq<PlaceOutcome>, i: nat) returns (before: EngineState)
    requires cfg.Valid() && EngineInv(cfg.batch, s.engine) && FreshIds(s.engine, x.newIds) && DistinctQueued(queue)
    requires |result.selected| <= |x.newIds| && CycleParts(cfg, s, queue, x, t, result, outcomes)
    requires i < |result.selected|
    ensures before == EngineAtTurn(cfg, s.engine, queue, x, result.selected, i)
    ensures EngineInv(cfg.batch, before) && x.newIds[i] !in before.batches
    ensures var byId := ItemById(Scanned(queue, cfg.scanLimit));
      && result.selected[i] in byId
      && var o := TurnOutcome(cfg.batch, before, byId[result.selected[i]], x.placeClock(i), x.newIds[i]);
         && FindOutcome(result.placements, result.selected[i]) == (if o.Placed? then Some(o) else None)
         && FindOutcome(result.rejections, result.selected[i]) == (if o.Placed? then None else Some(o))
  {
    SelectionOfDistinct(cfg, s.counts, queue, x);
    before := PlaceAllTurn(cfg.batch, s.engine, ItemById(Scanned(queue, cfg.scanLimit)), result.selected, x.placeClock,
                           x.newIds, i, outcomes, t.engine);
    FindsOutcome(result.selected, outcomes, i);
  }

  /** In a queue without repetitions the dictionary holds the only item of each scanned request. */
  lemma ItemOfRequest(items: seq<QueueItem>, item: QueueItem)
    requires DistinctQueued(items) && item in items
    ensures item.requestId in ItemById(items) && ItemById(items)[item.requestId] == item
  {
    ItemByIdSpec(items);
    var i :| 0 <= i < |items| && items[i] == item;
    assert Contains(items, item.requestId);
    var j :| 0 <= j < |items| && items[j] == ItemById(items)[item.requestId];
  }
}
