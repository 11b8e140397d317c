/** One scheduling cycle: candidates from the queue, a selection by the policy, and a placement for each selected id. */
module SchedulingCycle {
  import opened Wrappers
  import opened Schemas
  import opened Sorting
  import opened Policies
  import opened Fairness
  import opened BatchModels
  import opened BatchEngineSpec
  import opened BatchEngineInvariant
  import opened BatchEngineRuns
  import opened WaitingQueueSpec

  datatype Policy =
    | Fifo
    | ShortestJobFirst
    | LatencyAware(queueObjective: real, ageObjective: real)
    | WeightedFairness(weights: Weights)

  predicate ValidPolicy(policy: Policy) {
    match policy
    case LatencyAware(queueObjective, ageObjective) => queueObjective > 0.0 && ageObjective > 0.0
    case WeightedFairness(weights) => weights.Positive()
    case _ => true
  }

  /** The sort key of a policy; the fairness policy sorts by the counts it has kept so far. */
  function PolicyKey(policy: Policy, counts: Counts): SchedulingCandidate -> seq<real>
    requires ValidPolicy(policy)
  {
    match policy
    case Fifo => FifoKey()
    case ShortestJobFirst => ShortestJobKey()
    case LatencyAware(queueObjective, ageObjective) => LatencyKey(queueObjective, ageObjective)
    case WeightedFairness(weights) => FairKey(weights, counts)
  }

  datatype CycleConfig = CycleConfig(batch: BatchConfig, policy: Policy, scanLimit: nat, selectLimit: nat) {
    predicate Valid() {
      ValidConfig(batch) && ValidPolicy(policy)
    }
  }

  datatype CycleState = CycleState(engine: EngineState, counts: Counts)

  /** What a cycle draws from outside: its readings of the clock, and the ids of the batches it may create. */
  datatype CycleInputs = CycleInputs(candidateClock: nat -> Time, placeClock: nat -> Time, newIds: seq<BatchId>)

  datatype CycleResult = CycleResult(
    selected: seq<RequestId>,
    skipped: seq<RequestId>,
    placements: seq<PlaceOutcome>,
    rejections: seq<PlaceOutcome>,
    reason: string
  )

  /** New batch ids do not repeat and are not in use. */
  ghost predicate FreshIds(s: EngineState, ids: seq<BatchId>) {
    && (forall i :: 0 <= i < |ids| ==> ids[i] !in s.batches)
    && (forall i, j :: 0 <= i < j < |ids| ==> ids[i] != ids[j])
  }

  // ---- Candidates ----

  function Scanned(items: seq<QueueItem>, limit: nat): seq<QueueItem> {
    items[..Min(limit, |items|)]
  }

  function ClockReadings(clock: nat -> Time, n: nat): seq<Time> {
    seq(n, i requires 0 <= i < n => clock(i))
  }

  function Candidates(items: seq<QueueItem>, clock: nat -> Time): seq<SchedulingCandidate> {
    ItemsToCandidates(items, ClockReadings(clock, |items|))
  }

  /** The dictionary from ids to items; of two items with the same id the later one wins. */
  function ItemById(items: seq<QueueItem>): map<RequestId, QueueItem> {
    if items == [] then map[]
    else
      var last := items[|items| - 1];
      ItemById(items[..|items| - 1])[last.requestId := last]
  }

  lemma {:induction false} ItemByIdSpec(items: seq<QueueItem>)
    ensures forall r :: r in ItemById(items) <==> Contains(items, r)
    ensures forall r :: r in ItemById(items) ==> ItemById(items)[r].requestId == r && ItemById(items)[r] in items
  {
    if items != [] {
      var init, last := items[..|items| - 1], items[|items| - 1];
      ItemByIdSpec(init);
      forall r ensures Contains(items, r) <==> Contains(init, r) || last.requestId == r {
        if Contains(init, r) {
          var i :| 0 <= i < |init| && init[i].requestId == r;
          assert items[i].requestId == r;
        }
        if last.requestId == r {
          assert items[|items| - 1].requestId == r;
        }
      }
    }
  }

  /** Of several items with an id the last one is in the dictionary. */
  lemma {:induction false} LaterItemWins(items: seq<QueueItem>, i: nat)
    requires i < |items| && forall j :: i < j < |items| ==> items[j].requestId != items[i].requestId
    ensures items[i].requestId in ItemById(items) && ItemById(items)[items[i].requestId] == items[i]
  {
    if i < |items| - 1 {
      LaterItemWins(items[..|items| - 1], i);
    }
  }

  /** The dictionary holds an item for each of these ids, under its own id. */
  ghost predicate Indexed(byId: map<RequestId, QueueItem>, ids: seq<RequestId>) {
    forall i :: 0 <= i < |ids| ==> ids[i] in byId && byId[ids[i]].requestId == ids[i]
  }

  lemma PrefixOfPrefix<T>(xs: seq<T>, i: nat)
    requires i < |xs|
    ensures xs[..i + 1][..i] == xs[..i]
  {
  }

  // ---- Placing the selection ----

  /** The outcomes for the selected ids, in order, and the engine after them. */
  function PlaceAll(cfg: BatchConfig, s: EngineState, byId: map<RequestId, QueueItem>, selected: seq<RequestId>,
                    clock: nat -> Time, newIds: seq<BatchId>): Result<(EngineState, seq<PlaceOutcome>), EngineError>
    requires |selected| <= |newIds|
  {
    if selected == [] then Success((s, []))
    else
      var n := |selected| - 1;
      var before :- PlaceAll(cfg, s, byId, selected[..n], clock, newIds);
      if selected[n] !in byId then
        Success((before.0, before.1 + [Rejected(selected[n], "queue_item_not_found", None)]))
      else if Listed(before.0) then
        var placed :- Place(cfg, before.0, byId[selected[n]], clock(n), newIds[n]);
        Success((placed.0, before.1 + [placed.1]))
      else Failure(MissingKey)
  }

  function IsPlacement(): PlaceOutcome -> bool {
    (o: PlaceOutcome) => o.Placed?
  }

  function SummaryReason(placed: nat, skipped: nat, total: nat): string {
    if total == 0 then "queue_empty"
    else if placed == 0 then "no_candidates_selected"
    else if skipped == 0 then "all_candidates_selected"
    else "partial_selection"
  }

  function ResultOf(selected: seq<RequestId>, skipped: seq<RequestId>, outcomes: seq<PlaceOutcome>, total: nat)
    : CycleResult
  {
    var placements, rejections := Filter(IsPlacement(), outcomes), Filter(Not(IsPlacement()), outcomes);
    CycleResult(selected, skipped, placements, rejections,
                SummaryReason(|placements|, |skipped| + |rejections|, total))
  }

  /** The counts of the fairness policy after it has evaluated these candidates. */
  function CountsAfterSelection(policy: Policy, counts: Counts, candidates: seq<SchedulingCandidate>, limit: nat)
    : Counts
    requires ValidPolicy(policy)
  {
    match policy
    case WeightedFairness(weights) => Record(counts, Selected(weights, counts, candidates, limit))
    case _ => counts
  }

  function RunCycle(cfg: CycleConfig, s: CycleState, queue: seq<QueueItem>, x: CycleInputs)
    : Result<(CycleState, CycleResult), EngineError>
    requires cfg.Valid() && |queue| <= |x.newIds|
  {
    var items := Scanned(queue, cfg.scanLimit);
    var candidates, key := Candidates(items, x.candidateClock), PolicyKey(cfg.policy, s.counts);
    var selected := SelectedIds(key, candidates, cfg.selectLimit);
    var skipped := SkippedIds(key, candidates, cfg.selectLimit);
    SelectionLength(key, candidates, cfg.selectLimit);
    var placed :- PlaceAll(cfg.batch, s.engine, ItemById(items), selected, x.placeClock, x.newIds);
    Success((CycleState(placed.0, CountsAfterSelection(cfg.policy, s.counts, candidates, cfg.selectLimit)),
             ResultOf(selected, skipped, placed.1, |candidates|)))
  }

  lemma SelectionLength(key: SchedulingCandidate -> seq<real>, candidates: seq<SchedulingCandidate>, limit: nat)
    ensures |SelectedIds(key, candidates, limit)| == Min(limit, |candidates|)
  {
    SelectionSpec(key, candidates, limit);
  }

  /** What the policy selects and skips of the queue, and the counts it keeps afterwards. */
  ghost predicate Selection(cfg: CycleConfig, before: Counts, queue: seq<QueueItem>, clock: nat -> Time,
                            selected: seq<RequestId>, skipped: seq<RequestId>, after: Counts)
    requires cfg.Valid()
  {
    var candidates := Candidates(Scanned(queue, cfg.scanLimit), clock);
    && selected == SelectedIds(PolicyKey(cfg.policy, before), candidates, cfg.selectLimit)
    && skipped == SkippedIds(PolicyKey(cfg.policy, before), candidates, cfg.selectLimit)
    && after == CountsAfterSelection(cfg.policy, before, candidates, cfg.selectLimit)
  }

  /** A cycle, once its selection has been placed. */
  lemma CycleForm(cfg: CycleConfig, s: CycleState, queue: seq<QueueItem>, x: CycleInputs, selected: seq<RequestId>,
                  skipped: seq<RequestId>, counts: Counts, engine: EngineState, outcomes: seq<PlaceOutcome>)
    requires cfg.Valid() && |queue| <= |x.newIds| && |selected| <= |x.newIds|
    requires Selection(cfg, s.counts, queue, x.candidateClock, selected, skipped, counts)
    requires PlaceAll(cfg.batch, s.engine, ItemById(Scanned(queue, cfg.scanLimit)), selected, x.placeClock, x.newIds)
          == Success((engine, outcomes))
    ensures RunCycle(cfg, s, queue, x)
         == Success((CycleState(engine, counts),
                     ResultOf(selected, skipped, outcomes, |Scanned(queue, cfg.scanLimit)|)))
  {
  }

  // ---- What one placement does ----

  /** The request is a member of its batch with this status. */
  ghost predicate HasStatus(s: EngineState, r: RequestId, status: MemberStatus) {
    r in s.requestToBatch && s.requestToBatch[r] in s.batches
    && exists m :: m in s.batches[s.requestToBatch[r]].members && m.requestId == r && m.status == status
  }

  /** The engine keeps every member as it is and at most adds new ones. */
  ghost predicate MembersKept(s: EngineState, t: EngineState) {
    forall b :: b in s.batches ==> b in t.batches && s.batches[b].members <= t.batches[b].members
  }

  lemma KeptStatus(s: EngineState, t: EngineState, r: RequestId, status: MemberStatus)
    requires Extends(s, t) && MembersKept(s, t) && HasStatus(s, r, status)
    ensures HasStatus(t, r, status)
  {
    var m :| m in s.batches[s.requestToBatch[r]].members && m.requestId == r && m.status == status;
    assert m in t.batches[t.requestToBatch[r]].members;
  }

  lemma KeptTransitive(s: EngineState, t: EngineState, u: EngineState)
    requires MembersKept(s, t) && MembersKept(t, u)
    ensures MembersKept(s, u)
  {
  }

  /** The record of an outcome in the engine: a placed request is an active member of the batch named. */
  ghost predicate Recorded(t: EngineState, outcome: PlaceOutcome) {
    outcome.Placed? ==>
      && outcome.requestId in t.requestToBatch && t.requestToBatch[outcome.requestId] == outcome.batchId
      && HasStatus(t, outcome.requestId, MemberActive)
  }

  lemma RejectionLeavesBatches(cfg: BatchConfig, s: EngineState, item: QueueItem, now: Time, newId: BatchId)
    requires EngineInv(cfg, s) && !Admissible(cfg, s, item, now)
    ensures Place(cfg, s, item, now, newId).Success?
    ensures var (t, outcome) := Place(cfg, s, item, now, newId).value;
      t == s && outcome.Rejected? && outcome.requestId == item.requestId && outcome.reason != "queue_item_not_found"
  {
    RefusalIsExact(cfg, s, item, now, newId);
  }

  lemma PlacedStateRecords(cfg: BatchConfig, s: EngineState, item: QueueItem, now: Time, newId: BatchId)
    requires ReadyToJoin(cfg, s, item, now, newId)
    ensures PlacedState(cfg, s, item, now, newId).batches.Keys <= s.batches.Keys + {newId}
    ensures Recorded(PlacedState(cfg, s, item, now, newId), PlacedOutcome(cfg, s, item, now, newId))
    ensures newId !in s.batches ==> MembersKept(s, PlacedState(cfg, s, item, now, newId))
  {
    var b := PlacementTarget(s, item.request.model, newId);
    var batch := PlacementBase(cfg, s, item.request.model, now, newId).batches[b];
    assert NewMember(batch, item, now) in PlacedState(cfg, s, item, now, newId).batches[b].members;
  }

  lemma PlacementAddsNewBatchOnly(cfg: BatchConfig, s: EngineState, item: QueueItem, now: Time, newId: BatchId)
    requires ValidConfig(cfg) && EngineInv(cfg, s) && newId !in s.batches && Admissible(cfg, s, item, now)
    ensures Place(cfg, s, item, now, newId).Success?
    ensures var (t, outcome) := Place(cfg, s, item, now, newId).value;
      && t.batches.Keys <= s.batches.Keys + {newId} && MembersKept(s, t)
      && outcome.Placed? && outcome.requestId == item.requestId && Recorded(t, outcome)
  {
    PlacementIsExact(cfg, s, item, now, newId);
    AdmissibleIsReady(cfg, s, item, now, newId);
    PlacedStateRecords(cfg, s, item, now, newId);
  }

  /**
   A placement succeeds; it records a placed request that was in no batch before, and adds no batch but the new one.
   */
  lemma PlaceStep(cfg: BatchConfig, s: EngineState, item: QueueItem, now: Time, newId: BatchId)
    requires ValidConfig(cfg) && EngineInv(cfg, s) && newId !in s.batches
    ensures Place(cfg, s, item, now, newId).Success?
    ensures var (t, outcome) := Place(cfg, s, item, now, newId).value;
      && EngineInv(cfg, t) && Extends(s, t) && MembersKept(s, t)
      && t.batches.Keys <= s.batches.Keys + {newId}
      && outcome.requestId == item.requestId
      && Recorded(t, outcome)
      && (outcome.Placed? ==> item.requestId !in s.requestToBatch)
      && (outcome.Rejected? ==> outcome.reason != "queue_item_not_found")
  {
    PlaceKeepsInv(cfg, s, item, now, newId);
    PlaceExtends(cfg, s, item, now, newId);
    if Admissible(cfg, s, item, now) {
      PlacementAddsNewBatchOnly(cfg, s, item, now, newId);
    } else {
      RejectionLeavesBatches(cfg, s, item, now, newId);
    }
  }

  // ---- What a cycle does ----

  ghost predicate OutcomeFor(s: EngineState, t: EngineState, r: RequestId, outcome: PlaceOutcome) {
    && outcome.requestId == r && Recorded(t, outcome)
    && (outcome.Placed? ==> r !in s.requestToBatch)
    && (outcome.Rejected? ==> outcome.reason != "queue_item_not_found")
  }

  /** Each selected id has its outcome, and no id is placed twice. */
  ghost predicate OutcomesMatch(s: EngineState, t: EngineState, selected: seq<RequestId>, outcomes: seq<PlaceOutcome>) {
    && |outcomes| == |selected|
    && (forall i :: 0 <= i < |selected| ==> OutcomeFor(s, t, selected[i], outcomes[i]))
    && (forall i, j :: 0 <= i < j < |outcomes| && outcomes[i].Placed? && outcomes[j].Placed? ==>
          selected[i] != selected[j])
  }

  lemma KeptOutcome(s: EngineState, t: EngineState, u: EngineState, r: RequestId, outcome: PlaceOutcome)
    requires Extends(t, u) && MembersKept(t, u) && OutcomeFor(s, t, r, outcome)
    ensures OutcomeFor(s, u, r, outcome)
  {
    if outcome.Placed? {
      KeptStatus(t, u, r, MemberActive);
    }
  }

  lemma ExtendOutcomes(s: EngineState, t: EngineState, u: EngineState, selected: seq<RequestId>,
                       outcomes: seq<PlaceOutcome>, outcome: PlaceOutcome)
    requires selected != [] && OutcomesMatch(s, t, selected[..|selected| - 1], outcomes)
    requires Extends(s, t) && Extends(t, u) && MembersKept(t, u) && OutcomeFor(t, u, selected[|selected| - 1], outcome)
    ensures OutcomesMatch(s, u, selected, outcomes + [outcome])
  {
    var n, all := |selected| - 1, outcomes + [outcome];
    forall i | 0 <= i < |selected| ensures OutcomeFor(s, u, selected[i], all[i]) {
      if i < n {
        assert selected[..n][i] == selected[i];
        assert OutcomeFor(s, t, selected[i], outcomes[i]);
        KeptOutcome(s, t, u, selected[i], outcomes[i]);
      }
    }
    forall i, j | 0 <= i < j < |all| && all[i].Placed? && all[j].Placed? ensures selected[i] != selected[j] {
      assert selected[..n][i] == selected[i];
      assert OutcomeFor(s, t, selected[i], outcomes[i]);
      if j < n {
        assert selected[..n][j] == selected[j];
      }
    }
  }

  /** After the outcomes for the selected ids: the invariant, the records that only grow, and the outcomes. */
  ghost predicate PlacedAll(cfg: BatchConfig, s: EngineState, t: EngineState, selected: seq<RequestId>,
                            outcomes: seq<PlaceOutcome>)
  {
    EngineInv(cfg, t) && Extends(s, t) && MembersKept(s, t) && OutcomesMatch(s, t, selected, outcomes)
  }

  lemma PlaceOneMore(cfg: BatchConfig, s: EngineState, t: EngineState, selected: seq<RequestId>,
                     outcomes: seq<PlaceOutcome>, item: QueueItem, now: Time, newId: BatchId)
    requires ValidConfig(cfg) && selected != [] && PlacedAll(cfg, s, t, selected[..|selected| - 1], outcomes)
    requires newId !in t.batches && item.requestId == selected[|selected| - 1]
    ensures Place(cfg, t, item, now, newId).Success?
    ensures var (u, outcome) := Place(cfg, t, item, now, newId).value;
      && PlacedAll(cfg, s, u, selected, outcomes + [outcome])
      && u.batches.Keys <= t.batches.Keys + {newId}
  {
    PlaceStep(cfg, t, item, now, newId);
    var (u, outcome) := Place(cfg, t, item, now, newId).value;
    ExtendOutcomes(s, t, u, selected, outcomes, outcome);
    ExtendsTransitive(s, t, u);
    KeptTransitive(s, t, u);
  }

  /** No batch exists but those of s and those that took one of the first n new ids. */
  ghost predicate IdsUsed(s: EngineState, t: EngineState, newIds: seq<BatchId>, n: nat)
    requires n <= |newIds|
  {
    forall b :: b in t.batches ==> b in s.batches || b in newIds[..n]
  }

  lemma NextIdIsFresh(s: EngineState, t: EngineState, newIds: seq<BatchId>, n: nat)
    requires n < |newIds| && FreshIds(s, newIds) && IdsUsed(s, t, newIds, n)
    ensures newIds[n] !in t.batches
  {
  }

  lemma OneMoreIdUsed(s: EngineState, t: EngineState, u: EngineState, newIds: seq<BatchId>, n: nat)
    requires n < |newIds| && IdsUsed(s, t, newIds, n) && u.batches.Keys <= t.batches.Keys + {newIds[n]}
    ensures IdsUsed(s, u, newIds, n + 1)
  {
    forall b | b in u.batches ensures b in s.batches || b in newIds[..n + 1] {
      assert b in t.batches.Keys + {newIds[n]};
      assert newIds[..n + 1] == newIds[..n] + [newIds[n]];
    }
  }

  lemma PlaceAllUnfolds(cfg: BatchConfig, s: EngineState, byId: map<RequestId, QueueItem>, selected: seq<RequestId>,
                        clock: nat -> Time, newIds: seq<BatchId>, t: EngineState, outcomes: seq<PlaceOutcome>,
                        u: EngineState, outcome: PlaceOutcome)
    requires selected != [] && |selected| <= |newIds| && selected[|selected| - 1] in byId && Listed(t)
    requires PlaceAll(cfg, s, byId, selected[..|selected| - 1], clock, newIds) == Success((t, outcomes))
    requires Place(cfg, t, byId[selected[|selected| - 1]], clock(|selected| - 1), newIds[|selected| - 1])
         == Success((u, outcome))
    ensures PlaceAll(cfg, s, byId, selected, clock, newIds) == Success((u, outcomes + [outcome]))
  {
  }

  /** Placing any selection succeeds; every selected id gets its outcome. */
  lemma {:induction false} PlaceAllSpec(cfg: BatchConfig, s: EngineState, byId: map<RequestId, QueueItem>,
                                        selected: seq<RequestId>, clock: nat -> Time, newIds: seq<BatchId>)
    returns (t: EngineState, outcomes: seq<PlaceOutcome>)
    requires ValidConfig(cfg) && EngineInv(cfg, s) && |selected| <= |newIds| && FreshIds(s, newIds)
    requires Indexed(byId, selected)
    ensures PlaceAll(cfg, s, byId, selected, clock, newIds) == Success((t, outcomes))
    ensures PlacedAll(cfg, s, t, selected, outcomes) && IdsUsed(s, t, newIds, |selected|)
  {
    if selected == [] {
      t, outcomes := s, [];
      NothingExtends(s);
    } else {
      var n := |selected| - 1;
      var before, front := PlaceAllSpec(cfg, s, byId, selected[..n], clock, newIds);
      NextIdIsFresh(s, before, newIds, n);
      PlaceOneMore(cfg, s, before, selected, front, byId[selected[n]], clock(n), newIds[n]);
      var (after, outcome) := Place(cfg, before, byId[selected[n]], clock(n), newIds[n]).value;
      OneMoreIdUsed(s, before, after, newIds, n);
      PlaceAllUnfolds(cfg, s, byId, selected, clock, newIds, before, front, after, outcome);
      t, outcomes := after, front + [outcome];
    }
  }

  lemma NothingExtends(s: EngineState)
    ensures Extends(s, s) && MembersKept(s, s)
  {
  }

  ghost predicate ScannedIds(items: seq<QueueItem>, ids: seq<RequestId>) {
    forall i :: 0 <= i < |ids| ==> Contains(items, ids[i])
  }

  lemma CandidateIsScanned(items: seq<QueueItem>, clock: nat -> Time, c: SchedulingCandidate)
    requires c in Candidates(items, clock)
    ensures Contains(items, c.requestId)
  {
    var i :| 0 <= i < |items| && Candidates(items, clock)[i] == c;
    assert items[i].requestId == c.requestId;
  }

  /** Every selected id is the id of a scanned item. */
  lemma SelectedAreScanned(key: SchedulingCandidate -> seq<real>, items: seq<QueueItem>, clock: nat -> Time, limit: nat)
    ensures ScannedIds(items, SelectedIds(key, Candidates(items, clock), limit))
  {
    var candidates := Candidates(items, clock);
    var ordered := Ordered(key, candidates);
    ByKeyIsPreorder(key);
    SortSpec(ByKey(key), candidates);
    forall i | 0 <= i < |ordered| ensures Contains(items, ordered[i].requestId) {
      assert ordered[i] in multiset(candidates);
      CandidateIsScanned(items, clock, ordered[i]);
    }
  }

  function OutcomeIds(outcomes: seq<PlaceOutcome>): seq<RequestId> {
    seq(|outcomes|, i requires 0 <= i < |outcomes| => outcomes[i].requestId)
  }

  lemma {:induction false} SplitKeepsIds(outcomes: seq<PlaceOutcome>)
    ensures multiset(OutcomeIds(Filter(IsPlacement(), outcomes)) + OutcomeIds(Filter(Not(IsPlacement()), outcomes)))
         == multiset(OutcomeIds(outcomes))
  {
    if outcomes != [] {
      var init, last := outcomes[..|outcomes| - 1], outcomes[|outcomes| - 1];
      SplitKeepsIds(init);
      var kept, dropped := OutcomeIds(Filter(IsPlacement(), init)), OutcomeIds(Filter(Not(IsPlacement()), init));
      assert OutcomeIds(outcomes) == OutcomeIds(init) + [last.requestId];
      if last.Placed? {
        assert OutcomeIds(Filter(IsPlacement(), outcomes)) == kept + [last.requestId];
        assert OutcomeIds(Filter(Not(IsPlacement()), outcomes)) == dropped;
      } else {
        assert OutcomeIds(Filter(IsPlacement(), outcomes)) == kept;
        assert OutcomeIds(Filter(Not(IsPlacement()), outcomes)) == dropped + [last.requestId];
      }
    }
  }

  /** What a finished cycle guarantees. */
  ghost predicate CycleSpec(cfg: CycleConfig, s: CycleState, queue: seq<QueueItem>, t: CycleState, result: CycleResult)
  {
    && EngineInv(cfg.batch, t.engine) && Extends(s.engine, t.engine) && MembersKept(s.engine, t.engine)
    && |result.selected| == Min(cfg.selectLimit, Min(cfg.scanLimit, |queue|))
    && multiset(OutcomeIds(result.placements) + OutcomeIds(result.rejections)) == multiset(result.selected)
    && (forall r :: r in result.selected ==> Contains(queue, r))
    && (forall o :: o in result.placements ==>
          o.Placed? && o.requestId !in s.engine.requestToBatch && Recorded(t.engine, o))
    && (forall o :: o in result.rejections ==> o.Rejected? && o.reason != "queue_item_not_found")
    && (forall i, j :: 0 <= i < j < |result.placements| ==>
          result.placements[i].requestId != result.placements[j].requestId)
  }

  lemma {:induction false} PlacementsDistinct(outcomes: seq<PlaceOutcome>)
    requires forall i, j :: 0 <= i < j < |outcomes| && outcomes[i].Placed? && outcomes[j].Placed? ==>
      outcomes[i].requestId != outcomes[j].requestId
    ensures var kept := Filter(IsPlacement(), outcomes);
      forall i, j :: 0 <= i < j < |kept| ==> kept[i].requestId != kept[j].requestId
  {
    if outcomes != [] {
      var init, last := outcomes[..|outcomes| - 1], outcomes[|outcomes| - 1];
      PlacementsDistinct(init);
      FilterMembers(IsPlacement(), init);
      if last.Placed? {
        forall o | o in Filter(IsPlacement(), init) ensures o.requestId != last.requestId {
          var i :| 0 <= i < |init| && init[i] == o;
          assert outcomes[i] == o;
        }
      }
    }
  }

  lemma OutcomesGiveResult(s: EngineState, t: EngineState, selected: seq<RequestId>, skipped: seq<RequestId>,
                           outcomes: seq<PlaceOutcome>, total: nat)
    requires OutcomesMatch(s, t, selected, outcomes)
    ensures var result := ResultOf(selected, skipped, outcomes, total);
      && multiset(OutcomeIds(result.placements) + OutcomeIds(result.rejections)) == multiset(selected)
      && (forall o :: o in result.placements ==> o.Placed? && o.requestId !in s.requestToBatch && Recorded(t, o))
      && (forall o :: o in result.rejections ==> o.Rejected? && o.reason != "queue_item_not_found")
      && (forall i, j :: 0 <= i < j < |result.placements| ==>
            result.placements[i].requestId != result.placements[j].requestId)
  {
    SplitKeepsIds(outcomes);
    assert OutcomeIds(outcomes) == selected;
    FilterMembers(IsPlacement(), outcomes);
    FilterMembers(Not(IsPlacement()), outcomes);
    PlacementsDistinct(outcomes);
    forall o | o in outcomes
      ensures o.Placed? ==> o.requestId !in s.requestToBatch && Recorded(t, o)
      ensures o.Rejected? ==> o.reason != "queue_item_not_found"
    {
      var i :| 0 <= i < |outcomes| && outcomes[i] == o;
      assert OutcomeFor(s, t, selected[i], outcomes[i]);
    }
  }

  lemma ScannedAreQueued(queue: seq<QueueItem>, limit: nat, ids: seq<RequestId>)
    requires ScannedIds(Scanned(queue, limit), ids)
    ensures forall r :: r in ids ==> Contains(queue, r)
    ensures Indexed(ItemById(Scanned(queue, limit)), ids)
  {
    var items := Scanned(queue, limit);
    ItemByIdSpec(items);
    forall r | Contains(items, r) ensures Contains(queue, r) {
      var i :| 0 <= i < |items| && items[i].requestId == r;
      assert queue[i].requestId == r;
    }
  }

  lemma SelectionIsIndexed(cfg: CycleConfig, before: Counts, queue: seq<QueueItem>, clock: nat -> Time,
                           selected: seq<RequestId>, skipped: seq<RequestId>, after: Counts)
    requires cfg.Valid() && Selection(cfg, before, queue, clock, selected, skipped, after)
    ensures Indexed(ItemById(Scanned(queue, cfg.scanLimit)), selected)
    ensures |selected| == Min(cfg.selectLimit, Min(cfg.scanLimit, |queue|))
    ensures forall r :: r in selected ==> Contains(queue, r)
  {
    var items, key := Scanned(queue, cfg.scanLimit), PolicyKey(cfg.policy, before);
    SelectionLength(key, Candidates(items, clock), cfg.selectLimit);
    SelectedAreScanned(key, items, clock, cfg.selectLimit);
    ScannedAreQueued(queue, cfg.scanLimit, selected);
  }

  /**
   A cycle never fails. Each selected id gives exactly one placement or one rejection, never for a missing item,
   and a placed id was in no batch before.
   */
  lemma CycleIsExact(cfg: CycleConfig, s: CycleState, queue: seq<QueueItem>, x: CycleInputs)
    returns (t: CycleState, result: CycleResult)
    requires cfg.Valid() && EngineInv(cfg.batch, s.engine) && |queue| <= |x.newIds| && FreshIds(s.engine, x.newIds)
    ensures RunCycle(cfg, s, queue, x) == Success((t, result))
    ensures CycleSpec(cfg, s, queue, t, result) && IdsUsed(s.engine, t.engine, x.newIds, |result.selected|)
  {
    var items := Scanned(queue, cfg.scanLimit);
    var candidates, key := Candidates(items, x.candidateClock), PolicyKey(cfg.policy, s.counts);
    var selected := SelectedIds(key, candidates, cfg.selectLimit);
    var skipped := SkippedIds(key, candidates, cfg.selectLimit);
    var counts := CountsAfterSelection(cfg.policy, s.counts, candidates, cfg.selectLimit);
    SelectionIsIndexed(cfg, s.counts, queue, x.candidateClock, selected, skipped, counts);
    var engine, outcomes := PlaceAllSpec(cfg.batch, s.engine, ItemById(items), selected, x.placeClock, x.newIds);
    OutcomesGiveResult(s.engine, engine, selected, skipped, outcomes, |candidates|);
    t := CycleState(engine, counts);
    result := ResultOf(selected, skipped, outcomes, |candidates|);
  }

  // ---- Over all cycles ----

  datatype SchedulerEvent = CycleEvent(queue: seq<QueueItem>, inputs: CycleInputs) | EngineOperation(event: Event)

  ghost predicate CycleSupplied(s: CycleState, e: SchedulerEvent) {
    e.CycleEvent? ==> |e.queue| <= |e.inputs.newIds| && FreshIds(s.engine, e.inputs.newIds)
  }

  ghost predicate SchedulerStep(cfg: CycleConfig, s: CycleState, e: SchedulerEvent, t: CycleState)
    requires cfg.Valid()
  {
    && CycleSupplied(s, e)
    && match e
       case CycleEvent(queue, x) => RunCycle(cfg, s, queue, x).Success? ==> RunCycle(cfg, s, queue, x).value.0 == t
       case EngineOperation(event) => Step(cfg.batch, s.engine, event, t.engine) && t.counts == s.counts
  }

  ghost predicate SchedulerStepAt(cfg: CycleConfig, states: seq<CycleState>, events: seq<SchedulerEvent>, i: nat)
    requires cfg.Valid() && |states| == |events| + 1 && i < |events|
  {
    SchedulerStep(cfg, states[i], events[i], states[i + 1])
  }

  /** Cycles over any queues, with any engine operations between them. */
  ghost predicate IsSchedulerRun(cfg: CycleConfig, states: seq<CycleState>, events: seq<SchedulerEvent>)
    requires cfg.Valid()
  {
    && |states| == |events| + 1
    && states[0].engine == EMPTY_ENGINE
    && forall i :: 0 <= i < |events| ==> SchedulerStepAt(cfg, states, events, i)
  }

  lemma SchedulerStepExtends(cfg: CycleConfig, s: CycleState, e: SchedulerEvent, t: CycleState)
    requires cfg.Valid() && EngineInv(cfg.batch, s.engine) && SchedulerStep(cfg, s, e, t)
    ensures EngineInv(cfg.batch, t.engine) && Extends(s.engine, t.engine)
  {
    match e
    case CycleEvent(queue, x) =>
      var after, result := CycleIsExact(cfg, s, queue, x);
    case EngineOperation(event) =>
      StepKeepsInv(cfg.batch, s.engine, event, t.engine);
      StepExtends(cfg.batch, s.engine, event, t.engine);
  }

  lemma {:induction false} SchedulerRunInv(cfg: CycleConfig, states: seq<CycleState>, events: seq<SchedulerEvent>,
                                           k: nat, s: CycleState)
    requires cfg.Valid() && IsSchedulerRun(cfg, states, events) && k < |states| && s == states[k]
    ensures EngineInv(cfg.batch, s.engine)
    decreases k
  {
    if k == 0 {
      EmptyEngineInv(cfg.batch);
    } else {
      SchedulerRunInv(cfg, states, events, k - 1, states[k - 1]);
      assert SchedulerStepAt(cfg, states, events, k - 1);
      SchedulerStepExtends(cfg, states[k - 1], events[k - 1], s);
    }
  }

  lemma {:induction false} SchedulerRunExtends(cfg: CycleConfig, states: seq<CycleState>, events: seq<SchedulerEvent>,
                                               i: nat, j: nat, s: CycleState, t: CycleState)
    requires cfg.Valid() && IsSchedulerRun(cfg, states, events) && i <= j < |states| && s == states[i] && t == states[j]
    ensures Extends(s.engine, t.engine)
    decreases j
  {
    if i == j {
      NothingExtends(s.engine);
    } else {
      SchedulerRunExtends(cfg, states, events, i, j - 1, s, states[j - 1]);
      SchedulerRunInv(cfg, states, events, j - 1, states[j - 1]);
      assert SchedulerStepAt(cfg, states, events, j - 1);
      SchedulerStepExtends(cfg, states[j - 1], events[j - 1], t);
      ExtendsTransitive(s.engine, states[j - 1].engine, t.engine);
    }
  }

  /** Event i of the run is a cycle, and this is what it returned. */
  ghost predicate CycleAt(cfg: CycleConfig, states: seq<CycleState>, events: seq<SchedulerEvent>, i: nat,
                          result: CycleResult)
    requires cfg.Valid() && |states| == |events| + 1 && i < |events|
  {
    events[i].CycleEvent? && |events[i].queue| <= |events[i].inputs.newIds|
    && RunCycle(cfg, states[i], events[i].queue, events[i].inputs) == Success((states[i + 1], result))
  }

  lemma PlacementWasNew(cfg: CycleConfig, states: seq<CycleState>, events: seq<SchedulerEvent>, i: nat,
                        result: CycleResult, o: PlaceOutcome)
    requires cfg.Valid() && IsSchedulerRun(cfg, states, events) && i < |events|
    requires CycleAt(cfg, states, events, i, result) && o in result.placements
    ensures o.requestId !in states[i].engine.requestToBatch && o.requestId in states[i + 1].engine.requestToBatch
  {
    SchedulerRunInv(cfg, states, events, i, states[i]);
    assert SchedulerStepAt(cfg, states, events, i);
    var t, r := CycleIsExact(cfg, states[i], events[i].queue, events[i].inputs);
    assert Recorded(t.engine, o);
  }

  lemma StaysBatched(cfg: CycleConfig, states: seq<CycleState>, events: seq<SchedulerEvent>, i: nat, j: nat,
                     r: RequestId)
    requires cfg.Valid() && IsSchedulerRun(cfg, states, events) && i <= j < |states|
    requires r in states[i].engine.requestToBatch
    ensures r in states[j].engine.requestToBatch
  {
    SchedulerRunExtends(cfg, states, events, i, j, states[i], states[j]);
  }

  lemma PlacedIsBatchedLater(cfg: CycleConfig, states: seq<CycleState>, events: seq<SchedulerEvent>, i: nat, j: nat,
                             result: CycleResult, o: PlaceOutcome)
    requires cfg.Valid() && IsSchedulerRun(cfg, states, events) && i < j < |states|
    requires CycleAt(cfg, states, events, i, result) && o in result.placements
    ensures o.requestId in states[j].engine.requestToBatch
  {
    PlacementWasNew(cfg, states, events, i, result, o);
    StaysBatched(cfg, states, events, i + 1, j, o.requestId);
  }

  /** Over all cycles of a run each request is placed at most once, although nothing leaves the queue. */
  lemma PlacedOnlyOnce(cfg: CycleConfig, states: seq<CycleState>, events: seq<SchedulerEvent>, i: nat, j: nat,
                       first: CycleResult, second: CycleResult, o: PlaceOutcome, p: PlaceOutcome)
    requires cfg.Valid() && IsSchedulerRun(cfg, states, events) && i < j < |events|
    requires CycleAt(cfg, states, events, i, first) && CycleAt(cfg, states, events, j, second)
    requires o in first.placements && p in second.placements
    ensures o.requestId != p.requestId
  {
    PlacedIsBatchedLater(cfg, states, events, i, j, first, o);
    PlacementWasNew(cfg, states, events, j, second, p);
  }}
