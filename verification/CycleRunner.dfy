/** The scheduling cycle as the program runs it, on the mutable engine and the mutable counts of the fairness policy. */
module CycleRunner {
  import opened Wrappers
  import opened Schemas
  import opened Policies
  import opened Fairness
  import opened BatchEngineSpec
  import opened BatchEngine
  import opened WaitingQueueSpec
  import opened SchedulingCycle

  class SchedulingCycleRunner {
    const cfg: CycleConfig
    const engine: ContinuousBatchEngine
    const fairness: FairnessPolicy

    constructor (cfg: CycleConfig, engine: ContinuousBatchEngine, fairness: FairnessPolicy)
      requires cfg.Valid() && engine.config == cfg.batch
      requires cfg.policy.WeightedFairness? ==> fairness.weights == cfg.policy.weights
      ensures this.cfg == cfg && this.engine == engine && this.fairness == fairness && Configured()
    {
      this.cfg, this.engine, this.fairness := cfg, engine, fairness;
    }

    ghost predicate Configured() {
      && cfg.Valid() && engine.config == cfg.batch
      && (cfg.policy.WeightedFairness? ==> fairness.weights == cfg.policy.weights)
    }

    ghost function State(): CycleState
      reads engine, engine.batches.Values, engine.sets.Values, fairness
    {
      CycleState(engine.State(), fairness.selectionCounts)
    }

    method Evaluate(candidates: seq<SchedulingCandidate>)
      returns (decisions: seq<SchedulingDecision>, selected: seq<RequestId>, skipped: seq<RequestId>)
      requires Configured()
      modifies fairness
      ensures selected == SelectedIds(PolicyKey(cfg.policy, old(fairness.selectionCounts)), candidates, cfg.selectLimit)
      ensures skipped == SkippedIds(PolicyKey(cfg.policy, old(fairness.selectionCounts)), candidates, cfg.selectLimit)
      ensures DecidedAs(decisions, Ordered(PolicyKey(cfg.policy, old(fairness.selectionCounts)), candidates),
                        cfg.selectLimit,
                        match cfg.policy
                        case Fifo => "fifo_selected"
                        case ShortestJobFirst => "sjf_selected"
                        case LatencyAware(_, _) => "latency_aware_selected"
                        case WeightedFairness(_) => "fairness_selected")
      ensures fairness.selectionCounts
           == CountsAfterSelection(cfg.policy, old(fairness.selectionCounts), candidates, cfg.selectLimit)
    {
      match cfg.policy
      case WeightedFairness(_) =>
        decisions, selected, skipped := fairness.Evaluate(candidates, cfg.selectLimit);
      case Fifo =>
        decisions, selected, skipped := BuildDecisions(Ordered(FifoKey(), candidates), cfg.selectLimit,
                                                       "fifo_selected", "max_candidates_reached");
      case ShortestJobFirst =>
        decisions, selected, skipped := BuildDecisions(Ordered(ShortestJobKey(), candidates), cfg.selectLimit,
                                                       "sjf_selected", "max_candidates_reached");
      case LatencyAware(q, a) =>
        decisions, selected, skipped := BuildDecisions(Ordered(LatencyKey(q, a), candidates), cfg.selectLimit,
                                                       "latency_aware_selected", "max_candidates_reached");
    }

    method IndexItems(items: seq<QueueItem>) returns (byId: map<RequestId, QueueItem>)
      ensures byId == ItemById(items)
    {
      byId := map[];
      for i := 0 to |items|
        invariant byId == ItemById(items[..i])
      {
        PrefixOfPrefix(items, i);
        byId := byId[items[i].requestId := items[i]];
      }
      assert items[..|items|] == items;
    }

    /** The first half of a cycle: scan, index and evaluate. */
    method Select(queue: seq<QueueItem>, clock: nat -> Time)
      returns (byId: map<RequestId, QueueItem>, selected: seq<RequestId>, skipped: seq<RequestId>)
      requires Configured()
      modifies fairness
      ensures engine.State() == old(engine.State())
      ensures Selection(cfg, old(fairness.selectionCounts), queue, clock, selected, skipped, fairness.selectionCounts)
      ensures byId == ItemById(Scanned(queue, cfg.scanLimit)) && Indexed(byId, selected) && |selected| <= |queue|
    {
      var items := Scanned(queue, cfg.scanLimit);
      byId := IndexItems(items);
      var candidates := Candidates(items, clock);
      ghost var counts := fairness.selectionCounts;
      var decisions;
      decisions, selected, skipped := Evaluate(candidates);
      engine.Untouched();
      SelectionIsIndexed(cfg, counts, queue, clock, selected, skipped, fairness.selectionCounts);
    }

    method PlaceNext(item: QueueItem, now: Time, ghost start: EngineState, newIds: seq<BatchId>, i: nat)
      returns (outcome: PlaceOutcome)
      requires engine.Valid() && i < |newIds| && FreshIds(start, newIds) && IdsUsed(start, engine.State(), newIds, i)
      modifies engine, engine.batches.Values, engine.sets.Values
      ensures engine.Valid() && engine.Grown() && IdsUsed(start, engine.State(), newIds, i + 1)
      ensures Place(engine.config, old(engine.State()), item, now, newIds[i]) == Success((engine.State(), outcome))
    {
      ghost var before := engine.State();
      NextIdIsFresh(start, before, newIds, i);
      PlaceStep(engine.config, before, item, now, newIds[i]);
      outcome := engine.PlaceSelected(item, now, newIds[i]);
      OneMoreIdUsed(start, before, engine.State(), newIds, i);
    }

    /** Places the selected items one by one and sorts the outcomes into placements and rejections. */
    method PlaceSelection(byId: map<RequestId, QueueItem>, selected: seq<RequestId>, clock: nat -> Time,
                          newIds: seq<BatchId>)
      returns (placements: seq<PlaceOutcome>, rejections: seq<PlaceOutcome>, ghost outcomes: seq<PlaceOutcome>)
      requires engine.Valid() && |selected| <= |newIds| && FreshIds(engine.State(), newIds)
      requires Indexed(byId, selected)
      modifies engine, engine.batches.Values, engine.sets.Values
      ensures engine.Valid() && engine.Grown()
      ensures PlaceAll(engine.config, old(engine.State()), byId, selected, clock, newIds)
           == Success((engine.State(), outcomes))
      ensures placements == Filter(IsPlacement(), outcomes) && rejections == Filter(Not(IsPlacement()), outcomes)
    {
      placements, rejections, outcomes := [], [], [];
      ghost var start := engine.State();
      for i := 0 to |selected|
        invariant engine.Valid() && engine.Grown() && IdsUsed(start, engine.State(), newIds, i)
        invariant PlaceAll(engine.config, start, byId, selected[..i], clock, newIds)
             == Success((engine.State(), outcomes))
        invariant placements == Filter(IsPlacement(), outcomes) && rejections == Filter(Not(IsPlacement()), outcomes)
      {
        PrefixOfPrefix(selected, i);
        ghost var before := engine.State();
        var outcome := PlaceNext(byId[selected[i]], clock(i), start, newIds, i);
        PlaceAllUnfolds(engine.config, start, byId, selected[..i + 1], clock, newIds, before, outcomes, engine.State(),
                        outcome);
        FilterAppend(IsPlacement(), outcomes, outcome);
        FilterAppend(Not(IsPlacement()), outcomes, outcome);
        if outcome.Placed? {
          placements := placements + [outcome];
        } else {
          rejections := rejections + [outcome];
        }
        outcomes := outcomes + [outcome];
      }
      assert selected[..|selected|] == selected;
    }

    method RunCycle(queue: seq<QueueItem>, x: CycleInputs) returns (result: CycleResult)
      requires Configured() && engine.Valid() && |queue| <= |x.newIds| && FreshIds(engine.State(), x.newIds)
      modifies engine, engine.batches.Values, engine.sets.Values, fairness
      ensures engine.Valid() && engine.Grown()
      ensures SchedulingCycle.RunCycle(cfg, old(State()), queue, x) == Success((State(), result))
    {
      ghost var start := State();
      var byId, selected, skipped := Select(queue, x.candidateClock);
      var placements, rejections;
      ghost var outcomes;
      placements, rejections, outcomes := PlaceSelection(byId, selected, x.placeClock, x.newIds);
      assert Selection(cfg, start.counts, queue, x.candidateClock, selected, skipped, fairness.selectionCounts);
      CycleForm(cfg, start, queue, x, selected, skipped, fairness.selectionCounts, engine.State(), outcomes);
      result := CycleResult(selected, skipped, placements, rejections,
                            SummaryReason(|placements|, |skipped| + |rejections|, |Scanned(queue, cfg.scanLimit)|));
    }
  }
}
