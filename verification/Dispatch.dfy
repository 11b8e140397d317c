/** Submitting pending batches to the adapter, with retries over the backends that routing offers. */
module DispatchService {
  import opened Wrappers
  import opened Schemas
  import opened BatchModels
  import opened BatchEngineSpec
  import opened BatchEngine
  import opened Routing
  import opened Delivery

  /** What the adapter does with a batch sent to a backend: answer, or raise. */
  datatype Reply =
    | Answered(backendId: BackendId, accepted: bool, reason: string)
    | Raised(message: string)

  type Adapter = (BatchId, BackendId) -> Reply

  datatype DispatchResult = DispatchResult(batchId: BatchId, backendId: BackendId, accepted: bool, reason: string)

  /** The model registry and the snapshot of the backends that routing consults. */
  datatype Router = Router(models: map<string, ModelRecord>, backends: seq<Backend>)

  datatype DispatchConfig = DispatchConfig(
    defaultBackend: BackendId,
    router: Option<Router>,
    minMembers: Option<nat>
  )

  // ---- Routing a model ----

  function RouteModel(router: Router, modelId: string, excluded: set<BackendId>): Route {
    if modelId in router.models then Select(router.models[modelId], router.backends, excluded)
    else NoRoute("model unavailable: " + modelId)
  }

  function ModelTrials(router: Router, modelId: string, excluded: set<BackendId>): seq<BackendId> {
    if modelId in router.models then TrialOrder(router.models[modelId], router.backends, excluded) else []
  }

  /** The text of the routing failure once every backend that meets the rule is excluded. */
  function RouteError(router: Router, modelId: string): string {
    if modelId !in router.models then "model unavailable: " + modelId
    else
      var model := router.models[modelId];
      match model.routingPolicy
      case LatencyTierPolicy => TierError(model)
      case QualityTierPolicy => TierError(model)
      case ExplicitPolicy => "explicit backend unavailable: " + model.backend
      case FallbackPolicy =>
        if model.fallbackBackend.None? then "explicit backend unavailable: " + model.backend
        else "fallback backend unavailable: " + model.fallbackBackend.value
  }

  lemma RouteStep(router: Router, modelId: string, excluded: set<BackendId>)
    ensures match RouteModel(router, modelId, excluded)
            case NoRoute(error) => ModelTrials(router, modelId, excluded) == [] && error == RouteError(router, modelId)
            case Routed(id, _, _) =>
              id !in excluded
              && ModelTrials(router, modelId, excluded) == [id] + ModelTrials(router, modelId, excluded + {id})
  {
    if modelId in router.models {
      SelectIsBest(router.models[modelId], router.backends, excluded);
    }
  }

  // ---- One batch ----

  predicate Accepts(adapter: Adapter, b: BatchId, id: BackendId) {
    adapter(b, id).Answered? && adapter(b, id).accepted
  }

  /** The result of trying the backends of `order` one after another until one accepts. */
  function SearchOutcome(cfg: DispatchConfig, b: BatchId, order: seq<BackendId>, adapter: Adapter, exhausted: string)
    : DispatchResult
  {
    if order == [] then DispatchResult(b, cfg.defaultBackend, false, exhausted)
    else
      match adapter(b, order[0])
      case Answered(id, accepted, reason) =>
        if accepted then DispatchResult(b, id, true, reason)
        else SearchOutcome(cfg, b, order[1..], adapter, exhausted)
      case Raised(message) =>
        if order[1..] == [] then DispatchResult(b, order[0], false, message)
        else SearchOutcome(cfg, b, order[1..], adapter, exhausted)
  }

  /** Position i of the order is the first whose backend accepts. */
  predicate FirstAcceptor(b: BatchId, order: seq<BackendId>, adapter: Adapter, i: nat) {
    i < |order| && Accepts(adapter, b, order[i]) && forall j :: 0 <= j < i ==> !Accepts(adapter, b, order[j])
  }

  function AcceptedBy(adapter: Adapter, b: BatchId, id: BackendId): DispatchResult
    requires Accepts(adapter, b, id)
  {
    DispatchResult(b, adapter(b, id).backendId, true, adapter(b, id).reason)
  }

  /** The batch is accepted exactly when some backend of the order accepts it, and then by the first that does. */
  lemma {:induction false} SearchFindsFirst(cfg: DispatchConfig, b: BatchId, order: seq<BackendId>, adapter: Adapter,
                                            exhausted: string)
    ensures SearchOutcome(cfg, b, order, adapter, exhausted).accepted <==>
              exists i :: 0 <= i < |order| && Accepts(adapter, b, order[i])
    ensures forall i: nat :: FirstAcceptor(b, order, adapter, i) ==>
              SearchOutcome(cfg, b, order, adapter, exhausted) == AcceptedBy(adapter, b, order[i])
  {
    if order != [] {
      var rest := order[1..];
      SearchFindsFirst(cfg, b, rest, adapter, exhausted);
      forall i: nat | FirstAcceptor(b, order, adapter, i)
        ensures SearchOutcome(cfg, b, order, adapter, exhausted) == AcceptedBy(adapter, b, order[i])
      {
        if i > 0 {
          assert rest[i - 1] == order[i];
          assert !Accepts(adapter, b, order[0]);
          assert FirstAcceptor(b, rest, adapter, i - 1);
        }
      }
      if exists i :: 0 <= i < |order| && Accepts(adapter, b, order[i]) {
        var i :| 0 <= i < |order| && Accepts(adapter, b, order[i]);
        assert i > 0 ==> rest[i - 1] == order[i];
      }
    }
  }

  predicate Buildable(batch: Batch, assignments: seq<Assignment>) {
    (batch.state.Active? || batch.state.Ready? || batch.state.Filling?) && assignments != []
  }

  /** What dispatching one batch returns; None where there is nothing to send. */
  function BatchOutcome(cfg: DispatchConfig, batch: Batch, assignments: seq<Assignment>, adapter: Adapter)
    : Option<DispatchResult>
  {
    match cfg.router
    case None =>
      if !Buildable(batch, assignments) then None
      else
        (match adapter(batch.batchId, cfg.defaultBackend)
         case Answered(id, accepted, reason) => Some(DispatchResult(batch.batchId, id, accepted, reason))
         case Raised(message) => Some(DispatchResult(batch.batchId, cfg.defaultBackend, false, message)))
    case Some(router) =>
      var order := ModelTrials(router, batch.model, {});
      if order != [] && !Buildable(batch, assignments) then None
      else Some(SearchOutcome(cfg, batch.batchId, order, adapter, RouteError(router, batch.model)))
  }

  /** Backend id is the least of the ids that accept the batch. */
  ghost predicate LeastAcceptor(b: BatchId, ids: set<BackendId>, adapter: Adapter, id: BackendId) {
    && id in ids && Accepts(adapter, b, id)
    && forall other :: other in ids && Accepts(adapter, b, other) ==> StringLeq(id, other)
  }

  lemma LeastAcceptorIsFirst(b: BatchId, model: ModelRecord, backends: seq<Backend>, adapter: Adapter, id: BackendId)
    returns (i: nat)
    requires model.routingPolicy in {LatencyTierPolicy, QualityTierPolicy}
    requires LeastAcceptor(b, RuleIds(model, backends), adapter, id)
    ensures FirstAcceptor(b, TrialOrder(model, backends, {}), adapter, i)
    ensures TrialOrder(model, backends, {})[i] == id
  {
    var order := TrialOrder(model, backends, {});
    TrialOrderSpec(model, backends, {});
    assert id in RuleIds(model, backends) - {};
    assert id in order;
    i :| 0 <= i < |order| && order[i] == id;
    forall j | 0 <= j < i ensures !Accepts(adapter, b, order[j]) {
      assert order[j] in order;
      assert order[j] in RuleIds(model, backends) - {};
      StringLeqTotal(order[j], id);
    }
  }

  /** If some backend accepts the batch, there is a least one that does. */
  lemma {:induction false} LeastAcceptorExists(b: BatchId, ids: set<BackendId>, adapter: Adapter)
    returns (least: BackendId)
    requires exists id :: id in ids && Accepts(adapter, b, id)
    ensures LeastAcceptor(b, ids, adapter, least)
    decreases |ids|
  {
    var id :| id in ids && Accepts(adapter, b, id);
    var rest := ids - {id};
    StringLeqTotal(id, id);
    if exists other :: other in rest && Accepts(adapter, b, other) {
      var first := LeastAcceptorExists(b, rest, adapter);
      StringLeqTotal(id, first);
      least := if StringLeq(id, first) then id else first;
      forall other | other in ids && Accepts(adapter, b, other) ensures StringLeq(least, other) {
        if other != id && least == id {
          StringLeqTransitive(id, first, other);
        }
      }
    } else {
      least := id;
      forall other | other in ids && Accepts(adapter, b, other) ensures other == id {
        assert other !in rest;
      }
    }
  }

  /**
   Under a tier policy the batch is accepted iff some backend of the tier accepts it, and then by the least such id.
   */
  lemma TierDispatchIsLeastAcceptor(cfg: DispatchConfig, batch: Batch, assignments: seq<Assignment>, adapter: Adapter)
    requires cfg.router.Some? && batch.model in cfg.router.value.models && Buildable(batch, assignments)
    requires cfg.router.value.models[batch.model].routingPolicy in {LatencyTierPolicy, QualityTierPolicy}
    ensures var ids := RuleIds(cfg.router.value.models[batch.model], cfg.router.value.backends);
      var result := BatchOutcome(cfg, batch, assignments, adapter);
      && result.Some?
      && (result.value.accepted <==> exists id :: id in ids && Accepts(adapter, batch.batchId, id))
      && (result.value.accepted ==> exists id :: LeastAcceptor(batch.batchId, ids, adapter, id))
      && (forall id :: LeastAcceptor(batch.batchId, ids, adapter, id) ==>
            result.value == AcceptedBy(adapter, batch.batchId, id))
  {
    var b, router, model := batch.batchId, cfg.router.value, cfg.router.value.models[batch.model];
    var ids, order := RuleIds(model, router.backends), TrialOrder(model, router.backends, {});
    assert ids - {} == ids;
    TrialOrderSpec(model, router.backends, {});
    SearchFindsFirst(cfg, b, order, adapter, RouteError(router, batch.model));
    forall id | id in ids && Accepts(adapter, b, id)
      ensures exists i :: 0 <= i < |order| && Accepts(adapter, b, order[i])
    {
      assert id in order;
    }
    forall id | LeastAcceptor(b, ids, adapter, id)
      ensures BatchOutcome(cfg, batch, assignments, adapter).value == AcceptedBy(adapter, b, id)
    {
      var i := LeastAcceptorIsFirst(b, model, router.backends, adapter, id);
    }
    if exists id :: id in ids && Accepts(adapter, b, id) {
      var least := LeastAcceptorExists(b, ids, adapter);
    }
  }

  // ---- All pending batches ----

  /** One batch of the pending loop: its checks, the dispatch in flight, and the adapter's answer. */
  function SubmitOne(cfg: DispatchConfig, d: DeliveryState, b: BatchId, adapter: Adapter)
    : (Option<DispatchResult>, DeliveryState)
  {
    if b in d.submitted || b !in d.engine.batches || !Dispatchable(d.engine.batches[b], cfg.minMembers) then (None, d)
    else
      var payload := BatchAssignments(d.engine, b);
      var outcome := BatchOutcome(cfg, d.engine.batches[b], payload, adapter);
      if outcome.Some? && outcome.value.accepted then
        (outcome, d.(submitted := d.submitted + {b}, accepted := d.accepted + [Dispatch(b, payload)]))
      else (outcome, d)
  }

  /** `submit_pending_batches` over the batches listed in `order`. */
  function SubmitPending(cfg: DispatchConfig, d: DeliveryState, order: seq<BatchId>, adapter: Adapter)
    : (seq<DispatchResult>, DeliveryState)
  {
    if order == [] then ([], d)
    else
      var (results, before) := SubmitPending(cfg, d, order[..|order| - 1], adapter);
      var (outcome, after) := SubmitOne(cfg, before, order[|order| - 1], adapter);
      (if outcome.Some? then results + [outcome.value] else results, after)
  }

  lemma AcceptedDispatchKeepsInv(d: DeliveryState, b: BatchId, payload: seq<Assignment>)
    requires AcceptedInv(d) && b !in d.submitted && DispatchInv(d.engine, Dispatch(b, payload))
    ensures AcceptedInv(d.(submitted := d.submitted + {b}, accepted := d.accepted + [Dispatch(b, payload)]))
  {
  }

  lemma SubmitOneForm(cfg: DispatchConfig, d: DeliveryState, b: BatchId, adapter: Adapter)
    requires AcceptedInv(d) && d.inFlight.None?
    requires b in d.engine.batches ==>
               d.engine.batches[b].batchId == b && DispatchInv(d.engine, Dispatch(b, BatchAssignments(d.engine, b)))
    ensures var (outcome, after) := SubmitOne(cfg, d, b, adapter);
      && AcceptedInv(after) && after.inFlight.None? && after.engine == d.engine
      && d.submitted <= after.submitted && d.accepted <= after.accepted
      && (outcome.Some? ==> outcome.value.batchId == b && (outcome.value.accepted ==> b in after.submitted))
  {
    if b !in d.submitted && b in d.engine.batches && Dispatchable(d.engine.batches[b], cfg.minMembers) {
      var payload := BatchAssignments(d.engine, b);
      AcceptedDispatchKeepsInv(d, b, payload);
      OutcomeNamesBatch(cfg, d.engine.batches[b], payload, adapter);
    }
  }

  /** A submission keeps the delivery invariant, and an accepted result is recorded as submitted. */
  lemma SubmitOneKeepsInv(cfg: DispatchConfig, engineCfg: BatchConfig, d: DeliveryState, b: BatchId, adapter: Adapter)
    requires DeliveryInv(engineCfg, d) && d.inFlight.None?
    ensures var (outcome, after) := SubmitOne(cfg, d, b, adapter);
      && DeliveryInv(engineCfg, after) && after.inFlight.None? && after.engine == d.engine
      && d.submitted <= after.submitted && d.accepted <= after.accepted
      && (outcome.Some? ==> outcome.value.batchId == b && (outcome.value.accepted ==> b in after.submitted))
  {
    if b in d.engine.batches {
      FreshDispatchInv(engineCfg, d.engine, b);
    }
    SubmitOneForm(cfg, d, b, adapter);
  }

  /**
   A submission that passes the checks is one dispatch of the protocol: it begins, and the adapter's answer ends it.
   */
  lemma SubmitOneIsOneDispatch(cfg: DispatchConfig, engineCfg: BatchConfig, d: DeliveryState, b: BatchId,
                               adapter: Adapter)
    requires d.inFlight.None? && b !in d.submitted
    requires b in d.engine.batches && Dispatchable(d.engine.batches[b], cfg.minMembers)
    ensures var (outcome, after) := SubmitOne(cfg, d, b, adapter);
      var mid := d.(inFlight := Some(Dispatch(b, BatchAssignments(d.engine, b))));
      && DeliveryStep(engineCfg, cfg.minMembers, d, BeginDispatch(b), mid)
      && DeliveryStep(engineCfg, cfg.minMembers, mid, EndDispatch(outcome.Some? && outcome.value.accepted), after)
  {
  }

  lemma OutcomeNamesBatch(cfg: DispatchConfig, batch: Batch, assignments: seq<Assignment>, adapter: Adapter)
    ensures BatchOutcome(cfg, batch, assignments, adapter).Some? ==>
              BatchOutcome(cfg, batch, assignments, adapter).value.batchId == batch.batchId
  {
    if cfg.router.Some? {
      var router := cfg.router.value;
      SearchNamesBatch(cfg, batch.batchId, ModelTrials(router, batch.model, {}), adapter,
                       RouteError(router, batch.model));
    }
  }

  lemma {:induction false} SearchNamesBatch(cfg: DispatchConfig, b: BatchId, order: seq<BackendId>, adapter: Adapter,
                                            exhausted: string)
    ensures SearchOutcome(cfg, b, order, adapter, exhausted).batchId == b
  {
    if order != [] {
      SearchNamesBatch(cfg, b, order[1..], adapter, exhausted);
    }
  }

  /** Submitting pending batches keeps the delivery invariant, and every accepted result is recorded as submitted. */
  lemma {:induction false} SubmitPendingKeepsInv(cfg: DispatchConfig, engineCfg: BatchConfig, d: DeliveryState,
                                                 order: seq<BatchId>, adapter: Adapter)
    requires DeliveryInv(engineCfg, d) && d.inFlight.None?
    ensures var (results, after) := SubmitPending(cfg, d, order, adapter);
      && DeliveryInv(engineCfg, after) && after.inFlight.None? && after.engine == d.engine
      && d.submitted <= after.submitted && d.accepted <= after.accepted
      && (forall r :: r in results && r.accepted ==> r.batchId in after.submitted)
  {
    if order != [] {
      SubmitPendingKeepsInv(cfg, engineCfg, d, order[..|order| - 1], adapter);
      SubmitOneKeepsInv(cfg, engineCfg, SubmitPending(cfg, d, order[..|order| - 1], adapter).1, order[|order| - 1],
                        adapter);
    }
  }

  // ---- The service ----

  class BatchDispatchService {
    const cfg: DispatchConfig
    var submittedBatchIds: set<BatchId>
    ghost var accepted: seq<Dispatch>

    constructor (cfg: DispatchConfig)
      ensures this.cfg == cfg && submittedBatchIds == {} && accepted == []
    {
      this.cfg, submittedBatchIds, accepted := cfg, {}, [];
    }

    /**
     The retry loop. `calls` records the backends the adapter was called with: a prefix of the trial order,
     so no backend is called twice.
     */
    method SubmitBatch(batch: Batch, assignments: seq<Assignment>, adapter: Adapter)
      returns (result: Option<DispatchResult>, ghost calls: seq<BackendId>)
      modifies this
      ensures result == BatchOutcome(cfg, batch, assignments, adapter)
      ensures Buildable(batch, assignments) ==> result.Some?
      ensures cfg.router.Some? ==> calls <= ModelTrials(cfg.router.value, batch.model, {})
      ensures cfg.router.Some? && Buildable(batch, assignments) && !result.value.accepted ==>
                calls == ModelTrials(cfg.router.value, batch.model, {})
      ensures cfg.router.None? ==> calls <= [cfg.defaultBackend]
      ensures result.Some? && result.value.accepted ==>
                && submittedBatchIds == old(submittedBatchIds) + {batch.batchId}
                && accepted == old(accepted) + [Dispatch(batch.batchId, assignments)]
      ensures !(result.Some? && result.value.accepted) ==>
                submittedBatchIds == old(submittedBatchIds) && accepted == old(accepted)
    {
      var excluded: set<BackendId> := {};
      var lastError := "routing_failed";
      calls := [];
      ghost var remaining := if cfg.router.Some? then ModelTrials(cfg.router.value, batch.model, {})
                             else [cfg.defaultBackend];
      ghost var order := remaining;
      while true
        invariant calls + remaining == order
        invariant cfg.router.None? ==> calls == []
        invariant cfg.router.Some? ==> remaining == ModelTrials(cfg.router.value, batch.model, excluded)
        invariant calls != [] ==> Buildable(batch, assignments)
        invariant cfg.router.Some? && (order == [] || Buildable(batch, assignments)) ==>
                    BatchOutcome(cfg, batch, assignments, adapter)
                    == Some(SearchOutcome(cfg, batch.batchId, remaining, adapter,
                                          RouteError(cfg.router.value, batch.model)))
        invariant submittedBatchIds == old(submittedBatchIds) && accepted == old(accepted)
        decreases |remaining|
      {
        var backendId := cfg.defaultBackend;
        if cfg.router.Some? {
          RouteStep(cfg.router.value, batch.model, excluded);
          var route := RouteModel(cfg.router.value, batch.model, excluded);
          if route.NoRoute? {
            return Some(DispatchResult(batch.batchId, cfg.defaultBackend, false, route.error)), calls;
          }
          backendId := route.backendId;
        }
        if !(batch.state.Active? || batch.state.Ready? || batch.state.Filling?) || assignments == [] {
          return None, calls;
        }
        calls, remaining := calls + [backendId], remaining[1..];
        match adapter(batch.batchId, backendId)
        case Raised(message) =>
          if cfg.router.Some? {
            excluded := excluded + {backendId};
            lastError := message;
            RouteStep(cfg.router.value, batch.model, excluded);
            var retry := RouteModel(cfg.router.value, batch.model, excluded);
            if retry.Routed? {
              continue;
            }
          }
          return Some(DispatchResult(batch.batchId, backendId, false, message)), calls;
        case Answered(id, taken, reason) =>
          if taken {
            submittedBatchIds := submittedBatchIds + {batch.batchId};
            accepted := accepted + [Dispatch(batch.batchId, assignments)];
            return Some(DispatchResult(batch.batchId, id, true, reason)), calls;
          }
          if cfg.router.Some? {
            excluded := excluded + {backendId};
            lastError := reason;
            continue;
          }
          return Some(DispatchResult(batch.batchId, id, false, reason)), calls;
      }
    }

    /** Submits every pending batch once; the engine is only read. */
    method SubmitPendingBatches(engine: ContinuousBatchEngine, adapter: Adapter) returns (results: seq<DispatchResult>)
      requires engine.Separate() && Listed(engine.State())
      modifies this
      ensures (results, DeliveryState(engine.State(), submittedBatchIds, None, accepted))
           == SubmitPending(cfg, DeliveryState(engine.State(), old(submittedBatchIds), None, old(accepted)),
                            engine.order, adapter)
    {
      results := [];
      ghost var start := DeliveryState(engine.State(), submittedBatchIds, None, accepted);
      for i := 0 to |engine.order|
        invariant engine.State() == start.engine
        invariant (results, DeliveryState(start.engine, submittedBatchIds, None, accepted))
               == SubmitPending(cfg, start, engine.order[..i], adapter)
      {
        assert engine.order[i] in engine.order && engine.order[..i + 1][..i] == engine.order[..i];
        ghost var before := DeliveryState(start.engine, submittedBatchIds, None, accepted);
        var outcome := SubmitIfPending(engine, engine.order[i], adapter);
        assert (outcome, DeliveryState(start.engine, submittedBatchIds, None, accepted))
            == SubmitOne(cfg, before, engine.order[i], adapter);
        if outcome.Some? {
          results := results + [outcome.value];
        }
      }
      assert engine.order[..|engine.order|] == engine.order;
    }

    method SubmitIfPending(engine: ContinuousBatchEngine, b: BatchId, adapter: Adapter)
      returns (outcome: Option<DispatchResult>)
      requires b in engine.batches && engine.batches[b].batchId == b
      modifies this
      ensures engine.State() == old(engine.State())
      ensures (outcome, DeliveryState(engine.State(), submittedBatchIds, None, accepted))
           == SubmitOne(cfg, DeliveryState(engine.State(), old(submittedBatchIds), None, old(accepted)), b, adapter)
    {
      var batch := engine.batches[b];
      if b in submittedBatchIds {
        return None;
      }
      if !(batch.state.Active? || batch.state.Ready? || batch.state.Filling?) {
        return None;
      }
      if ActiveCount(batch.members) == 0 {
        return None;
      }
      if cfg.minMembers.Some? && ActiveCount(batch.members) < cfg.minMembers.value {
        return None;
      }
      assert engine.State().batches[b] == batch.Value();
      var assignments := engine.GetBatchAssignments(b);
      ghost var calls;
      outcome, calls := SubmitBatch(batch.Value(), assignments, adapter);
    }
  }
}
