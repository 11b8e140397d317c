/** Backend selection: the four routing policies and the preference order behind each of them. */
module Routing {
  import opened Wrappers
  import opened Sorting

  type BackendId = string

  datatype LatencyTier = FastLatency | StandardLatency | SlowLatency

  datatype QualityTier = HighQuality | StandardQuality | EconomyQuality

  datatype PolicyName = ExplicitPolicy | LatencyTierPolicy | QualityTierPolicy | FallbackPolicy

  datatype ModelRecord = ModelRecord(
    modelId: string,
    backend: BackendId,
    fallbackBackend: Option<BackendId>,
    routingPolicy: PolicyName,
    latencyTier: LatencyTier,
    qualityTier: QualityTier
  )

  datatype Backend = Backend(
    backendId: BackendId,
    healthy: bool,
    supportedModels: seq<string>,
    latencyTier: LatencyTier,
    qualityTier: QualityTier,
    maxBatchSize: nat
  )

  datatype Candidate = Candidate(
    backendId: BackendId,
    modelId: string,
    latencyTier: LatencyTier,
    qualityTier: QualityTier,
    healthy: bool,
    supportsModel: bool,
    availableCapacity: nat
  )

  datatype Route =
    | Routed(backendId: BackendId, policy: PolicyName, fallbackUsed: bool)
    | NoRoute(error: string)

  // ---- Candidates ----

  function ToCandidate(model: ModelRecord, backend: Backend): Candidate {
    Candidate(backend.backendId, model.modelId, backend.latencyTier, backend.qualityTier, backend.healthy,
              model.modelId in backend.supportedModels || backend.supportedModels == [], backend.maxBatchSize)
  }

  function Candidates(model: ModelRecord, backends: seq<Backend>, excluded: set<BackendId>): seq<Candidate> {
    if backends == [] then []
    else
      var last := backends[|backends| - 1];
      Candidates(model, backends[..|backends| - 1], excluded)
      + (if last.backendId in excluded then [] else [ToCandidate(model, last)])
  }

  method FilterCandidates(model: ModelRecord, backends: seq<Backend>, excluded: set<BackendId>)
    returns (candidates: seq<Candidate>)
    ensures candidates == Candidates(model, backends, excluded)
    ensures forall c :: c in candidates <==>
              exists b :: b in backends && b.backendId !in excluded && c == ToCandidate(model, b)
  {
    candidates := [];
    for i := 0 to |backends|
      invariant candidates == Candidates(model, backends[..i], excluded)
    {
      assert backends[..i + 1][..i] == backends[..i];
      if backends[i].backendId in excluded {
        continue;
      }
      candidates := candidates + [ToCandidate(model, backends[i])];
    }
    assert backends[..|backends|] == backends;
    CandidateMembers(model, backends, excluded);
  }

  lemma {:induction false} CandidateMembers(model: ModelRecord, backends: seq<Backend>, excluded: set<BackendId>)
    ensures forall c :: c in Candidates(model, backends, excluded) <==>
              exists b :: b in backends && b.backendId !in excluded && c == ToCandidate(model, b)
  {
    if backends != [] {
      var init, last := backends[..|backends| - 1], backends[|backends| - 1];
      assert backends == init + [last];
      CandidateMembers(model, init, excluded);
    }
  }

  predicate Usable(c: Candidate) {
    c.healthy && c.supportsModel
  }

  // ---- Tier policies ----

  predicate InTier(model: ModelRecord, c: Candidate) {
    match model.routingPolicy
    case LatencyTierPolicy => c.latencyTier == model.latencyTier
    case QualityTierPolicy => c.qualityTier == model.qualityTier
    case _ => false
  }

  function Eligible(model: ModelRecord, candidates: seq<Candidate>): seq<Candidate> {
    if candidates == [] then []
    else
      var last := candidates[|candidates| - 1];
      Eligible(model, candidates[..|candidates| - 1]) + (if Usable(last) && InTier(model, last) then [last] else [])
  }

  /** Lexicographic order of strings by character code. */
  predicate StringLeq(a: string, b: string) {
    a == [] || (b != [] && (a[0] < b[0] || (a[0] == b[0] && StringLeq(a[1..], b[1..]))))
  }

  predicate IdLeq(a: Candidate, b: Candidate) {
    StringLeq(a.backendId, b.backendId)
  }

  function LatencyText(tier: LatencyTier): string {
    match tier
    case FastLatency => "fast"
    case StandardLatency => "standard"
    case SlowLatency => "slow"
  }

  function QualityText(tier: QualityTier): string {
    match tier
    case HighQuality => "high"
    case StandardQuality => "standard"
    case EconomyQuality => "economy"
  }

  function TierError(model: ModelRecord): string {
    if model.routingPolicy.LatencyTierPolicy? then "no healthy backend for latency_tier="
        + LatencyText(model.latencyTier)
    else "no healthy backend for quality_tier=" + QualityText(model.qualityTier)
  }

  function TierRoute(model: ModelRecord, backends: seq<Backend>, excluded: set<BackendId>): Route {
    var eligible := Eligible(model, Candidates(model, backends, excluded));
    var sorted := Sort(IdLeq, eligible);
    if sorted == [] then NoRoute(TierError(model)) else Routed(sorted[0].backendId, model.routingPolicy, false)
  }

  // ---- Explicit and fallback policies ----

  /** Some candidate with this id is healthy and supports the model. */
  predicate Offers(candidates: seq<Candidate>, id: BackendId) {
    exists c :: c in candidates && c.backendId == id && Usable(c)
  }

  method FindOffer(candidates: seq<Candidate>, id: BackendId) returns (found: bool)
    ensures found == Offers(candidates, id)
  {
    for i := 0 to |candidates|
      invariant forall j :: 0 <= j < i ==> !(candidates[j].backendId == id && Usable(candidates[j]))
    {
      if candidates[i].backendId == id && candidates[i].healthy && candidates[i].supportsModel {
        return true;
      }
    }
    return false;
  }

  function ExplicitRoute(model: ModelRecord, backends: seq<Backend>, excluded: set<BackendId>): Route {
    if Offers(Candidates(model, backends, excluded), model.backend) then Routed(model.backend, ExplicitPolicy, false)
    else NoRoute("explicit backend unavailable: " + model.backend)
  }

  function FallbackRoute(model: ModelRecord, backends: seq<Backend>, excluded: set<BackendId>): Route {
    match ExplicitRoute(model, backends, excluded)
    case Routed(id, policy, used) => Routed(id, policy, used)
    case NoRoute(error) =>
      if model.fallbackBackend.None? then NoRoute(error)
      else if Offers(Candidates(model, backends, excluded), model.fallbackBackend.value) then
        Routed(model.fallbackBackend.value, FallbackPolicy, true)
      else NoRoute("fallback backend unavailable: " + model.fallbackBackend.value)
  }

  /** The policy a model record names, applied to a snapshot of the backends. */
  function Select(model: ModelRecord, backends: seq<Backend>, excluded: set<BackendId>): Route {
    match model.routingPolicy
    case LatencyTierPolicy => TierRoute(model, backends, excluded)
    case QualityTierPolicy => TierRoute(model, backends, excluded)
    case FallbackPolicy => FallbackRoute(model, backends, excluded)
    case ExplicitPolicy => ExplicitRoute(model, backends, excluded)
  }

  method SelectExplicit(model: ModelRecord, backends: seq<Backend>, excluded: set<BackendId>) returns (route: Route)
    ensures route == ExplicitRoute(model, backends, excluded)
  {
    var candidates := FilterCandidates(model, backends, excluded);
    var offered := FindOffer(candidates, model.backend);
    if offered {
      return Routed(model.backend, ExplicitPolicy, false);
    }
    return NoRoute("explicit backend unavailable: " + model.backend);
  }

  method SelectFallback(model: ModelRecord, backends: seq<Backend>, excluded: set<BackendId>) returns (route: Route)
    ensures route == FallbackRoute(model, backends, excluded)
  {
    route := SelectExplicit(model, backends, excluded);
    if route.Routed? {
      return;
    }
    if model.fallbackBackend.None? {
      return;
    }
    var candidates := FilterCandidates(model, backends, excluded);
    var offered := FindOffer(candidates, model.fallbackBackend.value);
    if offered {
      return Routed(model.fallbackBackend.value, FallbackPolicy, true);
    }
    return NoRoute("fallback backend unavailable: " + model.fallbackBackend.value);
  }

  // ---- String order ----

  lemma {:induction false} StringLeqTotal(a: string, b: string)
    ensures StringLeq(a, b) || StringLeq(b, a)
    ensures StringLeq(a, b) && StringLeq(b, a) ==> a == b
  {
    if a != [] && b != [] && a[0] == b[0] {
      StringLeqTotal(a[1..], b[1..]);
      assert a == [a[0]] + a[1..] && b == [b[0]] + b[1..];
    }
  }

  lemma {:induction false} StringLeqTransitive(a: string, b: string, c: string)
    requires StringLeq(a, b) && StringLeq(b, c)
    ensures StringLeq(a, c)
  {
    if a != [] && a[0] == b[0] && b[0] == c[0] {
      StringLeqTransitive(a[1..], b[1..], c[1..]);
    }
  }

  lemma IdLeqIsPreorder()
    ensures TotalPreorder(IdLeq)
  {
    forall x, y ensures IdLeq(x, y) || IdLeq(y, x) {
      StringLeqTotal(x.backendId, y.backendId);
    }
    forall x, y, z | IdLeq(x, y) && IdLeq(y, z) ensures IdLeq(x, z) {
      StringLeqTransitive(x.backendId, y.backendId, z.backendId);
    }
  }

  // ---- What each policy decides ----

  /** Backend b meets the rule of the model's policy: healthy, supporting, and in the tier or named by the record. */
  predicate MeetsRule(model: ModelRecord, b: Backend) {
    && b.healthy
    && (model.modelId in b.supportedModels || b.supportedModels == [])
    && match model.routingPolicy
       case LatencyTierPolicy => b.latencyTier == model.latencyTier
       case QualityTierPolicy => b.qualityTier == model.qualityTier
       case ExplicitPolicy => b.backendId == model.backend
       case FallbackPolicy => b.backendId == model.backend || Some(b.backendId) == model.fallbackBackend
  }

  /** The ids of the backends that meet the rule. */
  function RuleIds(model: ModelRecord, backends: seq<Backend>): set<BackendId> {
    set b | b in backends && MeetsRule(model, b) :: b.backendId
  }

  /** Id a is tried before id b: tiers go by id, the fallback policy prefers the primary backend. */
  predicate Prefers(model: ModelRecord, a: BackendId, b: BackendId) {
    match model.routingPolicy
    case LatencyTierPolicy => StringLeq(a, b)
    case QualityTierPolicy => StringLeq(a, b)
    case ExplicitPolicy => true
    case FallbackPolicy => a == model.backend || b != model.backend
  }

  lemma {:induction false} EligibleMembers(model: ModelRecord, candidates: seq<Candidate>)
    ensures forall c :: c in Eligible(model, candidates) <==> c in candidates && Usable(c) && InTier(model, c)
  {
    if candidates != [] {
      var init, last := candidates[..|candidates| - 1], candidates[|candidates| - 1];
      assert candidates == init + [last];
      EligibleMembers(model, init);
    }
  }

  lemma OffersMeaning(model: ModelRecord, backends: seq<Backend>, excluded: set<BackendId>, id: BackendId)
    ensures Offers(Candidates(model, backends, excluded), id) <==>
              id !in excluded
              && exists b :: b in backends && b.backendId == id && Usable(ToCandidate(model, b))
  {
    CandidateMembers(model, backends, excluded);
    var candidates := Candidates(model, backends, excluded);
    if id !in excluded && exists b :: b in backends && b.backendId == id && Usable(ToCandidate(model, b)) {
      var b :| b in backends && b.backendId == id && Usable(ToCandidate(model, b));
      assert ToCandidate(model, b) in candidates;
    }
  }

  /** The eligible candidates are the unexcluded backends that meet the rule of a tier policy. */
  lemma EligibleMeetRule(model: ModelRecord, backends: seq<Backend>, excluded: set<BackendId>)
    requires model.routingPolicy.LatencyTierPolicy? || model.routingPolicy.QualityTierPolicy?
    ensures forall c :: c in Eligible(model, Candidates(model, backends, excluded)) <==>
              exists b :: b in backends && b.backendId !in excluded && MeetsRule(model, b) && c == ToCandidate(model, b)
  {
    CandidateMembers(model, backends, excluded);
    EligibleMembers(model, Candidates(model, backends, excluded));
    forall b | b in backends && b.backendId !in excluded
      ensures MeetsRule(model, b) <==> Usable(ToCandidate(model, b)) && InTier(model, ToCandidate(model, b))
    {
    }
  }

  lemma SortHeadIsLeast(candidates: seq<Candidate>)
    requires candidates != []
    ensures Sort(IdLeq, candidates) != [] && Sort(IdLeq, candidates)[0] in candidates
    ensures forall c :: c in candidates ==> StringLeq(Sort(IdLeq, candidates)[0].backendId, c.backendId)
  {
    IdLeqIsPreorder();
    SortSpec(IdLeq, candidates);
    var sorted := Sort(IdLeq, candidates);
    assert sorted[0] in multiset(sorted);
    forall c | c in candidates ensures StringLeq(sorted[0].backendId, c.backendId) {
      assert c in multiset(candidates);
      var i :| 0 <= i < |sorted| && sorted[i] == c;
      StringLeqTotal(c.backendId, c.backendId);
      assert i > 0 ==> IdLeq(sorted[0], sorted[i]);
    }
  }

  lemma TierRouteIsLeast(model: ModelRecord, backends: seq<Backend>, excluded: set<BackendId>)
    requires model.routingPolicy.LatencyTierPolicy? || model.routingPolicy.QualityTierPolicy?
    ensures TierRoute(model, backends, excluded).Routed? <==> RuleIds(model, backends) - excluded != {}
    ensures TierRoute(model, backends, excluded).Routed? ==>
      var id := TierRoute(model, backends, excluded).backendId;
      id in RuleIds(model, backends) - excluded
      && forall other :: other in RuleIds(model, backends) - excluded ==> StringLeq(id, other)
  {
    var eligible := Eligible(model, Candidates(model, backends, excluded));
    EligibleMeetRule(model, backends, excluded);
    forall id | id in RuleIds(model, backends) - excluded ensures exists c :: c in eligible && c.backendId == id {
      var b :| b in backends && MeetsRule(model, b) && b.backendId == id;
      assert ToCandidate(model, b) in eligible;
    }
    if eligible != [] {
      SortHeadIsLeast(eligible);
      var b :| b in backends && b.backendId !in excluded && MeetsRule(model, b)
               && Sort(IdLeq, eligible)[0] == ToCandidate(model, b);
      assert b.backendId in RuleIds(model, backends) - excluded;
    }
  }

  /**
   A policy routes exactly when some backend that meets its rule is not excluded, and picks the most preferred one.
   */
  lemma SelectIsBest(model: ModelRecord, backends: seq<Backend>, excluded: set<BackendId>)
    ensures Select(model, backends, excluded).Routed? <==> RuleIds(model, backends) - excluded != {}
    ensures Select(model, backends, excluded).Routed? ==>
      var id := Select(model, backends, excluded).backendId;
      id in RuleIds(model, backends) - excluded
      && forall other :: other in RuleIds(model, backends) - excluded ==> Prefers(model, id, other)
  {
    match model.routingPolicy
    case LatencyTierPolicy => TierRouteIsLeast(model, backends, excluded);
    case QualityTierPolicy => TierRouteIsLeast(model, backends, excluded);
    case ExplicitPolicy => NamedRouteIsBest(model, backends, excluded);
    case FallbackPolicy => NamedRouteIsBest(model, backends, excluded);
  }

  lemma NamedRouteIsBest(model: ModelRecord, backends: seq<Backend>, excluded: set<BackendId>)
    requires model.routingPolicy.ExplicitPolicy? || model.routingPolicy.FallbackPolicy?
    ensures Select(model, backends, excluded).Routed? <==> RuleIds(model, backends) - excluded != {}
    ensures Select(model, backends, excluded).Routed? ==>
      var id := Select(model, backends, excluded).backendId;
      id in RuleIds(model, backends) - excluded
      && forall other :: other in RuleIds(model, backends) - excluded ==> Prefers(model, id, other)
  {
    OffersMeaning(model, backends, excluded, model.backend);
    if model.fallbackBackend.Some? {
      OffersMeaning(model, backends, excluded, model.fallbackBackend.value);
    }
    forall id | id in RuleIds(model, backends) - excluded ensures Select(model, backends, excluded).Routed? {
      var b :| b in backends && MeetsRule(model, b) && b.backendId == id;
      assert Usable(ToCandidate(model, b));
    }
    var route := Select(model, backends, excluded);
    if route.Routed? {
      var b :| b in backends && b.backendId == route.backendId && Usable(ToCandidate(model, b));
      assert MeetsRule(model, b);
      assert b.backendId in RuleIds(model, backends) - excluded;
    }
  }

  lemma OffersIgnoreOrder(model: ModelRecord, backends: seq<Backend>, others: seq<Backend>, excluded: set<BackendId>,
                          id: BackendId)
    requires forall b :: b in backends <==> b in others
    ensures Offers(Candidates(model, backends, excluded), id) <==> Offers(Candidates(model, others, excluded), id)
  {
    OffersMeaning(model, backends, excluded, id);
    OffersMeaning(model, others, excluded, id);
  }

  lemma TierIgnoresOrder(model: ModelRecord, backends: seq<Backend>, others: seq<Backend>, excluded: set<BackendId>)
    requires forall b :: b in backends <==> b in others
    requires model.routingPolicy in {LatencyTierPolicy, QualityTierPolicy}
    ensures Select(model, backends, excluded) == Select(model, others, excluded)
  {
    assert RuleIds(model, backends) == RuleIds(model, others);
    SelectIsBest(model, backends, excluded);
    SelectIsBest(model, others, excluded);
    var first, second := Select(model, backends, excluded), Select(model, others, excluded);
    if first.Routed? {
      StringLeqTotal(first.backendId, second.backendId);
    }
  }

  /** The pick depends only on which backends the snapshot holds, not on their order or repetition. */
  lemma SelectIgnoresOrder(model: ModelRecord, backends: seq<Backend>, others: seq<Backend>, excluded: set<BackendId>)
    requires forall b :: b in backends <==> b in others
    ensures Select(model, backends, excluded) == Select(model, others, excluded)
  {
    if model.routingPolicy in {LatencyTierPolicy, QualityTierPolicy} {
      TierIgnoresOrder(model, backends, others, excluded);
    } else {
      OffersIgnoreOrder(model, backends, others, excluded, model.backend);
      if model.fallbackBackend.Some? {
        OffersIgnoreOrder(model, backends, others, excluded, model.fallbackBackend.value);
      }
    }
  }

  // ---- The order in which repeated routing tries the backends ----

  /** The backends that routing yields one after another when each pick is excluded from the next. */
  function TrialOrder(model: ModelRecord, backends: seq<Backend>, excluded: set<BackendId>): seq<BackendId>
    decreases |RuleIds(model, backends) - excluded|
  {
    match Select(model, backends, excluded)
    case NoRoute(_) => []
    case Routed(id, _, _) =>
      SelectIsBest(model, backends, excluded);
      assert RuleIds(model, backends) - (excluded + {id}) == RuleIds(model, backends) - excluded - {id};
      [id] + TrialOrder(model, backends, excluded + {id})
  }

  lemma PickIsPreferred(model: ModelRecord, backends: seq<Backend>, excluded: set<BackendId>, other: BackendId)
    requires Select(model, backends, excluded).Routed?
    requires other in RuleIds(model, backends) && other !in excluded
    ensures Prefers(model, Select(model, backends, excluded).backendId, other)
  {
    SelectIsBest(model, backends, excluded);
    assert other in RuleIds(model, backends) - excluded;
  }

  /** The trial order continues with the backends that remain. */
  lemma TrialStep(model: ModelRecord, backends: seq<Backend>, excluded: set<BackendId>) returns (id: BackendId)
    requires Select(model, backends, excluded).Routed?
    ensures id == Select(model, backends, excluded).backendId
    ensures id in RuleIds(model, backends) && id !in excluded
    ensures RuleIds(model, backends) - (excluded + {id}) == RuleIds(model, backends) - excluded - {id}
    ensures TrialOrder(model, backends, excluded) == [id] + TrialOrder(model, backends, excluded + {id})
  {
    SelectIsBest(model, backends, excluded);
    id := Select(model, backends, excluded).backendId;
    assert id in RuleIds(model, backends) - excluded;
  }

  lemma NoTrialLeft(model: ModelRecord, backends: seq<Backend>, excluded: set<BackendId>)
    requires Select(model, backends, excluded).NoRoute?
    ensures TrialOrder(model, backends, excluded) == [] && RuleIds(model, backends) - excluded == {}
  {
    SelectIsBest(model, backends, excluded);
  }

  lemma {:induction false} TrialOrderMembers(model: ModelRecord, backends: seq<Backend>, excluded: set<BackendId>)
    ensures forall id :: id in TrialOrder(model, backends, excluded) <==> id in RuleIds(model, backends) - excluded
    decreases |RuleIds(model, backends) - excluded|
  {
    if Select(model, backends, excluded).Routed? {
      var id := TrialStep(model, backends, excluded);
      assert id in RuleIds(model, backends) - excluded;
      TrialOrderMembers(model, backends, excluded + {id});
    } else {
      NoTrialLeft(model, backends, excluded);
    }
  }

  ghost predicate InPreference(model: ModelRecord, order: seq<BackendId>) {
    forall i, j :: 0 <= i < j < |order| ==> order[i] != order[j] && Prefers(model, order[i], order[j])
  }

  lemma PreferredFirst(model: ModelRecord, id: BackendId, rest: seq<BackendId>)
    requires InPreference(model, rest)
    requires forall other :: other in rest ==> other != id && Prefers(model, id, other)
    ensures InPreference(model, [id] + rest)
  {
    var all := [id] + rest;
    forall i, j | 0 <= i < j < |all| ensures all[i] != all[j] && Prefers(model, all[i], all[j]) {
      assert all[j] == rest[j - 1];
      if i == 0 {
        assert rest[j - 1] in rest;
      } else {
        assert all[i] == rest[i - 1];
      }
    }
  }

  lemma {:induction false} TrialOrderPrefers(model: ModelRecord, backends: seq<Backend>, excluded: set<BackendId>)
    ensures InPreference(model, TrialOrder(model, backends, excluded))
    decreases |RuleIds(model, backends) - excluded|
  {
    if Select(model, backends, excluded).Routed? {
      var id := TrialStep(model, backends, excluded);
      assert id in RuleIds(model, backends) - excluded;
      TrialOrderPrefers(model, backends, excluded + {id});
      TrialOrderMembers(model, backends, excluded + {id});
      forall other | other in TrialOrder(model, backends, excluded + {id})
        ensures other != id && Prefers(model, id, other)
      {
        assert other in RuleIds(model, backends) - (excluded + {id});
        PickIsPreferred(model, backends, excluded, other);
      }
      PreferredFirst(model, id, TrialOrder(model, backends, excluded + {id}));
    } else {
      NoTrialLeft(model, backends, excluded);
    }
  }

  /** The trial order enumerates the unexcluded backends that meet the rule, each once, the most preferred first. */
  lemma TrialOrderSpec(model: ModelRecord, backends: seq<Backend>, excluded: set<BackendId>)
    ensures forall id :: id in TrialOrder(model, backends, excluded) <==> id in RuleIds(model, backends) - excluded
    ensures InPreference(model, TrialOrder(model, backends, excluded))
  {
    TrialOrderMembers(model, backends, excluded);
    TrialOrderPrefers(model, backends, excluded);
  }

  lemma RuleNamesBackend(model: ModelRecord, backends: seq<Backend>, id: BackendId)
    requires id in RuleIds(model, backends)
    ensures model.routingPolicy.ExplicitPolicy? ==> id == model.backend
    ensures model.routingPolicy.FallbackPolicy? ==> id == model.backend || Some(id) == model.fallbackBackend
  {
  }

  lemma TrialsDiffer(model: ModelRecord, backends: seq<Backend>, excluded: set<BackendId>, i: nat, j: nat)
    requires i < j < |TrialOrder(model, backends, excluded)|
    ensures TrialOrder(model, backends, excluded)[i] != TrialOrder(model, backends, excluded)[j]
  {
    TrialOrderSpec(model, backends, excluded);
  }

  lemma TrialNamesBackend(model: ModelRecord, backends: seq<Backend>, i: nat)
    requires i < |TrialOrder(model, backends, {})|
    ensures var id := TrialOrder(model, backends, {})[i];
      && (model.routingPolicy.ExplicitPolicy? ==> id == model.backend)
      && (model.routingPolicy.FallbackPolicy? ==> id == model.backend || Some(id) == model.fallbackBackend)
  {
    TrialOrderSpec(model, backends, {});
    assert TrialOrder(model, backends, {})[i] in TrialOrder(model, backends, {});
    RuleNamesBackend(model, backends, TrialOrder(model, backends, {})[i]);
  }

  /** An explicit route has one backend to try, a fallback route at most two. */
  lemma NamedTrialsAreFew(model: ModelRecord, backends: seq<Backend>)
    ensures model.routingPolicy.ExplicitPolicy? ==> |TrialOrder(model, backends, {})| <= 1
    ensures model.routingPolicy.FallbackPolicy? ==> |TrialOrder(model, backends, {})| <= 2
  {
    if |TrialOrder(model, backends, {})| >= 2 {
      TrialNamesBackend(model, backends, 0);
      TrialNamesBackend(model, backends, 1);
      TrialsDiffer(model, backends, {}, 0, 1);
      if |TrialOrder(model, backends, {})| > 2 {
        TrialNamesBackend(model, backends, 2);
        TrialsDiffer(model, backends, {}, 0, 2);
        TrialsDiffer(model, backends, {}, 1, 2);
      }
    }
  }

  // ---- What a route says ----

  /** The order of ids: a proper prefix comes first, otherwise the smaller character at the first difference. */
  lemma {:induction false} StringOrder(a: string, b: string)
    ensures StringLeq(a, b)
       <==> a <= b || exists k :: 0 <= k < |a| && k < |b| && a[..k] == b[..k] && a[k] < b[k]
  {
    if a != [] && b != [] && a[0] == b[0] {
      StringOrder(a[1..], b[1..]);
      if a[1..] <= b[1..] {
        assert a == [a[0]] + a[1..] && b == [b[0]] + b[1..];
      }
      if k :| 0 <= k < |a[1..]| && k < |b[1..]| && a[1..][..k] == b[1..][..k] && a[1..][k] < b[1..][k] {
        assert a[..k + 1] == [a[0]] + a[1..][..k] && b[..k + 1] == [b[0]] + b[1..][..k];
        assert a[k + 1] < b[k + 1];
      }
      if k :| 0 <= k < |a| && k < |b| && a[..k] == b[..k] && a[k] < b[k] {
        assert k > 0;
        assert a[1..][..k - 1] == a[..k][1..] && b[1..][..k - 1] == b[..k][1..];
        assert a[1..][k - 1] < b[1..][k - 1];
      }
    }
  }

  /**
   A route names its policy, and says that the fallback was used exactly when it did not go to the model's backend.
   */
  lemma RouteNamesPolicy(model: ModelRecord, backends: seq<Backend>, excluded: set<BackendId>)
    requires Select(model, backends, excluded).Routed?
    ensures var route := Select(model, backends, excluded);
      && (route.fallbackUsed <==> model.routingPolicy == FallbackPolicy && route.backendId != model.backend)
      && route.policy == (if model.routingPolicy == FallbackPolicy && !route.fallbackUsed then ExplicitPolicy
                          else model.routingPolicy)
  {
  }

  /** The text of a route that fails. */
  lemma RouteFailureText(model: ModelRecord, backends: seq<Backend>, excluded: set<BackendId>)
    requires Select(model, backends, excluded).NoRoute?
    ensures Select(model, backends, excluded).error
         == match model.routingPolicy
            case LatencyTierPolicy =>
              (match model.latencyTier
               case FastLatency => "no healthy backend for latency_tier=fast"
               case StandardLatency => "no healthy backend for latency_tier=standard"
               case SlowLatency => "no healthy backend for latency_tier=slow")
            case QualityTierPolicy =>
              (match model.qualityTier
               case HighQuality => "no healthy backend for quality_tier=high"
               case StandardQuality => "no healthy backend for quality_tier=standard"
               case EconomyQuality => "no healthy backend for quality_tier=economy")
            case ExplicitPolicy => "explicit backend unavailable: " + model.backend
            case FallbackPolicy =>
              if model.fallbackBackend.None? then "explicit backend unavailable: " + model.backend
              else "fallback backend unavailable: " + model.fallbackBackend.value
  {
    var latency, quality := "no healthy backend for latency_tier=", "no healthy backend for quality_tier=";
    assert latency + "fast" == "no healthy backend for latency_tier=fast";
    assert latency + "standard" == "no healthy backend for latency_tier=standard";
    assert latency + "slow" == "no healthy backend for latency_tier=slow";
    assert quality + "high" == "no healthy backend for quality_tier=high";
    assert quality + "standard" == "no healthy backend for quality_tier=standard";
    assert quality + "economy" == "no healthy backend for quality_tier=economy";
  }
}
