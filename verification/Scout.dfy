/** Choosing a model: policy tiers, thresholds, ranking, re-ranking and fallbacks. */
module Scout {
  import opened Wrappers
  import opened Registry

  datatype Policy = Saver | Auto | Quality

  const OSS: set<string> := {"vllm", "fireworks", "together", "openrouter"}
  const FRONTIER: set<string> := {"anthropic", "openai"}

  function ResolvePolicy(model: string): Option<Policy> {
    if model in {"anthropic/modelmeld-saver", "anthropic/modelmeld-coding", "anthropic/modelmeld-cheap"}
    then Some(Saver)
    else if model in {"anthropic/modelmeld-auto", "anthropic/modelmeld-balanced", "anthropic/modelmeld-reasoning"}
    then Some(Auto)
    else if model in {"anthropic/modelmeld-quality", "anthropic/modelmeld-frontier-priority"} then Some(Quality)
    else None
  }

  /** What the classifiers and the environment say about a request is taken as given:
      its category, whether AUTO escalates, whether it looks like autocomplete, and the context it needs. */
  datatype Request = Request(
    model: string, pin: Option<string>, category: string, thresholdHint: Option<real>, excluded: set<string>,
    hasTools: bool, escalate: bool, autocomplete: bool, minContext: int,
    availableFrontier: Option<set<string>>, reliabilityFloor: real)

  datatype ScoutConfig = ScoutConfig(threshold: real, eligible: Option<set<string>>, fallbackDepth: nat)

  datatype Decision = Decision(modelId: string, provider: string, category: string, taskScore: real,
                               fallbacks: seq<string>, providerModelId: string)

  datatype NoEligibleModel = NoEligibleModel(category: string)

  predicate AgenticRoute(r: Request) {
    r.category == "coding" || r.category == "tool_use"
  }

  function Providers(rows: seq<ModelEntry>): set<string> {
    set e | e in rows :: e.provider
  }

  /** Providers left after the request's exclusions; `Some({})` makes the request fail. */
  function AfterExclusions(cfg: ScoutConfig, rows: seq<ModelEntry>, r: Request): Option<set<string>> {
    if r.excluded == {} then cfg.eligible
    else Some((if cfg.eligible.Some? then cfg.eligible.value else Providers(rows)) - r.excluded)
  }

  function Frontier(r: Request): set<string> {
    if r.availableFrontier.Some? then FRONTIER * r.availableFrontier.value else FRONTIER
  }

  /** The policy tier: SAVER intersects, AUTO escalation and QUALITY replace. A threshold hint switches it off. */
  function Tier(r: Request, eligible: Option<set<string>>): Option<set<string>> {
    if r.thresholdHint.Some? then eligible
    else match ResolvePolicy(r.model)
      case Some(Saver) => Some(if eligible.Some? then eligible.value * OSS else OSS)
      case Some(Auto) => if r.escalate && Frontier(r) != {} then Some(Frontier(r)) else eligible
      case Some(Quality) => if r.autocomplete then eligible else Some(Frontier(r))
      case None => eligible
  }

  /** Autocomplete shape lowers the threshold, never raises it, and never against a hint. */
  function Threshold(cfg: ScoutConfig, r: Request): real {
    if r.thresholdHint.Some? then r.thresholdHint.value
    else if r.autocomplete && 0.55 < cfg.threshold then 0.55
    else cfg.threshold
  }

  function QueryOf(cfg: ScoutConfig, rows: seq<ModelEntry>, r: Request): Query {
    Query(r.category, Threshold(cfg, r), Tier(r, AfterExclusions(cfg, rows, r)), r.minContext, r.hasTools,
          if ResolvePolicy(r.model) == Some(Auto) && r.hasTools then 0.02 else 0.0, 128,
          if AgenticRoute(r) then Some(r.reliabilityFloor) else None)
  }

  function Capability(e: ModelEntry, category: string): real {
    if AGENTIC in e.taskScores then e.taskScores[AGENTIC] else Score(e, category)
  }

  function NegatedCapabilities(es: seq<ModelEntry>, category: string): (r: seq<real>)
    ensures |r| == |es|
  {
    seq(|es|, i requires 0 <= i < |es| => 0.0 - Capability(es[i], category))
  }

  /** Sorted by capability descending, then cost: a stable sort by cost followed by one by capability. */
  function ByCapability(es: seq<ModelEntry>, category: string): seq<ModelEntry> {
    var cheap := Arrange(es, Order(Costs(es)));
    Arrange(cheap, Order(NegatedCapabilities(cheap, category)))
  }

  function Reliable(es: seq<ModelEntry>, floor: real): seq<ModelEntry> {
    if es == [] then []
    else (if AGENTIC in es[0].taskScores && es[0].taskScores[AGENTIC] >= floor then [es[0]] else []) +
         Reliable(es[1..], floor)
  }

  /** Policy re-ranking of the agentic routes. */
  function Rerank(r: Request, ranked: seq<ModelEntry>): seq<ModelEntry> {
    if !AgenticRoute(r) then ranked
    else match ResolvePolicy(r.model)
      case Some(Quality) => ByCapability(ranked, r.category)
      case Some(Auto) =>
        var reliable := Reliable(ranked, r.reliabilityFloor);
        if r.reliabilityFloor > 0.0 && reliable != [] then reliable else ranked
      case _ => ranked
  }

  function Ids(es: seq<ModelEntry>): (r: seq<string>)
    ensures |r| == |es| && forall i :: 0 <= i < |es| ==> r[i] == es[i].modelId
  {
    seq(|es|, i requires 0 <= i < |es| => es[i].modelId)
  }

  /** The decision for a non-empty ranking: the head, and as many ids behind it as the depth allows. */
  function Decide(cfg: ScoutConfig, r: Request, ranked: seq<ModelEntry>): Decision
    requires ranked != []
  {
    var last := if 1 + cfg.fallbackDepth < |ranked| then 1 + cfg.fallbackDepth else |ranked|;
    Decision(ranked[0].modelId, ranked[0].provider, r.category, Score(ranked[0], r.category), Ids(ranked[1..last]),
             ranked[0].providerModelId)
  }

  /** An empty pin is no pin. */
  predicate Pinned(r: Request) {
    r.pin.Some? && r.pin.value != ""
  }

  function Choose(cfg: ScoutConfig, byKey: seq<ModelEntry>, byId: seq<ModelEntry>, r: Request)
    : Result<Decision, NoEligibleModel>
  {
    if Pinned(r) then
      var e := Lookup(byId, r.pin.value);
      if e.None? then Err(NoEligibleModel("pinned"))
      else Ok(Decision(e.value.modelId, e.value.provider, "pinned", 0.0, [], e.value.providerModelId))
    else if r.excluded != {} && AfterExclusions(cfg, byId, r) == Some({}) then Err(NoEligibleModel(r.category))
    else
      var ranked := RankRows(byKey, QueryOf(cfg, byId, r));
      if ranked == [] then Err(NoEligibleModel(r.category))
      else Ok(Decide(cfg, r, Rerank(r, ranked)))
  }

  // ----- What can be chosen ---------------------------------------------------------

  lemma {:induction false} ReliableKeeps(es: seq<ModelEntry>, floor: real)
    ensures forall e :: e in Reliable(es, floor) ==> e in es
  {
    if es != [] { ReliableKeeps(es[1..], floor); }
  }

  lemma RerankKeeps(r: Request, ranked: seq<ModelEntry>)
    ensures forall e :: e in Rerank(r, ranked) ==> e in ranked
    ensures ranked != [] ==> Rerank(r, ranked) != []
  {
    ReliableKeeps(ranked, r.reliabilityFloor);
    var cheap := Arrange(ranked, Order(Costs(ranked)));
    assert forall e :: e in cheap ==> e in ranked;
    assert forall e :: e in ByCapability(ranked, r.category) ==> e in cheap;
  }

  /** The decision's row and its fallback ids all come from rows the query admits, and the depth is respected. */
  ghost predicate FromAdmitted(cfg: ScoutConfig, byKey: seq<ModelEntry>, q: Query, d: Decision) {
    && (exists e :: e in byKey && Admitted(e, q) && e.modelId == d.modelId && e.provider == d.provider)
    && (forall f :: f in d.fallbacks ==> exists e :: e in byKey && Admitted(e, q) && e.modelId == f)
    && |d.fallbacks| <= cfg.fallbackDepth
  }

  /** Without a pin, whatever is chosen comes from rows that pass every filter of the query. */
  lemma ChosenAreAdmitted(cfg: ScoutConfig, byKey: seq<ModelEntry>, byId: seq<ModelEntry>, r: Request)
    requires !Pinned(r)
    ensures var chosen := Choose(cfg, byKey, byId, r);
            chosen.Ok? ==> FromAdmitted(cfg, byKey, QueryOf(cfg, byId, r), chosen.value)
  {
    if Choose(cfg, byKey, byId, r).Ok? {
      var d, q := Choose(cfg, byKey, byId, r).value, QueryOf(cfg, byId, r);
      var ranked := RankRows(byKey, q);
      var final := Rerank(r, ranked);
      RankIsStableSort(byKey, q);
      RerankKeeps(r, ranked);
      assert final[0] in final;
      forall f | f in d.fallbacks ensures exists e :: e in byKey && Admitted(e, q) && e.modelId == f {
        var i :| 0 <= i < |d.fallbacks| && d.fallbacks[i] == f;
        assert final[1 + i] in final && final[1 + i].modelId == f;
      }
    }
  }

  /** A fallback id always resolves, to the last listed row of its model; that row passed the chosen one's filters
      exactly when it was itself among the ranked rows, as it always is with one row per model. */
  lemma FallbacksMeetFilters(cfg: ScoutConfig, entries: seq<ModelEntry>, r: Request, f: string)
    requires !Pinned(r)
    ensures var byKey, byId := Table(entries, true), Table(entries, false);
            var chosen, e, q := Choose(cfg, byKey, byId, r), Lookup(byId, f), QueryOf(cfg, byId, r);
            chosen.Ok? && f in chosen.value.fallbacks ==>
              && e.Some? && e == LastRow(entries, f)
              && (Admitted(e.value, q) <==> e.value in RankRows(byKey, q))
              && (OneRowPerModel(byKey) ==> Admitted(e.value, q))
  {
    var byKey, byId := Table(entries, true), Table(entries, false);
    var chosen, q := Choose(cfg, byKey, byId, r), QueryOf(cfg, byId, r);
    if chosen.Ok? && f in chosen.value.fallbacks {
      ChosenAreAdmitted(cfg, byKey, byId, r);
      GetReturnsLastRow(entries, f);
      TableHoldsLastRow(entries, f);
      RankIsStableSort(byKey, q);
      var e :| e in byKey && Admitted(e, q) && e.modelId == f;
    }
  }

  /** Every model with an OSS row resolves to an OSS row. */
  ghost predicate OssResolvesToOss(entries: seq<ModelEntry>) {
    forall e :: e in Table(entries, true) && e.provider in OSS ==>
      var found := Lookup(Table(entries, false), e.modelId); found.Some? && found.value.provider in OSS
  }

  /** A decision that can never leave the OSS tier, whatever fails. */
  ghost predicate OssOnly(d: Decision, byId: seq<ModelEntry>) {
    d.provider in OSS && forall f :: f in d.fallbacks && Lookup(byId, f).Some? ==> Lookup(byId, f).value.provider in OSS
  }

  /** SAVER, unpinned and without a threshold hint: the choice is an OSS row, and every fallback model has an OSS row
      that was ranked. The fallbacks stay in the tier exactly when the last listed row of each is an OSS row, which
      the registry grants if every model with an OSS row is listed with an OSS row last. */
  lemma SaverChoosesOss(cfg: ScoutConfig, entries: seq<ModelEntry>, r: Request)
    requires ResolvePolicy(r.model) == Some(Saver) && !Pinned(r) && r.thresholdHint == None
    ensures var byKey, byId := Table(entries, true), Table(entries, false);
            var chosen := Choose(cfg, byKey, byId, r);
            chosen.Ok? ==>
              var d := chosen.value;
              && d.provider in OSS
              && (forall f :: f in d.fallbacks ==>
                    LastRow(entries, f).Some? && exists e :: e in byKey && e.modelId == f && e.provider in OSS)
              && (OssOnly(d, byId) <==> forall f :: f in d.fallbacks ==> LastRow(entries, f).value.provider in OSS)
              && (OssResolvesToOss(entries) ==> OssOnly(d, byId))
  {
    var byKey, byId := Table(entries, true), Table(entries, false);
    ChosenAreAdmitted(cfg, byKey, byId, r);
    if Choose(cfg, byKey, byId, r).Ok? {
      var d, q := Choose(cfg, byKey, byId, r).value, QueryOf(cfg, byId, r);
      assert q.eligible.Some? && q.eligible.value <= OSS;
      forall f | f in d.fallbacks
        ensures LastRow(entries, f).Some? && Lookup(byId, f) == LastRow(entries, f)
        ensures exists e :: e in byKey && e.modelId == f && e.provider in OSS
      {
        var e :| e in byKey && Admitted(e, q) && e.modelId == f;
        GetReturnsLastRow(entries, f);
        TableHoldsLastRow(entries, f);
      }
    }
  }

  // ----- The scout object ------------------------------------------------------------

  class CapabilityScout {
    const config: ScoutConfig
    const registry: MultiProviderModelRegistry

    constructor (config: ScoutConfig, registry: MultiProviderModelRegistry)
      ensures this.config == config && this.registry == registry
    {
      this.config, this.registry := config, registry;
    }

    /** Narrows the eligible providers, bends the threshold, ranks, and re-ranks, one after the other. */
    method ChooseModel(r: Request) returns (decision: Result<Decision, NoEligibleModel>)
      ensures decision == Choose(config, registry.byKey, registry.byId, r)
    {
      if Pinned(r) {
        var entry := registry.Get(r.pin.value);
        if entry.None? {
          return Err(NoEligibleModel("pinned"));
        }
        return Ok(Decision(entry.value.modelId, entry.value.provider, "pinned", 0.0, [], entry.value.providerModelId));
      }
      var threshold, eligible := config.threshold, config.eligible;
      if r.thresholdHint.Some? {
        threshold := r.thresholdHint.value;
      }
      if r.excluded != {} {
        eligible := Some((if eligible.Some? then eligible.value else Providers(registry.byId)) - r.excluded);
        if eligible.value == {} {
          return Err(NoEligibleModel(r.category));
        }
      }
      var policy := ResolvePolicy(r.model);
      if policy.Some? && r.thresholdHint.None? {
        match policy.value {
          case Saver => eligible := Some(if eligible.Some? then eligible.value * OSS else OSS);
          case Auto =>
            if r.escalate && Frontier(r) != {} {
              eligible := Some(Frontier(r));
            }
          case Quality =>
            if !r.autocomplete {
              eligible := Some(Frontier(r));
            }
        }
      }
      if r.thresholdHint.None? && r.autocomplete && 0.55 < threshold {
        threshold := 0.55;
      }
      var q := Query(r.category, threshold, eligible, r.minContext, r.hasTools,
                     if policy == Some(Auto) && r.hasTools then 0.02 else 0.0, 128,
                     if AgenticRoute(r) then Some(r.reliabilityFloor) else None);
      assert q == QueryOf(config, registry.byId, r);
      var ranked := registry.Rank(q);
      if ranked == [] {
        return Err(NoEligibleModel(r.category));
      }
      RerankKeeps(r, ranked);
      ranked := Rerank(r, ranked);
      decision := Ok(Decide(config, r, ranked));
    }
  }
}
