/** Which model the scout chooses, said of the rows themselves: who may serve, in which order, and what is handed on. */
module ScoutChoice {
  import opened Wrappers
  import opened Registry
  import opened Scout

  // ----- Who may serve -----------------------------------------------------------------

  /** The policy replaces the configured providers by the frontier providers at hand: `-quality` outside autocomplete,
      and `-auto` when it escalates and there are any. A threshold hint keeps both from doing so. */
  predicate Replaces(r: Request) {
    && r.thresholdHint.None?
    && (|| (ResolvePolicy(r.model) == Some(Quality) && !r.autocomplete)
        || (ResolvePolicy(r.model) == Some(Auto) && r.escalate
            && (FrontierAtHand("anthropic", r) || FrontierAtHand("openai", r))))
  }

  predicate FrontierAtHand(p: string, r: Request) {
    (p == "anthropic" || p == "openai") && (r.availableFrontier.Some? ==> p in r.availableFrontier.value)
  }

  predicate OpenWeight(p: string) {
    p == "vllm" || p == "fireworks" || p == "together" || p == "openrouter"
  }

  /** Configured for the scout and not excluded by the request; an exclusion reaches only providers the scout knows. */
  predicate Configured(cfg: ScoutConfig, byId: seq<ModelEntry>, r: Request, p: string) {
    && (cfg.eligible.Some? ==> p in cfg.eligible.value)
    && p !in r.excluded
    && (cfg.eligible.None? && r.excluded != {} ==> exists e :: e in byId && e.provider == p)
  }

  predicate ProviderMayServe(cfg: ScoutConfig, byId: seq<ModelEntry>, r: Request, p: string) {
    if Replaces(r) then FrontierAtHand(p, r)
    else
      && Configured(cfg, byId, r, p)
      && (ResolvePolicy(r.model) == Some(Saver) && r.thresholdHint.None? ==> OpenWeight(p))
  }

  /** The score a row needs: a hint decides, autocomplete never needs more than 0.55. */
  predicate ScoreSuffices(cfg: ScoutConfig, r: Request, score: real) {
    if r.thresholdHint.Some? then score >= r.thresholdHint.value
    else score >= cfg.threshold || (r.autocomplete && score >= 0.55)
  }

  predicate Agentic(r: Request) {
    r.category == "coding" || r.category == "tool_use"
  }

  /** A row on the category's score, or, on agentic routes, one never scored there but proven by its agentic score. */
  predicate Capable(cfg: ScoutConfig, r: Request, e: ModelEntry) {
    || (r.category in e.taskScores && ScoreSuffices(cfg, r, e.taskScores[r.category]))
    || (r.category !in e.taskScores && ScoreSuffices(cfg, r, 0.0))
    || (Agentic(r) && r.category !in e.taskScores && AgenticScore(e).GetOr(0.0) >= r.reliabilityFloor)
  }

  function AgenticScore(e: ModelEntry): Option<real> {
    if "agentic_coding" in e.taskScores then Some(e.taskScores["agentic_coding"]) else None
  }

  predicate MayServe(cfg: ScoutConfig, byId: seq<ModelEntry>, r: Request, e: ModelEntry) {
    && e.enabled && e.contextWindow >= r.minContext && (r.hasTools ==> e.supportsTools)
    && ProviderMayServe(cfg, byId, r, e.provider)
    && Capable(cfg, r, e)
  }

  /** The exclusions leave no configured provider at all. */
  ghost predicate NothingLeft(cfg: ScoutConfig, byId: seq<ModelEntry>, r: Request) {
    && r.excluded != {}
    && (if cfg.eligible.Some? then forall p :: p in cfg.eligible.value ==> p in r.excluded
        else forall e :: e in byId ==> e.provider in r.excluded)
  }

  lemma FrontierIs(r: Request, p: string)
    ensures p in Frontier(r) <==> FrontierAtHand(p, r)
  {
  }

  lemma FrontierIsEmpty(r: Request)
    ensures Frontier(r) == {} <==> !FrontierAtHand("anthropic", r) && !FrontierAtHand("openai", r)
  {
    FrontierIs(r, "anthropic");
    FrontierIs(r, "openai");
    forall p | p in Frontier(r) ensures FrontierAtHand("anthropic", r) || FrontierAtHand("openai", r) {
      FrontierIs(r, p);
    }
  }

  lemma ConfiguredIs(cfg: ScoutConfig, byId: seq<ModelEntry>, r: Request, p: string)
    ensures var left := AfterExclusions(cfg, byId, r); left.None? || p in left.value <==> Configured(cfg, byId, r, p)
  {
    assert p in Providers(byId) <==> exists e :: e in byId && e.provider == p;
  }

  lemma TierIs(r: Request, eligible: Option<set<string>>, policy: Option<Policy>, p: string)
    requires policy == ResolvePolicy(r.model)
    ensures var tier := Tier(r, eligible);
            tier.None? || p in tier.value <==>
            if Replaces(r) then p in Frontier(r)
            else
              && (eligible.None? || p in eligible.value)
              && (policy == Some(Saver) && r.thresholdHint.None? ==> p in OSS)
  {
    FrontierIsEmpty(r);
  }

  lemma TierIsProviders(cfg: ScoutConfig, byId: seq<ModelEntry>, r: Request, p: string)
    ensures var tier := Tier(r, AfterExclusions(cfg, byId, r));
            tier.None? || p in tier.value <==> ProviderMayServe(cfg, byId, r, p)
  {
    TierIs(r, AfterExclusions(cfg, byId, r), ResolvePolicy(r.model), p);
    ConfiguredIs(cfg, byId, r, p);
    FrontierIs(r, p);
  }

  lemma ThresholdIs(cfg: ScoutConfig, r: Request, score: real)
    ensures score >= Threshold(cfg, r) <==> ScoreSuffices(cfg, r, score)
  {
  }

  /** The query the scout asks admits exactly the rows that may serve. */
  lemma AdmittedMayServe(cfg: ScoutConfig, byId: seq<ModelEntry>, r: Request, e: ModelEntry)
    ensures Admitted(e, QueryOf(cfg, byId, r)) <==> MayServe(cfg, byId, r, e)
  {
    TierIsProviders(cfg, byId, r, e.provider);
    ThresholdIs(cfg, r, Score(e, r.category));
  }

  lemma ExclusionsLeaveNothing(cfg: ScoutConfig, byId: seq<ModelEntry>, r: Request)
    ensures r.excluded != {} && AfterExclusions(cfg, byId, r) == Some({}) <==> NothingLeft(cfg, byId, r)
  {
    if r.excluded != {} {
      var left := (if cfg.eligible.Some? then cfg.eligible.value else Providers(byId)) - r.excluded;
      assert AfterExclusions(cfg, byId, r) == Some(left);
      if NothingLeft(cfg, byId, r) {
        assert forall p :: p !in left;
        assert left == {};
      }
      if left == {} {
        forall e | e in byId && cfg.eligible.None? ensures e.provider in r.excluded {
          assert e.provider in Providers(byId);
          assert e.provider !in left;
        }
        forall p | cfg.eligible.Some? && p in cfg.eligible.value ensures p in r.excluded { assert p !in left; }
      }
    }
  }

  // ----- In which order ------------------------------------------------------------------

  /** How strong a row is for the request: its agentic score, or the category's where it has none. */
  function Strength(e: ModelEntry, category: string): real {
    if "agentic_coding" in e.taskScores then e.taskScores["agentic_coding"]
    else if category in e.taskScores then e.taskScores[category]
    else 0.0
  }

  /** Dollars per million tokens, six parts input to four parts output. */
  function Price(e: ModelEntry): real {
    (e.costIn * 6.0 + e.costOut * 4.0) / 10.0
  }

  /** Row a of the ranking goes before row b on an agentic `-quality` route. */
  predicate StrongerFirst(rows: seq<ModelEntry>, category: string, a: nat, b: nat)
    requires a < |rows| && b < |rows|
  {
    var x, y := rows[a], rows[b];
    || Strength(x, category) > Strength(y, category)
    || (Strength(x, category) == Strength(y, category)
        && (Price(x) < Price(y) || (Price(x) == Price(y) && a < b)))
  }

  lemma CapabilityIsStrength(e: ModelEntry, category: string)
    ensures Capability(e, category) == Strength(e, category) && BlendedCost(e) == Price(e)
  {
  }

  lemma TwoSortsOrder(ranked: seq<ModelEntry>, category: string, byCost: seq<nat>, cheap: seq<ModelEntry>,
                      byStrength: seq<nat>, i: nat, j: nat)
    requires byCost == Order(Costs(ranked)) && cheap == Arrange(ranked, byCost)
    requires byStrength == Order(NegatedCapabilities(cheap, category)) && i < j < |ranked|
    ensures StrongerFirst(ranked, category, byCost[byStrength[i]], byCost[byStrength[j]])
  {
    var keys := NegatedCapabilities(cheap, category);
    var a, b := byStrength[i], byStrength[j];
    OrderSorts(Costs(ranked));
    OrderSorts(keys);
    assert Before(keys, a, b);
    CapabilityIsStrength(cheap[a], category);
    CapabilityIsStrength(cheap[b], category);
    if keys[a] == keys[b] { assert Before(Costs(ranked), byCost[a], byCost[b]); }
  }

  /** All places, taken through all places. */
  lemma CoversTwice(p: seq<nat>, q: seq<nat>, place: seq<nat>)
    requires |place| == |q| && forall i :: 0 <= i < |q| ==> q[i] < |p| && place[i] == p[q[i]]
    requires (forall k :: 0 <= k < |p| ==> k in p) && (forall a :: 0 <= a < |p| ==> a in q)
    ensures forall k :: 0 <= k < |p| ==> k in place
  {
    forall k | 0 <= k < |p| ensures k in place {
      assert k in p;
      var a :| 0 <= a < |p| && p[a] == k;
      assert a in q;
      var b :| 0 <= b < |q| && q[b] == a;
      assert place[b] == k;
    }
  }

  /** On an agentic `-quality` route the rows are put by strength descending, then by price, then in ranked order:
      `place[i]` is where the i-th row stood in the ranking, and no row is lost. */
  lemma StrongestFirst(ranked: seq<ModelEntry>, category: string) returns (place: seq<nat>)
    ensures |place| == |ranked| == |ByCapability(ranked, category)|
    ensures forall i :: 0 <= i < |place| ==>
              place[i] < |ranked| && ByCapability(ranked, category)[i] == ranked[place[i]]
    ensures forall i, j :: 0 <= i < j < |place| ==> StrongerFirst(ranked, category, place[i], place[j])
    ensures forall k :: 0 <= k < |ranked| ==> k in place
  {
    var byCost := Order(Costs(ranked));
    var cheap := Arrange(ranked, byCost);
    var byStrength := Order(NegatedCapabilities(cheap, category));
    place := seq(|ranked|, i requires 0 <= i < |ranked| => byCost[byStrength[i]]);
    forall i, j | 0 <= i < j < |place| ensures StrongerFirst(ranked, category, place[i], place[j]) {
      TwoSortsOrder(ranked, category, byCost, cheap, byStrength, i, j);
    }
    OrderSorts(Costs(ranked));
    OrderSorts(NegatedCapabilities(cheap, category));
    CoversTwice(byCost, byStrength, place);
  }

  lemma TwoSortsKeepRows(ranked: seq<ModelEntry>, category: string)
    ensures multiset(ByCapability(ranked, category)) == multiset(ranked)
  {
    var cheap := Arrange(ranked, Order(Costs(ranked)));
    ArrangeKeepsElements(ranked, Costs(ranked), |ranked|);
    ArrangeKeepsElements(cheap, NegatedCapabilities(cheap, category), |cheap|);
    assert ranked[..|ranked|] == ranked && cheap[..|cheap|] == cheap;
  }

  /** Tool-bearing `-auto` requests are ranked by price and speed, all others by price alone. */
  predicate SpeedCounts(r: Request) {
    ResolvePolicy(r.model) == Some(Auto) && r.hasTools
  }

  /** Seconds for a turn: with the throughput known, the time to the first token and the time for all of them. */
  lemma SecondsPerTurn(e: ModelEntry, tokens: int)
    ensures TurnLatency(e, tokens).Some? <==> e.outputTps.Some? && e.outputTps.value > 0.0
    ensures TurnLatency(e, tokens).Some? ==>
              (TurnLatency(e, tokens).value - (if e.ttft.Some? then e.ttft.value else 0.0)) * e.outputTps.value
              == tokens as real
  {
  }

  /** Where any throughput is known, rows are ranked by effective cost, an unknown row as fast as the median one. */
  lemma UnknownIsMedian(costs: seq<real>, seconds: seq<Option<real>>, weight: real, i: nat, key: real, s: real)
    requires |costs| == |seconds| && i < |costs| && weight > 0.0 && key == Keys(costs, seconds, weight)[i]
    requires Measured(seconds) != []
    requires s == if seconds[i].Some? then seconds[i].value else Median(Measured(seconds))
    ensures key == Effective(costs[i], weight, s)
  {
  }

  /** In effective cost each second adds `weight` times the price. */
  lemma SecondsArePaidFor(cost: real, weight: real, s: real)
    ensures Effective(cost, weight, s) == cost + weight * (cost * s)
  {
    assert cost * (1.0 + weight * s) == cost + cost * (weight * s);
    assert cost * (weight * s) == weight * (cost * s);
  }

  /** What row i of the candidates is ranked by. */
  function RankPrice(r: Request, es: seq<ModelEntry>, i: nat): real
    requires i < |es|
  {
    if SpeedCounts(r) then Keys(Costs(es), Latencies(es, 128), 0.02)[i] else Price(es[i])
  }

  lemma WeightOfQuery(cfg: ScoutConfig, byId: seq<ModelEntry>, r: Request)
    ensures var q := QueryOf(cfg, byId, r);
            q.latencyWeight == (if SpeedCounts(r) then 0.02 else 0.0) && q.refOutputTokens == 128
  {
  }

  lemma KeyIsRankPrice(r: Request, q: Query, es: seq<ModelEntry>, i: nat)
    requires q.latencyWeight == (if SpeedCounts(r) then 0.02 else 0.0) && q.refOutputTokens == 128 && i < |es|
    ensures KeysOf(es, q)[i] == RankPrice(r, es, i)
  {
    CapabilityIsStrength(es[i], r.category);
  }

  /** The ranking is the candidates by rank price, ties in listing order: row i is candidate `place[i]`. */
  ghost predicate RankedBy(r: Request, es: seq<ModelEntry>, ranked: seq<ModelEntry>, place: seq<nat>) {
    && |place| == |ranked| == |es|
    && (forall k :: 0 <= k < |es| ==> k in place)
    && (forall i :: 0 <= i < |place| ==> place[i] < |es| && ranked[i] == es[place[i]])
    && (forall i, j :: 0 <= i < j < |place| ==>
          || RankPrice(r, es, place[i]) < RankPrice(r, es, place[j])
          || (RankPrice(r, es, place[i]) == RankPrice(r, es, place[j]) && place[i] < place[j]))
  }

  lemma RankedByPrice(cfg: ScoutConfig, byKey: seq<ModelEntry>, byId: seq<ModelEntry>, r: Request, q: Query)
    returns (place: seq<nat>)
    requires q == QueryOf(cfg, byId, r)
    ensures RankedBy(r, Filter(byKey, q), RankRows(byKey, q), place)
  {
    var es := Filter(byKey, q);
    place := Order(KeysOf(es, q));
    OrderSorts(KeysOf(es, q));
    WeightOfQuery(cfg, byId, r);
    forall i, j | 0 <= i < j < |place|
      ensures || RankPrice(r, es, place[i]) < RankPrice(r, es, place[j])
              || (RankPrice(r, es, place[i]) == RankPrice(r, es, place[j]) && place[i] < place[j])
    {
      assert Before(KeysOf(es, q), place[i], place[j]);
      KeyIsRankPrice(r, q, es, place[i]);
      KeyIsRankPrice(r, q, es, place[j]);
    }
  }

  /** Proven rows: those with an agentic score that reaches the floor. */
  predicate Proven(r: Request, e: ModelEntry) {
    AgenticScore(e).Some? && AgenticScore(e).value >= r.reliabilityFloor
  }

  /** `-auto` sends agentic work to proven rows only, where there are any and a floor is set. */
  ghost predicate ProvenOnly(r: Request, ranked: seq<ModelEntry>) {
    ResolvePolicy(r.model) == Some(Auto) && Agentic(r) && r.reliabilityFloor > 0.0
    && exists e :: e in ranked && Proven(r, e)
  }

  lemma {:induction false} ReliableAreProven(es: seq<ModelEntry>, r: Request)
    ensures forall e :: e in Reliable(es, r.reliabilityFloor) <==> e in es && Proven(r, e)
  {
    if es != [] {
      ReliableAreProven(es[1..], r);
      assert es == [es[0]] + es[1..];
    }
  }

  lemma ReliableHead(es: seq<ModelEntry>, r: Request)
    requires es != []
    ensures Reliable(es, r.reliabilityFloor) ==
            (if Proven(r, es[0]) then [es[0]] else []) + Reliable(es[1..], r.reliabilityFloor)
  {
  }

  /** The rows `kept` stood at these places, in the same order. */
  ghost predicate Stood(es: seq<ModelEntry>, kept: seq<ModelEntry>, place: seq<nat>) {
    && |place| == |kept|
    && (forall i :: 0 <= i < |place| ==> place[i] < |es| && kept[i] == es[place[i]])
    && (forall i, j :: 0 <= i < j < |place| ==> place[i] < place[j])
  }

  lemma StoodBehind(es: seq<ModelEntry>, kept: seq<ModelEntry>, rest: seq<nat>, moved: seq<nat>)
    requires es != [] && Stood(es[1..], kept, rest)
    requires |moved| == |rest| && forall i :: 0 <= i < |rest| ==> moved[i] == rest[i] + 1
    ensures Stood(es, kept, moved)
  {
    forall i | 0 <= i < |moved| ensures moved[i] < |es| && kept[i] == es[moved[i]] {
      assert kept[i] == es[1..][rest[i]];
    }
  }

  lemma StoodInFront(es: seq<ModelEntry>, kept: seq<ModelEntry>, moved: seq<nat>)
    requires es != [] && Stood(es, kept, moved) && forall i :: 0 <= i < |moved| ==> moved[i] > 0
    ensures Stood(es, [es[0]] + kept, [0] + moved)
  {
    var all, place := [es[0]] + kept, [0] + moved;
    forall i | 0 <= i < |place| ensures place[i] < |es| && all[i] == es[place[i]] {
      if i > 0 { assert place[i] == moved[i - 1] && all[i] == kept[i - 1]; }
    }
    forall i, j | 0 <= i < j < |place| ensures place[i] < place[j] {
      assert place[j] == moved[j - 1];
      if i > 0 { assert place[i] == moved[i - 1]; }
    }
  }

  ghost predicate ProvenPlaces(es: seq<ModelEntry>, r: Request, place: seq<nat>) {
    && Stood(es, Reliable(es, r.reliabilityFloor), place)
    && (forall k :: 0 <= k < |es| ==> (k in place <==> Proven(r, es[k])))
  }

  lemma StoodStep(es: seq<ModelEntry>, kept: seq<ModelEntry>, rest: seq<nat>, first: bool, place: seq<nat>)
    requires es != [] && Stood(es[1..], kept, rest) && place == Shifted(rest, first)
    ensures Stood(es, if first then [es[0]] + kept else kept, place)
  {
    var moved := Shifted(rest, false);
    StoodBehind(es, kept, rest, moved);
    if first {
      StoodInFront(es, kept, moved);
      assert place == [0] + moved;
    }
  }

  lemma ProvenStep(es: seq<ModelEntry>, r: Request, rest: seq<nat>, place: seq<nat>)
    requires es != [] && forall k :: 0 <= k < |es[1..]| ==> (k in rest <==> Proven(r, es[1..][k]))
    requires place == Shifted(rest, Proven(r, es[0]))
    ensures forall k :: 0 <= k < |es| ==> (k in place <==> Proven(r, es[k]))
  {
    forall k | 0 <= k < |es| ensures k in place <==> Proven(r, es[k]) {
      ShiftedHolds(rest, Proven(r, es[0]), k);
      if k > 0 { assert es[1..][k - 1] == es[k]; }
    }
  }

  lemma ProvenPlacesStep(es: seq<ModelEntry>, r: Request, rest: seq<nat>, place: seq<nat>)
    requires es != [] && ProvenPlaces(es[1..], r, rest) && place == Shifted(rest, Proven(r, es[0]))
    ensures ProvenPlaces(es, r, place)
  {
    var kept := Reliable(es[1..], r.reliabilityFloor);
    ReliableHead(es, r);
    StoodStep(es, kept, rest, Proven(r, es[0]), place);
    ProvenStep(es, r, rest, place);
    assert [] + kept == kept;
  }

  /** Where each proven row stood: dropping the others changes no order. */
  lemma {:induction false} ReliablePlaces(es: seq<ModelEntry>, r: Request) returns (place: seq<nat>)
    ensures ProvenPlaces(es, r, place)
  {
    if es == [] {
      place := [];
    } else {
      var rest := ReliablePlaces(es[1..], r);
      place := Shifted(rest, Proven(r, es[0]));
      ProvenPlacesStep(es, r, rest, place);
    }
  }

  /** Places moved up by one, with the first place in front or not. */
  function Shifted(rest: seq<nat>, first: bool): (place: seq<nat>)
    ensures |place| == |rest| + if first then 1 else 0
    ensures first ==> place[0] == 0
    ensures forall i :: 0 <= i < |rest| ==> place[i + if first then 1 else 0] == rest[i] + 1
  {
    (if first then [0] else []) + seq(|rest|, i requires 0 <= i < |rest| => rest[i] + 1)
  }

  lemma ShiftedHolds(rest: seq<nat>, first: bool, k: nat)
    ensures k > 0 ==> (k in Shifted(rest, first) <==> k - 1 in rest)
    ensures 0 in Shifted(rest, first) <==> first
  {
    var place, d := Shifted(rest, first), if first then 1 else 0;
    if k > 0 && k in place {
      var i :| 0 <= i < |place| && place[i] == k;
      assert rest[i - d] == k - 1;
    }
    if k > 0 && k - 1 in rest {
      var i :| 0 <= i < |rest| && rest[i] == k - 1;
      assert place[i + d] == k;
    }
  }

  /** An agentic `-quality` route. */
  predicate StrengthCounts(r: Request) {
    ResolvePolicy(r.model) == Some(Quality) && Agentic(r)
  }

  /** What re-ranking does, case by case. */
  lemma RerankCases(r: Request, ranked: seq<ModelEntry>)
    ensures StrengthCounts(r) ==> !ProvenOnly(r, ranked) && Rerank(r, ranked) == ByCapability(ranked, r.category)
    ensures ProvenOnly(r, ranked) ==> Rerank(r, ranked) == Reliable(ranked, r.reliabilityFloor)
    ensures !StrengthCounts(r) && !ProvenOnly(r, ranked) ==> Rerank(r, ranked) == ranked
  {
    ReliableAreProven(ranked, r);
    if Reliable(ranked, r.reliabilityFloor) != [] {
      assert Reliable(ranked, r.reliabilityFloor)[0] in Reliable(ranked, r.reliabilityFloor);
    }
  }

  /** Re-ranking: strongest first, or some rows dropped and the order kept. */
  ghost predicate RerankedBy(r: Request, ranked: seq<ModelEntry>, final: seq<ModelEntry>, place: seq<nat>) {
    && |place| == |final|
    && (forall i :: 0 <= i < |place| ==> place[i] < |ranked| && final[i] == ranked[place[i]])
    && (forall k :: 0 <= k < |ranked| ==> (k in place <==> (ProvenOnly(r, ranked) ==> Proven(r, ranked[k]))))
    && (forall i, j :: 0 <= i < j < |place| ==>
          if StrengthCounts(r) then StrongerFirst(ranked, r.category, place[i], place[j]) else place[i] < place[j])
  }

  lemma RerankPlaces(r: Request, ranked: seq<ModelEntry>) returns (place: seq<nat>)
    ensures RerankedBy(r, ranked, Rerank(r, ranked), place)
  {
    var final := Rerank(r, ranked);
    RerankCases(r, ranked);
    if StrengthCounts(r) {
      place := StrongestFirst(ranked, r.category);
    } else if ProvenOnly(r, ranked) {
      place := ReliablePlaces(ranked, r);
      assert Stood(ranked, final, place);
    } else {
      place := seq(|ranked|, i requires 0 <= i < |ranked| => i);
      forall k | 0 <= k < |ranked| ensures k in place { assert place[k] == k; }
    }
  }

  // ----- The choice ---------------------------------------------------------------------------

  /** Candidate a is chosen before candidate b. */
  predicate ChosenBefore(r: Request, es: seq<ModelEntry>, a: nat, b: nat)
    requires a < |es| && b < |es|
  {
    if StrengthCounts(r) then StrongerFirst(es, r.category, a, b)
    else RankPrice(r, es, a) < RankPrice(r, es, b) || (RankPrice(r, es, a) == RankPrice(r, es, b) && a < b)
  }

  /** Without a pin: a model is chosen exactly when the exclusions leave a provider and some row may serve. */
  lemma ChoiceIff(cfg: ScoutConfig, byKey: seq<ModelEntry>, byId: seq<ModelEntry>, r: Request)
    requires !Pinned(r)
    ensures Choose(cfg, byKey, byId, r).Ok? <==>
            !NothingLeft(cfg, byId, r) && exists e :: e in byKey && MayServe(cfg, byId, r, e)
    ensures Choose(cfg, byKey, byId, r).Err? ==> Choose(cfg, byKey, byId, r).error == NoEligibleModel(r.category)
  {
    var q := QueryOf(cfg, byId, r);
    var ranked := RankRows(byKey, q);
    ExclusionsLeaveNothing(cfg, byId, r);
    RankIsStableSort(byKey, q);
    if ranked != [] {
      assert ranked[0] in ranked;
      AdmittedMayServe(cfg, byId, r, ranked[0]);
    }
    forall e | e in byKey && MayServe(cfg, byId, r, e) ensures e in ranked { AdmittedMayServe(cfg, byId, r, e); }
  }

  /** The candidates: the rows that may serve, in listing order. */
  lemma CandidatesMayServe(cfg: ScoutConfig, byKey: seq<ModelEntry>, byId: seq<ModelEntry>, r: Request)
    ensures forall e :: e in Filter(byKey, QueryOf(cfg, byId, r)) <==> e in byKey && MayServe(cfg, byId, r, e)
  {
    var q := QueryOf(cfg, byId, r);
    FilterKeepsAdmitted(byKey, q);
    forall e ensures e in Filter(byKey, q) <==> e in byKey && MayServe(cfg, byId, r, e) {
      AdmittedMayServe(cfg, byId, r, e);
    }
  }

  /** Ranked places behind re-ranked ones. */
  lemma Composed(r: Request, es: seq<ModelEntry>, ranked: seq<ModelEntry>, p: seq<nat>, a: nat, b: nat)
    requires RankedBy(r, es, ranked, p) && a < |p| && b < |p|
    requires if StrengthCounts(r) then StrongerFirst(ranked, r.category, a, b) else a < b
    ensures ChosenBefore(r, es, p[a], p[b])
  {
    if StrengthCounts(r) { assert !SpeedCounts(r); }
  }

  /** The decision for a list: its head, and the ids behind it. */
  predicate HeadOf(cfg: ScoutConfig, r: Request, d: Decision, final: seq<ModelEntry>) {
    && final != []
    && d.modelId == final[0].modelId && d.provider == final[0].provider
    && d.providerModelId == final[0].providerModelId && d.category == r.category
    && d.taskScore == (if r.category in final[0].taskScores then final[0].taskScores[r.category] else 0.0)
    && |d.fallbacks| == (if cfg.fallbackDepth < |final| - 1 then cfg.fallbackDepth else |final| - 1)
    && forall i :: 0 <= i < |d.fallbacks| ==> d.fallbacks[i] == final[i + 1].modelId
  }

  lemma DecisionIsHead(cfg: ScoutConfig, byKey: seq<ModelEntry>, byId: seq<ModelEntry>, r: Request)
    requires !Pinned(r) && Choose(cfg, byKey, byId, r).Ok?
    ensures HeadOf(cfg, r, Choose(cfg, byKey, byId, r).value, Rerank(r, RankRows(byKey, QueryOf(cfg, byId, r))))
  {
    RerankKeeps(r, RankRows(byKey, QueryOf(cfg, byId, r)));
  }

  /** `order` goes through the candidates `es` as the request asks: all of them, or only the proven ones where those are
      preferred. */
  ghost predicate ChoiceOrder(r: Request, es: seq<ModelEntry>, order: seq<nat>) {
    && (forall i :: 0 <= i < |order| ==> order[i] < |es|)
    && (forall i, j :: 0 <= i < j < |order| ==> ChosenBefore(r, es, order[i], order[j]))
    && (forall k :: 0 <= k < |es| ==> (k in order <==> (ProvenOnly(r, es) ==> Proven(r, es[k]))))
  }

  lemma CoversSome(p: seq<nat>, q: seq<nat>, order: seq<nat>, k: nat, a: nat)
    requires |order| == |q| && forall i :: 0 <= i < |q| ==> q[i] < |p| && order[i] == p[q[i]]
    requires a < |p| && p[a] == k && forall i, j :: 0 <= i < j < |p| ==> p[i] != p[j]
    ensures k in order <==> a in q
  {
    if a in q {
      var b :| 0 <= b < |q| && q[b] == a;
      assert order[b] == k;
    }
    if k in order {
      var b :| 0 <= b < |order| && order[b] == k;
      assert q[b] == a;
    }
  }

  lemma SameRows(r: Request, es: seq<ModelEntry>, ranked: seq<ModelEntry>, p: seq<nat>)
    requires RankedBy(r, es, ranked, p)
    ensures ProvenOnly(r, es) <==> ProvenOnly(r, ranked)
  {
    forall e ensures e in es <==> e in ranked {
      if e in es {
        var k :| 0 <= k < |es| && es[k] == e;
        assert k in p;
        var a :| 0 <= a < |p| && p[a] == k;
        assert ranked[a] == e;
      }
    }
  }

  lemma RankedThenReranked(r: Request, es: seq<ModelEntry>, ranked: seq<ModelEntry>, final: seq<ModelEntry>,
                           p: seq<nat>, place: seq<nat>) returns (order: seq<nat>)
    requires RankedBy(r, es, ranked, p) && RerankedBy(r, ranked, final, place)
    ensures ChoiceOrder(r, es, order)
    ensures |final| == |order| && forall i :: 0 <= i < |order| ==> final[i] == es[order[i]]
  {
    order := seq(|place|, i requires 0 <= i < |place| => p[place[i]]);
    forall i, j | 0 <= i < j < |order| ensures ChosenBefore(r, es, order[i], order[j]) {
      Composed(r, es, ranked, p, place[i], place[j]);
    }
    SameRows(r, es, ranked, p);
    forall k | 0 <= k < |es| ensures k in order <==> (ProvenOnly(r, es) ==> Proven(r, es[k])) {
      assert k in p;
      var a :| 0 <= a < |p| && p[a] == k;
      CoversSome(p, place, order, k, a);
    }
  }

  /** How the scout chooses: with the rows that may serve as candidates, the first of them in the request's order is
      chosen and the next ones, as many as allowed, are its fallbacks. */
  lemma ChoiceIsFirst(cfg: ScoutConfig, byKey: seq<ModelEntry>, byId: seq<ModelEntry>, r: Request)
    returns (es: seq<ModelEntry>, order: seq<nat>, final: seq<ModelEntry>)
    requires !Pinned(r) && Choose(cfg, byKey, byId, r).Ok?
    ensures forall e :: e in es <==> e in byKey && MayServe(cfg, byId, r, e)
    ensures ChoiceOrder(r, es, order)
    ensures |final| == |order| && forall i :: 0 <= i < |order| ==> final[i] == es[order[i]]
    ensures HeadOf(cfg, r, Choose(cfg, byKey, byId, r).value, final)
  {
    var q := QueryOf(cfg, byId, r);
    var ranked := RankRows(byKey, q);
    es, final := Filter(byKey, q), Rerank(r, ranked);
    CandidatesMayServe(cfg, byKey, byId, r);
    var p := RankedByPrice(cfg, byKey, byId, r, q);
    var place := RerankPlaces(r, ranked);
    order := RankedThenReranked(r, es, ranked, final, p, place);
    DecisionIsHead(cfg, byKey, byId, r);
  }

  /** An agentic `-quality` request is given the strongest row that may serve, and the cheapest of those. */
  lemma QualityChoosesStrongest(cfg: ScoutConfig, byKey: seq<ModelEntry>, byId: seq<ModelEntry>, r: Request)
    returns (e: ModelEntry)
    requires !Pinned(r) && Choose(cfg, byKey, byId, r).Ok? && StrengthCounts(r)
    ensures var d := Choose(cfg, byKey, byId, r).value; d.modelId == e.modelId && d.provider == e.provider
    ensures e in byKey && MayServe(cfg, byId, r, e)
    ensures forall x :: x in byKey && MayServe(cfg, byId, r, x) ==>
              || Strength(x, r.category) < Strength(e, r.category)
              || (Strength(x, r.category) == Strength(e, r.category) && Price(e) <= Price(x))
  {
    var es, order, final := ChoiceIsFirst(cfg, byKey, byId, r);
    e := final[0];
    assert e in es;
    forall x | x in byKey && MayServe(cfg, byId, r, x)
      ensures || Strength(x, r.category) < Strength(e, r.category)
              || (Strength(x, r.category) == Strength(e, r.category) && Price(e) <= Price(x))
    {
      var k :| 0 <= k < |es| && es[k] == x;
      assert k in order;
      var i :| 0 <= i < |order| && order[i] == k;
      if i > 0 { assert ChosenBefore(r, es, order[0], order[i]); }
    }
  }

  // ----- Pins ---------------------------------------------------------------------------------

  /** A pin decides alone: the first row of that id, whatever its provider, price or score, and no fallbacks; without
      such a row there is no choice. An empty pin is none. */
  lemma PinDecides(cfg: ScoutConfig, byKey: seq<ModelEntry>, byId: seq<ModelEntry>, r: Request, id: string)
    ensures var chosen, e := Choose(cfg, byKey, byId, r.(pin := Some(id))), Lookup(byId, id);
            && (id == "" ==> chosen == Choose(cfg, byKey, byId, r.(pin := None)))
            && (id != "" ==>
                  && (chosen.Ok? <==> exists x :: x in byId && x.modelId == id)
                  && (chosen.Err? ==> chosen.error == NoEligibleModel("pinned"))
                  && (chosen.Ok? ==>
                        && e.Some? && chosen.value.modelId == id && chosen.value.provider == e.value.provider
                        && chosen.value.providerModelId == e.value.providerModelId && chosen.value.fallbacks == []
                        && chosen.value.category == "pinned" && chosen.value.taskScore == 0.0))
  {
    if id == "" {
      var s, none := r.(pin := Some(id)), r.(pin := None);
      assert QueryOf(cfg, byId, s) == QueryOf(cfg, byId, none);
      var ranked := RankRows(byKey, QueryOf(cfg, byId, s));
      assert Rerank(s, ranked) == Rerank(none, ranked);
    }
  }

  // ----- Names --------------------------------------------------------------------------------

  /** The model asked for counts only through its policy. */
  lemma SamePolicySameChoice(cfg: ScoutConfig, byKey: seq<ModelEntry>, byId: seq<ModelEntry>, r: Request, s: Request)
    requires s == r.(model := s.model) && ResolvePolicy(r.model) == ResolvePolicy(s.model)
    ensures Choose(cfg, byKey, byId, r) == Choose(cfg, byKey, byId, s)
  {
    assert QueryOf(cfg, byId, r) == QueryOf(cfg, byId, s);
    var ranked := RankRows(byKey, QueryOf(cfg, byId, r));
    assert Rerank(r, ranked) == Rerank(s, ranked);
  }

  /** The three names clients use today. */
  const SAVER := "anthropic/modelmeld-saver"
  const AUTO := "anthropic/modelmeld-auto"
  const QUALITY := "anthropic/modelmeld-quality"

  /** The name an earlier one stands for; any other model stands for itself. */
  function CurrentName(model: string): string {
    if model == "anthropic/modelmeld-coding" || model == "anthropic/modelmeld-cheap" then SAVER
    else if model == "anthropic/modelmeld-balanced" || model == "anthropic/modelmeld-reasoning" then AUTO
    else if model == "anthropic/modelmeld-frontier-priority" then QUALITY
    else model
  }

  lemma CurrentNamePolicy(model: string)
    ensures ResolvePolicy(CurrentName(model)) == ResolvePolicy(model)
    ensures CurrentName(model) !in {SAVER, AUTO, QUALITY} ==> ResolvePolicy(model) == None
  {
  }

  /** Earlier names are decided like the current ones, and a model that is neither like no model at all. */
  lemma NamesDecideAlike(cfg: ScoutConfig, byKey: seq<ModelEntry>, byId: seq<ModelEntry>, r: Request)
    ensures Choose(cfg, byKey, byId, r) == Choose(cfg, byKey, byId, r.(model := CurrentName(r.model)))
    ensures CurrentName(r.model) !in {SAVER, AUTO, QUALITY} ==>
              Choose(cfg, byKey, byId, r) == Choose(cfg, byKey, byId, r.(model := ""))
  {
    CurrentNamePolicy(r.model);
    CurrentNamePolicy("");
    SamePolicySameChoice(cfg, byKey, byId, r, r.(model := CurrentName(r.model)));
    if CurrentName(r.model) !in {SAVER, AUTO, QUALITY} {
      SamePolicySameChoice(cfg, byKey, byId, r, r.(model := ""));
    }
  }

  /** What the three names promise of the provider, without pin and hint: open-weight providers for `-saver`, frontier
      ones for `-quality` outside autocomplete, and for `-auto` when it escalates and there are any. */
  lemma NamesPromiseProviders(cfg: ScoutConfig, byKey: seq<ModelEntry>, byId: seq<ModelEntry>, r: Request)
    requires !Pinned(r) && r.thresholdHint.None?
    ensures var chosen := Choose(cfg, byKey, byId, r);
            chosen.Ok? ==>
              var p := chosen.value.provider;
              && (r.model == SAVER ==> OpenWeight(p))
              && (r.model == QUALITY && !r.autocomplete ==> FrontierAtHand(p, r))
              && (r.model == AUTO && r.escalate ==>
                    FrontierAtHand(p, r) || !(FrontierAtHand("anthropic", r) || FrontierAtHand("openai", r)))
  {
    if Choose(cfg, byKey, byId, r).Ok? {
      var es, order, final := ChoiceIsFirst(cfg, byKey, byId, r);
      assert final[0] in es;
    }
  }

  // ----- Excluded providers --------------------------------------------------------------------

  lemma {:induction false} LongerThanAll(names: set<string>) returns (n: nat)
    ensures forall s :: s in names ==> |s| < n
    decreases |names|
  {
    n := 0;
    if names != {} {
      var s :| s in names;
      var m := LongerThanAll(names - {s});
      n := if |s| < m then m else |s| + 1;
      assert forall x :: x in names ==> x == s || x in names - {s};
    }
  }

  lemma OtherName(names: set<string>) returns (s: string)
    ensures s !in names
  {
    var n := LongerThanAll(names);
    s := seq(n, i => 'x');
  }

  /** A row of provider p that any request could be given. */
  function RowFor(cfg: ScoutConfig, r: Request, p: string): ModelEntry {
    ModelEntry("m", p, r.minContext, 1.0, 1.0, map[r.category := Threshold(cfg, r)], true, true, "", None, None)
  }

  lemma TwoRowTables(a: ModelEntry, b: ModelEntry)
    requires a.modelId != b.modelId
    ensures Table([a, b], true) == [a, b] && Table([a, b], false) == [a, b]
  {
    assert [a] + [b] == [a, b];
    forall byProvider ensures Table([a, b], byProvider) == [a, b] {
      TableOfOne(a, byProvider);
      TableSnoc([a], b, byProvider);
      AssignNew([a], b, byProvider);
    }
  }

  /** The policy's own provider set reaches past the exclusions. */
  ghost predicate ExclusionIsIgnored(cfg: ScoutConfig, r: Request) {
    && Replaces(r)
    && (exists p :: p in r.excluded && FrontierAtHand(p, r))
    && (cfg.eligible.Some? ==> exists p :: p in cfg.eligible.value && p !in r.excluded)
  }

  lemma IgnoredExclusion(cfg: ScoutConfig, r: Request, p: string) returns (entries: seq<ModelEntry>)
    requires !Pinned(r) && ExclusionIsIgnored(cfg, r) && p in r.excluded && FrontierAtHand(p, r)
    ensures var chosen := Choose(cfg, Table(entries, true), Table(entries, false), r);
            chosen.Ok? && chosen.value.provider == p
  {
    var other := OtherName(r.excluded);
    var row := RowFor(cfg, r, p);
    var off := row.(modelId := "n", provider := other, enabled := false);
    entries := [row, off];
    TwoRowTables(row, off);
    ThresholdIs(cfg, r, Threshold(cfg, r));
    assert row in entries && off in entries;
    assert MayServe(cfg, entries, r, row);
    assert !NothingLeft(cfg, entries, r);
    ChoiceIff(cfg, entries, entries, r);
    var es, order, final := ChoiceIsFirst(cfg, entries, entries, r);
    assert final[0] in es;
  }

  /** A provider the client excluded can be chosen after all, for some registry, exactly when the policy puts its own
      providers in place of the configured ones, an excluded one is among them, and the exclusions leave something of a
      configured set. */
  lemma ExcludedCanBeChosenIff(cfg: ScoutConfig, r: Request)
    requires !Pinned(r)
    ensures (exists entries :: var chosen := Choose(cfg, Table(entries, true), Table(entries, false), r);
                               chosen.Ok? && chosen.value.provider in r.excluded)
            <==> ExclusionIsIgnored(cfg, r)
  {
    if ExclusionIsIgnored(cfg, r) {
      var p :| p in r.excluded && FrontierAtHand(p, r);
      var entries := IgnoredExclusion(cfg, r, p);
    }
    forall entries | var chosen := Choose(cfg, Table(entries, true), Table(entries, false), r);
                     chosen.Ok? && chosen.value.provider in r.excluded
      ensures ExclusionIsIgnored(cfg, r)
    {
      var byKey, byId := Table(entries, true), Table(entries, false);
      var es, order, final := ChoiceIsFirst(cfg, byKey, byId, r);
      assert final[0] in es;
      ChoiceIff(cfg, byKey, byId, r);
    }
  }
}
