/** The SAVER ceiling: when a saver request can be served outside the OSS tier, over whole runs of failures. */
module SaverCeiling {
  import opened Wrappers
  import opened Registry
  import opened Scout
  import opened CapabilityRouting

  // ----- What can be handed out -------------------------------------------------------

  /** Fallback k resolves to a row whose provider has an adapter. */
  predicate UsableAt(s: Settings, extra: map<string, Adapter>, byId: seq<ModelEntry>, fs: seq<string>, k: int) {
    && 0 <= k < |fs|
    && var e := Lookup(byId, fs[k]); e.Some? && e.value.provider in Reachable(s, extra)
  }

  function ProviderAt(s: Settings, extra: map<string, Adapter>, byId: seq<ModelEntry>, fs: seq<string>, k: int): string
    requires UsableAt(s, extra, byId, fs, k)
  {
    Lookup(byId, fs[k]).value.provider
  }

  /** Fallback k leads outside the OSS tier. */
  predicate LeadsOut(s: Settings, extra: map<string, Adapter>, byId: seq<ModelEntry>, fs: seq<string>, k: int) {
    UsableAt(s, extra, byId, fs, k) && ProviderAt(s, extra, byId, fs, k) !in OSS
  }

  /** The chosen provider and every usable fallback are in the OSS tier. */
  ghost predicate Confined(s: Settings, extra: map<string, Adapter>, byId: seq<ModelEntry>, d: Decision) {
    d.provider in OSS && forall k :: !LeadsOut(s, extra, byId, d.fallbacks, k)
  }

  ghost predicate OssRouted(s: Settings, extra: map<string, Adapter>, byId: seq<ModelEntry>, r: Routed) {
    && r.provider in OSS
    && r.provider in Reachable(s, extra) && r.adapter == Reachable(s, extra)[r.provider]
    && (r.decision.Some? ==> Confined(s, extra, byId, r.decision.value))
  }

  lemma {:induction false} WalkStaysOss(s: Settings, extra: map<string, Adapter>, byId: seq<ModelEntry>, d: Decision,
                                        from: Option<string>, i: nat, cache: Cache, w: World)
    requires i <= |d.fallbacks| && Confined(s, extra, byId, d)
    ensures var out := Walk(s, extra, byId, d, from, i, cache, w);
            out.routed.Some? ==> OssRouted(s, extra, byId, out.routed.value)
    decreases |d.fallbacks| - i
  {
    if i < |d.fallbacks| {
      var entry := Lookup(byId, d.fallbacks[i]);
      WalkStaysOss(s, extra, byId, d, from, i + 1, cache, w);
      if entry.Some? && entry.value.provider in Reachable(s, extra) {
        var p := entry.value.provider;
        assert !LeadsOut(s, extra, byId, d.fallbacks, i);
        WalkStaysOss(s, extra, byId, d, from, i + 1, Check(s, cache, p, w, i + 2).1, w);
      }
    }
  }

  lemma ResolveStaysOss(s: Settings, extra: map<string, Adapter>, byId: seq<ModelEntry>, d: Decision,
                        from: Option<string>, cache: Cache, w: World)
    requires Confined(s, extra, byId, d)
    ensures var out := Resolve(s, extra, byId, d, from, cache, w);
            out.routed.Some? ==> OssRouted(s, extra, byId, out.routed.value)
  {
    WalkStaysOss(s, extra, byId, d, from, 0, cache, w);
    WalkStaysOss(s, extra, byId, d, from, 0, Check(s, cache, d.provider, w, 1).1, w);
  }

  lemma {:induction false} RunStaysOss(s: Settings, extra: map<string, Adapter>, byId: seq<ModelEntry>, c: Chase,
                                       calls: seq<Call>)
    requires c.visited != [] && forall r :: r in c.visited ==> OssRouted(s, extra, byId, r)
    ensures forall r :: r in Run(s, extra, byId, c, calls).visited ==> OssRouted(s, extra, byId, r)
    decreases |calls|
  {
    if calls != [] {
      var last := c.visited[|c.visited| - 1];
      assert last in c.visited && OssRouted(s, extra, byId, last);
      if calls[0].Fails? && !calls[0].permanent && last.decision.Some? {
        var w := calls[0].world;
        var marked := c.cache[last.adapter.name := Health(false, w.clock(0))];
        ResolveStaysOss(s, extra, byId, last.decision.value, Some(last.adapter.name), marked, w);
      }
      RunStaysOss(s, extra, byId, Step(s, extra, byId, c, calls[0]), calls[1..]);
    }
  }

  // ----- The ceiling a registry grants ------------------------------------------------------

  /** What the scout answers when the router asks it. */
  function Chosen(s: Settings, cfg: ScoutConfig, entries: seq<ModelEntry>, extra: map<string, Adapter>,
                  r: Request): Result<Decision, NoEligibleModel>
  {
    Choose(cfg, Table(entries, true), Table(entries, false), r.(availableFrontier := Some(AvailableFrontier(s, extra))))
  }

  predicate Saving(r: Request) {
    ResolvePolicy(r.model) == Some(Saver) && !Pinned(r) && r.thresholdHint == None
  }

  /** The decisions a routed request is given over some calls. */
  function Visits(s: Settings, extra: map<string, Adapter>, byId: seq<ModelEntry>, first: Outcome,
                  calls: seq<Call>): seq<Routed>
    requires first.routed.Some?
  {
    Run(s, extra, byId, Chase([first.routed.value], false, first.cache), calls).visited
  }

  ghost predicate Leaves(s: Settings, extra: map<string, Adapter>, byId: seq<ModelEntry>, first: Outcome,
                         calls: seq<Call>)
    requires first.routed.Some?
  {
    exists x :: x in Visits(s, extra, byId, first, calls) && x.provider !in OSS
  }

  lemma ConfinedNeverLeaves(s: Settings, extra: map<string, Adapter>, byId: seq<ModelEntry>, d: Decision, cache: Cache,
                            w: World, calls: seq<Call>)
    requires Confined(s, extra, byId, d)
    ensures var first := Resolve(s, extra, byId, d, None, cache, w);
            first.routed.Some? ==> !Leaves(s, extra, byId, first, calls)
  {
    var first := Resolve(s, extra, byId, d, None, cache, w);
    if first.routed.Some? {
      ResolveStaysOss(s, extra, byId, d, None, cache, w);
      RunStaysOss(s, extra, byId, Chase([first.routed.value], false, first.cache), calls);
      forall x | x in Visits(s, extra, byId, first, calls) ensures x.provider in OSS {
        assert OssRouted(s, extra, byId, x);
      }
    }
  }

  /** If every model with an OSS row is listed with an OSS row last, a SAVER request without pin or threshold hint is
      routed to OSS providers only, and failing over any number of times, with any health history, any settings and
      any other traffic, never leaves them. */
  lemma SaverNeverLeavesOss(s: Settings, cfg: ScoutConfig, entries: seq<ModelEntry>, extra: map<string, Adapter>,
                            r: Request, cache: Cache, w: World, calls: seq<Call>)
    requires Saving(r)
    ensures var byId := Table(entries, false);
            var first := RouteStep(s, cfg, Table(entries, true), byId, extra, r, cache, w);
            OssResolvesToOss(entries) && first.routed.Some? ==> !Leaves(s, extra, byId, first, calls)
  {
    var chosen := Chosen(s, cfg, entries, extra, r);
    if OssResolvesToOss(entries) && chosen.Ok? {
      SaverChoosesOss(cfg, entries, r.(availableFrontier := Some(AvailableFrontier(s, extra))));
      forall k ensures !LeadsOut(s, extra, Table(entries, false), chosen.value.fallbacks, k) {
        if UsableAt(s, extra, Table(entries, false), chosen.value.fallbacks, k) {
          assert chosen.value.fallbacks[k] in chosen.value.fallbacks;
        }
      }
      ConfinedNeverLeaves(s, extra, Table(entries, false), chosen.value, cache, w, calls);
    }
  }

  // ----- With health checks: any fallback outside the tier is reached ------------------------

  /** A time at which no record of the cache is fresh. */
  lemma {:induction false} LateEnough(cache: Cache, ttl: real) returns (t: real)
    ensures forall p :: p in cache ==> t - cache[p].at >= ttl
    decreases |cache|
  {
    if cache == map[] {
      t := 0.0;
    } else {
      var p :| p in cache;
      var rest := cache - {p};
      assert p !in rest && |rest.Keys| < |cache.Keys| by { assert rest.Keys == cache.Keys - {p}; }
      var u := LateEnough(rest, ttl);
      t := if u >= cache[p].at + ttl then u else cache[p].at + ttl;
      forall q | q in cache ensures t - cache[q].at >= ttl { assert q != p ==> q in rest; }
    }
  }

  /** What is still on record at time t speaks of OSS providers, and says they are down. */
  ghost predicate Quiet(s: Settings, cache: Cache, t: real) {
    forall p :: p in cache && t - cache[p].at < s.ttl ==> p in OSS && !cache[p].ok
  }

  /** A late hour at which exactly the providers outside the OSS tier answer. */
  function Outage(byId: seq<ModelEntry>, d: Decision, t: real): World {
    World((i: nat) => t,
          (i: nat) => 2 <= i < |d.fallbacks| + 2 &&
                      var e := Lookup(byId, d.fallbacks[i - 2]); e.Some? && e.value.provider !in OSS,
          (i: nat) => [])
  }

  lemma {:induction false} OutageWalksOut(s: Settings, extra: map<string, Adapter>, byId: seq<ModelEntry>, d: Decision,
                                          from: Option<string>, i: nat, cache: Cache, t: real, k: nat)
    requires s.skipUnhealthy && i <= k && Quiet(s, cache, t)
    requires LeadsOut(s, extra, byId, d.fallbacks, k) && Some(ProviderAt(s, extra, byId, d.fallbacks, k)) != from
    ensures var out := Walk(s, extra, byId, d, from, i, cache, Outage(byId, d, t));
            out.routed.Some? && out.routed.value.provider !in OSS
    decreases k - i
  {
    var w, entry := Outage(byId, d, t), Lookup(byId, d.fallbacks[i]);
    if entry.Some? && Some(entry.value.provider) != from && entry.value.provider in Reachable(s, extra) {
      var (ok, after) := Check(s, cache, entry.value.provider, w, i + 2);
      if !ok { OutageWalksOut(s, extra, byId, d, from, i + 1, after, t, k); }
    } else {
      OutageWalksOut(s, extra, byId, d, from, i + 1, cache, t, k);
    }
  }

  /** One failure in an outage of the OSS tier is enough to leave it. */
  lemma OutageLeaves(s: Settings, extra: map<string, Adapter>, byId: seq<ModelEntry>, failed: Routed, cache: Cache,
                     k: nat)
    returns (w: World)
    requires s.skipUnhealthy && failed.adapter.name in OSS && failed.decision.Some? &&
             failed.decision.value.provider in OSS
    requires LeadsOut(s, extra, byId, failed.decision.value.fallbacks, k)
    ensures var out := AfterFailure(s, extra, byId, failed, false, cache, w);
            out.routed.Some? && out.routed.value.provider !in OSS
  {
    var d, n := failed.decision.value, failed.adapter.name;
    var t := LateEnough(cache, s.ttl);
    w := Outage(byId, d, t);
    var marked := cache[n := Health(false, t)];
    assert Quiet(s, marked, t);
    OutageWalksOut(s, extra, byId, d, Some(n), 0, marked, t, k);
    var (ok, after) := Check(s, marked, d.provider, w, 1);
    assert !ok && Quiet(s, after, t);
    OutageWalksOut(s, extra, byId, d, Some(n), 0, after, t, k);
  }

  /** Where a routed decision stands: its adapter, its fallbacks, and its provider. */
  ghost predicate RoutedFrom(s: Settings, extra: map<string, Adapter>, d: Decision, x: Routed) {
    && x.provider in Reachable(s, extra) && x.adapter == Reachable(s, extra)[x.provider]
    && x.decision.Some? && x.decision.value.fallbacks == d.fallbacks
    && x.decision.value.provider in {d.provider, x.provider}
  }

  lemma {:induction false} WalkIsRoutedFrom(s: Settings, extra: map<string, Adapter>, byId: seq<ModelEntry>,
                                            d: Decision, from: Option<string>, i: nat, cache: Cache, w: World)
    requires i <= |d.fallbacks|
    ensures var out := Walk(s, extra, byId, d, from, i, cache, w);
            out.routed.Some? ==> RoutedFrom(s, extra, d, out.routed.value)
    decreases |d.fallbacks| - i
  {
    if i < |d.fallbacks| {
      var entry := Lookup(byId, d.fallbacks[i]);
      WalkIsRoutedFrom(s, extra, byId, d, from, i + 1, cache, w);
      if entry.Some? {
        WalkIsRoutedFrom(s, extra, byId, d, from, i + 1, Check(s, cache, entry.value.provider, w, i + 2).1, w);
      }
    }
  }

  lemma ResolveIsRoutedFrom(s: Settings, extra: map<string, Adapter>, byId: seq<ModelEntry>, d: Decision,
                            from: Option<string>, cache: Cache, w: World)
    ensures var out := Resolve(s, extra, byId, d, from, cache, w);
            out.routed.Some? ==> RoutedFrom(s, extra, d, out.routed.value)
  {
    WalkIsRoutedFrom(s, extra, byId, d, from, 0, cache, w);
    WalkIsRoutedFrom(s, extra, byId, d, from, 0, Check(s, cache, d.provider, w, 1).1, w);
  }

  lemma OneFailureVisits(s: Settings, extra: map<string, Adapter>, byId: seq<ModelEntry>, first: Outcome, w: World)
    requires first.routed.Some?
    ensures var next := AfterFailure(s, extra, byId, first.routed.value, false, first.cache, w);
            next.routed.Some? ==> next.routed.value in Visits(s, extra, byId, first, [Fails(false, w)])
  {
    var calls := [Fails(false, w)];
    var start := Chase([first.routed.value], false, first.cache);
    assert calls[1..] == [];
    assert Run(s, extra, byId, start, calls) == Step(s, extra, byId, start, calls[0]);
  }

  lemma HealthCheckedIff(s: Settings, extra: map<string, Adapter>, byId: seq<ModelEntry>, d: Decision, cache: Cache,
                         w: World)
    requires s.skipUnhealthy && Named(Reachable(s, extra)) && d.provider in OSS
    requires Resolve(s, extra, byId, d, None, cache, w).routed.Some?
    ensures var first := Resolve(s, extra, byId, d, None, cache, w);
            (exists calls :: Leaves(s, extra, byId, first, calls)) <==>
              exists k :: LeadsOut(s, extra, byId, d.fallbacks, k)
  {
    var first := Resolve(s, extra, byId, d, None, cache, w);
    if k :| LeadsOut(s, extra, byId, d.fallbacks, k) {
      var x := first.routed.value;
      ResolveIsRoutedFrom(s, extra, byId, d, None, cache, w);
      if x.provider in OSS {
        assert LeadsOut(s, extra, byId, x.decision.value.fallbacks, k);
        var o := OutageLeaves(s, extra, byId, x, first.cache, k);
        OneFailureVisits(s, extra, byId, first, o);
        assert Leaves(s, extra, byId, first, [Fails(false, o)]);
      } else {
        assert x in Visits(s, extra, byId, first, []);
        assert Leaves(s, extra, byId, first, []);
      }
    } else {
      forall calls ensures !Leaves(s, extra, byId, first, calls) {
        ConfinedNeverLeaves(s, extra, byId, d, cache, w, calls);
      }
    }
  }

  // ----- Without health checks: only the first two providers count -------------------------------

  /** The first usable fallback from position i on whose provider is not the one to avoid. */
  function Stop(s: Settings, extra: map<string, Adapter>, byId: seq<ModelEntry>, fs: seq<string>, avoid: Option<string>,
                i: nat): (k: nat)
    requires i <= |fs|
    ensures i <= k <= |fs|
    ensures k < |fs| ==> UsableAt(s, extra, byId, fs, k) && Some(ProviderAt(s, extra, byId, fs, k)) != avoid
    ensures forall j :: i <= j < k && UsableAt(s, extra, byId, fs, j) ==>
            Some(ProviderAt(s, extra, byId, fs, j)) == avoid
    decreases |fs| - i
  {
    if i == |fs| || (UsableAt(s, extra, byId, fs, i) && Some(ProviderAt(s, extra, byId, fs, i)) != avoid) then i
    else Stop(s, extra, byId, fs, avoid, i + 1)
  }

  /** A failing request meets at most two fallback providers: the first usable one and the next different one. The
      second is out of reach when the first serves the chosen model's own id beside a configured chosen provider,
      because the request then goes back to the chosen provider. */
  predicate FirstTwoLeadOut(s: Settings, extra: map<string, Adapter>, byId: seq<ModelEntry>, d: Decision) {
    var a := Stop(s, extra, byId, d.fallbacks, None, 0);
    a < |d.fallbacks| &&
    var p := ProviderAt(s, extra, byId, d.fallbacks, a);
    (p !in OSS ||
     (LeadsOut(s, extra, byId, d.fallbacks, Stop(s, extra, byId, d.fallbacks, Some(p), 0)) &&
      !GoesBack(s, extra, d, p, a)))
  }

  predicate GoesBack(s: Settings, extra: map<string, Adapter>, d: Decision, p: string, a: nat)
    requires a < |d.fallbacks|
  {
    d.provider != p && d.provider in Reachable(s, extra) && d.fallbacks[a] == d.modelId
  }

  lemma {:induction false} WalkStops(s: Settings, extra: map<string, Adapter>, byId: seq<ModelEntry>, d: Decision,
                                     from: Option<string>, i: nat, cache: Cache, w: World)
    requires !s.skipUnhealthy && i <= |d.fallbacks|
    ensures var k := Stop(s, extra, byId, d.fallbacks, from, i);
            Walk(s, extra, byId, d, from, i, cache, w) ==
            if k == |d.fallbacks| then Outcome(None, cache)
            else
              var e := Lookup(byId, d.fallbacks[k]);
              Outcome(Some(Build(d, Reachable(s, extra)[e.value.provider], d.fallbacks[k], e.value.provider, e)), cache)
    decreases |d.fallbacks| - i
  {
    if i < |d.fallbacks| &&
       !(UsableAt(s, extra, byId, d.fallbacks, i) && Some(ProviderAt(s, extra, byId, d.fallbacks, i)) != from) {
      WalkStops(s, extra, byId, d, from, i + 1, cache, w);
    }
  }

  /** Without health checks, what the next failure of a decision leads to, whatever the cache and the world. */
  lemma UncheckedFailure(s: Settings, extra: map<string, Adapter>, byId: seq<ModelEntry>, x: Routed, cache: Cache,
                         w: World)
    requires !s.skipUnhealthy && Named(Reachable(s, extra)) && x.decision.Some?
    requires x.provider in Reachable(s, extra) && x.adapter == Reachable(s, extra)[x.provider]
    ensures var e := x.decision.value;
            var out, k := AfterFailure(s, extra, byId, x, false, cache, w).routed,
                Stop(s, extra, byId, e.fallbacks, Some(x.provider), 0);
            if e.provider != x.provider && e.provider in Reachable(s, extra) then
              out == Some(Build(e, Reachable(s, extra)[e.provider], e.modelId, e.provider, None))
            else if k == |e.fallbacks| then out == None
            else
              var p := ProviderAt(s, extra, byId, e.fallbacks, k);
              out == Some(Build(e, Reachable(s, extra)[p], e.fallbacks[k], p, Lookup(byId, e.fallbacks[k])))
  {
    var marked := cache[x.adapter.name := Health(false, w.clock(0))];
    WalkStops(s, extra, byId, x.decision.value, Some(x.provider), 0, marked, w);
  }

  /** Where an unchecked request can be while it stays in the tier. */
  ghost predicate Homely(s: Settings, extra: map<string, Adapter>, byId: seq<ModelEntry>, d: Decision, x: Routed) {
    && x.provider in OSS && x.provider in Reachable(s, extra) && x.adapter == Reachable(s, extra)[x.provider]
    && x.decision.Some? && x.decision.value.fallbacks == d.fallbacks && x.decision.value.provider in OSS
    && var a := Stop(s, extra, byId, d.fallbacks, None, 0);
       (a < |d.fallbacks| && GoesBack(s, extra, d, ProviderAt(s, extra, byId, d.fallbacks, a), a) ==>
          x.decision.value == d && x.provider in {d.provider, ProviderAt(s, extra, byId, d.fallbacks, a)})
  }

  lemma UncheckedFailureStays(s: Settings, extra: map<string, Adapter>, byId: seq<ModelEntry>, d: Decision, x: Routed,
                              cache: Cache, w: World)
    requires !s.skipUnhealthy && Named(Reachable(s, extra)) && d.provider in OSS
    requires !FirstTwoLeadOut(s, extra, byId, d) && Homely(s, extra, byId, d, x)
    ensures var out := AfterFailure(s, extra, byId, x, false, cache, w).routed;
            out.Some? ==> Homely(s, extra, byId, d, out.value)
  {
    UncheckedFailure(s, extra, byId, x, cache, w);
  }

  lemma UncheckedStart(s: Settings, extra: map<string, Adapter>, byId: seq<ModelEntry>, d: Decision, cache: Cache,
                       w: World)
    requires !s.skipUnhealthy && d.provider in OSS && !FirstTwoLeadOut(s, extra, byId, d)
    ensures var out := Resolve(s, extra, byId, d, None, cache, w).routed;
            out.Some? ==> Homely(s, extra, byId, d, out.value)
  {
    WalkStops(s, extra, byId, d, None, 0, cache, w);
  }

  lemma {:induction false} UncheckedRunStays(s: Settings, extra: map<string, Adapter>, byId: seq<ModelEntry>,
                                             d: Decision, c: Chase, calls: seq<Call>)
    requires !s.skipUnhealthy && Named(Reachable(s, extra)) && d.provider in OSS && !FirstTwoLeadOut(s, extra, byId, d)
    requires c.visited != [] && forall x :: x in c.visited ==> Homely(s, extra, byId, d, x)
    ensures forall x :: x in Run(s, extra, byId, c, calls).visited ==> Homely(s, extra, byId, d, x)
    decreases |calls|
  {
    if calls != [] {
      var last := c.visited[|c.visited| - 1];
      if calls[0].Fails? && !calls[0].permanent {
        assert last in c.visited;
        UncheckedFailureStays(s, extra, byId, d, last, c.cache, calls[0].world);
      }
      UncheckedRunStays(s, extra, byId, d, Step(s, extra, byId, c, calls[0]), calls[1..]);
    }
  }

  lemma TwoFailuresVisit(s: Settings, extra: map<string, Adapter>, byId: seq<ModelEntry>, first: Outcome, w: World)
    requires first.routed.Some?
    ensures var next := AfterFailure(s, extra, byId, first.routed.value, false, first.cache, w);
            next.routed.Some? ==>
              var third := AfterFailure(s, extra, byId, next.routed.value, false, next.cache, w);
              third.routed.Some? ==>
                third.routed.value in Visits(s, extra, byId, first, [Fails(false, w), Fails(false, w)])
  {
    RunTwo(s, extra, byId, Chase([first.routed.value], false, first.cache), Fails(false, w), Fails(false, w));
  }

  /** The chosen provider serves first, the first fallback provider is another one: it is met next, and unless the
      request goes back, the second fallback provider after it. */
  lemma LeavesFromChosen(s: Settings, extra: map<string, Adapter>, byId: seq<ModelEntry>, d: Decision, x: Routed,
                         cache: Cache, w: World)
    requires !s.skipUnhealthy && Named(Reachable(s, extra)) && d.provider in OSS && FirstTwoLeadOut(s, extra, byId, d)
    requires x.provider == d.provider && x.decision == Some(d) && d.provider in Reachable(s, extra)
    requires x.adapter == Reachable(s, extra)[x.provider]
    ensures var next := AfterFailure(s, extra, byId, x, false, cache, w);
            && next.routed.Some?
            && (next.routed.value.provider in OSS ==>
                  var third := AfterFailure(s, extra, byId, next.routed.value, false, next.cache, w).routed;
                  third.Some? && third.value.provider !in OSS)
  {
    var fs := d.fallbacks;
    var a := Stop(s, extra, byId, fs, None, 0);
    var p := ProviderAt(s, extra, byId, fs, a);
    var next := AfterFailure(s, extra, byId, x, false, cache, w);
    UncheckedFailure(s, extra, byId, x, cache, w);
    if p != d.provider {
      assert Stop(s, extra, byId, fs, Some(d.provider), 0) == a;
      assert next.routed == Some(Build(d, Reachable(s, extra)[p], fs[a], p, Lookup(byId, fs[a])));
      UncheckedFailure(s, extra, byId, next.routed.value, next.cache, w);
    }
  }

  /** The chosen provider has no adapter: the first fallback provider serves first, the second one next. */
  lemma LeavesFromFallback(s: Settings, extra: map<string, Adapter>, byId: seq<ModelEntry>, d: Decision, x: Routed,
                           cache: Cache, w: World)
    requires !s.skipUnhealthy && Named(Reachable(s, extra)) && d.provider !in Reachable(s, extra) &&
             FirstTwoLeadOut(s, extra, byId, d)
    requires x == Resolve(s, extra, byId, d, None, cache, w).routed.GetOr(x) &&
             Resolve(s, extra, byId, d, None, cache, w).routed.Some?
    requires x.provider in OSS
    ensures var next := AfterFailure(s, extra, byId, x, false, cache, w).routed;
            next.Some? && next.value.provider !in OSS
  {
    WalkStops(s, extra, byId, d, None, 0, cache, w);
    UncheckedFailure(s, extra, byId, x, cache, w);
  }

  /** Without health checks two failures tell: if the first two fallback providers lead out, they are reached. */
  lemma UncheckedLeaves(s: Settings, extra: map<string, Adapter>, byId: seq<ModelEntry>, d: Decision, cache: Cache,
                        w: World)
    requires !s.skipUnhealthy && Named(Reachable(s, extra)) && d.provider in OSS && FirstTwoLeadOut(s, extra, byId, d)
    requires Resolve(s, extra, byId, d, None, cache, w).routed.Some?
    ensures exists calls :: Leaves(s, extra, byId, Resolve(s, extra, byId, d, None, cache, w), calls)
  {
    var first := Resolve(s, extra, byId, d, None, cache, w);
    var x := first.routed.value;
    assert first.cache == cache by { WalkStops(s, extra, byId, d, None, 0, cache, w); }
    if x.provider !in OSS {
      assert x in Visits(s, extra, byId, first, []);
      assert Leaves(s, extra, byId, first, []);
    } else {
      var next := AfterFailure(s, extra, byId, x, false, cache, w);
      OneFailureVisits(s, extra, byId, first, w);
      TwoFailuresVisit(s, extra, byId, first, w);
      if d.provider in Reachable(s, extra) {
        LeavesFromChosen(s, extra, byId, d, x, cache, w);
      } else {
        LeavesFromFallback(s, extra, byId, d, x, cache, w);
      }
      if next.routed.value.provider !in OSS {
        assert Leaves(s, extra, byId, first, [Fails(false, w)]);
      } else {
        assert Leaves(s, extra, byId, first, [Fails(false, w), Fails(false, w)]);
      }
    }
  }

  lemma UncheckedIff(s: Settings, extra: map<string, Adapter>, byId: seq<ModelEntry>, d: Decision, cache: Cache,
                     w: World)
    requires !s.skipUnhealthy && Named(Reachable(s, extra)) && d.provider in OSS
    requires Resolve(s, extra, byId, d, None, cache, w).routed.Some?
    ensures var first := Resolve(s, extra, byId, d, None, cache, w);
            (exists calls :: Leaves(s, extra, byId, first, calls)) <==> FirstTwoLeadOut(s, extra, byId, d)
  {
    var first := Resolve(s, extra, byId, d, None, cache, w);
    if FirstTwoLeadOut(s, extra, byId, d) {
      UncheckedLeaves(s, extra, byId, d, cache, w);
    } else {
      UncheckedStart(s, extra, byId, d, cache, w);
      forall calls ensures !Leaves(s, extra, byId, first, calls) {
        UncheckedRunStays(s, extra, byId, d, Chase([first.routed.value], false, first.cache), calls);
        forall x | x in Visits(s, extra, byId, first, calls) ensures x.provider in OSS {
          assert Homely(s, extra, byId, d, x);
        }
      }
    }
  }

  // ----- The exact ceiling -------------------------------------------------------------------------

  /** Whether a saver request's choice has a way out of the tier: any usable fallback that leads out, or, without
      health checks, one of the first two. */
  ghost predicate HasWayOut(s: Settings, extra: map<string, Adapter>, byId: seq<ModelEntry>, d: Decision) {
    if s.skipUnhealthy then exists k :: LeadsOut(s, extra, byId, d.fallbacks, k) else FirstTwoLeadOut(s, extra, byId, d)
  }

  /** The SAVER promise holds exactly where it can be kept: for every registry, health history and first decision,
      some chain of calls takes the request outside the OSS tier if and only if its choice has a way out. */
  lemma SaverCeilingIff(s: Settings, cfg: ScoutConfig, entries: seq<ModelEntry>, extra: map<string, Adapter>,
                        r: Request, cache: Cache, w: World)
    requires Saving(r) && Named(Reachable(s, extra))
    ensures var byId := Table(entries, false);
            var first, chosen := RouteStep(s, cfg, Table(entries, true), byId, extra, r, cache, w),
                Chosen(s, cfg, entries, extra, r);
            first.routed.Some? ==>
              chosen.Ok? && ((exists calls :: Leaves(s, extra, byId, first, calls)) <==>
                             HasWayOut(s, extra, byId, chosen.value))
  {
    var byId, chosen := Table(entries, false), Chosen(s, cfg, entries, extra, r);
    if RouteStep(s, cfg, Table(entries, true), byId, extra, r, cache, w).routed.Some? {
      SaverChoosesOss(cfg, entries, r.(availableFrontier := Some(AvailableFrontier(s, extra))));
      if s.skipUnhealthy {
        HealthCheckedIff(s, extra, byId, chosen.value, cache, w);
      } else {
        UncheckedIff(s, extra, byId, chosen.value, cache, w);
      }
    }
  }

  // ----- A way out, concretely ----------------------------------------------------------------------

  const MODEL_X := ModelEntry("x", "fireworks", 1000, 1.0, 1.0, map["coding" := 1.0], true, true, "", None, None)
  const MODEL_M := ModelEntry("m", "together", 1000, 2.0, 2.0, map["coding" := 1.0], true, true, "", None, None)
  const FRONTIER_M := MODEL_M.(provider := "openai")

  const LISTING := [MODEL_X, MODEL_M, FRONTIER_M]
  const SAVER_REQUEST := Request("anthropic/modelmeld-saver", None, "coding", None, {}, false, false, false,
                                 0, None, 0.0)
  const SCOUT := ScoutConfig(0.5, None, 5)

  /** All three providers have an adapter. */
  const ADAPTERS: map<string, Adapter> :=
    map["fireworks" := Adapter("fireworks"), "together" := Adapter("together"), "openai" := Adapter("openai")]

  lemma ListingTables()
    ensures Table(LISTING, true) == LISTING && Table(LISTING, false) == [MODEL_X, FRONTIER_M]
  {
    var one, two := [MODEL_X], [MODEL_X, MODEL_M];
    assert one + [MODEL_M] == two && two + [FRONTIER_M] == LISTING && one + [FRONTIER_M] == [MODEL_X, FRONTIER_M];
    forall b ensures Table(two, b) == two {
      TableOfOne(MODEL_X, b);
      TableSnoc(one, MODEL_M, b);
      AssignNew(one, MODEL_M, b);
    }
    TableSnoc(two, FRONTIER_M, true);
    TableSnoc(two, FRONTIER_M, false);
    AssignNew(two, FRONTIER_M, true);
    AssignLast(one, MODEL_M, FRONTIER_M, false);
  }

  lemma ListingRanked(q: Query)
    requires q == QueryOf(SCOUT, [MODEL_X, FRONTIER_M], SAVER_REQUEST.(availableFrontier := Some({"openai"})))
    ensures RankRows(LISTING, q) == [MODEL_X, MODEL_M]
  {
    var es := [MODEL_X, MODEL_M];
    assert q.eligible == Some(OSS) && q.latencyWeight == 0.0 && q.threshold == 0.5 && q.task == "coding";
    assert LISTING[..2] == es && es[..1] == [MODEL_X] && es[..1][..0] == [];
    assert Filter([MODEL_X], q) == [MODEL_X];
    assert Filter(es, q) == es;
    assert Filter(LISTING, q) == es;
    OrderOfTwo(Costs(es));
    assert KeysOf(es, q) == Costs(es);
  }

  const GATEWAY := Settings(ADAPTERS, true, 30.0)

  /** Every adapter answers, and no time passes. */
  const HEALTHY := World((i: nat) => 0.0, (i: nat) => true, (i: nat) => [])

  const CHOSEN_X := Decision("x", "fireworks", "coding", 1.0, ["m"], "")

  lemma ListingChoice()
    ensures Saving(SAVER_REQUEST) && Chosen(GATEWAY, SCOUT, LISTING, map[], SAVER_REQUEST) == Ok(CHOSEN_X)
  {
    var asked := SAVER_REQUEST.(availableFrontier := Some({"openai"}));
    assert AvailableFrontier(GATEWAY, map[]) == {"openai"};
    ListingTables();
    var q := QueryOf(SCOUT, [MODEL_X, FRONTIER_M], asked);
    ListingRanked(q);
    var ranked := [MODEL_X, MODEL_M];
    assert Rerank(asked, ranked) == ranked;
    assert Ids(ranked[1..2]) == ["m"];
    assert Decide(SCOUT, asked, ranked) == CHOSEN_X;
  }

  lemma ListingReach()
    ensures Reachable(GATEWAY, map[]) == ADAPTERS && Named(ADAPTERS)
    ensures Lookup([MODEL_X, FRONTIER_M], "m") == Some(FRONTIER_M)
  {
    assert [MODEL_X, FRONTIER_M][1..] == [FRONTIER_M];
  }

  /** A chosen provider that answers serves, and when it fails, its only fallback does if it answers. */
  lemma ChosenThenFallback(s: Settings, byId: seq<ModelEntry>, d: Decision, f: string, e: ModelEntry, w: World)
    requires d.fallbacks == [f] && Lookup(byId, f) == Some(e) && e.provider != d.provider
    requires Named(Reachable(s, map[])) && d.provider in Reachable(s, map[]) && e.provider in Reachable(s, map[])
    requires forall i :: w.probe(i) && w.meanwhile(i) == []
    ensures var first := Resolve(s, map[], byId, d, None, map[], w);
            && first.routed == Some(Build(d, Reachable(s, map[])[d.provider], d.modelId, d.provider, None))
            && var next := AfterFailure(s, map[], byId, first.routed.value, false, first.cache, w);
               next.routed.Some? && next.routed.value.provider == e.provider
  {
    var first := Resolve(s, map[], byId, d, None, map[], w);
    assert first.cache.Keys <= {d.provider};
  }

  lemma ListingWorld()
    ensures forall i :: HEALTHY.probe(i) && HEALTHY.meanwhile(i) == []
    ensures "fireworks" in ADAPTERS && "openai" in ADAPTERS && "fireworks" in OSS && "openai" !in OSS
  {
  }

  /** A choice with one fallback that resolves outside the tier: if every adapter answers, one failure leaves. */
  lemma OneFallbackOut(s: Settings, cfg: ScoutConfig, entries: seq<ModelEntry>, r: Request, d: Decision, f: string,
                       e: ModelEntry, w: World)
    requires Chosen(s, cfg, entries, map[], r) == Ok(d) && d.provider in OSS
    requires d.fallbacks == [f] && Lookup(Table(entries, false), f) == Some(e) && e.provider !in OSS
    requires Named(Reachable(s, map[])) && d.provider in Reachable(s, map[]) && e.provider in Reachable(s, map[])
    requires forall i :: w.probe(i) && w.meanwhile(i) == []
    ensures var byId := Table(entries, false);
            var first := RouteStep(s, cfg, Table(entries, true), byId, map[], r, map[], w);
            first.routed.Some? && first.routed.value.provider == d.provider &&
              Leaves(s, map[], byId, first, [Fails(false, w)])
  {
    var byId := Table(entries, false);
    var first := Resolve(s, map[], byId, d, None, map[], w);
    ChosenThenFallback(s, byId, d, f, e, w);
    OneFailureVisits(s, map[], byId, first, w);
  }

  /** The ceiling can break: x on fireworks, m on together and, listed last, on openai; one failure of x takes a
      saver request to openai. */
  lemma OneFailureLeavesTier()
    ensures var byId := Table(LISTING, false);
            var first := RouteStep(GATEWAY, SCOUT, Table(LISTING, true), byId, map[], SAVER_REQUEST, map[], HEALTHY);
            && Saving(SAVER_REQUEST) && first.routed.Some? && first.routed.value.provider == "fireworks"
            && Leaves(GATEWAY, map[], byId, first, [Fails(false, HEALTHY)])
  {
    ListingTables();
    ListingChoice();
    ListingReach();
    ListingWorld();
    OneFallbackOut(GATEWAY, SCOUT, LISTING, SAVER_REQUEST, CHOSEN_X, "m", FRONTIER_M, HEALTHY);
  }

  // ----- With a threshold hint there is no ceiling ------------------------------------------------

  /** A saver request with a threshold hint is decided like the same request for a model without policy. */
  lemma HintSwitchesCeilingOff(cfg: ScoutConfig, byKey: seq<ModelEntry>, byId: seq<ModelEntry>, r: Request,
                               model: string)
    requires ResolvePolicy(r.model) == Some(Saver) && r.thresholdHint.Some? && ResolvePolicy(model) == None
    ensures Choose(cfg, byKey, byId, r) == Choose(cfg, byKey, byId, r.(model := model))
  {
    var q, other := QueryOf(cfg, byId, r), QueryOf(cfg, byId, r.(model := model));
    assert q == other;
    assert Rerank(r, RankRows(byKey, q)) == Rerank(r.(model := model), RankRows(byKey, q));
  }

  lemma OnlyRowRanked(e: ModelEntry, q: Query)
    ensures RankRows([e], q) == if Admitted(e, q) then [e] else []
  {
    RankIsStableSort([e], q);
    assert Filter([e][..0], q) == [];
    assert |RankRows([e], q)| == |Filter([e], q)|;
    if Admitted(e, q) { assert RankRows([e], q)[0] in RankRows([e], q); }
  }

  /** With one row outside the tier, a saver request is refused, but with a hint the row's score meets it is sent there
      at once. */
  lemma HintedSaverGetsFrontier(hint: real)
    requires hint <= 1.0
    ensures var table, hinted := Table([FRONTIER_M], true), SAVER_REQUEST.(thresholdHint := Some(hint));
            var plain := RouteStep(GATEWAY, SCOUT, table, Table([FRONTIER_M], false), map[], SAVER_REQUEST,
                                   map[], HEALTHY);
            var first := RouteStep(GATEWAY, SCOUT, table, Table([FRONTIER_M], false), map[], hinted, map[], HEALTHY);
            && ResolvePolicy(hinted.model) == Some(Saver) && plain.routed.None?
            && first.routed.Some? && first.routed.value.provider == "openai"
  {
    var hinted := SAVER_REQUEST.(thresholdHint := Some(hint));
    HintedChoice(SAVER_REQUEST, None);
    HintedChoice(hinted, Some(hint));
    ListingReach();
    ListingWorld();
  }

  lemma HintedChoice(r: Request, hint: Option<real>)
    requires r == SAVER_REQUEST.(thresholdHint := hint) && (hint.Some? ==> hint.value <= 1.0)
    ensures var chosen := Chosen(GATEWAY, SCOUT, [FRONTIER_M], map[], r);
            if hint.None? then chosen.Err? else chosen.Ok? && chosen.value.provider == "openai"
  {
    var asked := r.(availableFrontier := Some(AvailableFrontier(GATEWAY, map[])));
    TableOfOne(FRONTIER_M, true);
    TableOfOne(FRONTIER_M, false);
    OnlyRowRanked(FRONTIER_M, QueryOf(SCOUT, [FRONTIER_M], asked));
  }
}
