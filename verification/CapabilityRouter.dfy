/** Dispatch to an adapter: health cache, fallbacks, and failover after errors. */
module CapabilityRouting {
  import opened Wrappers
  import opened Registry
  import opened Scout
  import ScoutChoice

  datatype Adapter = Adapter(name: string)

  datatype Health = Health(ok: bool, at: real)

  type Cache = map<string, Health>

  datatype Settings = Settings(adapters: map<string, Adapter>, skipUnhealthy: bool, ttl: real)

  /** A health record written by another request: the late answer of a probe, or the mark of a failure. */
  datatype Write = Write(provider: string, ok: bool, at: real)

  /** What one call meets outside, reading by reading: the clock, the adapter's own answer, and what other requests
      write while the call waits for that answer. */
  datatype World = World(clock: nat -> real, probe: nat -> bool, meanwhile: nat -> seq<Write>)

  /** `provider` is the one the adapter was found under. */
  datatype Routed = Routed(
    local: bool, provider: string, adapter: Adapter, modelId: string, providerModelId: Option<string>,
    decision: Option<Decision>)

  datatype Outcome = Outcome(routed: Option<Routed>, cache: Cache)

  const BYOK_ELIGIBLE: set<string> := {"anthropic", "openai"}

  /** Adapters a request can reach: its own shadow the shared ones. */
  function Reachable(s: Settings, extra: map<string, Adapter>): map<string, Adapter> {
    s.adapters + extra
  }

  // ----- Specification -----------------------------------------------------------

  function Written(cache: Cache, ws: seq<Write>): Cache {
    if ws == [] then cache
    else
      var last := ws[|ws| - 1];
      Written(cache, ws[..|ws| - 1])[last.provider := Health(last.ok, last.at)]
  }

  /** Whether a provider counts as healthy at reading i, and the cache after asking. A fresh record answers at once;
      otherwise the clock is read first, other requests go on while the probe is out, and its answer is recorded under
      the earlier time. */
  function Check(s: Settings, cache: Cache, provider: string, w: World, i: nat): (bool, Cache) {
    if !s.skipUnhealthy then (true, cache)
    else if provider in cache && w.clock(i) - cache[provider].at < s.ttl then (cache[provider].ok, cache)
    else (w.probe(i), Written(cache, w.meanwhile(i))[provider := Health(w.probe(i), w.clock(i))])
  }

  /** The decision handed out for a model: a fallback model replaces the chosen one, its fallback list stays. */
  function Build(d: Decision, adapter: Adapter, modelId: string, provider: string, entry: Option<ModelEntry>): Routed {
    var slug := if entry.Some? then entry.value.providerModelId else d.providerModelId;
    var score := if entry.Some? then Score(entry.value, d.category) else d.taskScore;
    var used := if modelId == d.modelId then d
                else d.(modelId := modelId, provider := provider, taskScore := score, providerModelId := slug);
    Routed(provider == "vllm", provider, adapter, modelId, if slug == "" then None else Some(slug), Some(used))
  }

  /** Fallbacks from position i on; reading i + 2 of the world belongs to position i. */
  function Walk(s: Settings, extra: map<string, Adapter>, byId: seq<ModelEntry>, d: Decision, from: Option<string>,
                i: nat, cache: Cache, w: World): Outcome
    requires i <= |d.fallbacks|
    decreases |d.fallbacks| - i
  {
    if i == |d.fallbacks| then Outcome(None, cache)
    else
      var entry := Lookup(byId, d.fallbacks[i]);
      if entry.None? || Some(entry.value.provider) == from || entry.value.provider !in Reachable(s, extra) then
        Walk(s, extra, byId, d, from, i + 1, cache, w)
      else
        var p := entry.value.provider;
        var (ok, after) := Check(s, cache, p, w, i + 2);
        if ok then Outcome(Some(Build(d, Reachable(s, extra)[p], d.fallbacks[i], p, entry)), after)
        else Walk(s, extra, byId, d, from, i + 1, after, w)
  }

  /** The chosen provider first, unless it is the one that failed, then the fallbacks. */
  function Resolve(s: Settings, extra: map<string, Adapter>, byId: seq<ModelEntry>, d: Decision, from: Option<string>,
                   cache: Cache, w: World): Outcome
  {
    if from == Some(d.provider) || d.provider !in Reachable(s, extra) then Walk(s, extra, byId, d, from, 0, cache, w)
    else
      var (ok, after) := Check(s, cache, d.provider, w, 1);
      if ok then Outcome(Some(Build(d, Reachable(s, extra)[d.provider], d.modelId, d.provider, None)), after)
      else Walk(s, extra, byId, d, from, 0, after, w)
  }

  /** A permanent error ends it; any other failure marks the adapter down and looks for the next one. */
  function AfterFailure(s: Settings, extra: map<string, Adapter>, byId: seq<ModelEntry>, failed: Routed,
                        permanent: bool, cache: Cache, w: World): Outcome
  {
    if permanent then Outcome(None, cache)
    else
      var marked := cache[failed.adapter.name := Health(false, w.clock(0))];
      if failed.decision.None? then Outcome(None, marked)
      else Resolve(s, extra, byId, failed.decision.value, Some(failed.adapter.name), marked, w)
  }

  // ----- One request's failures, among other requests ----------------------------------

  /** What happens to a request: it fails, or other requests write between its calls. */
  datatype Call = Fails(permanent: bool, world: World) | Others(writes: seq<Write>)

  /** The decisions a request was given so far, the current one last. */
  datatype Chase = Chase(visited: seq<Routed>, over: bool, cache: Cache)

  function Step(s: Settings, extra: map<string, Adapter>, byId: seq<ModelEntry>, c: Chase, call: Call): Chase
    requires c.visited != []
  {
    match call
    case Fails(permanent, w) =>
      if c.over then c
      else
        var out := AfterFailure(s, extra, byId, c.visited[|c.visited| - 1], permanent, c.cache, w);
        if out.routed.Some? then Chase(c.visited + [out.routed.value], false, out.cache)
        else Chase(c.visited, true, out.cache)
    case Others(ws) => c.(cache := Written(c.cache, ws))
  }

  function Run(s: Settings, extra: map<string, Adapter>, byId: seq<ModelEntry>, c: Chase, calls: seq<Call>): (r: Chase)
    requires c.visited != []
    ensures r.visited != []
    decreases |calls|
  {
    if calls == [] then c else Run(s, extra, byId, Step(s, extra, byId, c, calls[0]), calls[1..])
  }

  function Failures(calls: seq<Call>): nat {
    if calls == [] then 0 else (if calls[0].Fails? then 1 else 0) + Failures(calls[1..])
  }

  // ----- Other requests only write -----------------------------------------------------------

  /** The writes of one call that goes from `before` to `after`. */
  ghost predicate Writes(before: Cache, after: Cache, ws: seq<Write>) {
    after == Written(before, ws)
  }

  lemma {:induction false} WrittenConcat(cache: Cache, a: seq<Write>, b: seq<Write>)
    ensures Written(cache, a + b) == Written(Written(cache, a), b)
  {
    if b == [] {
      assert a + b == a;
    } else {
      var n := |b| - 1;
      assert (a + b)[..|a| + n] == a + b[..n];
      WrittenConcat(cache, a, b[..n]);
    }
  }

  lemma CheckWrites(s: Settings, cache: Cache, provider: string, w: World, i: nat) returns (ws: seq<Write>)
    ensures Writes(cache, Check(s, cache, provider, w, i).1, ws)
  {
    var after := Check(s, cache, provider, w, i).1;
    if after == cache {
      ws := [];
    } else {
      var own := Write(provider, w.probe(i), w.clock(i));
      ws := w.meanwhile(i) + [own];
      assert ws[..|ws| - 1] == w.meanwhile(i);
    }
  }

  lemma {:induction false} WalkWrites(s: Settings, extra: map<string, Adapter>, byId: seq<ModelEntry>, d: Decision,
                                      from: Option<string>, i: nat, cache: Cache, w: World) returns (ws: seq<Write>)
    requires i <= |d.fallbacks|
    ensures Writes(cache, Walk(s, extra, byId, d, from, i, cache, w).cache, ws)
    decreases |d.fallbacks| - i
  {
    ws := [];
    if i < |d.fallbacks| {
      var entry := Lookup(byId, d.fallbacks[i]);
      if entry.None? || Some(entry.value.provider) == from || entry.value.provider !in Reachable(s, extra) {
        ws := WalkWrites(s, extra, byId, d, from, i + 1, cache, w);
      } else {
        var (ok, after) := Check(s, cache, entry.value.provider, w, i + 2);
        ws := CheckWrites(s, cache, entry.value.provider, w, i + 2);
        if !ok {
          var more := WalkWrites(s, extra, byId, d, from, i + 1, after, w);
          WrittenConcat(cache, ws, more);
          ws := ws + more;
        }
      }
    }
  }

  lemma ResolveWrites(s: Settings, extra: map<string, Adapter>, byId: seq<ModelEntry>, d: Decision,
                      from: Option<string>, cache: Cache, w: World) returns (ws: seq<Write>)
    ensures Writes(cache, Resolve(s, extra, byId, d, from, cache, w).cache, ws)
  {
    if from == Some(d.provider) || d.provider !in Reachable(s, extra) {
      ws := WalkWrites(s, extra, byId, d, from, 0, cache, w);
    } else {
      var (ok, after) := Check(s, cache, d.provider, w, 1);
      ws := CheckWrites(s, cache, d.provider, w, 1);
      if !ok {
        var more := WalkWrites(s, extra, byId, d, from, 0, after, w);
        WrittenConcat(cache, ws, more);
        ws := ws + more;
      }
    }
  }

  lemma FailureWrites(s: Settings, extra: map<string, Adapter>, byId: seq<ModelEntry>, failed: Routed, permanent: bool,
                      cache: Cache, w: World) returns (ws: seq<Write>)
    ensures Writes(cache, AfterFailure(s, extra, byId, failed, permanent, cache, w).cache, ws)
  {
    ws := [];
    if !permanent {
      var mark := [Write(failed.adapter.name, false, w.clock(0))];
      assert Written(cache, mark[..0]) == cache;
      ws := mark;
      if failed.decision.Some? {
        var more := ResolveWrites(s, extra, byId, failed.decision.value, Some(failed.adapter.name),
                                  Written(cache, mark), w);
        WrittenConcat(cache, mark, more);
        ws := mark + more;
      }
    }
  }

  /** Whatever another request does, the cache sees a sequence of writes; `Others` stands for every such call. */
  lemma OtherCallsWrite(s: Settings, extra: map<string, Adapter>, byId: seq<ModelEntry>, d: Decision,
                        from: Option<string>, failed: Routed, permanent: bool, cache: Cache, w: World)
    ensures exists ws :: Writes(cache, Resolve(s, extra, byId, d, from, cache, w).cache, ws)
    ensures exists ws :: Writes(cache, AfterFailure(s, extra, byId, failed, permanent, cache, w).cache, ws)
  {
    var resolving := ResolveWrites(s, extra, byId, d, from, cache, w);
    var failing := FailureWrites(s, extra, byId, failed, permanent, cache, w);
  }

  // ----- A failed provider stays out for the time to live -----------------------------------

  predicate Down(cache: Cache, p: string, t0: real) {
    p in cache && !cache[p].ok && cache[p].at >= t0
  }

  /** Every adapter answers to the provider it is configured for. */
  ghost predicate Named(adapters: map<string, Adapter>) {
    forall p :: p in adapters ==> adapters[p].name == p
  }

  /** None of these writes replaces p's record by a good one or by one older than t0. */
  predicate Spares(ws: seq<Write>, p: string, t0: real) {
    forall k :: 0 <= k < |ws| && ws[k].provider == p ==> !ws[k].ok && ws[k].at >= t0
  }

  /** A call leaves the mark set on p at time t0 in force: it comes before the time to live is over, and what other
      requests write meanwhile spares p. */
  ghost predicate Respects(call: Call, p: string, t0: real, ttl: real) {
    match call
    case Fails(_, w) => forall i :: w.clock(i) < t0 + ttl && Spares(w.meanwhile(i), p, t0)
    case Others(ws) => Spares(ws, p, t0)
  }

  lemma {:induction false} WrittenKeepsDown(cache: Cache, ws: seq<Write>, p: string, t0: real)
    requires Down(cache, p, t0) && Spares(ws, p, t0)
    ensures Down(Written(cache, ws), p, t0)
  {
    if ws != [] { WrittenKeepsDown(cache, ws[..|ws| - 1], p, t0); }
  }

  lemma CheckKeepsDown(s: Settings, cache: Cache, provider: string, w: World, i: nat, p: string, t0: real)
    requires Down(cache, p, t0) && Respects(Fails(false, w), p, t0, s.ttl)
    ensures var (ok, after) := Check(s, cache, provider, w, i);
            Down(after, p, t0) && (s.skipUnhealthy && provider == p ==> !ok)
  {
    assert w.clock(i) < t0 + s.ttl && Spares(w.meanwhile(i), p, t0);
    WrittenKeepsDown(cache, w.meanwhile(i), p, t0);
  }

  lemma {:induction false} WalkKeepsDown(s: Settings, extra: map<string, Adapter>, byId: seq<ModelEntry>, d: Decision,
                                         from: Option<string>, i: nat, cache: Cache, w: World, p: string, t0: real)
    requires i <= |d.fallbacks| && Down(cache, p, t0) && Respects(Fails(false, w), p, t0, s.ttl)
    ensures var out := Walk(s, extra, byId, d, from, i, cache, w);
            Down(out.cache, p, t0) && (s.skipUnhealthy && out.routed.Some? ==> out.routed.value.provider != p)
    decreases |d.fallbacks| - i
  {
    if i < |d.fallbacks| {
      var entry := Lookup(byId, d.fallbacks[i]);
      if entry.None? || Some(entry.value.provider) == from || entry.value.provider !in Reachable(s, extra) {
        WalkKeepsDown(s, extra, byId, d, from, i + 1, cache, w, p, t0);
      } else {
        CheckKeepsDown(s, cache, entry.value.provider, w, i + 2, p, t0);
        WalkKeepsDown(s, extra, byId, d, from, i + 1, Check(s, cache, entry.value.provider, w, i + 2).1, w, p, t0);
      }
    }
  }

  lemma ResolveKeepsDown(s: Settings, extra: map<string, Adapter>, byId: seq<ModelEntry>, d: Decision,
                         from: Option<string>, cache: Cache, w: World, p: string, t0: real)
    requires Down(cache, p, t0) && Respects(Fails(false, w), p, t0, s.ttl)
    ensures var out := Resolve(s, extra, byId, d, from, cache, w);
            Down(out.cache, p, t0) && (s.skipUnhealthy && out.routed.Some? ==> out.routed.value.provider != p)
  {
    WalkKeepsDown(s, extra, byId, d, from, 0, cache, w, p, t0);
    CheckKeepsDown(s, cache, d.provider, w, 1, p, t0);
    WalkKeepsDown(s, extra, byId, d, from, 0, Check(s, cache, d.provider, w, 1).1, w, p, t0);
  }

  /** After a failure, the failed adapter and every adapter already down are out. */
  lemma FailureKeepsDown(s: Settings, extra: map<string, Adapter>, byId: seq<ModelEntry>, failed: Routed,
                         permanent: bool, cache: Cache, w: World, p: string, t0: real)
    requires Respects(Fails(permanent, w), p, t0, s.ttl)
    requires if !permanent && p == failed.adapter.name then w.clock(0) >= t0 else Down(cache, p, t0)
    ensures var out := AfterFailure(s, extra, byId, failed, permanent, cache, w);
            Down(out.cache, p, t0) && (s.skipUnhealthy && out.routed.Some? ==> out.routed.value.provider != p)
  {
    if !permanent && failed.decision.Some? {
      var marked := cache[failed.adapter.name := Health(false, w.clock(0))];
      assert Respects(Fails(false, w), p, t0, s.ttl);
      ResolveKeepsDown(s, extra, byId, failed.decision.value, Some(failed.adapter.name), marked, w, p, t0);
    }
  }

  /** The adapter of a decision is the one its provider is configured with. */
  predicate Connected(s: Settings, extra: map<string, Adapter>, r: Routed) {
    r.provider in Reachable(s, extra) && r.adapter == Reachable(s, extra)[r.provider]
  }

  lemma {:induction false} WalkConnects(s: Settings, extra: map<string, Adapter>, byId: seq<ModelEntry>, d: Decision,
                                        from: Option<string>, i: nat, cache: Cache, w: World)
    requires i <= |d.fallbacks|
    ensures var out := Walk(s, extra, byId, d, from, i, cache, w);
            out.routed.Some? ==> Connected(s, extra, out.routed.value)
    decreases |d.fallbacks| - i
  {
    if i < |d.fallbacks| {
      var entry := Lookup(byId, d.fallbacks[i]);
      WalkConnects(s, extra, byId, d, from, i + 1, cache, w);
      if entry.Some? {
        WalkConnects(s, extra, byId, d, from, i + 1, Check(s, cache, entry.value.provider, w, i + 2).1, w);
      }
    }
  }

  /** Every decision handed out names a reachable adapter. */
  lemma ResolveConnects(s: Settings, extra: map<string, Adapter>, byId: seq<ModelEntry>, d: Decision,
                        from: Option<string>, cache: Cache, w: World)
    ensures var out := Resolve(s, extra, byId, d, from, cache, w);
            out.routed.Some? ==> Connected(s, extra, out.routed.value)
  {
    WalkConnects(s, extra, byId, d, from, 0, cache, w);
    WalkConnects(s, extra, byId, d, from, 0, Check(s, cache, d.provider, w, 1).1, w);
  }

  lemma FailureConnects(s: Settings, extra: map<string, Adapter>, byId: seq<ModelEntry>, failed: Routed,
                        permanent: bool, cache: Cache, w: World)
    ensures var out := AfterFailure(s, extra, byId, failed, permanent, cache, w);
            out.routed.Some? ==> Connected(s, extra, out.routed.value)
  {
    if !permanent && failed.decision.Some? {
      var marked := cache[failed.adapter.name := Health(false, w.clock(0))];
      ResolveConnects(s, extra, byId, failed.decision.value, Some(failed.adapter.name), marked, w);
    }
  }

  // ----- A request meets every adapter once ------------------------------------------------------

  /** The times at which the request's failed adapters were last marked. */
  type Marks = map<string, real>

  function MarksAfter(c: Chase, marks: Marks, call: Call): Marks
    requires c.visited != []
  {
    if call.Fails? && !call.permanent && !c.over
    then marks[c.visited[|c.visited| - 1].adapter.name := call.world.clock(0)] else marks
  }

  /** No call disturbs a mark the request has set: none comes a whole time to live after it, and no other request
      replaces it by a good or an older record. */
  ghost predicate Undisturbed(s: Settings, extra: map<string, Adapter>, byId: seq<ModelEntry>, c: Chase, marks: Marks,
                              calls: seq<Call>)
    requires c.visited != []
    decreases |calls|
  {
    calls == [] ||
    (var after := MarksAfter(c, marks, calls[0]);
     (forall p :: p in after ==> Respects(calls[0], p, after[p], s.ttl)) &&
     Undisturbed(s, extra, byId, Step(s, extra, byId, c, calls[0]), after, calls[1..]))
  }

  /** Every decision but the last is marked, marked adapters are down, and no two decisions share an adapter. */
  ghost predicate Apart(s: Settings, extra: map<string, Adapter>, c: Chase, marks: Marks) {
    && c.visited != []
    && (forall k :: 0 <= k < |c.visited| ==> Connected(s, extra, c.visited[k]))
    && (forall k :: 0 <= k < |c.visited| - 1 ==> c.visited[k].adapter.name in marks)
    && (forall p :: p in marks ==> Down(c.cache, p, marks[p]))
    && (forall i, j :: 0 <= i < j < |c.visited| ==> c.visited[i].adapter.name != c.visited[j].adapter.name)
  }

  lemma FailKeepsApart(s: Settings, extra: map<string, Adapter>, byId: seq<ModelEntry>, c: Chase, marks: Marks,
                       call: Call)
    requires s.skipUnhealthy && Named(Reachable(s, extra)) && Apart(s, extra, c, marks) && call.Fails? && !c.over
    requires var after := MarksAfter(c, marks, call); forall p :: p in after ==> Respects(call, p, after[p], s.ttl)
    ensures Apart(s, extra, Step(s, extra, byId, c, call), MarksAfter(c, marks, call))
  {
    var last, w, after := c.visited[|c.visited| - 1], call.world, MarksAfter(c, marks, call);
    var out := AfterFailure(s, extra, byId, last, call.permanent, c.cache, w);
    forall p | p in after
      ensures Down(out.cache, p, after[p]) && (out.routed.Some? ==> out.routed.value.adapter.name != p)
    {
      FailureKeepsDown(s, extra, byId, last, call.permanent, c.cache, w, p, after[p]);
      FailureConnects(s, extra, byId, last, call.permanent, c.cache, w);
    }
    FailureConnects(s, extra, byId, last, call.permanent, c.cache, w);
  }

  lemma {:induction false} RunKeepsApart(s: Settings, extra: map<string, Adapter>, byId: seq<ModelEntry>, c: Chase,
                                         marks: Marks, calls: seq<Call>) returns (end: Marks)
    requires s.skipUnhealthy && Named(Reachable(s, extra)) && Apart(s, extra, c, marks)
    requires Undisturbed(s, extra, byId, c, marks, calls)
    ensures Apart(s, extra, Run(s, extra, byId, c, calls), end)
    decreases |calls|
  {
    end := marks;
    if calls != [] {
      var after, next := MarksAfter(c, marks, calls[0]), Step(s, extra, byId, c, calls[0]);
      if calls[0].Fails? && !c.over {
        FailKeepsApart(s, extra, byId, c, marks, calls[0]);
      } else if calls[0].Others? {
        forall p | p in marks ensures Down(next.cache, p, marks[p]) {
          WrittenKeepsDown(c.cache, calls[0].writes, p, marks[p]);
        }
      }
      end := RunKeepsApart(s, extra, byId, next, after, calls[1..]);
    }
  }

  /** Every failure of the request either yields one more decision or ends it. */
  lemma {:induction false} FailuresAreVisits(s: Settings, extra: map<string, Adapter>, byId: seq<ModelEntry>, c: Chase,
                                             calls: seq<Call>)
    requires c.visited != []
    ensures var r := Run(s, extra, byId, c, calls);
            (c.over ==> r.over) && (!r.over ==> |r.visited| == |c.visited| + Failures(calls))
    decreases |calls|
  {
    if calls != [] {
      FailuresAreVisits(s, extra, byId, Step(s, extra, byId, c, calls[0]), calls[1..]);
    }
  }

  function Names(rs: seq<Routed>): set<string> {
    set r | r in rs :: r.adapter.name
  }

  lemma {:induction false} DistinctNamesCount(rs: seq<Routed>)
    requires forall i, j :: 0 <= i < j < |rs| ==> rs[i].adapter.name != rs[j].adapter.name
    ensures |Names(rs)| == |rs|
  {
    if rs != [] {
      var n := |rs| - 1;
      DistinctNamesCount(rs[..n]);
      assert rs == rs[..n] + [rs[n]];
      assert Names(rs) == Names(rs[..n]) + {rs[n].adapter.name};
    }
  }

  lemma SubsetCount(a: set<string>, b: set<string>)
    requires a <= b
    ensures |a| <= |b|
  {
    assert b == a + (b - a);
  }

  /** Whatever other requests do and whenever their probes end, as long as no mark of the request is disturbed: the
      decisions it is given use pairwise distinct adapters, and it is refused after at most as many failures as there
      are adapters. */
  lemma FailoverVisitsEachOnce(s: Settings, extra: map<string, Adapter>, byId: seq<ModelEntry>, first: Routed,
                               cache: Cache, calls: seq<Call>)
    requires s.skipUnhealthy && Named(Reachable(s, extra)) && Connected(s, extra, first)
    ensures var start := Chase([first], false, cache);
            var r := Run(s, extra, byId, start, calls);
            Undisturbed(s, extra, byId, start, map[], calls) ==>
              && (forall i, j :: 0 <= i < j < |r.visited| ==> r.visited[i].adapter.name != r.visited[j].adapter.name)
              && |r.visited| <= |Reachable(s, extra)|
              && (Failures(calls) >= |Reachable(s, extra)| ==> r.over)
  {
    var start := Chase([first], false, cache);
    if Undisturbed(s, extra, byId, start, map[], calls) {
      var r := Run(s, extra, byId, start, calls);
      var end := RunKeepsApart(s, extra, byId, start, map[], calls);
      FailuresAreVisits(s, extra, byId, start, calls);
      DistinctNamesCount(r.visited);
      SubsetCount(Names(r.visited), Reachable(s, extra).Keys);
    }
  }

  /** An adapter that is down is given to the request by no call that respects its mark. */
  lemma {:induction false} DownStaysOut(s: Settings, extra: map<string, Adapter>, byId: seq<ModelEntry>, c: Chase,
                                        calls: seq<Call>, p: string, t0: real)
    requires s.skipUnhealthy && Named(Reachable(s, extra)) && c.visited != [] && Down(c.cache, p, t0)
    requires c.visited[|c.visited| - 1].adapter.name != p || c.over
    requires forall k :: 0 <= k < |calls| ==> Respects(calls[k], p, t0, s.ttl)
    ensures var r := Run(s, extra, byId, c, calls);
            c.visited <= r.visited && forall k :: |c.visited| <= k < |r.visited| ==> r.visited[k].adapter.name != p
    decreases |calls|
  {
    if calls != [] {
      var call, next, last := calls[0], Step(s, extra, byId, c, calls[0]), c.visited[|c.visited| - 1];
      match call {
        case Fails(permanent, w) =>
          if !c.over {
            FailureKeepsDown(s, extra, byId, last, permanent, c.cache, w, p, t0);
            FailureConnects(s, extra, byId, last, permanent, c.cache, w);
          }
        case Others(ws) => WrittenKeepsDown(c.cache, ws, p, t0);
      }
      DownStaysOut(s, extra, byId, next, calls[1..], p, t0);
    }
  }

  /** At any point of any run: an adapter that fails is handed to the same request again only if some later call does
      not respect the mark. */
  lemma FailedAdapterRests(s: Settings, extra: map<string, Adapter>, byId: seq<ModelEntry>, c: Chase, w: World,
                           rest: seq<Call>)
    requires s.skipUnhealthy && Named(Reachable(s, extra)) && c.visited != [] && !c.over
    ensures var calls, n := [Fails(false, w)] + rest, |c.visited|;
            var p, r := c.visited[n - 1].adapter.name, Run(s, extra, byId, c, calls);
            (exists k :: n <= k < |r.visited| && r.visited[k].adapter.name == p) ==>
              exists k :: 0 <= k < |calls| && !Respects(calls[k], p, w.clock(0), s.ttl)
  {
    var calls, last := [Fails(false, w)] + rest, c.visited[|c.visited| - 1];
    var p := last.adapter.name;
    if forall k :: 0 <= k < |calls| ==> Respects(calls[k], p, w.clock(0), s.ttl) {
      assert calls[0] == Fails(false, w) && calls[1..] == rest;
      FailureKeepsDown(s, extra, byId, last, false, c.cache, w, p, w.clock(0));
      FailureConnects(s, extra, byId, last, false, c.cache, w);
      assert forall k :: 0 <= k < |rest| ==> rest[k] == calls[k + 1];
      DownStaysOut(s, extra, byId, Step(s, extra, byId, c, calls[0]), rest, p, w.clock(0));
    }
  }

  lemma RunTwo(s: Settings, extra: map<string, Adapter>, byId: seq<ModelEntry>, c: Chase, a: Call, b: Call)
    requires c.visited != []
    ensures Run(s, extra, byId, c, [a, b]) == Step(s, extra, byId, Step(s, extra, byId, c, a), b)
  {
    var once := Step(s, extra, byId, c, a);
    assert [a, b][1..] == [b] && [b][1..] == [];
    assert Run(s, extra, byId, once, [b]) == Step(s, extra, byId, once, b);
  }

  predicate OfProvider(byId: seq<ModelEntry>, id: string, p: string) {
    Lookup(byId, id).Some? && Lookup(byId, id).value.provider == p
  }

  /** A failure of q moves on to a second fallback of p if p is recorded as healthy. */
  lemma FallbackToFresh(s: Settings, byId: seq<ModelEntry>, x: Routed, p: string, q: string, cache: Cache, w: World)
    requires s.skipUnhealthy && s.ttl > 0.0 && p in s.adapters && p != q && x.adapter.name == q && x.decision.Some?
    requires x.decision.value.provider == q && |x.decision.value.fallbacks| == 2
    requires OfProvider(byId, x.decision.value.fallbacks[0], q) && OfProvider(byId, x.decision.value.fallbacks[1], p)
    requires p in cache && cache[p] == Health(true, 0.0) && forall i :: w.clock(i) == 0.0
    ensures var out := AfterFailure(s, map[], byId, x, false, cache, w).routed; out.Some? && out.value.provider == p
  {
    var d, marked := x.decision.value, cache[q := Health(false, 0.0)];
    assert Walk(s, map[], byId, d, Some(q), 1, marked, w).routed.Some?;
    assert Walk(s, map[], byId, d, Some(q), 0, marked, w) == Walk(s, map[], byId, d, Some(q), 1, marked, w);
  }

  /** A late answer can undo a mark: p serves and fails, q serves, the answer of a probe of p that another request
      started earlier is recorded as good, q fails, and p serves again although no time has passed. */
  lemma LateAnswerRevives(s: Settings, byId: seq<ModelEntry>, d: Decision, p: string, q: string, w: World)
    requires s.skipUnhealthy && s.ttl > 0.0 && Named(s.adapters) && p in s.adapters && q in s.adapters && p != q
    requires d.provider == p && |d.fallbacks| == 2 && d.fallbacks[0] != d.modelId
    requires OfProvider(byId, d.fallbacks[0], q) && OfProvider(byId, d.fallbacks[1], p)
    requires forall i :: w.clock(i) == 0.0 && w.probe(i) && w.meanwhile(i) == []
    ensures var first := Resolve(s, map[], byId, d, None, map[], w);
            var calls := [Fails(false, w), Others([Write(p, true, 0.0)]), Fails(false, w)];
            first.routed.Some? &&
            var r := Run(s, map[], byId, Chase([first.routed.value], false, first.cache), calls);
            |r.visited| == 3 && r.visited[0].provider == p && r.visited[1].provider == q && r.visited[2].provider == p
  {
    var first := Resolve(s, map[], byId, d, None, map[], w);
    var c := Chase([first.routed.value], false, first.cache);
    var late := Write(p, true, 0.0);
    var one := Step(s, map[], byId, c, Fails(false, w));
    var two := Step(s, map[], byId, one, Others([late]));
    assert Written(one.cache, [late][..0]) == one.cache;
    assert two.cache == one.cache[p := Health(true, 0.0)];
    FallbackToFresh(s, byId, one.visited[1], p, q, two.cache, w);
    assert [Fails(false, w), Others([late]), Fails(false, w)][1..] == [Others([late]), Fails(false, w)];
    RunTwo(s, map[], byId, one, Others([late]), Fails(false, w));
  }

  // ----- A refusal means everything is down ---------------------------------------------------

  predicate KnownDown(cache: Cache, p: string) {
    p in cache && !cache[p].ok
  }

  /** Some other request records p as healthy while this call waits for an answer. */
  ghost predicate Revives(w: World, p: string) {
    exists i :: HasGoodWrite(w.meanwhile(i), p)
  }

  predicate HasGoodWrite(ws: seq<Write>, p: string) {
    exists k :: 0 <= k < |ws| && ws[k].provider == p && ws[k].ok
  }

  lemma {:induction false} WrittenKeepsKnownDown(cache: Cache, ws: seq<Write>, p: string)
    requires KnownDown(cache, p) && !HasGoodWrite(ws, p)
    ensures KnownDown(Written(cache, ws), p)
  {
    if ws != [] {
      assert forall k :: 0 <= k < |ws| - 1 ==> ws[..|ws| - 1][k] == ws[k];
      WrittenKeepsKnownDown(cache, ws[..|ws| - 1], p);
    }
  }

  /** Asking about a provider keeps every other record of a down provider, and a no leaves its own. */
  lemma CheckKeepsKnownDown(s: Settings, cache: Cache, provider: string, w: World, i: nat, p: string)
    requires !Revives(w, p)
    requires KnownDown(cache, p)
    ensures var (ok, after) := Check(s, cache, provider, w, i); p != provider || !ok ==> KnownDown(after, p)
  {
    assert !HasGoodWrite(w.meanwhile(i), p);
    WrittenKeepsKnownDown(cache, w.meanwhile(i), p);
  }

  lemma {:induction false} RefusedWalkRecords(s: Settings, extra: map<string, Adapter>, byId: seq<ModelEntry>,
                                              d: Decision,
                                              from: Option<string>, i: nat, cache: Cache, w: World, p: string)
    requires i <= |d.fallbacks| && Walk(s, extra, byId, d, from, i, cache, w).routed.None?
    requires KnownDown(cache, p) ||
             (p in Reachable(s, extra) && Some(p) != from &&
              exists k :: i <= k < |d.fallbacks| && Lookup(byId, d.fallbacks[k]).Some?
                          && Lookup(byId, d.fallbacks[k]).value.provider == p)
    requires !Revives(w, p)
    ensures KnownDown(Walk(s, extra, byId, d, from, i, cache, w).cache, p)
    decreases |d.fallbacks| - i
  {
    if i < |d.fallbacks| {
      var entry := Lookup(byId, d.fallbacks[i]);
      if entry.None? || Some(entry.value.provider) == from || entry.value.provider !in Reachable(s, extra) {
        RefusedWalkRecords(s, extra, byId, d, from, i + 1, cache, w, p);
      } else {
        var after := Check(s, cache, entry.value.provider, w, i + 2).1;
        if KnownDown(cache, p) { CheckKeepsKnownDown(s, cache, entry.value.provider, w, i + 2, p); }
        RefusedWalkRecords(s, extra, byId, d, from, i + 1, after, w, p);
      }
    }
  }

  /** Nothing is refused while a candidate is left: a refusal leaves the chosen provider and the provider of every
      resolvable fallback recorded as unhealthy, unless it has no adapter, is the one failed over from, or was recorded
      as healthy by another request while the call waited. */
  lemma RefusalMeansAllDown(s: Settings, extra: map<string, Adapter>, byId: seq<ModelEntry>, d: Decision,
                            from: Option<string>, cache: Cache, w: World, p: string)
    requires Resolve(s, extra, byId, d, from, cache, w).routed.None?
    requires p in Reachable(s, extra) && Some(p) != from
    requires p == d.provider || exists k :: 0 <= k < |d.fallbacks| && Lookup(byId, d.fallbacks[k]).Some?
                                            && Lookup(byId, d.fallbacks[k]).value.provider == p
    ensures KnownDown(Resolve(s, extra, byId, d, from, cache, w).cache, p) || Revives(w, p)
  {
    if Revives(w, p) { return; }
    if from == Some(d.provider) || d.provider !in Reachable(s, extra) {
      RefusedWalkRecords(s, extra, byId, d, from, 0, cache, w, p);
    } else {
      RefusedWalkRecords(s, extra, byId, d, from, 0, Check(s, cache, d.provider, w, 1).1, w, p);
    }
  }

  // ----- The first usable candidate wins ------------------------------------------------------

  /** What is sent to a provider: to the request's own adapter for it if it brought one, else to the shared one, under
      the slug where there is one. Only vllm is local. */
  predicate SentTo(s: Settings, extra: map<string, Adapter>, x: Routed, provider: string, slug: string) {
    && x.provider == provider && (provider in extra || provider in s.adapters)
    && x.adapter == (if provider in extra then extra[provider] else s.adapters[provider])
    && (x.local <==> provider == "vllm")
    && (if slug == "" then x.providerModelId == None else x.providerModelId == Some(slug))
  }

  /** The chosen model goes out under its own id and slug, and the decision as it is. */
  predicate HandsOutChosen(s: Settings, extra: map<string, Adapter>, d: Decision, x: Routed) {
    SentTo(s, extra, x, d.provider, d.providerModelId) && x.modelId == d.modelId && x.decision == Some(d)
  }

  /** A fallback goes out under its own id and its row's slug; the decision names this id, this provider, the row's
      score for the category and this slug, and keeps category and fallbacks. A fallback of the chosen id leaves the
      decision as it is. */
  predicate HandsOutFallback(s: Settings, extra: map<string, Adapter>, d: Decision, id: string, e: ModelEntry,
                             x: Routed)
  {
    && SentTo(s, extra, x, e.provider, e.providerModelId) && x.modelId == id && x.decision.Some?
    && var now := x.decision.value;
       && (id == d.modelId ==> now == d)
       && (id != d.modelId ==>
             && now.modelId == id && now.provider == e.provider && now.providerModelId == e.providerModelId
             && now.taskScore == (if d.category in e.taskScores then e.taskScores[d.category] else 0.0)
             && now.category == d.category && now.fallbacks == d.fallbacks)
  }

  /** The adapter of fallback k is the one handed out, and it counted as healthy. */
  ghost predicate TakenAt(s: Settings, extra: map<string, Adapter>, byId: seq<ModelEntry>, d: Decision,
                          from: Option<string>, k: int, out: Outcome)
  {
    && 0 <= k < |d.fallbacks| && out.routed.Some?
    && var e := Lookup(byId, d.fallbacks[k]);
       && e.Some? && Some(e.value.provider) != from
       && HandsOutFallback(s, extra, d, d.fallbacks[k], e.value, out.routed.value)
       && (s.skipUnhealthy ==> e.value.provider in out.cache && out.cache[e.value.provider].ok)
  }

  /** Provider p could not serve: it failed, has no adapter, or is recorded as unhealthy, or was until another request
      recorded it as healthy while the call waited. */
  ghost predicate Unusable(s: Settings, extra: map<string, Adapter>, from: Option<string>, p: string, w: World,
                           cache: Cache)
  {
    Some(p) == from || p !in Reachable(s, extra) || KnownDown(cache, p) || Revives(w, p)
  }

  /** A successful walk leaves every down record alone but that of the provider it takes. */
  lemma {:induction false} WalkKeepsRecord(s: Settings, extra: map<string, Adapter>, byId: seq<ModelEntry>, d: Decision,
                                           from: Option<string>, i: nat, cache: Cache, w: World, p: string)
    requires i <= |d.fallbacks| && KnownDown(cache, p) && !Revives(w, p)
    ensures var out := Walk(s, extra, byId, d, from, i, cache, w);
            out.routed.Some? && p != out.routed.value.provider ==> KnownDown(out.cache, p)
    decreases |d.fallbacks| - i
  {
    if i < |d.fallbacks| {
      var entry := Lookup(byId, d.fallbacks[i]);
      if entry.None? || Some(entry.value.provider) == from || entry.value.provider !in Reachable(s, extra) {
        WalkKeepsRecord(s, extra, byId, d, from, i + 1, cache, w, p);
      } else {
        var (ok, after) := Check(s, cache, entry.value.provider, w, i + 2);
        CheckKeepsKnownDown(s, cache, entry.value.provider, w, i + 2, p);
        if !ok { WalkKeepsRecord(s, extra, byId, d, from, i + 1, after, w, p); }
      }
    }
  }

  /** Fallback j was rightly passed over on the way to the answer `out`: it does not resolve, it is of the provider
      taken, or its provider could not serve. */
  ghost predicate PassedOver(s: Settings, extra: map<string, Adapter>, byId: seq<ModelEntry>, d: Decision,
                             from: Option<string>, j: nat, w: World, out: Outcome)
    requires j < |d.fallbacks| && out.routed.Some?
  {
    var e := Lookup(byId, d.fallbacks[j]);
    e.None? || e.value.provider == out.routed.value.provider || Unusable(s, extra, from, e.value.provider, w, out.cache)
  }

  /** The walk's answer, found again: fallback k, with every candidate before it rightly passed over. */
  lemma {:induction false} WalkTakesFirst(s: Settings, extra: map<string, Adapter>, byId: seq<ModelEntry>, d: Decision,
                                          from: Option<string>, i: nat, cache: Cache, w: World) returns (k: int)
    requires i <= |d.fallbacks| && Walk(s, extra, byId, d, from, i, cache, w).routed.Some?
    ensures var out := Walk(s, extra, byId, d, from, i, cache, w);
            && i <= k && TakenAt(s, extra, byId, d, from, k, out)
            && (forall j :: i <= j < k ==> PassedOver(s, extra, byId, d, from, j, w, out))
    decreases |d.fallbacks| - i
  {
    var entry := Lookup(byId, d.fallbacks[i]);
    if entry.None? || Some(entry.value.provider) == from || entry.value.provider !in Reachable(s, extra) {
      k := WalkTakesFirst(s, extra, byId, d, from, i + 1, cache, w);
    } else {
      var (ok, after) := Check(s, cache, entry.value.provider, w, i + 2);
      if ok {
        k := i;
      } else {
        if !Revives(w, entry.value.provider) {
          WalkKeepsRecord(s, extra, byId, d, from, i + 1, after, w, entry.value.provider);
        }
        k := WalkTakesFirst(s, extra, byId, d, from, i + 1, after, w);
      }
    }
  }

  /** A decision is resolved to its own provider, or else to the first fallback whose provider can serve: every
      candidate passed over had failed, had no adapter, or is recorded as unhealthy, if no other request recorded it as
      healthy while the call waited. */
  lemma FirstUsableWins(s: Settings, extra: map<string, Adapter>, byId: seq<ModelEntry>, d: Decision,
                        from: Option<string>, cache: Cache, w: World) returns (k: int)
    requires Resolve(s, extra, byId, d, from, cache, w).routed.Some?
    ensures var out := Resolve(s, extra, byId, d, from, cache, w);
            if k < 0 then
              && Some(d.provider) != from && HandsOutChosen(s, extra, d, out.routed.value)
              && (s.skipUnhealthy ==> d.provider in out.cache && out.cache[d.provider].ok)
            else
              && TakenAt(s, extra, byId, d, from, k, out)
              && (d.provider == out.routed.value.provider || Unusable(s, extra, from, d.provider, w, out.cache))
              && (forall j :: 0 <= j < k ==> PassedOver(s, extra, byId, d, from, j, w, out))
  {
    if from == Some(d.provider) || d.provider !in Reachable(s, extra) {
      k := WalkTakesFirst(s, extra, byId, d, from, 0, cache, w);
    } else {
      var (ok, after) := Check(s, cache, d.provider, w, 1);
      if ok {
        k := -1;
      } else {
        if !Revives(w, d.provider) { WalkKeepsRecord(s, extra, byId, d, from, 0, after, w, d.provider); }
        k := WalkTakesFirst(s, extra, byId, d, from, 0, after, w);
      }
    }
  }

  // ----- Routing a request ------------------------------------------------------------------

  /** Frontier providers that have an adapter; a request's own adapters count only where keys may be brought. */
  function AvailableFrontier(s: Settings, extra: map<string, Adapter>): set<string> {
    (s.adapters.Keys + (extra.Keys * BYOK_ELIGIBLE)) * FRONTIER
  }

  function RouteStep(s: Settings, cfg: ScoutConfig, byKey: seq<ModelEntry>, byId: seq<ModelEntry>,
                     extra: map<string, Adapter>, r: Request, cache: Cache, w: World): Outcome
  {
    var asked := r.(availableFrontier := Some(AvailableFrontier(s, extra)));
    var chosen := Choose(cfg, byKey, byId, asked);
    if chosen.Err? then Outcome(None, cache) else Resolve(s, extra, byId, chosen.value, None, cache, w)
  }

  /** A frontier provider counts as at hand exactly when the request can reach an adapter for it. */
  lemma AtHandIsReachable(s: Settings, extra: map<string, Adapter>, r: Request, p: string)
    ensures var asked := r.(availableFrontier := Some(AvailableFrontier(s, extra)));
            ScoutChoice.FrontierAtHand(p, asked) <==> (p == "anthropic" || p == "openai") && p in Reachable(s, extra)
  {
  }

  /** Where the policy puts frontier providers in place of the configured ones, the chosen one has an adapter. */
  lemma FrontierChoiceHasAdapter(s: Settings, cfg: ScoutConfig, byKey: seq<ModelEntry>, byId: seq<ModelEntry>,
                                 extra: map<string, Adapter>, r: Request)
    requires !Pinned(r)
    ensures var asked := r.(availableFrontier := Some(AvailableFrontier(s, extra)));
            var chosen := Choose(cfg, byKey, byId, asked);
            chosen.Ok? && ScoutChoice.Replaces(asked) ==> chosen.value.provider in Reachable(s, extra)
  {
    var asked := r.(availableFrontier := Some(AvailableFrontier(s, extra)));
    if Choose(cfg, byKey, byId, asked).Ok? {
      var es, order, final := ScoutChoice.ChoiceIsFirst(cfg, byKey, byId, asked);
      assert final[0] in es;
      AtHandIsReachable(s, extra, r, final[0].provider);
    }
  }

  // ----- The router object -------------------------------------------------------------------------

  class CapabilityRouter {
    const settings: Settings
    const scout: CapabilityScout
    var healthCache: Cache

    constructor (settings: Settings, scout: CapabilityScout)
      requires settings.adapters != map[]
      ensures this.settings == settings && this.scout == scout && healthCache == map[]
    {
      this.settings, this.scout, healthCache := settings, scout, map[];
    }

    method IsHealthy(provider: string, w: World, i: nat) returns (healthy: bool)
      modifies this`healthCache
      ensures (healthy, healthCache) == Check(settings, old(healthCache), provider, w, i)
    {
      if !settings.skipUnhealthy {
        return true;
      }
      if provider in healthCache {
        var cached := healthCache[provider];
        if w.clock(i) - cached.at < settings.ttl {
          return cached.ok;
        }
      }
      healthCache := Written(healthCache, w.meanwhile(i));
      healthy := w.probe(i);
      healthCache := healthCache[provider := Health(healthy, w.clock(i))];
    }

    method ResolveOrFail(d: Decision, from: Option<string>, extra: map<string, Adapter>, w: World)
      returns (routed: Option<Routed>)
      modifies this`healthCache
      ensures Outcome(routed, healthCache)
              == Resolve(settings, extra, scout.registry.byId, d, from, old(healthCache), w)
    {
      var adapters := Reachable(settings, extra);
      if from != Some(d.provider) && d.provider in adapters {
        var healthy := IsHealthy(d.provider, w, 1);
        if healthy {
          return Some(Build(d, adapters[d.provider], d.modelId, d.provider, None));
        }
      }
      var i := 0;
      while i < |d.fallbacks|
        invariant i <= |d.fallbacks|
        invariant Walk(settings, extra, scout.registry.byId, d, from, i, healthCache, w)
                  == Resolve(settings, extra, scout.registry.byId, d, from, old(healthCache), w)
      {
        var entry := scout.registry.Get(d.fallbacks[i]);
        if entry.Some? && Some(entry.value.provider) != from && entry.value.provider in adapters {
          var provider := entry.value.provider;
          var healthy := IsHealthy(provider, w, i + 2);
          if healthy {
            return Some(Build(d, adapters[provider], d.fallbacks[i], provider, entry));
          }
        }
        i := i + 1;
      }
      routed := None;
    }

    method Route(r: Request, extra: map<string, Adapter>, w: World) returns (routed: Option<Routed>)
      modifies this`healthCache
      ensures Outcome(routed, healthCache)
              == RouteStep(settings, scout.config, scout.registry.byKey, scout.registry.byId, extra, r,
                           old(healthCache), w)
    {
      var asked := r.(availableFrontier := Some(AvailableFrontier(settings, extra)));
      var chosen := scout.ChooseModel(asked);
      if chosen.Err? {
        return None;
      }
      routed := ResolveOrFail(chosen.value, None, extra, w);
    }

    method RouteAfterFailure(failed: Routed, permanent: bool, extra: map<string, Adapter>, w: World)
      returns (routed: Option<Routed>)
      modifies this`healthCache
      ensures Outcome(routed, healthCache)
              == AfterFailure(settings, extra, scout.registry.byId, failed, permanent, old(healthCache), w)
      ensures permanent ==> routed == None && healthCache == old(healthCache)
    {
      if permanent {
        return None;
      }
      healthCache := healthCache[failed.adapter.name := Health(false, w.clock(0))];
      if failed.decision.None? {
        return None;
      }
      routed := ResolveOrFail(failed.decision.value, Some(failed.adapter.name), extra, w);
    }
  }
}
