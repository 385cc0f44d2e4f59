/** The LOCAL/CLOUD router: health bookkeeping per tier, routing order and failover. */
module TieredRouting {
  import opened Wrappers

  datatype Tier = Local | Cloud

  datatype RoutingPolicy = AlwaysLocal | AlwaysCloud | ScoutDriven

  /** `served` is the model an adapter is pinned to, if any; `serves` is its own answer for a model id. */
  datatype Adapter = Adapter(name: string, served: Option<string>, serves: string -> bool)

  /** An adapter that does not override the answer says yes to every model, pinned or not. */
  function StockAdapter(name: string, served: Option<string>): Adapter {
    Adapter(name, served, (model: string) => true)
  }

  datatype HealthState = HealthState(healthy: bool, lastCheck: real, failures: nat)

  type Health = map<Tier, HealthState>

  datatype Settings = Settings(adapters: map<Tier, Adapter>, policy: RoutingPolicy, skipUnhealthy: bool, ttl: real,
                               threshold: nat)

  /** What happens to the records: a failed call is counted, a success reported, or the answer of a probe recorded under
      the time the probe began. `first` says that the probe found no record when it began. */
  datatype Move =
    | Marked(tier: Tier, at: real)
    | Praised(tier: Tier, at: real)
    | Landed(tier: Tier, first: bool, ok: bool, at: real)

  /** What one call meets outside, reading by reading: the clock, the adapters' own answers, and what other requests do
      to the records while the call waits for an answer. */
  datatype World = World(clock: nat -> real, probe: nat -> bool, meanwhile: nat -> seq<Move>)

  /** `moves` is what was done to the records, by the call and by others during it. */
  datatype Outcome = Outcome(tier: Option<Tier>, health: Health, moves: seq<Move>)

  function Other(t: Tier): Tier {
    if t == Local then Cloud else Local
  }

  // ----- Specification -------------------------------------------------------------

  function Success(h: Health, tier: Tier, now: real): Health {
    if tier in h then h[tier := HealthState(true, now, 0)] else h
  }

  function MarkFailure(s: Settings, h: Health, tier: Tier, now: real): Health {
    var before := if tier in h then h[tier] else HealthState(true, 0.0, 0);
    h[tier := HealthState(before.healthy && before.failures + 1 < s.threshold, now, before.failures + 1)]
  }

  /** A first probe brings a record of its own, which replaces any record made since it began. */
  function Do(s: Settings, h: Health, m: Move): Health {
    match m
    case Marked(tier, at) => MarkFailure(s, h, tier, at)
    case Praised(tier, at) => Success(h, tier, at)
    case Landed(tier, first, ok, at) =>
      h[tier := HealthState(ok, at, if tier in h && !first && !ok then h[tier].failures else 0)]
  }

  function DoAll(s: Settings, h: Health, ms: seq<Move>): Health {
    if ms == [] then h else Do(s, DoAll(s, h, ms[..|ms| - 1]), ms[|ms| - 1])
  }

  /** Some first probe of the tier brought its own record. */
  predicate Replaced(ms: seq<Move>, tier: Tier) {
    exists k :: 0 <= k < |ms| && ms[k].Landed? && ms[k].first && ms[k].tier == tier
  }

  /** Reading i: a fresh record answers at once, otherwise the adapter is asked and others go on meanwhile. Its answer
      is recorded, unless the record found at the start is no longer the tier's. */
  function Check(s: Settings, h: Health, tier: Tier, w: World, i: nat): (bool, Health, seq<Move>) {
    if tier !in s.adapters then (false, h, [])
    else if !s.skipUnhealthy then (true, h, [])
    else if tier in h && w.clock(i) - h[tier].lastCheck < s.ttl then (h[tier].healthy, h, [])
    else
      var others := DoAll(s, h, w.meanwhile(i));
      if tier in h && Replaced(w.meanwhile(i), tier) then (w.probe(i), others, w.meanwhile(i))
      else
        var own := Landed(tier, tier !in h, w.probe(i), w.clock(i));
        (w.probe(i), Do(s, others, own), w.meanwhile(i) + [own])
  }

  function Preferred(s: Settings, scouted: Tier): Tier {
    match s.policy
    case AlwaysLocal => Local
    case AlwaysCloud => Cloud
    case ScoutDriven => scouted
  }

  function RouteStep(s: Settings, h: Health, scouted: Tier, w: World): Outcome {
    var first := Preferred(s, scouted);
    var (ok, h1, moves1) := Check(s, h, first, w, 0);
    if ok then Outcome(Some(first), h1, moves1)
    else
      var (ok2, h2, moves2) := Check(s, h1, Other(first), w, 1);
      Outcome(if ok2 then Some(Other(first)) else None, h2, moves1 + moves2)
  }

  function FailureStep(s: Settings, h: Health, failed: Tier, permanent: bool, model: string, w: World): Outcome {
    if permanent then Outcome(None, h, [])
    else
      var marked, other := MarkFailure(s, h, failed, w.clock(0)), Other(failed);
      var (ok, after, moves) := Check(s, marked, other, w, 1);
      Outcome(if ok && s.adapters[other].serves(model) then Some(other) else None, after,
              [Marked(failed, w.clock(0))] + moves)
  }

  /** A call of the router, or anything other requests do between two calls. */
  datatype Call =
    | Routes(scouted: Tier, world: World)
    | Fails(failed: Tier, permanent: bool, model: string, world: World)
    | Others(moves: seq<Move>)

  function Step(s: Settings, h: Health, call: Call): Outcome {
    match call
    case Routes(scouted, w) => RouteStep(s, h, scouted, w)
    case Fails(failed, permanent, model, w) => FailureStep(s, h, failed, permanent, model, w)
    case Others(ms) => Outcome(None, DoAll(s, h, ms), ms)
  }

  /** The state of a fresh router after a list of calls, and all that was done to its records. */
  function Run(s: Settings, calls: seq<Call>): (Health, seq<Move>) {
    if calls == [] then (map[], [])
    else
      var (h, moves) := Run(s, calls[..|calls| - 1]);
      var out := Step(s, h, calls[|calls| - 1]);
      (out.health, moves + out.moves)
  }

  // ----- Every call is a list of moves ---------------------------------------------------

  lemma {:induction false} DoAllConcat(s: Settings, h: Health, a: seq<Move>, b: seq<Move>)
    ensures DoAll(s, h, a + b) == DoAll(s, DoAll(s, h, a), b)
  {
    if b == [] {
      assert a + b == a;
    } else {
      var n := |b| - 1;
      assert (a + b)[..|a| + n] == a + b[..n];
      DoAllConcat(s, h, a, b[..n]);
    }
  }

  lemma CheckIsMoves(s: Settings, h: Health, tier: Tier, w: World, i: nat)
    ensures var (_, after, moves) := Check(s, h, tier, w, i); after == DoAll(s, h, moves)
  {
    var own := Landed(tier, tier !in h, w.probe(i), w.clock(i));
    assert (w.meanwhile(i) + [own])[..|w.meanwhile(i)|] == w.meanwhile(i);
  }

  lemma StepIsMoves(s: Settings, h: Health, call: Call)
    ensures var out := Step(s, h, call); out.health == DoAll(s, h, out.moves)
  {
    match call
    case Routes(scouted, w) =>
      var first := Preferred(s, scouted);
      var (ok, h1, moves1) := Check(s, h, first, w, 0);
      CheckIsMoves(s, h, first, w, 0);
      CheckIsMoves(s, h1, Other(first), w, 1);
      DoAllConcat(s, h, moves1, Check(s, h1, Other(first), w, 1).2);
    case Fails(failed, permanent, _, w) =>
      var mark, marked := [Marked(failed, w.clock(0))], MarkFailure(s, h, failed, w.clock(0));
      assert DoAll(s, h, mark[..0]) == h;
      assert DoAll(s, h, mark) == marked;
      CheckIsMoves(s, marked, Other(failed), w, 1);
      DoAllConcat(s, h, mark, Check(s, marked, Other(failed), w, 1).2);
    case Others(ms) =>
  }

  lemma {:induction false} RunIsMoves(s: Settings, calls: seq<Call>)
    ensures Run(s, calls).0 == DoAll(s, map[], Run(s, calls).1)
  {
    if calls != [] {
      var (h, moves) := Run(s, calls[..|calls| - 1]);
      RunIsMoves(s, calls[..|calls| - 1]);
      StepIsMoves(s, h, calls[|calls| - 1]);
      DoAllConcat(s, map[], moves, Step(s, h, calls[|calls| - 1]).moves);
    }
  }

  /** A record answers for less than a time to live; from then on, or without one, the adapter is asked. */
  lemma RecordAnswersIff(s: Settings, h: Health, tier: Tier, w: World, i: nat)
    requires tier in s.adapters && s.skipUnhealthy
    ensures var (ok, after, moves) := Check(s, h, tier, w, i);
            var known := tier in h && w.clock(i) - h[tier].lastCheck < s.ttl;
            && (known <==> moves == [])
            && ok == if known then h[tier].healthy else w.probe(i)
  {
  }

  /** An answer is recorded under the time the probe began, except exactly when a first probe of the tier ended in the
      meantime: that one brought its own record, and the answer goes to the record it replaced. */
  lemma AnswerIsRecordedIff(s: Settings, h: Health, tier: Tier, w: World, i: nat)
    requires tier in s.adapters && s.skipUnhealthy
    requires tier in h ==> w.clock(i) - h[tier].lastCheck >= s.ttl
    ensures var (ok, after, moves) := Check(s, h, tier, w, i);
            if tier in h && exists m :: m in w.meanwhile(i) && m.Landed? && m.first && m.tier == tier
            then after == DoAll(s, h, w.meanwhile(i))
            else tier in after && after[tier].healthy == ok && after[tier].lastCheck == w.clock(i)
  {
    if m :| m in w.meanwhile(i) && m.Landed? && m.first && m.tier == tier {
      var k :| 0 <= k < |w.meanwhile(i)| && w.meanwhile(i)[k] == m;
      assert Replaced(w.meanwhile(i), tier);
    }
  }

  // ----- The records are what the moves say ------------------------------------------------

  /** Failed calls since the tier last answered well. */
  function FailuresSince(ms: seq<Move>, tier: Tier): nat {
    if ms == [] then 0
    else
      var last, front := ms[|ms| - 1], ms[..|ms| - 1];
      if last.tier != tier then FailuresSince(front, tier)
      else match last
        case Marked(_, _) => FailuresSince(front, tier) + 1
        case Praised(_, _) => 0
        case Landed(_, _, ok, _) => if ok then 0 else FailuresSince(front, tier)
  }

  /** Whether a bad answer of the tier was recorded since it last answered well. */
  predicate BadProbeSince(ms: seq<Move>, tier: Tier) {
    if ms == [] then false
    else
      var last, front := ms[|ms| - 1], ms[..|ms| - 1];
      if last.tier != tier || last.Marked? then BadProbeSince(front, tier)
      else last.Landed? && !last.ok
  }

  /** Whether, since the tier last answered well, a first probe ended badly after a failed call was counted. */
  predicate Dropped(ms: seq<Move>, tier: Tier) {
    if ms == [] then false
    else
      var last, front := ms[|ms| - 1], ms[..|ms| - 1];
      if last.tier != tier || last.Marked? then Dropped(front, tier)
      else last.Landed? && !last.ok && (Dropped(front, tier) || (last.first && FailuresSince(front, tier) > 0))
  }

  predicate Explained(s: Settings, h: Health, ms: seq<Move>, tier: Tier) {
    if tier in h then
      && h[tier].failures <= FailuresSince(ms, tier)
      && (h[tier].failures == FailuresSince(ms, tier) <==> !Dropped(ms, tier))
      && (h[tier].healthy <==> FailuresSince(ms, tier) < s.threshold && !BadProbeSince(ms, tier))
    else FailuresSince(ms, tier) == 0 && !BadProbeSince(ms, tier)
  }

  lemma {:induction false} DroppedIsBad(ms: seq<Move>, tier: Tier)
    ensures Dropped(ms, tier) ==> BadProbeSince(ms, tier) && FailuresSince(ms, tier) > 0
  {
    if ms != [] { DroppedIsBad(ms[..|ms| - 1], tier); }
  }

  lemma {:induction false} MovesExplain(s: Settings, ms: seq<Move>, tier: Tier)
    requires s.threshold >= 1
    ensures Explained(s, DoAll(s, map[], ms), ms, tier)
  {
    if ms != [] {
      MovesExplain(s, ms[..|ms| - 1], tier);
      DroppedIsBad(ms[..|ms| - 1], tier);
    }
  }

  /** After any calls on a fresh router, however they overlap: a tier is unhealthy exactly when the calls that failed
      since it last answered well reach the threshold or a bad answer was recorded since then. Its counter is the
      number of these calls, except exactly when a first probe ended badly after one of them; then it is lower. */
  lemma HealthIsItsHistory(s: Settings, calls: seq<Call>, tier: Tier)
    requires s.threshold >= 1
    ensures Explained(s, Run(s, calls).0, Run(s, calls).1, tier)
  {
    RunIsMoves(s, calls);
    MovesExplain(s, Run(s, calls).1, tier);
  }

  // ----- Calls that do not overlap lose no count ----------------------------------------------

  /** Nothing happens while the call waits, and between calls only successes are reported. */
  ghost predicate Alone(call: Call) {
    match call
    case Routes(_, w) => forall i :: w.meanwhile(i) == []
    case Fails(_, _, _, w) => forall i :: w.meanwhile(i) == []
    case Others(ms) => forall m :: m in ms ==> m.Praised?
  }

  /** A counter that is right: nothing was dropped, and a tier without record has no failure. */
  predicate Whole(h: Health, ms: seq<Move>, tier: Tier) {
    !Dropped(ms, tier) && (tier !in h ==> FailuresSince(ms, tier) == 0)
  }

  lemma CheckKeepsWhole(s: Settings, h: Health, ms: seq<Move>, asked: Tier, w: World, i: nat, tier: Tier)
    requires Whole(h, ms, tier) && w.meanwhile(i) == []
    ensures var (_, after, moves) := Check(s, h, asked, w, i); Whole(after, ms + moves, tier)
  {
    var own := Landed(asked, asked !in h, w.probe(i), w.clock(i));
    assert ms + [] == ms && [] + [own] == [own];
    assert (ms + [own])[..|ms|] == ms;
  }

  lemma {:induction false} PraiseKeepsWhole(s: Settings, h: Health, ms: seq<Move>, more: seq<Move>, tier: Tier)
    requires Whole(h, ms, tier) && forall m :: m in more ==> m.Praised?
    ensures Whole(DoAll(s, h, more), ms + more, tier)
  {
    if more == [] {
      assert ms + more == ms;
    } else {
      var front := more[..|more| - 1];
      assert (ms + more)[..|ms + more| - 1] == ms + front;
      PraiseKeepsWhole(s, h, ms, front, tier);
    }
  }

  lemma StepKeepsWhole(s: Settings, h: Health, ms: seq<Move>, call: Call, tier: Tier)
    requires Whole(h, ms, tier) && Alone(call)
    ensures var out := Step(s, h, call); Whole(out.health, ms + out.moves, tier)
  {
    match call
    case Routes(scouted, w) =>
      var first := Preferred(s, scouted);
      var (ok, h1, moves1) := Check(s, h, first, w, 0);
      CheckKeepsWhole(s, h, ms, first, w, 0, tier);
      CheckKeepsWhole(s, h1, ms + moves1, Other(first), w, 1, tier);
      var moves2 := Check(s, h1, Other(first), w, 1).2;
      assert ms + (moves1 + moves2) == ms + moves1 + moves2;
    case Fails(failed, permanent, _, w) =>
      var mark, marked := Marked(failed, w.clock(0)), MarkFailure(s, h, failed, w.clock(0));
      assert (ms + [mark])[..|ms|] == ms && ms + [] == ms;
      CheckKeepsWhole(s, marked, ms + [mark], Other(failed), w, 1, tier);
      var moves := Check(s, marked, Other(failed), w, 1).2;
      assert ms + ([mark] + moves) == ms + [mark] + moves;
    case Others(more) =>
      PraiseKeepsWhole(s, h, ms, more, tier);
  }

  /** Without overlapping calls a tier's counter is always the number of calls that failed since it last answered
      well. */
  lemma {:induction false} NoOverlapNoDrop(s: Settings, calls: seq<Call>, tier: Tier)
    requires s.threshold >= 1 && forall c :: c in calls ==> Alone(c)
    ensures var (h, ms) := Run(s, calls);
            Whole(h, ms, tier) && (tier in h ==> h[tier].failures == FailuresSince(ms, tier))
  {
    if calls != [] {
      var (h, ms) := Run(s, calls[..|calls| - 1]);
      NoOverlapNoDrop(s, calls[..|calls| - 1], tier);
      StepKeepsWhole(s, h, ms, calls[|calls| - 1], tier);
    }
    HealthIsItsHistory(s, calls, tier);
  }

  /** A tier's very first probe is out while a call to the tier fails: when the probe ends, it replaces the record of
      the failure. A bad answer sets the counter back to zero, a good one hands the tier out. */
  lemma LateFirstProbe(s: Settings, tier: Tier, w: World)
    requires s.skipUnhealthy && s.threshold >= 1 && tier in s.adapters && Preferred(s, tier) == tier
    requires w.meanwhile(0) == [Marked(tier, w.clock(0))] && w.meanwhile(1) == []
    ensures var out := RouteStep(s, map[], tier, w);
            && tier in out.health && out.health[tier].failures == 0
            && (w.probe(0) ==> out.tier == Some(tier))
            && (!w.probe(0) ==> FailuresSince(out.moves, tier) == 1 && Dropped(out.moves, tier))
  {
    var mark, own := Marked(tier, w.clock(0)), Landed(tier, true, w.probe(0), w.clock(0));
    var (ok, h1, moves) := Check(s, map[], tier, w, 0);
    assert moves == [mark, own] && [mark, own][..1] == [mark] && [mark][..0] == [];
    assert FailuresSince([mark], tier) == 1;
    if !ok {
      var others := Check(s, h1, Other(tier), w, 1).2;
      if others == [] {
        assert moves + others == moves;
      } else {
        assert |others| == 1 && others[0].tier != tier && (moves + others)[..2] == moves;
      }
    }
  }

  /** A tier can be handed out: it has an adapter and, where health counts, its record says healthy. */
  predicate Usable(s: Settings, h: Health, t: Tier) {
    t in s.adapters && (s.skipUnhealthy ==> t in h && h[t].healthy)
  }

  predicate Leaves(ms: seq<Move>, t: Tier) {
    forall m :: m in ms ==> m.tier != t
  }

  /** No other request touches the tier's record while the call waits. */
  ghost predicate Untouched(w: World, t: Tier) {
    forall i :: Leaves(w.meanwhile(i), t)
  }

  predicate SameRecord(h: Health, after: Health, t: Tier) {
    (t in h <==> t in after) && (t in h ==> h[t] == after[t])
  }

  lemma {:induction false} MovesLeave(s: Settings, h: Health, ms: seq<Move>, t: Tier)
    requires Leaves(ms, t)
    ensures SameRecord(h, DoAll(s, h, ms), t)
  {
    if ms != [] { MovesLeave(s, h, ms[..|ms| - 1], t); }
  }

  /** A check says what the tier's record says afterwards, and leaves the other tier's record alone. */
  lemma CheckTells(s: Settings, h: Health, asked: Tier, w: World, i: nat, t: Tier)
    requires Leaves(w.meanwhile(i), t)
    ensures var (ok, after, _) := Check(s, h, asked, w, i);
            if asked == t then ok <==> Usable(s, after, t) else SameRecord(h, after, t)
  {
    MovesLeave(s, h, w.meanwhile(i), t);
  }

  /** Routing gives the preferred tier if it is usable, else the other one if that is, judged by the records the call
      leaves behind where no other request touched them while it waited. */
  lemma RouteGivesBestUsable(s: Settings, h: Health, scouted: Tier, w: World)
    ensures var out, first := RouteStep(s, h, scouted, w), Preferred(s, scouted);
            && (out.tier.Some? ==> out.tier.value in s.adapters)
            && (Untouched(w, first) ==> (out.tier == Some(first) <==> Usable(s, out.health, first)))
            && (Untouched(w, first) && Untouched(w, Other(first)) ==>
                  (out.tier == Some(Other(first)) <==>
                   !Usable(s, out.health, first) && Usable(s, out.health, Other(first))))
  {
    var first := Preferred(s, scouted);
    var h1 := Check(s, h, first, w, 0).1;
    if Untouched(w, first) {
      assert Leaves(w.meanwhile(0), first) && Leaves(w.meanwhile(1), first);
      CheckTells(s, h, first, w, 0, first);
      CheckTells(s, h1, Other(first), w, 1, first);
    }
    if Untouched(w, Other(first)) {
      assert Leaves(w.meanwhile(1), Other(first));
      CheckTells(s, h1, Other(first), w, 1, Other(first));
    }
  }

  /** With both tiers usable, a fixed policy is obeyed whatever the scout says, and otherwise the scout is. */
  lemma PolicyIsObeyed(s: Settings, h: Health, scouted: Tier, w: World)
    requires Untouched(w, Local) && Untouched(w, Cloud)
    ensures var out := RouteStep(s, h, scouted, w);
            Usable(s, out.health, Local) && Usable(s, out.health, Cloud) ==>
              && (s.policy == AlwaysLocal ==> out.tier == Some(Local))
              && (s.policy == AlwaysCloud ==> out.tier == Some(Cloud))
              && (s.policy == ScoutDriven ==> out.tier == Some(scouted))
  {
    RouteGivesBestUsable(s, h, scouted, w);
  }

  /** A request that fails over is never given the failed tier; it is given the other tier exactly when that one is
      configured, serves the model, and is recorded as healthy where no other request touched its record. */
  lemma FailoverLeavesFailedTier(s: Settings, h: Health, failed: Tier, permanent: bool, model: string, w: World)
    ensures var out := FailureStep(s, h, failed, permanent, model, w);
            && out.tier != Some(failed)
            && (permanent ==> out.health == h)
            && (out.tier.Some? ==> !permanent && Other(failed) in s.adapters && s.adapters[Other(failed)].serves(model))
            && (Untouched(w, Other(failed)) ==>
                  (out.tier.Some? <==> !permanent && Usable(s, out.health, Other(failed))
                                       && s.adapters[Other(failed)].serves(model)))
  {
    if Untouched(w, Other(failed)) {
      assert Leaves(w.meanwhile(1), Other(failed));
      CheckTells(s, MarkFailure(s, h, failed, w.clock(0)), Other(failed), w, 1, Other(failed));
    }
  }

  /** A pin alone never blocks failover: a stock adapter is handed out for every model, whatever it is pinned to,
      exactly when it is healthy. */
  lemma PinDoesNotBlockFailover(s: Settings, h: Health, failed: Tier, name: string, served: Option<string>,
                                model: string, w: World)
    requires Other(failed) in s.adapters && s.adapters[Other(failed)] == StockAdapter(name, served)
    ensures var out := FailureStep(s, h, failed, false, model, w);
            Untouched(w, Other(failed)) ==> (out.tier == Some(Other(failed)) <==> Usable(s, out.health, Other(failed)))
  {
    FailoverLeavesFailedTier(s, h, failed, false, model, w);
  }

  /** A cloud failure for one model is handed to a local adapter pinned to another. */
  lemma PinnedAdapterGetsOtherModel()
    ensures var s := Settings(map[Local := StockAdapter("vllm", Some("qwen"))], ScoutDriven, true, 30.0, 3);
            var w := World((i: nat) => 100.0, (i: nat) => true, (i: nat) => []);
            FailureStep(s, map[], Cloud, false, "claude-haiku", w).tier == Some(Local)
  {
    var s := Settings(map[Local := StockAdapter("vllm", Some("qwen"))], ScoutDriven, true, 30.0, 3);
    var w := World((i: nat) => 100.0, (i: nat) => true, (i: nat) => []);
    assert Untouched(w, Local);
    PinDoesNotBlockFailover(s, map[], Cloud, "vllm", Some("qwen"), "claude-haiku", w);
  }

  // ----- A tripped tier rests --------------------------------------------------------------

  predicate Resting(h: Health, tier: Tier, t0: real) {
    tier in h && !h[tier].healthy && h[tier].lastCheck >= t0
  }

  /** No success is reported for the tier, and no good or older answer of a probe of it is recorded. */
  predicate Spares(ms: seq<Move>, tier: Tier, t0: real) {
    forall k :: 0 <= k < |ms| && ms[k].tier == tier ==>
      !ms[k].Praised? && (ms[k].Landed? ==> !ms[k].ok) && ms[k].at >= t0
  }

  /** The call comes within a time to live from t0, and what others do spares the tier. */
  ghost predicate Respects(call: Call, tier: Tier, t0: real, ttl: real) {
    match call
    case Routes(_, w) => forall i :: t0 <= w.clock(i) < t0 + ttl && Spares(w.meanwhile(i), tier, t0)
    case Fails(_, _, _, w) => forall i :: t0 <= w.clock(i) < t0 + ttl && Spares(w.meanwhile(i), tier, t0)
    case Others(ms) => Spares(ms, tier, t0)
  }

  lemma {:induction false} MovesKeepResting(s: Settings, h: Health, ms: seq<Move>, tier: Tier, t0: real)
    requires Resting(h, tier, t0) && Spares(ms, tier, t0)
    ensures Resting(DoAll(s, h, ms), tier, t0)
  {
    if ms != [] { MovesKeepResting(s, h, ms[..|ms| - 1], tier, t0); }
  }

  lemma CheckKeepsResting(s: Settings, h: Health, asked: Tier, w: World, i: nat, tier: Tier, t0: real)
    requires s.skipUnhealthy && Resting(h, tier, t0) && w.clock(i) < t0 + s.ttl && Spares(w.meanwhile(i), tier, t0)
    ensures var c := Check(s, h, asked, w, i); Resting(c.1, tier, t0) && (asked == tier ==> !c.0)
  {
    MovesKeepResting(s, h, w.meanwhile(i), tier, t0);
  }

  lemma StepKeepsResting(s: Settings, h: Health, call: Call, tier: Tier, t0: real)
    requires s.skipUnhealthy && Resting(h, tier, t0) && Respects(call, tier, t0, s.ttl)
    ensures var out := Step(s, h, call); Resting(out.health, tier, t0) && out.tier != Some(tier)
  {
    match call
    case Routes(scouted, w) =>
      var first := Preferred(s, scouted);
      CheckKeepsResting(s, h, first, w, 0, tier, t0);
      CheckKeepsResting(s, Check(s, h, first, w, 0).1, Other(first), w, 1, tier, t0);
    case Fails(failed, _, _, w) =>
      CheckKeepsResting(s, MarkFailure(s, h, failed, w.clock(0)), Other(failed), w, 1, tier, t0);
    case Others(ms) =>
      MovesKeepResting(s, h, ms, tier, t0);
  }

  /** Once unhealthy, a tier is handed out by no call for one time to live, unless a success is reported for it or the
      late answer of a probe of it is recorded, which is good or older than its mark. */
  lemma {:induction false} UnhealthyTierRests(s: Settings, h: Health, calls: seq<Call>, tier: Tier, t0: real)
    requires s.skipUnhealthy && Resting(h, tier, t0)
    requires forall c :: c in calls ==> Respects(c, tier, t0, s.ttl)
    ensures forall t :: t in Answers(s, h, calls) ==> t != Some(tier)
    decreases |calls|
  {
    if calls != [] {
      StepKeepsResting(s, h, calls[0], tier, t0);
      UnhealthyTierRests(s, Step(s, h, calls[0]).health, calls[1..], tier, t0);
    }
  }

  function Answers(s: Settings, h: Health, calls: seq<Call>): seq<Option<Tier>>
    decreases |calls|
  {
    if calls == [] then []
    else var out := Step(s, h, calls[0]); [out.tier] + Answers(s, out.health, calls[1..])
  }

  // ----- The router object -----------------------------------------------------------------------

  class TieredRouter {
    const settings: Settings
    var health: Health

    constructor (settings: Settings)
      requires settings.threshold >= 1
      ensures this.settings == settings && health == map[]
    {
      this.settings, health := settings, map[];
    }

    method IsHealthy(tier: Tier, w: World, i: nat) returns (healthy: bool)
      modifies this`health
      ensures var c := Check(settings, old(health), tier, w, i); healthy == c.0 && health == c.1
    {
      if tier !in settings.adapters {
        return false;
      }
      if !settings.skipUnhealthy {
        return true;
      }
      var known := tier in health;
      if known {
        var state := health[tier];
        if w.clock(i) - state.lastCheck < settings.ttl {
          return state.healthy;
        }
      }
      health := DoAll(settings, health, w.meanwhile(i));
      healthy := w.probe(i);
      if !known || !Replaced(w.meanwhile(i), tier) {
        var state := if known && tier in health then health[tier] else HealthState(true, 0.0, 0);
        state := state.(lastCheck := w.clock(i), healthy := healthy);
        if healthy {
          state := state.(failures := 0);
        }
        health := health[tier := state];
      }
    }

    method RecordSuccess(tier: Tier, now: real)
      modifies this`health
      ensures health == Success(old(health), tier, now)
    {
      if tier in health {
        health := health[tier := HealthState(true, now, 0)];
      }
    }

    method Route(scouted: Tier, w: World) returns (tier: Option<Tier>)
      modifies this`health
      ensures var out := RouteStep(settings, old(health), scouted, w); tier == out.tier && health == out.health
    {
      var preferred := Preferred(settings, scouted);
      var ok := IsHealthy(preferred, w, 0);
      if ok {
        return Some(preferred);
      }
      ok := IsHealthy(Other(preferred), w, 1);
      tier := if ok then Some(Other(preferred)) else None;
    }

    method RouteAfterFailure(failed: Tier, permanent: bool, model: string, w: World) returns (tier: Option<Tier>)
      modifies this`health
      ensures var out := FailureStep(settings, old(health), failed, permanent, model, w);
              tier == out.tier && health == out.health
      ensures tier != Some(failed)
      ensures permanent ==> health == old(health)
    {
      if permanent {
        return None;
      }
      var state := if failed in health then health[failed] else HealthState(true, 0.0, 0);
      state := state.(failures := state.failures + 1, lastCheck := w.clock(0));
      if state.failures >= settings.threshold {
        state := state.(healthy := false);
      }
      health := health[failed := state];
      var other := Other(failed);
      var ok := IsHealthy(other, w, 1);
      if !ok || !settings.adapters[other].serves(model) {
        return None;
      }
      tier := Some(other);
    }
  }
}
