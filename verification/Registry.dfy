/** Model rows, the latency-adjusted ranking and the registry objects. */
module Registry {
  import opened Wrappers

  datatype ModelEntry = ModelEntry(
    modelId: string, provider: string, contextWindow: int,
    costIn: real, costOut: real, taskScores: map<string, real>,
    supportsTools: bool, enabled: bool, providerModelId: string,
    ttft: Option<real>, outputTps: Option<real>)

  datatype Query = Query(
    task: string, threshold: real, eligible: Option<set<string>>, minContext: int, needTools: bool,
    latencyWeight: real, refOutputTokens: int, admitFloor: Option<real>)

  const AGENTIC := "agentic_coding"

  function Score(e: ModelEntry, task: string): real {
    if task in e.taskScores then e.taskScores[task] else 0.0
  }

  /** How input and output prices are mixed into one cost. */
  datatype Weights = Weights(input: real, output: real)

  const DEFAULT_WEIGHTS := Weights(0.6, 0.4)

  function Blend(e: ModelEntry, w: Weights): real {
    e.costIn * w.input + e.costOut * w.output
  }

  function BlendedCost(e: ModelEntry): real {
    Blend(e, DEFAULT_WEIGHTS)
  }

  /** Seconds per turn, or `None` without throughput data. */
  function TurnLatency(e: ModelEntry, outputTokens: int): Option<real> {
    if e.outputTps.None? || e.outputTps.value <= 0.0 then None
    else Some(e.ttft.GetOr(0.0) + outputTokens as real / e.outputTps.value)
  }

  /** The filters `pick` and `rank` share. */
  predicate Usable(e: ModelEntry, q: Query) {
    && e.enabled
    && (q.eligible.None? || e.provider in q.eligible.value)
    && e.contextWindow >= q.minContext
    && (q.needTools ==> e.supportsTools)
  }

  predicate Admitted(e: ModelEntry, q: Query) {
    Usable(e, q) &&
    (Score(e, q.task) >= q.threshold ||
     (q.admitFloor.Some? && q.task !in e.taskScores && Score(e, AGENTIC) >= q.admitFloor.value))
  }

  function Filter(es: seq<ModelEntry>, q: Query): seq<ModelEntry> {
    if es == [] then []
    else
      var n := |es| - 1;
      Filter(es[..n], q) + if Admitted(es[n], q) then [es[n]] else []
  }

  // ----- Stable order ---------------------------------------------------------

  /** `s` with x put in front of position p. */
  function Put<T>(s: seq<T>, p: nat, x: T): seq<T>
    requires p <= |s|
  {
    s[..p] + [x] + s[p..]
  }

  lemma PutAt<T>(s: seq<T>, p: nat, x: T, i: nat)
    requires p <= |s| && i <= |s|
    ensures |Put(s, p, x)| == |s| + 1
    ensures Put(s, p, x)[i] == if i < p then s[i] else if i == p then x else s[i - 1]
  {
  }

  /** How many of the positions `order`, taken by key, stay before a key `k` that comes later. */
  function Place(keys: seq<real>, order: seq<nat>, k: real): (p: nat)
    requires forall i :: 0 <= i < |order| ==> order[i] < |keys|
    ensures p <= |order|
    ensures forall i :: p <= i < |order| ==> keys[order[i]] > k
    ensures p > 0 ==> keys[order[p - 1]] <= k
  {
    if order == [] || keys[order[|order| - 1]] <= k then |order| else Place(keys, order[..|order| - 1], k)
  }

  /** Positions 0..n-1 sorted by key as Python's `sorted` does: ties keep their order. */
  function OrderUpTo(keys: seq<real>, n: nat): (order: seq<nat>)
    requires n <= |keys|
    ensures |order| == n && forall i :: 0 <= i < n ==> order[i] < n
  {
    if n == 0 then []
    else
      var before := OrderUpTo(keys, n - 1);
      var p := Place(keys, before, keys[n - 1]);
      Put(before, p, n - 1)
  }

  function Order(keys: seq<real>): (order: seq<nat>)
    ensures |order| == |keys| && forall i :: 0 <= i < |order| ==> order[i] < |keys|
  {
    OrderUpTo(keys, |keys|)
  }

  /** `a` goes before `b`: smaller key, or the same key and listed earlier. */
  predicate Before(keys: seq<real>, a: nat, b: nat)
    requires a < |keys| && b < |keys|
  {
    keys[a] < keys[b] || (keys[a] == keys[b] && a < b)
  }

  ghost predicate InOrder(keys: seq<real>, order: seq<nat>)
    requires forall i :: 0 <= i < |order| ==> order[i] < |keys|
  {
    forall i, j :: 0 <= i < j < |order| ==> Before(keys, order[i], order[j])
  }

  /** Everything up to the place goes before the new position n. */
  lemma PlaceIsAfter(keys: seq<real>, before: seq<nat>, n: nat, p: nat, i: nat)
    requires n < |keys| && (forall k :: 0 <= k < |before| ==> before[k] < n) && i < p <= |before|
    requires InOrder(keys, before) && keys[before[p - 1]] <= keys[n]
    ensures Before(keys, before[i], n)
  {
    if i < p - 1 { assert Before(keys, before[i], before[p - 1]); }
  }

  lemma PlaceSeparates(keys: seq<real>, before: seq<nat>, n: nat, p: nat)
    requires n < |keys| && forall i :: 0 <= i < |before| ==> before[i] < n
    requires InOrder(keys, before) && p == Place(keys, before, keys[n])
    ensures forall i :: 0 <= i < p ==> Before(keys, before[i], n)
    ensures forall i :: p <= i < |before| ==> Before(keys, n, before[i])
  {
    forall i | 0 <= i < p ensures Before(keys, before[i], n) { PlaceIsAfter(keys, before, n, p, i); }
  }

  lemma InsertKeepsOrder(keys: seq<real>, before: seq<nat>, p: nat, x: nat, order: seq<nat>)
    requires x < |keys| && (forall i :: 0 <= i < |before| ==> before[i] < |keys|) && p <= |before|
    requires InOrder(keys, before)
    requires forall i :: 0 <= i < p ==> Before(keys, before[i], x)
    requires forall i :: p <= i < |before| ==> Before(keys, x, before[i])
    requires order == Put(before, p, x)
    ensures forall i :: 0 <= i < |order| ==> order[i] < |keys|
    ensures InOrder(keys, order)
  {
    PutAt(before, p, x, 0);
    forall i | 0 <= i < |order| ensures order[i] < |keys| { PutAt(before, p, x, i); }
    forall i, j | 0 <= i < j < |order| ensures Before(keys, order[i], order[j]) {
      PutAt(before, p, x, i);
      PutAt(before, p, x, j);
    }
  }

  lemma {:induction false} OrderUpToSorted(keys: seq<real>, n: nat)
    requires n <= |keys|
    ensures InOrder(keys, OrderUpTo(keys, n))
  {
    if n > 0 {
      OrderUpToSorted(keys, n - 1);
      var before := OrderUpTo(keys, n - 1);
      var p := Place(keys, before, keys[n - 1]);
      PlaceSeparates(keys, before, n - 1, p);
      InsertKeepsOrder(keys, before, p, n - 1, OrderUpTo(keys, n));
    }
  }

  lemma PutContains<T>(s: seq<T>, p: nat, x: T, y: T)
    requires p <= |s| && (y == x || y in s)
    ensures y in Put(s, p, x)
  {
    if y in s {
      var i :| 0 <= i < |s| && s[i] == y;
      PutAt(s, p, x, if i < p then i else i + 1);
    } else {
      PutAt(s, p, x, p);
    }
  }

  lemma {:induction false} OrderUpToCovers(keys: seq<real>, n: nat, k: nat)
    requires k < n <= |keys|
    ensures k in OrderUpTo(keys, n)
  {
    var before := OrderUpTo(keys, n - 1);
    if k < n - 1 { OrderUpToCovers(keys, n - 1, k); }
    PutContains(before, Place(keys, before, keys[n - 1]), n - 1, k);
  }

  /** The order is the stable sort: every position once, by key, ties in listing order. */
  lemma OrderSorts(keys: seq<real>)
    ensures InOrder(keys, Order(keys))
    ensures forall k :: 0 <= k < |keys| ==> k in Order(keys)
    ensures forall i, j :: 0 <= i < j < |keys| ==> Order(keys)[i] != Order(keys)[j]
  {
    OrderUpToSorted(keys, |keys|);
    forall k | 0 <= k < |keys| ensures k in Order(keys) { OrderUpToCovers(keys, |keys|, k); }
    forall i, j | 0 <= i < j < |keys| ensures Order(keys)[i] != Order(keys)[j] {
      assert Before(keys, Order(keys)[i], Order(keys)[j]);
    }
  }

  // ----- Median ----------------------------------------------------------------

  function Values(keys: seq<real>, order: seq<nat>): (s: seq<real>)
    requires forall i :: 0 <= i < |order| ==> order[i] < |keys|
    ensures |s| == |order| && forall i :: 0 <= i < |order| ==> s[i] == keys[order[i]]
  {
    seq(|order|, i requires 0 <= i < |order| => keys[order[i]])
  }

  function Sorted(xs: seq<real>): (s: seq<real>)
    ensures |s| == |xs|
  {
    Values(xs, Order(xs))
  }

  /** Python's `statistics.median`. */
  function Median(xs: seq<real>): real
    requires xs != []
  {
    Middle(Sorted(xs))
  }

  /** How many values lie below m, or above m. */
  function Count(xs: seq<real>, m: real, below: bool): nat {
    if xs == [] then 0
    else Count(xs[1..], m, below) + if (if below then xs[0] < m else xs[0] > m) then 1 else 0
  }

  lemma {:induction false} CountConcat(a: seq<real>, b: seq<real>, m: real, below: bool)
    ensures Count(a + b, m, below) == Count(a, m, below) + Count(b, m, below)
  {
    if a == [] {
      assert a + b == b;
    } else {
      assert (a + b)[1..] == a[1..] + b;
      CountConcat(a[1..], b, m, below);
    }
  }

  lemma {:induction false} CountExtremes(xs: seq<real>, m: real, below: bool)
    ensures Count(xs, m, below) <= |xs|
    ensures (forall i :: 0 <= i < |xs| ==> if below then xs[i] < m else xs[i] > m) ==> Count(xs, m, below) == |xs|
    ensures (forall i :: 0 <= i < |xs| ==> if below then xs[i] >= m else xs[i] <= m) ==> Count(xs, m, below) == 0
  {
    if xs != [] { CountExtremes(xs[1..], m, below); }
  }

  lemma CountPut(s: seq<real>, p: nat, x: real, m: real, below: bool)
    requires p <= |s|
    ensures Count(Put(s, p, x), m, below) == Count(s, m, below) + Count([x], m, below)
  {
    CountConcat(s[..p] + [x], s[p..], m, below);
    CountConcat(s[..p], [x], m, below);
    CountConcat(s[..p], s[p..], m, below);
    assert s[..p] + s[p..] == s;
  }

  lemma ValuesPut(keys: seq<real>, order: seq<nat>, p: nat, x: nat, more: seq<nat>)
    requires p <= |order| && x < |keys| && forall i :: 0 <= i < |order| ==> order[i] < |keys|
    requires more == Put(order, p, x) && forall i :: 0 <= i < |more| ==> more[i] < |keys|
    ensures Values(keys, more) == Put(Values(keys, order), p, keys[x])
  {
  }

  lemma CountMore(keys: seq<real>, before: seq<nat>, p: nat, x: nat, more: seq<nat>, m: real, below: bool)
    requires p <= |before| && x < |keys| && forall i :: 0 <= i < |before| ==> before[i] < |keys|
    requires more == Put(before, p, x) && forall i :: 0 <= i < |more| ==> more[i] < |keys|
    ensures Count(Values(keys, more), m, below) == Count(Values(keys, before), m, below) + Count([keys[x]], m, below)
  {
    ValuesPut(keys, before, p, x, more);
    CountPut(Values(keys, before), p, keys[x], m, below);
  }

  lemma CountPrefix(keys: seq<real>, n: nat, m: real, below: bool)
    requires 0 < n <= |keys|
    ensures Count(keys[..n], m, below) == Count(keys[..n - 1], m, below) + Count([keys[n - 1]], m, below)
  {
    assert keys[..n] == keys[..n - 1] + [keys[n - 1]];
    CountConcat(keys[..n - 1], [keys[n - 1]], m, below);
  }

  lemma CountStep(keys: seq<real>, n: nat, before: seq<nat>, after: seq<nat>, m: real, below: bool)
    requires 0 < n <= |keys| && before == OrderUpTo(keys, n - 1) && after == OrderUpTo(keys, n)
    requires Count(Values(keys, before), m, below) == Count(keys[..n - 1], m, below)
    ensures Count(Values(keys, after), m, below) == Count(keys[..n], m, below)
  {
    CountMore(keys, before, Place(keys, before, keys[n - 1]), n - 1, after, m, below);
    CountPrefix(keys, n, m, below);
  }

  /** Sorting moves values around but keeps every count. */
  lemma {:induction false} SortingKeepsCounts(keys: seq<real>, n: nat, m: real, below: bool)
    requires n <= |keys|
    ensures Count(Values(keys, OrderUpTo(keys, n)), m, below) == Count(keys[..n], m, below)
  {
    if n > 0 {
      SortingKeepsCounts(keys, n - 1, m, below);
      CountStep(keys, n, OrderUpTo(keys, n - 1), OrderUpTo(keys, n), m, below);
    } else {
      assert keys[..n] == [] && Values(keys, OrderUpTo(keys, n)) == [];
    }
  }

  lemma SortedFacts(xs: seq<real>, m: real)
    ensures forall i, j :: 0 <= i < j < |xs| ==> Sorted(xs)[i] <= Sorted(xs)[j]
    ensures Count(Sorted(xs), m, true) == Count(xs, m, true) && Count(Sorted(xs), m, false) == Count(xs, m, false)
  {
    OrderSorts(xs);
    forall i, j | 0 <= i < j < |xs| ensures Sorted(xs)[i] <= Sorted(xs)[j] {
      assert Before(xs, Order(xs)[i], Order(xs)[j]);
    }
    SortingKeepsCounts(xs, |xs|, m, true);
    SortingKeepsCounts(xs, |xs|, m, false);
    assert xs[..|xs|] == xs;
  }

  /** In a sorted list, a split at p bounds the counts from both sides. */
  lemma SplitCounts(s: seq<real>, m: real, p: nat)
    requires p <= |s| && forall i, j :: 0 <= i < j < |s| ==> s[i] <= s[j]
    ensures p < |s| && s[p] >= m ==> Count(s, m, true) <= p
    ensures p > 0 && s[p - 1] <= m ==> Count(s, m, false) <= |s| - p
    ensures p > 0 && s[p - 1] < m ==> Count(s, m, true) >= p
    ensures p < |s| && s[p] > m ==> Count(s, m, false) >= |s| - p
  {
    SplitCount(s, m, p, true);
    SplitCount(s, m, p, false);
  }

  lemma SplitCount(s: seq<real>, m: real, p: nat, below: bool)
    requires p <= |s| && forall i, j :: 0 <= i < j < |s| ==> s[i] <= s[j]
    ensures below && p < |s| && s[p] >= m ==> Count(s, m, below) <= p
    ensures !below && p > 0 && s[p - 1] <= m ==> Count(s, m, below) <= |s| - p
    ensures below && p > 0 && s[p - 1] < m ==> Count(s, m, below) >= p
    ensures !below && p < |s| && s[p] > m ==> Count(s, m, below) >= |s| - p
  {
    var low, high := s[..p], s[p..];
    assert s == low + high;
    assert forall i :: 0 <= i < |low| ==> low[i] <= s[p - 1];
    assert forall i :: 0 <= i < |high| ==> s[p] <= high[i];
    CountConcat(low, high, m, below);
    CountExtremes(low, m, below);
    CountExtremes(high, m, below);
  }

  /** The median splits its list: no more than half the values on either side. */
  lemma MedianSplits(xs: seq<real>)
    requires xs != []
    ensures 2 * Count(xs, Median(xs), true) <= |xs| && 2 * Count(xs, Median(xs), false) <= |xs|
  {
    var m, n, s := Median(xs), |xs|, Sorted(xs);
    SortedFacts(xs, m);
    SplitCounts(s, m, n / 2);
    SplitCounts(s, m, n / 2 + 1);
    if n % 2 == 0 { assert s[n / 2 - 1] <= s[n / 2]; }
  }

  /** In a sorted list, the value at p has at most p values below it and the rest, but itself, above it. */
  lemma CountsAt(s: seq<real>, p: nat)
    requires p < |s| && forall i, j :: 0 <= i < j < |s| ==> s[i] <= s[j]
    ensures Count(s, s[p], true) <= p && Count(s, s[p], false) < |s| - p
  {
    SplitCounts(s, s[p], p);
    SplitCounts(s, s[p], p + 1);
  }

  /** The median is the midpoint of the two middle values, which are one and the same in a list of odd length. */
  lemma MedianIsMidpoint(xs: seq<real>) returns (a: real, b: real)
    requires xs != []
    ensures a <= b && 2.0 * Median(xs) == a + b
    ensures 2 * Count(xs, a, true) < |xs| && 2 * Count(xs, a, false) <= |xs|
    ensures 2 * Count(xs, b, true) <= |xs| && 2 * Count(xs, b, false) < |xs|
  {
    var s, p, q := Sorted(xs), (|xs| - 1) / 2, |xs| / 2;
    a, b := s[p], s[q];
    SortedFacts(xs, a);
    SortedFacts(xs, b);
    CountsAt(s, p);
    CountsAt(s, q);
    MiddleIsMidpoint(s);
  }

  lemma MiddleIsMidpoint(s: seq<real>)
    requires s != []
    ensures 2.0 * Middle(s) == s[(|s| - 1) / 2] + s[|s| / 2]
  {
    if |s| % 2 == 1 { assert (|s| - 1) / 2 == |s| / 2; } else { assert (|s| - 1) / 2 == |s| / 2 - 1; }
  }

  lemma MiddleIs(s: seq<real>, m: real, p: nat)
    requires p < |s| && forall i, j :: 0 <= i < j < |s| ==> s[i] <= s[j]
    requires Count(s, m, true) <= p && Count(s, m, false) < |s| - p
    ensures s[p] == m
  {
    SplitCounts(s, m, p);
    SplitCounts(s, m, p + 1);
  }

  function Middle(s: seq<real>): real
    requires s != []
  {
    if |s| % 2 == 1 then s[|s| / 2] else (s[|s| / 2 - 1] + s[|s| / 2]) / 2.0
  }

  lemma SplitterIsMiddle(s: seq<real>, m: real)
    requires s != [] && forall i, j :: 0 <= i < j < |s| ==> s[i] <= s[j]
    requires 2 * Count(s, m, true) < |s| && 2 * Count(s, m, false) < |s|
    ensures Middle(s) == m
  {
    MiddleIs(s, m, |s| / 2);
    if |s| % 2 == 0 { MiddleIs(s, m, |s| / 2 - 1); }
  }

  /** A value with strictly less than half of the list on either side is the median. */
  lemma SplitterIsMedian(xs: seq<real>, m: real)
    requires xs != []
    requires 2 * Count(xs, m, true) < |xs| && 2 * Count(xs, m, false) < |xs|
    ensures Median(xs) == m
  {
    SortedFacts(xs, m);
    SplitterIsMiddle(Sorted(xs), m);
  }

  // ----- Effective cost ----------------------------------------------------------

  function Costs(es: seq<ModelEntry>): (r: seq<real>)
    ensures |r| == |es| && forall i :: 0 <= i < |es| ==> r[i] == BlendedCost(es[i])
  {
    seq(|es|, i requires 0 <= i < |es| => BlendedCost(es[i]))
  }

  function Latencies(es: seq<ModelEntry>, outputTokens: int): (r: seq<Option<real>>)
    ensures |r| == |es| && forall i :: 0 <= i < |es| ==> r[i] == TurnLatency(es[i], outputTokens)
  {
    seq(|es|, i requires 0 <= i < |es| => TurnLatency(es[i], outputTokens))
  }

  function Measured(lats: seq<Option<real>>): seq<real> {
    if lats == [] then []
    else if lats[0].Some? then [lats[0].value] + Measured(lats[1..])
    else Measured(lats[1..])
  }

  function Effective(cost: real, weight: real, latency: real): real {
    cost * (1.0 + weight * latency)
  }

  /** The sort keys: plain cost, or cost scaled by latency with the median standing in for missing data. */
  function Keys(costs: seq<real>, lats: seq<Option<real>>, weight: real): (r: seq<real>)
    requires |costs| == |lats|
    ensures |r| == |costs|
  {
    if weight <= 0.0 || Measured(lats) == [] then costs
    else seq(|costs|, i requires 0 <= i < |costs| => Effective(costs[i], weight, lats[i].GetOr(Median(Measured(lats)))))
  }

  /** Rows in ranking order. */
  function Arrange(es: seq<ModelEntry>, order: seq<nat>): (r: seq<ModelEntry>)
    requires forall i :: 0 <= i < |order| ==> order[i] < |es|
    ensures |r| == |order| && forall i :: 0 <= i < |order| ==> r[i] == es[order[i]]
  {
    seq(|order|, i requires 0 <= i < |order| => es[order[i]])
  }

  function KeysOf(es: seq<ModelEntry>, q: Query): (r: seq<real>)
    ensures |r| == |es|
  {
    Keys(Costs(es), Latencies(es, q.refOutputTokens), q.latencyWeight)
  }

  function RankRows(rows: seq<ModelEntry>, q: Query): seq<ModelEntry> {
    var es := Filter(rows, q);
    Arrange(es, Order(KeysOf(es, q)))
  }

  // ----- Missing latency data is neutral --------------------------------------------

  /** `after` fills in some of the missing latencies of `before` with the value m. */
  ghost predicate FilledWith(before: seq<Option<real>>, after: seq<Option<real>>, m: real) {
    |before| == |after| &&
    forall i :: 0 <= i < |before| ==> after[i] == before[i] || (before[i].None? && after[i] == Some(m))
  }

  lemma {:induction false} FillingCounts(before: seq<Option<real>>, after: seq<Option<real>>, m: real, below: bool)
    requires FilledWith(before, after, m)
    ensures Count(Measured(after), m, below) == Count(Measured(before), m, below)
    ensures |Measured(after)| >= |Measured(before)|
    ensures |Measured(after)| == |Measured(before)| ==> after == before
  {
    if before != [] {
      FillingCounts(before[1..], after[1..], m, below);
      CountMeasured(before, m, below);
      CountMeasured(after, m, below);
      assert before == [before[0]] + before[1..] && after == [after[0]] + after[1..];
    }
  }

  lemma CountMeasured(lats: seq<Option<real>>, m: real, below: bool)
    requires lats != []
    ensures Count(Measured(lats), m, below) ==
            Count(Measured(lats[1..]), m, below) +
            if lats[0].Some? && (if below then lats[0].value < m else lats[0].value > m) then 1 else 0
  {
    if lats[0].Some? {
      assert ([lats[0].value] + Measured(lats[1..]))[1..] == Measured(lats[1..]);
    }
  }

  /** Giving any unmeasured rows the current median leaves the median as it is. */
  lemma MedianIsStable(before: seq<Option<real>>, after: seq<Option<real>>)
    requires Measured(before) != [] && FilledWith(before, after, Median(Measured(before)))
    ensures Measured(after) != [] && Median(Measured(after)) == Median(Measured(before))
  {
    var m := Median(Measured(before));
    FillingCounts(before, after, m, true);
    FillingCounts(before, after, m, false);
    if after != before {
      MedianSplits(Measured(before));
      SplitterIsMedian(Measured(after), m);
    }
  }

  lemma ImputedKeys(costs: seq<real>, before: seq<Option<real>>, after: seq<Option<real>>, weight: real, m: real,
                    i: nat)
    requires |costs| == |before| == |after| && i < |costs| && weight > 0.0
    requires Measured(before) != [] && Measured(after) != []
    requires m == Median(Measured(before)) == Median(Measured(after)) && FilledWith(before, after, m)
    ensures Keys(costs, after, weight)[i] == Keys(costs, before, weight)[i]
  {
    var a, b := after[i].GetOr(m), before[i].GetOr(m);
    assert a == b;
    assert Keys(costs, after, weight)[i] == Effective(costs[i], weight, a);
    assert Keys(costs, before, weight)[i] == Effective(costs[i], weight, b);
  }

  /** Imputation is neutral: the whole order stays when unmeasured rows turn out to be exactly median. */
  lemma ImputationIsNeutral(costs: seq<real>, before: seq<Option<real>>, after: seq<Option<real>>, weight: real)
    requires |costs| == |before| && Measured(before) != []
    requires FilledWith(before, after, Median(Measured(before)))
    ensures Keys(costs, after, weight) == Keys(costs, before, weight)
    ensures Order(Keys(costs, after, weight)) == Order(Keys(costs, before, weight))
  {
    MedianIsStable(before, after);
    if weight > 0.0 {
      forall i | 0 <= i < |costs| ensures Keys(costs, after, weight)[i] == Keys(costs, before, weight)[i] {
        ImputedKeys(costs, before, after, weight, Median(Measured(before)), i);
      }
      assert Keys(costs, after, weight) == Keys(costs, before, weight);
    }
  }

  // ----- What `rank` returns ----------------------------------------------------------

  lemma {:induction false} FilterKeepsAdmitted(rows: seq<ModelEntry>, q: Query)
    ensures forall e :: e in Filter(rows, q) <==> e in rows && Admitted(e, q)
  {
    if rows != [] {
      var n := |rows| - 1;
      FilterKeepsAdmitted(rows[..n], q);
      assert rows == rows[..n] + [rows[n]];
    }
  }

  /** `rank` returns exactly the admitted rows, as the stable sort of the listing by effective cost. */
  lemma RankIsStableSort(rows: seq<ModelEntry>, q: Query)
    ensures var es, keys := Filter(rows, q), KeysOf(Filter(rows, q), q);
            && (forall e :: e in RankRows(rows, q) <==> e in rows && Admitted(e, q))
            && multiset(RankRows(rows, q)) == multiset(es)
            && InOrder(keys, Order(keys))
            && (forall i :: 0 <= i < |es| ==> RankRows(rows, q)[i] == es[Order(keys)[i]])
  {
    var es, keys := Filter(rows, q), KeysOf(Filter(rows, q), q);
    OrderSorts(keys);
    ArrangeKeepsElements(es, keys, |es|);
    assert es[..|es|] == es;
    FilterKeepsAdmitted(rows, q);
    forall e ensures e in RankRows(rows, q) <==> e in es {
      assert e in RankRows(rows, q) <==> e in multiset(RankRows(rows, q));
      assert e in es <==> e in multiset(es);
    }
  }

  lemma MultisetPut(a: seq<ModelEntry>, p: nat, e: ModelEntry)
    requires p <= |a|
    ensures multiset(Put(a, p, e)) == multiset(a) + multiset{e}
  {
    assert a[..p] + a[p..] == a;
  }

  lemma ArrangePut(es: seq<ModelEntry>, order: seq<nat>, p: nat, x: nat, more: seq<nat>)
    requires p <= |order| && x < |es| && forall i :: 0 <= i < |order| ==> order[i] < |es|
    requires more == Put(order, p, x) && forall i :: 0 <= i < |more| ==> more[i] < |es|
    ensures Arrange(es, more) == Put(Arrange(es, order), p, es[x])
  {
  }

  lemma ArrangeMore(es: seq<ModelEntry>, before: seq<nat>, p: nat, x: nat, more: seq<nat>)
    requires p <= |before| && x < |es| && forall i :: 0 <= i < |before| ==> before[i] < |es|
    requires more == Put(before, p, x) && forall i :: 0 <= i < |more| ==> more[i] < |es|
    ensures multiset(Arrange(es, more)) == multiset(Arrange(es, before)) + multiset{es[x]}
  {
    ArrangePut(es, before, p, x, more);
    MultisetPut(Arrange(es, before), p, es[x]);
  }

  lemma MultisetPrefix(es: seq<ModelEntry>, n: nat)
    requires 0 < n <= |es|
    ensures multiset(es[..n]) == multiset(es[..n - 1]) + multiset{es[n - 1]}
  {
    assert es[..n] == es[..n - 1] + [es[n - 1]];
  }

  lemma ArrangeStep(es: seq<ModelEntry>, keys: seq<real>, n: nat, before: seq<nat>, after: seq<nat>)
    requires |keys| == |es| && 0 < n <= |es|
    requires before == OrderUpTo(keys, n - 1) && after == OrderUpTo(keys, n)
    requires multiset(Arrange(es, before)) == multiset(es[..n - 1])
    ensures multiset(Arrange(es, after)) == multiset(es[..n])
  {
    ArrangeMore(es, before, Place(keys, before, keys[n - 1]), n - 1, after);
    MultisetPrefix(es, n);
  }

  lemma {:induction false} ArrangeKeepsElements(es: seq<ModelEntry>, keys: seq<real>, n: nat)
    requires |keys| == |es| && n <= |es|
    ensures multiset(Arrange(es, OrderUpTo(keys, n))) == multiset(es[..n])
  {
    if n > 0 {
      ArrangeKeepsElements(es, keys, n - 1);
      ArrangeStep(es, keys, n, OrderUpTo(keys, n - 1), OrderUpTo(keys, n));
    } else {
      assert es[..n] == [] && Arrange(es, OrderUpTo(keys, n)) == [];
    }
  }

  /** Without latency weight, or without any measured row, `rank` is the plain cost sort: cheaper rows first, and
      rows of one cost in listing order. */
  lemma PlainCostOrder(rows: seq<ModelEntry>, q: Query)
    requires q.latencyWeight <= 0.0 || Measured(Latencies(Filter(rows, q), q.refOutputTokens)) == []
    ensures var es, ranked := Filter(rows, q), RankRows(rows, q);
            var order := Order(Costs(es));
            && |ranked| == |es| && (forall i :: 0 <= i < |es| ==> ranked[i] == es[order[i]])
            && (forall i, j :: 0 <= i < j < |ranked| ==>
                  BlendedCost(ranked[i]) < BlendedCost(ranked[j]) ||
                  (BlendedCost(ranked[i]) == BlendedCost(ranked[j]) && order[i] < order[j]))
  {
    var es := Filter(rows, q);
    var order := Order(Costs(es));
    OrderSorts(Costs(es));
    assert KeysOf(es, q) == Costs(es);
    forall i, j | 0 <= i < j < |es|
      ensures BlendedCost(es[order[i]]) < BlendedCost(es[order[j]]) ||
              (BlendedCost(es[order[i]]) == BlendedCost(es[order[j]]) && order[i] < order[j])
    {
      assert Before(Costs(es), order[i], order[j]);
    }
  }

  predicate SameButLatency(a: ModelEntry, b: ModelEntry) {
    b == a.(ttft := b.ttft, outputTps := b.outputTps)
  }

  /** `after` lists the same rows with other latency data, which among the admitted rows only fills gaps with m. */
  ghost predicate Refilled(rows: seq<ModelEntry>, after: seq<ModelEntry>, q: Query, m: real) {
    |rows| == |after| &&
    forall i :: 0 <= i < |rows| ==>
      SameButLatency(rows[i], after[i]) &&
      var before, filled := TurnLatency(rows[i], q.refOutputTokens), TurnLatency(after[i], q.refOutputTokens);
      (Admitted(rows[i], q) ==> filled == before || (before.None? && filled == Some(m)))
  }

  lemma {:induction false} RefilledCandidates(rows: seq<ModelEntry>, after: seq<ModelEntry>, q: Query, m: real)
    requires Refilled(rows, after, q, m)
    ensures var es, fs := Filter(rows, q), Filter(after, q);
            && |fs| == |es| && (forall i :: 0 <= i < |es| ==> SameButLatency(es[i], fs[i]))
            && FilledWith(Latencies(es, q.refOutputTokens), Latencies(fs, q.refOutputTokens), m)
  {
    if rows != [] {
      var n := |rows| - 1;
      RefilledCandidates(rows[..n], after[..n], q, m);
      assert SameButLatency(rows[n], after[n]);
      assert Admitted(after[n], q) == Admitted(rows[n], q);
    }
  }

  /** Missing latency data is neutral for the whole ranking: giving any unmeasured candidates the current median,
      and rows that are no candidates any latency at all, leaves the ranked rows in the same order. */
  lemma RankIgnoresMedianData(rows: seq<ModelEntry>, after: seq<ModelEntry>, q: Query)
    ensures var measured := Measured(Latencies(Filter(rows, q), q.refOutputTokens));
            measured != [] && Refilled(rows, after, q, Median(measured)) ==>
              |RankRows(after, q)| == |RankRows(rows, q)| &&
              forall i :: 0 <= i < |RankRows(rows, q)| ==> SameButLatency(RankRows(rows, q)[i], RankRows(after, q)[i])
  {
    var es, fs := Filter(rows, q), Filter(after, q);
    var lats := Latencies(es, q.refOutputTokens);
    if Measured(lats) != [] && Refilled(rows, after, q, Median(Measured(lats))) {
      RefilledCandidates(rows, after, q, Median(Measured(lats)));
      assert Costs(fs) == Costs(es);
      ImputationIsNeutral(Costs(es), lats, Latencies(fs, q.refOutputTokens), q.latencyWeight);
      assert Order(KeysOf(fs, q)) == Order(KeysOf(es, q));
    }
  }

  // ----- Missing latency data as documented ---------------------------------------------

  /** The documented sort key: a row without latency data at plain cost, any other scaled by its latency. */
  function DocumentedKey(cost: real, latency: Option<real>, weight: real): real {
    if weight > 0.0 && latency.Some? then Effective(cost, weight, latency.value) else cost
  }

  function DocumentedKeys(costs: seq<real>, lats: seq<Option<real>>, weight: real): (r: seq<real>)
    requires |costs| == |lats|
    ensures |r| == |costs|
  {
    seq(|costs|, i requires 0 <= i < |costs| => DocumentedKey(costs[i], lats[i], weight))
  }

  lemma ScaledIsPlainIff(cost: real, weight: real, latency: real)
    requires weight > 0.0
    ensures Effective(cost, weight, latency) == cost <==> cost == 0.0 || latency == 0.0
  {
    assert Effective(cost, weight, latency) == cost + cost * (weight * latency);
    if cost != 0.0 && latency != 0.0 {
      assert weight * latency != 0.0;
      assert cost * (weight * latency) != 0.0;
    }
  }

  /** An unmeasured candidate is ranked at its plain cost exactly when latency has no weight, nothing is measured,
      its cost is zero or the median latency is zero. */
  lemma UnmeasuredIsPlainIff(costs: seq<real>, lats: seq<Option<real>>, weight: real, i: nat)
    requires |costs| == |lats| && i < |costs| && lats[i].None?
    ensures Keys(costs, lats, weight)[i] == costs[i] <==>
            weight <= 0.0 || Measured(lats) == [] || costs[i] == 0.0 || Median(Measured(lats)) == 0.0
  {
    if weight > 0.0 && Measured(lats) != [] {
      ScaledIsPlainIff(costs[i], weight, Median(Measured(lats)));
      assert Keys(costs, lats, weight)[i] == Effective(costs[i], weight, Median(Measured(lats)));
    }
  }

  lemma {:induction false} NothingMeasured(lats: seq<Option<real>>)
    ensures Measured(lats) == [] <==> forall i :: 0 <= i < |lats| ==> lats[i].None?
  {
    if lats != [] {
      NothingMeasured(lats[1..]);
      assert lats == [lats[0]] + lats[1..];
    }
  }

  lemma MeasuredAsDocumented(costs: seq<real>, lats: seq<Option<real>>, weight: real, i: nat)
    requires |costs| == |lats| && i < |costs| && lats[i].Some?
    ensures Keys(costs, lats, weight)[i] == DocumentedKeys(costs, lats, weight)[i]
  {
    NothingMeasured(lats);
  }

  /** The sort keys are the documented ones exactly when latency has no weight, nothing is measured, the median
      latency is zero, or every unmeasured candidate costs nothing. */
  lemma KeysAsDocumentedIff(costs: seq<real>, lats: seq<Option<real>>, weight: real)
    requires |costs| == |lats|
    ensures Keys(costs, lats, weight) == DocumentedKeys(costs, lats, weight) <==>
            weight <= 0.0 || Measured(lats) == [] || Median(Measured(lats)) == 0.0 ||
            forall i :: 0 <= i < |lats| && lats[i].None? ==> costs[i] == 0.0
  {
    var keys, documented := Keys(costs, lats, weight), DocumentedKeys(costs, lats, weight);
    forall i | 0 <= i < |lats|
      ensures keys[i] == documented[i] <==>
              lats[i].Some? || weight <= 0.0 || Measured(lats) == [] || costs[i] == 0.0 || Median(Measured(lats)) == 0.0
    {
      if lats[i].Some? {
        MeasuredAsDocumented(costs, lats, weight, i);
      } else {
        UnmeasuredIsPlainIff(costs, lats, weight, i);
      }
    }
  }

  const UNMEASURED_ROW :=
    ModelEntry("a", "vllm", 1000, 1.2, 1.2, map["coding" := 1.0], true, true, "", None, None)
  const MEASURED_ROW :=
    ModelEntry("b", "vllm", 1000, 1.0, 1.0, map["coding" := 1.0], true, true, "", None, Some(1.0))
  const LATENCY_QUERY := Query("coding", 0.5, None, 0, false, 0.1, 10, None)

  lemma TwoRowKeys()
    ensures var es := [UNMEASURED_ROW, MEASURED_ROW];
            && Filter(es, LATENCY_QUERY) == es && Costs(es) == [1.2, 1.0]
            && Latencies(es, 10) == [None, Some(10.0)] && KeysOf(es, LATENCY_QUERY) == [2.4, 2.0]
  {
    var es := [UNMEASURED_ROW, MEASURED_ROW];
    var lats: seq<Option<real>> := [None, Some(10.0)];
    assert es[..1] == [UNMEASURED_ROW] && [UNMEASURED_ROW][..0] == [];
    assert Filter([UNMEASURED_ROW], LATENCY_QUERY) == [UNMEASURED_ROW];
    assert lats[1..] == [Some(10.0)] && lats[1..][1..] == [];
    assert Measured(lats) == [10.0];
    SplitterIsMedian([10.0], 10.0);
    assert Latencies(es, 10) == lats && Costs(es) == [1.2, 1.0];
    assert Keys([1.2, 1.0], lats, 0.1)[0] == Effective(1.2, 0.1, 10.0) == 2.4;
    assert Keys([1.2, 1.0], lats, 0.1)[1] == Effective(1.0, 0.1, 10.0) == 2.0;
  }

  lemma OrderOfTwo(keys: seq<real>)
    requires |keys| == 2 && keys[0] != keys[1]
    ensures Order(keys) == if keys[0] < keys[1] then [0, 1] else [1, 0]
  {
    OrderSorts(keys);
    assert Before(keys, Order(keys)[0], Order(keys)[1]);
  }

  lemma TwoRowDocumentedKeys()
    ensures DocumentedKeys([1.2, 1.0], [None, Some(10.0)], 0.1) == [1.2, 2.0]
  {
    var documented := DocumentedKeys([1.2, 1.0], [None, Some(10.0)], 0.1);
    assert documented[1] == Effective(1.0, 0.1, 10.0) == 2.0;
  }

  lemma ArrangeTwo(a: ModelEntry, b: ModelEntry)
    ensures Arrange([a, b], [0, 1]) == [a, b] && Arrange([a, b], [1, 0]) == [b, a]
  {
  }

  /** The difference shows in the ranking: a row of cost 1.2 without latency data and a row of cost 1.0 measured at
      ten seconds, with weight 0.1. The measured row is ranked first, at 2.0 against 2.4; as documented the other one
      would be, at 1.2 against 2.0. */
  lemma UnmeasuredRowRanksLater()
    ensures var es := [UNMEASURED_ROW, MEASURED_ROW];
            && RankRows(es, LATENCY_QUERY) == [MEASURED_ROW, UNMEASURED_ROW]
            && Arrange(es, Order(DocumentedKeys(Costs(es), Latencies(es, 10), 0.1))) == es
  {
    TwoRowKeys();
    TwoRowDocumentedKeys();
    OrderOfTwo([2.4, 2.0]);
    OrderOfTwo([1.2, 2.0]);
    ArrangeTwo(UNMEASURED_ROW, MEASURED_ROW);
  }

  // ----- pick ------------------------------------------------------------------------

  /** Cheaper first, then the larger context window. */
  predicate Better(a: ModelEntry, b: ModelEntry, w: Weights) {
    Blend(a, w) < Blend(b, w) || (Blend(a, w) == Blend(b, w) && a.contextWindow > b.contextWindow)
  }

  function PickFrom(rows: seq<ModelEntry>, q: Query, w: Weights): (r: Option<ModelEntry>) {
    if rows == [] then None
    else
      var n := |rows| - 1;
      var best := PickFrom(rows[..n], q, w);
      if !Usable(rows[n], q) || Score(rows[n], q.task) < q.threshold then best
      else if best.None? || Better(rows[n], best.value, w) then Some(rows[n])
      else best
  }

  /** `pick` finds a row passing the plain threshold that no other such row beats, or there is none. */
  lemma {:induction false} PickIsBest(rows: seq<ModelEntry>, q: Query, w: Weights)
    ensures var r := PickFrom(rows, q, w);
            && (r.Some? ==> r.value in rows && Usable(r.value, q) && Score(r.value, q.task) >= q.threshold)
            && (forall e :: e in rows && Usable(e, q) && Score(e, q.task) >= q.threshold ==>
                r.Some? && !Better(e, r.value, w))
  {
    if rows != [] {
      PickIsBest(rows[..|rows| - 1], q, w);
      assert rows == rows[..|rows| - 1] + [rows[|rows| - 1]];
    }
  }

  lemma HeadIsLeast(keys: seq<real>, k: nat)
    requires k < |keys|
    ensures keys[Order(keys)[0]] <= keys[k]
  {
    OrderSorts(keys);
    assert k in Order(keys);
    var i :| 0 <= i < |keys| && Order(keys)[i] == k;
    assert i > 0 ==> Before(keys, Order(keys)[0], Order(keys)[i]);
  }

  lemma HeadIsCheapest(rows: seq<ModelEntry>, q: Query, e: ModelEntry)
    requires q.latencyWeight <= 0.0 && e in Filter(rows, q)
    ensures var ranked := RankRows(rows, q);
            ranked != [] && ranked[0] in Filter(rows, q) && BlendedCost(ranked[0]) <= BlendedCost(e)
  {
    var es := Filter(rows, q);
    assert KeysOf(es, q) == Costs(es);
    var k :| 0 <= k < |es| && es[k] == e;
    HeadIsLeast(Costs(es), k);
  }

  /** Without latency weight and admission floor, `pick` costs exactly what the head of `rank` costs. */
  lemma PickAgreesWithRank(rows: seq<ModelEntry>, q: Query)
    requires q.latencyWeight <= 0.0 && q.admitFloor.None?
    ensures var ranked, picked := RankRows(rows, q), PickFrom(rows, q, DEFAULT_WEIGHTS);
            && (ranked == [] <==> picked.None?)
            && (picked.Some? ==> BlendedCost(ranked[0]) == BlendedCost(picked.value))
  {
    var ranked, picked := RankRows(rows, q), PickFrom(rows, q, DEFAULT_WEIGHTS);
    PickIsBest(rows, q, DEFAULT_WEIGHTS);
    FilterKeepsAdmitted(rows, q);
    assert picked.Some? ==> picked.value in Filter(rows, q);
    if Filter(rows, q) != [] {
      var e := Filter(rows, q)[0];
      assert e in Filter(rows, q);
      HeadIsCheapest(rows, q, picked.value);
      assert !Better(ranked[0], picked.value, DEFAULT_WEIGHTS);
    }
  }

  // ----- Tables ------------------------------------------------------------------------

  predicate SameKey(a: ModelEntry, b: ModelEntry, byProvider: bool) {
    a.modelId == b.modelId && (byProvider ==> a.provider == b.provider)
  }

  /** Dictionary assignment: an existing key keeps its place, a new one goes last. */
  function Assign(rows: seq<ModelEntry>, e: ModelEntry, byProvider: bool): seq<ModelEntry> {
    if rows == [] then [e]
    else if SameKey(rows[0], e, byProvider) then [e] + rows[1..]
    else [rows[0]] + Assign(rows[1..], e, byProvider)
  }

  function Table(entries: seq<ModelEntry>, byProvider: bool): seq<ModelEntry> {
    if entries == [] then []
    else Assign(Table(entries[..|entries| - 1], byProvider), entries[|entries| - 1], byProvider)
  }

  function Lookup(rows: seq<ModelEntry>, modelId: string): (r: Option<ModelEntry>)
    ensures r.Some? ==> r.value in rows && r.value.modelId == modelId
    ensures r.None? ==> forall e :: e in rows ==> e.modelId != modelId
  {
    if rows == [] then None
    else if rows[0].modelId == modelId then Some(rows[0]) else Lookup(rows[1..], modelId)
  }

  /** The last listed row of a model. */
  function LastRow(entries: seq<ModelEntry>, modelId: string): Option<ModelEntry> {
    if entries == [] then None
    else if entries[|entries| - 1].modelId == modelId then Some(entries[|entries| - 1])
    else LastRow(entries[..|entries| - 1], modelId)
  }

  lemma {:induction false} LookupAssign(rows: seq<ModelEntry>, e: ModelEntry, modelId: string)
    ensures Lookup(Assign(rows, e, false), modelId) == if e.modelId == modelId then Some(e) else Lookup(rows, modelId)
  {
    if rows != [] && rows[0].modelId != e.modelId {
      LookupAssign(rows[1..], e, modelId);
      assert Assign(rows, e, false)[1..] == Assign(rows[1..], e, false);
    }
  }

  /** `get` returns the last listed row of a model, whichever row was ranked. */
  lemma {:induction false} GetReturnsLastRow(entries: seq<ModelEntry>, modelId: string)
    ensures Lookup(Table(entries, false), modelId) == LastRow(entries, modelId)
  {
    if entries != [] {
      GetReturnsLastRow(entries[..|entries| - 1], modelId);
      LookupAssign(Table(entries[..|entries| - 1], false), entries[|entries| - 1], modelId);
    }
  }

  ghost predicate OneRowPerModel(rows: seq<ModelEntry>) {
    forall a, b :: a in rows && b in rows && a.modelId == b.modelId ==> a == b
  }

  lemma {:induction false} AssignElements(rows: seq<ModelEntry>, e: ModelEntry, byProvider: bool, x: ModelEntry)
    ensures x in Assign(rows, e, byProvider) ==> x == e || (x in rows)
    ensures e in Assign(rows, e, byProvider)
    ensures x in rows && !SameKey(x, e, byProvider) ==> x in Assign(rows, e, byProvider)
  {
    if rows != [] {
      AssignElements(rows[1..], e, byProvider, x);
      assert rows == [rows[0]] + rows[1..];
    }
  }

  /** The table by model and provider still holds the last row of every model. */
  lemma {:induction false} TableHoldsLastRow(entries: seq<ModelEntry>, modelId: string)
    ensures LastRow(entries, modelId).Some? ==> LastRow(entries, modelId).value in Table(entries, true)
    ensures LastRow(entries, modelId).Some? ==> LastRow(entries, modelId).value.modelId == modelId
    ensures LastRow(entries, modelId).None? ==> forall e :: e in Table(entries, true) ==> e.modelId != modelId
  {
    if entries != [] {
      var front, last := entries[..|entries| - 1], entries[|entries| - 1];
      TableHoldsLastRow(front, modelId);
      AssignElements(Table(front, true), last, true, last);
      if last.modelId != modelId {
        if LastRow(front, modelId).Some? {
          AssignElements(Table(front, true), last, true, LastRow(front, modelId).value);
        }
        forall e | e in Table(entries, true) && LastRow(entries, modelId).None? ensures e.modelId != modelId {
          AssignElements(Table(front, true), last, true, e);
        }
      }
    }
  }

  /** Resolving a model id finds the very row that was ranked, for every row, exactly when no model has two rows. */
  lemma GetFindsRankedRowIffUnique(entries: seq<ModelEntry>)
    ensures (forall e :: e in Table(entries, true) ==> Lookup(Table(entries, false), e.modelId) == Some(e)) <==>
            OneRowPerModel(Table(entries, true))
  {
    forall e: ModelEntry ensures Lookup(Table(entries, false), e.modelId) == LastRow(entries, e.modelId) {
      GetReturnsLastRow(entries, e.modelId);
    }
    forall e | e in Table(entries, true)
      ensures LastRow(entries, e.modelId).Some? && LastRow(entries, e.modelId).value in Table(entries, true)
      ensures LastRow(entries, e.modelId).value.modelId == e.modelId
    {
      TableHoldsLastRow(entries, e.modelId);
    }
  }

  lemma TableOfOne(e: ModelEntry, byProvider: bool)
    ensures Table([e], byProvider) == [e]
  {
    assert [e][..0] == [];
  }

  lemma TableSnoc(entries: seq<ModelEntry>, e: ModelEntry, byProvider: bool)
    ensures Table(entries + [e], byProvider) == Assign(Table(entries, byProvider), e, byProvider)
  {
    assert (entries + [e])[..|entries|] == entries;
  }

  lemma {:induction false} AssignNew(rows: seq<ModelEntry>, e: ModelEntry, byProvider: bool)
    requires forall x :: x in rows ==> !SameKey(x, e, byProvider)
    ensures Assign(rows, e, byProvider) == rows + [e]
  {
    if rows != [] { AssignNew(rows[1..], e, byProvider); }
  }

  lemma {:induction false} AssignLast(rows: seq<ModelEntry>, stale: ModelEntry, e: ModelEntry, byProvider: bool)
    requires SameKey(stale, e, byProvider) && forall x :: x in rows ==> !SameKey(x, e, byProvider)
    ensures Assign(rows + [stale], e, byProvider) == rows + [e]
  {
    if rows != [] {
      assert (rows + [stale])[1..] == rows[1..] + [stale];
      AssignLast(rows[1..], stale, e, byProvider);
    }
  }

  /** Two rows of one model: if the query admits both, both are ranked, but looking the model up finds the second. */
  lemma LookupMissesRankedRow(first: ModelEntry, second: ModelEntry, q: Query)
    requires first.modelId == second.modelId && first.provider != second.provider
    ensures Table([first, second], true) == [first, second]
    ensures var ranked := RankRows(Table([first, second], true), q);
            (first in ranked <==> Admitted(first, q)) && (second in ranked <==> Admitted(second, q))
    ensures Lookup(Table([first, second], false), first.modelId) == Some(second)
  {
    var both := [first, second];
    assert [first] + [second] == both && [] + [first] == [first] && [] + [second] == [second];
    TableOfOne(first, true);
    TableOfOne(first, false);
    TableSnoc([first], second, true);
    TableSnoc([first], second, false);
    AssignNew([first], second, true);
    AssignLast([], first, second, false);
    RankIsStableSort(both, q);
    assert both[0] in both && both[1] in both;
  }

  // ----- The registry objects --------------------------------------------------------------

  /** Rows by model id and, for several providers, by model id and provider. */
  class MultiProviderModelRegistry {
    var byKey: seq<ModelEntry>
    var byId: seq<ModelEntry>

    constructor (entries: seq<ModelEntry>)
      ensures byKey == Table(entries, true) && byId == Table(entries, false)
    {
      byKey, byId := [], [];
      new;
      for i := 0 to |entries|
        invariant byKey == Table(entries[..i], true) && byId == Table(entries[..i], false)
      {
        assert entries[..i + 1][..i] == entries[..i];
        byKey := Assign(byKey, entries[i], true);
        byId := Assign(byId, entries[i], false);
      }
      assert entries[..|entries|] == entries;
    }

    function Get(modelId: string): Option<ModelEntry>
      reads this
    {
      Lookup(byId, modelId)
    }

    method Rank(q: Query) returns (ranked: seq<ModelEntry>)
      ensures ranked == RankRows(byKey, q)
    {
      var result: seq<ModelEntry> := [];
      for i := 0 to |byKey|
        invariant result == Filter(byKey[..i], q)
      {
        assert byKey[..i + 1][..i] == byKey[..i];
        if Admitted(byKey[i], q) {
          result := result + [byKey[i]];
        }
      }
      assert byKey[..|byKey|] == byKey;
      ranked := Arrange(result, Order(KeysOf(result, q)));
    }

    method Pick(q: Query, w: Weights) returns (best: Option<ModelEntry>)
      ensures best == PickFrom(byKey, q, w)
    {
      best := None;
      for i := 0 to |byKey|
        invariant best == PickFrom(byKey[..i], q, w)
      {
        assert byKey[..i + 1][..i] == byKey[..i];
        var e := byKey[i];
        if Usable(e, q) && Score(e, q.task) >= q.threshold {
          if best.None? || Better(e, best.value, w) {
            best := Some(e);
          }
        }
      }
      assert byKey[..|byKey|] == byKey;
    }
  }
}
