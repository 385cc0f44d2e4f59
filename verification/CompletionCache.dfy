/** A bounded least-recently-used cache with a lifetime per entry, kept as the sequence of its entries, oldest first. */
module CompletionCache {
  import opened Wrappers

  datatype Entry<V> = Entry(key: string, value: V, expiry: real)

  // ----- The ordered dictionary -------------------------------------------

  function Lookup<V>(es: seq<Entry<V>>, key: string): (r: Option<Entry<V>>)
    ensures r.Some? ==> r.value in es && r.value.key == key
    ensures r.None? ==> forall i :: 0 <= i < |es| ==> es[i].key != key
  {
    if es == [] then None
    else if es[0].key == key then Some(es[0]) else Lookup(es[1..], key)
  }

  function Without<V>(es: seq<Entry<V>>, key: string): seq<Entry<V>> {
    if es == [] then []
    else if es[0].key == key then Without(es[1..], key) else [es[0]] + Without(es[1..], key)
  }

  function Keys<V>(es: seq<Entry<V>>): set<string> {
    set i | 0 <= i < |es| :: es[i].key
  }

  predicate Distinct<V>(es: seq<Entry<V>>) {
    forall i, j :: 0 <= i < j < |es| ==> es[i].key != es[j].key
  }

  // ----- get and set --------------------------------------------------------

  /** The entry a `get` at time `now` would hit. */
  function Hit<V>(es: seq<Entry<V>>, key: string, now: real): Option<Entry<V>> {
    var e := Lookup(es, key);
    if e.Some? && e.value.expiry > now then e else None
  }

  function GetStep<V>(es: seq<Entry<V>>, key: string, now: real): seq<Entry<V>> {
    if Hit(es, key, now).Some? then Without(es, key) + [Hit(es, key, now).value] else Without(es, key)
  }

  function Trim<V>(es: seq<Entry<V>>, max: nat): seq<Entry<V>> {
    if |es| > max then es[|es| - max..] else es
  }

  function SetStep<V>(es: seq<Entry<V>>, max: nat, key: string, value: V, ttl: int, now: real): seq<Entry<V>> {
    if ttl <= 0 then es
    else Trim(Without(es, key) + [Entry(key, value, now + ttl as real)], max)
  }

  class InMemoryCompletionCache<V> {
    const max: nat
    var store: seq<Entry<V>>

    predicate Valid()
      reads this
    {
      max > 0 && |store| <= max && Distinct(store)
    }

    constructor (maxEntries: int)
      requires maxEntries > 0
      ensures Valid() && max == maxEntries && store == []
    {
      max, store := maxEntries, [];
    }

    method Get(key: string, now: real) returns (r: Option<V>)
      requires Valid()
      modifies this
      ensures Valid()
      ensures store == GetStep(old(store), key, now)
      ensures r == if Hit(old(store), key, now).Some? then Some(Hit(old(store), key, now).value.value) else None
    {
      var entry := Lookup(store, key);
      WithoutFacts(store, key);
      if entry.None? {
        WithoutAbsent(store, key);
        return None;
      }
      if entry.value.expiry <= now {
        store := Without(store, key);
        return None;
      }
      WithoutShrinks(store, key);
      store := Without(store, key) + [entry.value];
      return Some(entry.value.value);
    }

    method Set(key: string, completion: V, ttlSeconds: int, now: real)
      requires Valid()
      modifies this
      ensures Valid()
      ensures store == SetStep(old(store), max, key, completion, ttlSeconds, now)
    {
      if ttlSeconds <= 0 {
        return;
      }
      WithoutFacts(store, key);
      store := Without(store, key) + [Entry(key, completion, now + ttlSeconds as real)];
      ghost var full := store;
      while |store| > max
        invariant |store| <= |full| && store == full[|full| - |store|..]
        invariant |full| > max ==> |store| >= max
        invariant |full| <= max ==> store == full
      {
        store := store[1..];
      }
    }
  }

  // ----- What a get leaves behind ---------------------------------------------

  /** A get drops its key's entry if that has expired, and keeps every other entry, expired or not, in its place. The
      entry it hits goes to the back. */
  lemma GetDropsExpired<V>(es: seq<Entry<V>>, key: string, now: real)
    requires Distinct(es)
    ensures var after := GetStep(es, key, now);
            && Without(after, key) == Without(es, key)
            && (forall e :: e in after && e.key == key ==> e.expiry > now && e in es && e == after[|after| - 1])
            && (forall e :: e in es && (e.key != key || e.expiry > now) ==> e in after)
  {
    var rest := Without(es, key);
    WithoutFacts(es, key);
    WithoutTwice(es, key);
    forall e | e in es && (e.key != key || e.expiry > now) ensures e in GetStep(es, key, now) {
      if e.key == key { LookupFinds(es, e); } else { WithoutKeeps(es, key, e); }
    }
    if Hit(es, key, now).Some? { WithoutLast(rest, Hit(es, key, now).value, key); }
  }

  lemma {:induction false} WithoutTwice<V>(es: seq<Entry<V>>, key: string)
    ensures Without(Without(es, key), key) == Without(es, key)
  {
    if es != [] {
      WithoutTwice(es[1..], key);
      var rest := Without(es[1..], key);
      assert ([es[0]] + rest)[1..] == rest;
    }
  }

  lemma {:induction false} WithoutKeeps<V>(es: seq<Entry<V>>, key: string, e: Entry<V>)
    requires e in es && e.key != key
    ensures e in Without(es, key)
  {
    if e != es[0] { WithoutKeeps(es[1..], key, e); }
  }

  lemma {:induction false} WithoutLast<V>(rest: seq<Entry<V>>, e: Entry<V>, key: string)
    requires e.key == key && forall x :: x in rest ==> x.key != key
    ensures Without(rest + [e], key) == rest
  {
    if rest == [] {
      assert ([] + [e])[1..] == [];
    } else {
      assert (rest + [e])[1..] == rest[1..] + [e];
      WithoutLast(rest[1..], e, key);
    }
  }

  // ----- Facts about the dictionary -----------------------------------------

  lemma KeysCons<V>(e: Entry<V>, es: seq<Entry<V>>)
    ensures Keys([e] + es) == {e.key} + Keys(es)
  {
    var all := [e] + es;
    assert all[0] == e;
    forall k | k in Keys(es) ensures k in Keys(all) {
      var i :| 0 <= i < |es| && es[i].key == k;
      assert all[i + 1].key == k;
    }
  }

  lemma {:induction false} WithoutFacts<V>(es: seq<Entry<V>>, key: string)
    requires Distinct(es)
    ensures Distinct(Without(es, key)) && |Without(es, key)| <= |es|
    ensures Keys(Without(es, key)) == Keys(es) - {key}
    ensures forall e :: e in Without(es, key) ==> e in es && e.key != key
  {
    if es != [] {
      var rest := es[1..];
      var w := Without(rest, key);
      WithoutFacts(rest, key);
      assert es == [es[0]] + rest;
      KeysCons(es[0], rest);
      KeysCons(es[0], w);
      forall i | 0 <= i < |rest| ensures rest[i].key != es[0].key {
        assert rest[i] == es[i + 1];
      }
      assert forall i :: 0 <= i < |w| ==> w[i] in rest;
    }
  }

  lemma {:induction false} WithoutAbsent<V>(es: seq<Entry<V>>, key: string)
    requires forall i :: 0 <= i < |es| ==> es[i].key != key
    ensures Without(es, key) == es
  {
    if es != [] { WithoutAbsent(es[1..], key); }
  }

  lemma {:induction false} WithoutShrinks<V>(es: seq<Entry<V>>, key: string)
    requires Distinct(es) && Lookup(es, key).Some?
    ensures |Without(es, key)| == |es| - 1
  {
    if es[0].key == key {
      WithoutAbsent(es[1..], key);
    } else {
      WithoutShrinks(es[1..], key);
    }
  }

  lemma {:induction false} LookupFinds<V>(es: seq<Entry<V>>, e: Entry<V>)
    requires Distinct(es) && e in es
    ensures Lookup(es, e.key) == Some(e)
  {
    if es[0] != e { LookupFinds(es[1..], e); }
  }

  // ----- Runs ---------------------------------------------------------------

  datatype Op<V> = GetOp(key: string, now: real) | SetOp(key: string, value: V, ttl: int, now: real)

  function Apply<V>(es: seq<Entry<V>>, max: nat, op: Op<V>): seq<Entry<V>> {
    match op
    case GetOp(key, now) => GetStep(es, key, now)
    case SetOp(key, value, ttl, now) => SetStep(es, max, key, value, ttl, now)
  }

  function Run<V>(max: nat, ops: seq<Op<V>>): seq<Entry<V>> {
    if ops == [] then [] else Apply(Run(max, ops[..|ops| - 1]), max, ops[|ops| - 1])
  }

  lemma ApplyValid<V>(es: seq<Entry<V>>, max: nat, op: Op<V>)
    requires Distinct(es) && |es| <= max
    ensures Distinct(Apply(es, max, op)) && |Apply(es, max, op)| <= max
  {
    WithoutFacts(es, op.key);
    if op.GetOp? && Hit(es, op.key, op.now).Some? {
      WithoutShrinks(es, op.key);
    }
  }

  lemma {:induction false} RunValid<V>(max: nat, ops: seq<Op<V>>)
    ensures Distinct(Run(max, ops)) && |Run(max, ops)| <= max
  {
    if ops != [] {
      RunValid(max, ops[..|ops| - 1]);
      ApplyValid(Run(max, ops[..|ops| - 1]), max, ops[|ops| - 1]);
    }
  }

  // ----- Inclusion across capacities ------------------------------------------

  /** `a` is `b` with some entries left out: same entries, same relative recency. */
  predicate Sub<V(==)>(a: seq<Entry<V>>, b: seq<Entry<V>>) {
    if b == [] then a == []
    else (a != [] && a[0] == b[0] && Sub(a[1..], b[1..])) || Sub(a, b[1..])
  }

  lemma {:induction false} SubSkips<V>(a: seq<Entry<V>>, b: seq<Entry<V>>)
    requires Sub(a, b)
    ensures a != [] ==> b != [] && Sub(a[1..], b) && Sub(a[1..], b[1..])
  {
    if a != [] {
      if a[0] == b[0] && Sub(a[1..], b[1..]) {
      } else {
        SubSkips(a, b[1..]);
      }
    }
  }

  lemma {:induction false} SubFacts<V>(a: seq<Entry<V>>, b: seq<Entry<V>>)
    requires Sub(a, b)
    ensures |a| <= |b|
    ensures forall e :: e in a ==> e in b
  {
    if b != [] {
      if a != [] && a[0] == b[0] && Sub(a[1..], b[1..]) {
        SubFacts(a[1..], b[1..]);
        assert a == [a[0]] + a[1..];
      } else {
        SubFacts(a, b[1..]);
      }
    }
  }

  lemma {:induction false} SubAppend<V>(a: seq<Entry<V>>, b: seq<Entry<V>>, e: Entry<V>)
    requires Sub(a, b)
    ensures Sub(a + [e], b + [e]) && Sub(a, b + [e])
  {
    if b == [] {
      assert (b + [e])[1..] == [];
    } else {
      assert (b + [e])[1..] == b[1..] + [e];
      if a != [] && a[0] == b[0] && Sub(a[1..], b[1..]) {
        SubAppend(a[1..], b[1..], e);
        assert (a + [e])[1..] == a[1..] + [e];
      } else {
        SubAppend(a, b[1..], e);
      }
    }
  }

  lemma {:induction false} SubWithout<V>(a: seq<Entry<V>>, b: seq<Entry<V>>, key: string)
    requires Sub(a, b)
    ensures Sub(Without(a, key), Without(b, key))
  {
    if b != [] {
      if a != [] && a[0] == b[0] && Sub(a[1..], b[1..]) {
        SubWithout(a[1..], b[1..], key);
        if a[0].key != key {
          assert Without(a, key)[1..] == Without(a[1..], key) && Without(b, key)[1..] == Without(b[1..], key);
        }
      } else {
        SubWithout(a, b[1..], key);
        if b[0].key != key {
          assert Without(b, key)[1..] == Without(b[1..], key);
        }
      }
    }
  }

  /** The larger cache holds everything the smaller one does, and at most n - m entries more. */
  ghost predicate Included<V>(a: seq<Entry<V>>, b: seq<Entry<V>>, m: nat, n: nat) {
    && Sub(a, b) && Distinct(a) && Distinct(b)
    && |a| <= m && |b| <= n && |b| - |a| <= n - m
  }

  lemma SubLookup<V>(a: seq<Entry<V>>, b: seq<Entry<V>>, key: string)
    requires Sub(a, b) && Distinct(b) && Lookup(a, key).Some?
    ensures Lookup(b, key) == Lookup(a, key)
  {
    SubFacts(a, b);
    LookupFinds(b, Lookup(a, key).value);
  }

  lemma WithoutKeepsIncluded<V>(a: seq<Entry<V>>, b: seq<Entry<V>>, m: nat, n: nat, key: string)
    requires Included(a, b, m, n)
    ensures Included(Without(a, key), Without(b, key), m, n)
  {
    SubWithout(a, b, key);
    WithoutFacts(a, key);
    WithoutFacts(b, key);
    if Lookup(a, key).Some? {
      SubLookup(a, b, key);
      WithoutShrinks(a, key);
      WithoutShrinks(b, key);
    } else {
      WithoutAbsent(a, key);
    }
  }

  lemma GetKeepsIncluded<V>(a: seq<Entry<V>>, b: seq<Entry<V>>, m: nat, n: nat, key: string, now: real,
                            a': seq<Entry<V>>, b': seq<Entry<V>>)
    requires Included(a, b, m, n)
    requires a' == GetStep(a, key, now) && b' == GetStep(b, key, now)
    ensures Included(a', b', m, n)
  {
    var wa, wb := Without(a, key), Without(b, key);
    WithoutKeepsIncluded(a, b, m, n, key);
    WithoutFacts(a, key);
    WithoutFacts(b, key);
    if Hit(b, key, now).Some? {
      WithoutShrinks(b, key);
      SubAppend(wa, wb, Hit(b, key, now).value);
    }
    if Lookup(a, key).Some? {
      SubLookup(a, b, key);
      WithoutShrinks(a, key);
    } else {
      WithoutAbsent(a, key);
    }
  }

  lemma PushDistinct<V>(es: seq<Entry<V>>, e: Entry<V>, max: nat)
    requires Distinct(es) && e.key !in Keys(es)
    ensures Distinct(es + [e]) && Distinct(Trim(es + [e], max))
  {
    forall i | 0 <= i < |es| ensures es[i].key != e.key {
      assert es[i].key in Keys(es);
    }
  }

  lemma PushKeepsIncluded<V>(a: seq<Entry<V>>, b: seq<Entry<V>>, m: nat, n: nat, e: Entry<V>)
    requires 0 < m <= n && Included(a, b, m, n)
    requires e.key !in Keys(a) && e.key !in Keys(b)
    ensures Included(Trim(a + [e], m), Trim(b + [e], n), m, n)
  {
    PushDistinct(a, e, m);
    PushDistinct(b, e, n);
    SubAppend(a, b, e);
    SubSkips(a + [e], b + [e]);
    assert |a| == m ==> Trim(a + [e], m) == (a + [e])[1..];
    assert |b| == n ==> Trim(b + [e], n) == (b + [e])[1..];
  }

  lemma SetKeepsIncluded<V>(a: seq<Entry<V>>, b: seq<Entry<V>>, m: nat, n: nat, e: Entry<V>,
                            a': seq<Entry<V>>, b': seq<Entry<V>>)
    requires 0 < m <= n && Included(a, b, m, n)
    requires a' == Trim(Without(a, e.key) + [e], m) && b' == Trim(Without(b, e.key) + [e], n)
    ensures Included(a', b', m, n)
  {
    WithoutKeepsIncluded(a, b, m, n, e.key);
    WithoutFacts(a, e.key);
    WithoutFacts(b, e.key);
    PushKeepsIncluded(Without(a, e.key), Without(b, e.key), m, n, e);
  }

  lemma ApplyKeepsIncluded<V>(a: seq<Entry<V>>, b: seq<Entry<V>>, m: nat, n: nat, op: Op<V>, a': seq<Entry<V>>,
                              b': seq<Entry<V>>)
    requires 0 < m <= n && Included(a, b, m, n)
    requires a' == Apply(a, m, op) && b' == Apply(b, n, op)
    ensures Included(a', b', m, n)
  {
    match op
    case GetOp(key, now) => GetKeepsIncluded(a, b, m, n, key, now, a', b');
    case SetOp(key, value, ttl, now) =>
      if ttl > 0 {
        SetKeepsIncluded(a, b, m, n, Entry(key, value, now + ttl as real), a', b');
      }
  }

  /** Running the same calls on capacities m <= n keeps the smaller cache inside the larger one,
      entry for entry and in the same order, although a missed `get` never loads anything. */
  lemma {:induction false} CapacityInclusion<V>(m: nat, n: nat, ops: seq<Op<V>>)
    requires 0 < m <= n
    ensures Included(Run(m, ops), Run(n, ops), m, n)
  {
    if ops != [] {
      var front, op := ops[..|ops| - 1], ops[|ops| - 1];
      CapacityInclusion(m, n, front);
      ApplyKeepsIncluded(Run(m, front), Run(n, front), m, n, op, Run(m, ops), Run(n, ops));
    }
  }

  /** A larger cache never turns a hit into a miss or into another value. */
  lemma LargerCacheHitsMore<V>(m: nat, n: nat, ops: seq<Op<V>>, key: string, now: real)
    requires 0 < m <= n && Hit(Run(m, ops), key, now).Some?
    ensures Hit(Run(n, ops), key, now) == Hit(Run(m, ops), key, now)
  {
    CapacityInclusion(m, n, ops);
    SubLookup(Run(m, ops), Run(n, ops), key);
  }

  // ----- Agreement with an unbounded map --------------------------------------

  /** What an unbounded map would hold for `key`: the last set with a positive lifetime. */
  function LastSet<V>(ops: seq<Op<V>>, key: string): Option<Entry<V>> {
    if ops == [] then None
    else
      var op := ops[|ops| - 1];
      if op.SetOp? && op.key == key && op.ttl > 0 then Some(Entry(key, op.value, op.now + op.ttl as real))
      else LastSet(ops[..|ops| - 1], key)
  }

  /** Every cached entry is the last positive-lifetime set of its key, so a hit never returns anything else
      and never returns it after its expiry; the size bound holds after every call. */
  lemma {:induction false} RefinesUnboundedMap<V>(max: nat, ops: seq<Op<V>>)
    ensures forall e :: e in Run(max, ops) ==> LastSet(ops, e.key) == Some(e)
    ensures forall key, now {:trigger Hit(Run(max, ops), key, now)} :: Hit(Run(max, ops), key, now).Some? ==>
              var e := Hit(Run(max, ops), key, now);
              LastSet(ops, key) == e && e.value.expiry > now
    ensures |Run(max, ops)| <= max
  {
    RunValid(max, ops);
    if ops != [] {
      var front, op := ops[..|ops| - 1], ops[|ops| - 1];
      RefinesUnboundedMap(max, front);
      RunValid(max, front);
      var es := Run(max, front);
      WithoutFacts(es, op.key);
      forall e | e in Run(max, ops) ensures LastSet(ops, e.key) == Some(e) {
        if op.SetOp? && op.ttl > 0 {
          assert e in Without(es, op.key) + [Entry(op.key, op.value, op.now + op.ttl as real)];
        }
      }
    }
  }

  // ----- What is evicted ----------------------------------------------------------

  /** A new key in a full cache pushes out the front entry, expired or not. */
  lemma SetEvictsFront<V>(es: seq<Entry<V>>, max: nat, key: string, value: V, ttl: int, now: real)
    requires max > 0 && |es| == max && key !in Keys(es) && ttl > 0
    ensures SetStep(es, max, key, value, ttl, now) == es[1..] + [Entry(key, value, now + ttl as real)]
  {
    assert forall i :: 0 <= i < |es| ==> es[i].key in Keys(es);
    WithoutAbsent(es, key);
  }

  /** Expired entries make room before any live one does. */
  ghost predicate ExpiredFirst<V>(es: seq<Entry<V>>, after: seq<Entry<V>>, now: real) {
    (exists e :: e in es && e.expiry <= now) ==> forall e :: e in es && e.expiry > now ==> e in after
  }

  /** When a new key meets a full cache, expired entries go first exactly if the front entry happens to be expired
      or nothing is. */
  lemma ExpiredFirstIff<V>(es: seq<Entry<V>>, max: nat, key: string, value: V, ttl: int, now: real)
    requires max > 0 && |es| == max && Distinct(es) && key !in Keys(es) && ttl > 0
    ensures ExpiredFirst(es, SetStep(es, max, key, value, ttl, now), now) <==>
            (es[0].expiry <= now || forall e :: e in es ==> e.expiry > now)
  {
    var after := SetStep(es, max, key, value, ttl, now);
    SetEvictsFront(es, max, key, value, ttl, now);
    assert es == [es[0]] + es[1..];
    assert es[0].key in Keys(es);
    assert es[0] !in es[1..] by { assert forall i :: 0 <= i < |es[1..]| ==> es[1..][i].key != es[0].key; }
    assert es[0] in es && es[0] !in after;
  }

  lemma RunSnoc<V>(max: nat, ops: seq<Op<V>>, op: Op<V>)
    ensures Run(max, ops + [op]) == Apply(Run(max, ops), max, op)
  {
    assert (ops + [op])[..|ops|] == ops;
  }

  lemma TwoSets()
    ensures Run(2, [SetOp("a", 1, 100, 0.0), SetOp("b", 2, 1, 0.0)]) == [Entry("a", 1, 100.0), Entry("b", 2, 1.0)]
  {
    var a, b := SetOp("a", 1, 100, 0.0), SetOp("b", 2, 1, 0.0);
    RunSnoc(2, [], a);
    RunSnoc(2, [a], b);
    assert [] + [a] == [a] && [a] + [b] == [a, b];
    WithoutAbsent([Entry("a", 1, 100.0)], "b");
  }

  /** A live entry is evicted beside a dead one: with room for two, `a` is set for 100 seconds, `b` for one, and
      five seconds later `c` pushes out `a`. */
  lemma LiveEntryIsEvicted()
    ensures var ops, c := [SetOp("a", 1, 100, 0.0), SetOp("b", 2, 1, 0.0)], SetOp("c", 3, 100, 5.0);
            && Run(2, ops + [c]) == [Entry("b", 2, 1.0), Entry("c", 3, 105.0)]
            && !ExpiredFirst(Run(2, ops), Run(2, ops + [c]), 5.0)
  {
    var ops, c := [SetOp("a", 1, 100, 0.0), SetOp("b", 2, 1, 0.0)], SetOp("c", 3, 100, 5.0);
    var two := [Entry("a", 1, 100.0), Entry("b", 2, 1.0)];
    TwoSets();
    RunSnoc(2, ops, c);
    SetEvictsFront(two, 2, "c", 3, 100, 5.0);
    assert two[1..] == [two[1]];
    assert two[0] in two && two[1] in two;
  }

  // ----- How long an entry stays ----------------------------------------------

  /** Whether a call makes its key the most recent one: a positive-lifetime set or a hit. */
  predicate Touches<V>(es: seq<Entry<V>>, op: Op<V>) {
    if op.SetOp? then op.ttl > 0 else Hit(es, op.key, op.now).Some?
  }

  /** The key the i-th call made most recent, if it did. */
  function Touched<V>(max: nat, ops: seq<Op<V>>, i: nat): Option<string>
    requires i < |ops|
  {
    if Touches(Run(max, ops[..i]), ops[i]) then Some(ops[i].key) else None
  }

  /** The keys touched by the calls from number `from` on. */
  function TouchedSince<V>(max: nat, ops: seq<Op<V>>, from: nat): set<string> {
    if |ops| <= from then {}
    else
      var front, op := ops[..|ops| - 1], ops[|ops| - 1];
      TouchedSince(max, front, from) + if Touches(Run(max, front), op) then {op.key} else {}
  }

  ghost predicate InTimeOrder<V>(ops: seq<Op<V>>, now: real) {
    && (forall i, j :: 0 <= i < j < |ops| ==> ops[i].now <= ops[j].now)
    && (forall i :: 0 <= i < |ops| ==> ops[i].now <= now)
  }

  /** The keys more recent than `key`. */
  function After<V>(es: seq<Entry<V>>, key: string): set<string> {
    if es == [] then {} else if es[0].key == key then Keys(es[1..]) else After(es[1..], key)
  }

  lemma KeysAppend<V>(es: seq<Entry<V>>, e: Entry<V>)
    ensures Keys(es + [e]) == Keys(es) + {e.key}
  {
    assert (es + [e])[|es|] == e;
    forall k | k in Keys(es) ensures k in Keys(es + [e]) {
      var i :| 0 <= i < |es| && es[i].key == k;
      assert (es + [e])[i].key == k;
    }
  }

  lemma {:induction false} AfterAppend<V>(es: seq<Entry<V>>, e: Entry<V>, key: string)
    requires key in Keys(es)
    ensures After(es + [e], key) == After(es, key) + {e.key}
  {
    assert (es + [e])[1..] == es[1..] + [e];
    if es[0].key == key {
      KeysAppend(es[1..], e);
    } else {
      var i :| 0 <= i < |es| && es[i].key == key;
      assert es[1..][i - 1].key == key;
      AfterAppend(es[1..], e, key);
    }
  }

  lemma {:induction false} AfterLast<V>(es: seq<Entry<V>>, e: Entry<V>)
    requires e.key !in Keys(es)
    ensures After(es + [e], e.key) == {}
  {
    if es == [] {
      assert (es + [e])[1..] == [];
    } else {
      assert (es + [e])[1..] == es[1..] + [e];
      assert es[0].key in Keys(es);
      forall k | k in Keys(es[1..]) ensures k in Keys(es) {
        var i :| 0 <= i < |es[1..]| && es[1..][i].key == k;
        assert es[i + 1].key == k;
      }
      AfterLast(es[1..], e);
    }
  }

  lemma {:induction false} AfterWithout<V>(es: seq<Entry<V>>, key: string, gone: string)
    requires Distinct(es) && key in Keys(es) && gone != key
    ensures After(Without(es, gone), key) == After(es, key) - {gone}
  {
    if es[0].key == key {
      WithoutFacts(es[1..], gone);
      assert Without(es, gone)[1..] == Without(es[1..], gone);
    } else {
      var i :| 0 <= i < |es| && es[i].key == key;
      assert es[1..][i - 1].key == key;
      AfterWithout(es[1..], key, gone);
      if es[0].key != gone {
        assert Without(es, gone)[1..] == Without(es[1..], gone);
      }
    }
  }

  lemma {:induction false} DistinctKeysCount<V>(es: seq<Entry<V>>)
    requires Distinct(es)
    ensures |Keys(es)| == |es|
  {
    if es != [] {
      var n := |es| - 1;
      DistinctKeysCount(es[..n]);
      assert es == es[..n] + [es[n]];
      KeysAppend(es[..n], es[n]);
      assert es[n].key !in Keys(es[..n]);
    }
  }

  /** Dropping the oldest entry spares `key` unless it is the oldest itself. */
  lemma PopSpares<V>(es: seq<Entry<V>>, key: string)
    requires Distinct(es) && key in Keys(es) && |After(es, key)| < |es| - 1
    ensures key in Keys(es[1..]) && After(es[1..], key) == After(es, key)
  {
    if es[0].key == key {
      DistinctKeysCount(es[1..]);
    } else {
      var i :| 0 <= i < |es| && es[i].key == key;
      assert es[1..][i - 1].key == key;
    }
  }

  /** `key` is cached with only `others` more recent, or its last set has expired by `now`. */
  ghost predicate Kept<V>(es: seq<Entry<V>>, last: Option<Entry<V>>, key: string, others: set<string>, now: real) {
    (key in Keys(es) && After(es, key) <= others - {key}) || (last.Some? && last.value.expiry <= now)
  }

  lemma GetKeeps<V>(es: seq<Entry<V>>, last: Option<Entry<V>>, key: string, others: set<string>, max: nat, op: Op<V>,
                    before: real)
    requires Distinct(es) && op.GetOp? && before <= op.now
    requires forall e :: e in es && e.key == key ==> last == Some(e)
    requires Kept(es, last, key, others, before)
    ensures Kept(Apply(es, max, op), last, key,
                 if Hit(es, op.key, op.now).Some? then others + {op.key} else others, op.now)
  {
    if key in Keys(es) && After(es, key) <= others - {key} {
      var w := Without(es, op.key);
      WithoutFacts(es, op.key);
      if op.key == key {
        if Hit(es, key, op.now).Some? {
          KeysAppend(w, Hit(es, key, op.now).value);
          AfterLast(w, Hit(es, key, op.now).value);
        } else {
          var i :| 0 <= i < |es| && es[i].key == key;
          assert last == Lookup(es, key);
        }
      } else {
        AfterWithout(es, key, op.key);
        if Hit(es, op.key, op.now).Some? {
          KeysAppend(w, Hit(es, op.key, op.now).value);
          AfterAppend(w, Hit(es, op.key, op.now).value, key);
        }
      }
    }
  }

  /** A pushed entry is the most recent one, whatever is evicted. */
  lemma PushNew<V>(es: seq<Entry<V>>, e: Entry<V>, max: nat)
    requires Distinct(es) && |es| <= max && max > 0 && e.key !in Keys(es)
    ensures e.key in Keys(Trim(es + [e], max)) && After(Trim(es + [e], max), e.key) == {}
  {
    PushDistinct(es, e, max);
    KeysAppend(es, e);
    AfterLast(es, e);
    if |es| == max {
      assert Trim(es + [e], max) == (es + [e])[1..];
      PopSpares(es + [e], e.key);
    }
  }

  /** A push evicts `key` only when it would leave `max` keys above it. */
  lemma PushOther<V>(es: seq<Entry<V>>, e: Entry<V>, max: nat, key: string)
    requires Distinct(es) && |es| <= max && e.key !in Keys(es)
    requires key in Keys(es) && |After(es, key) + {e.key}| < max
    ensures key in Keys(Trim(es + [e], max)) && After(Trim(es + [e], max), key) == After(es, key) + {e.key}
  {
    PushDistinct(es, e, max);
    KeysAppend(es, e);
    AfterAppend(es, e, key);
    if |es| == max {
      assert Trim(es + [e], max) == (es + [e])[1..];
      PopSpares(es + [e], key);
    }
  }

  lemma SetOtherKeeps<V>(es: seq<Entry<V>>, key: string, others: set<string>, max: nat, e: Entry<V>)
    requires Distinct(es) && |es| <= max && e.key != key
    requires |(others + {e.key}) - {key}| < max
    requires key in Keys(es) && After(es, key) <= others - {key}
    ensures var after := Trim(Without(es, e.key) + [e], max);
            key in Keys(after) && After(after, key) <= (others + {e.key}) - {key}
  {
    var above := After(es, key) - {e.key} + {e.key};
    WithoutFacts(es, e.key);
    AfterWithout(es, key, e.key);
    SubsetSize(above, (others + {e.key}) - {key});
    PushOther(Without(es, e.key), e, max, key);
  }

  lemma SetKeeps<V>(es: seq<Entry<V>>, last: Option<Entry<V>>, key: string, others: set<string>, max: nat, op: Op<V>,
                    before: real)
    requires Distinct(es) && |es| <= max && op.SetOp? && op.ttl > 0 && before <= op.now
    requires |(others + {op.key}) - {key}| < max
    requires Kept(es, last, key, others, before)
    ensures var e := Entry(op.key, op.value, op.now + op.ttl as real);
            Kept(Apply(es, max, op), if op.key == key then Some(e) else last, key, others + {op.key}, op.now)
  {
    var e := Entry(op.key, op.value, op.now + op.ttl as real);
    if op.key == key {
      WithoutFacts(es, key);
      PushNew(Without(es, key), e, max);
    } else if key in Keys(es) && After(es, key) <= others - {key} {
      SetOtherKeeps(es, key, others, max, e);
    }
  }

  lemma {:induction false} SubsetSize(a: set<string>, b: set<string>)
    requires a <= b
    ensures |a| <= |b|
  {
    if a != {} {
      var x :| x in a;
      SubsetSize(a - {x}, b - {x});
    }
  }

  lemma LastSetSnoc<V>(ops: seq<Op<V>>, key: string)
    requires ops != []
    ensures var front, op := ops[..|ops| - 1], ops[|ops| - 1];
            LastSet(ops, key) == if op.SetOp? && op.key == key && op.ttl > 0
                                 then Some(Entry(key, op.value, op.now + op.ttl as real)) else LastSet(front, key)
  {
  }

  lemma TouchIsLast<V>(es: seq<Entry<V>>, max: nat, op: Op<V>)
    requires Distinct(es) && |es| <= max && max > 0
    requires Touches(es, op)
    ensures op.key in Keys(Apply(es, max, op)) && After(Apply(es, max, op), op.key) == {}
  {
    WithoutFacts(es, op.key);
    if op.GetOp? {
      var e := Hit(es, op.key, op.now).value;
      KeysAppend(Without(es, op.key), e);
      AfterLast(Without(es, op.key), e);
    } else {
      PushNew(Without(es, op.key), Entry(op.key, op.value, op.now + op.ttl as real), max);
    }
  }

  lemma ApplyKeeps<V>(es: seq<Entry<V>>, last: Option<Entry<V>>, next: Option<Entry<V>>, key: string,
                      others: set<string>, more: set<string>, max: nat, op: Op<V>, before: real, after: seq<Entry<V>>)
    requires Distinct(es) && |es| <= max && before <= op.now
    requires forall e :: e in es && e.key == key ==> last == Some(e)
    requires next == if op.SetOp? && op.key == key && op.ttl > 0
                     then Some(Entry(key, op.value, op.now + op.ttl as real)) else last
    requires more == others + if Touches(es, op) then {op.key} else {}
    requires |more - {key}| < max
    requires Kept(es, last, key, others, before) && after == Apply(es, max, op)
    ensures Kept(after, next, key, more, op.now)
  {
    if op.GetOp? {
      GetKeeps(es, last, key, others, max, op, before);
    } else if op.ttl > 0 {
      SetKeeps(es, last, key, others, max, op, before);
    }
  }

  lemma CachedIsLastSet<V>(max: nat, ops: seq<Op<V>>, es: seq<Entry<V>>, key: string, last: Option<Entry<V>>)
    requires es == Run(max, ops) && last == LastSet(ops, key)
    ensures Distinct(es) && |es| <= max
    ensures forall e :: e in es && e.key == key ==> last == Some(e)
  {
    RunValid(max, ops);
    RefinesUnboundedMap(max, ops);
  }

  /** The keys touched since, one call later, and what was last set. */
  lemma SinceSnoc<V>(max: nat, ops: seq<Op<V>>, n: nat, key: string)
    requires n < |ops| - 1
    ensures var front, op := ops[..|ops| - 1], ops[|ops| - 1];
            && front[..n] == ops[..n] && front[n] == ops[n]
            && Run(max, ops) == Apply(Run(max, front), max, op)
            && TouchedSince(max, ops, n + 1)
               == TouchedSince(max, front, n + 1) + (if Touches(Run(max, front), op) then {op.key} else {})
  {
    assert ops[..|ops| - 1][..n] == ops[..n];
  }

  /** One call, said of the cache before it and of what was last set. */
  lemma StepFacts<V>(max: nat, ops: seq<Op<V>>, key: string, front: seq<Op<V>>, op: Op<V>, es: seq<Entry<V>>)
    requires ops != [] && front == ops[..|ops| - 1] && op == ops[|ops| - 1] && es == Run(max, front)
    ensures Distinct(es) && |es| <= max && Run(max, ops) == Apply(es, max, op)
    ensures forall e :: e in es && e.key == key ==> LastSet(front, key) == Some(e)
    ensures LastSet(ops, key) ==
            if op.SetOp? && op.key == key && op.ttl > 0 then Some(Entry(key, op.value, op.now + op.ttl as real))
                                 else LastSet(front, key)
  {
    LastSetSnoc(ops, key);
    CachedIsLastSet(max, front, es, key, LastSet(front, key));
  }

  lemma TouchStep<V>(max: nat, ops: seq<Op<V>>, key: string, front: seq<Op<V>>, op: Op<V>, es: seq<Entry<V>>,
                     others: set<string>, more: set<string>)
    requires |ops| > 1 && front == ops[..|ops| - 1] && op == ops[|ops| - 1] && es == Run(max, front)
    requires front[|front| - 1].now <= op.now && |more - {key}| < max
    requires more == others + if Touches(es, op) then {op.key} else {}
    requires Kept(es, LastSet(front, key), key, others, front[|front| - 1].now)
    ensures Kept(Run(max, ops), LastSet(ops, key), key, more, op.now)
  {
    StepFacts(max, ops, key, front, op, es);
    ApplyKeeps(es, LastSet(front, key), LastSet(ops, key), key, others, more, max, op, front[|front| - 1].now,
               Run(max, ops));
  }

  /** Since call n touched `key`: it is still cached below the keys touched later, or its last set has expired. */
  lemma {:induction false} TouchKeeps<V>(max: nat, ops: seq<Op<V>>, n: nat, key: string, now: real, others: set<string>)
    requires n < |ops| && Touched(max, ops, n) == Some(key) && max > 0
    requires InTimeOrder(ops, now)
    requires others == TouchedSince(max, ops, n + 1) && |others - {key}| < max
    ensures Kept(Run(max, ops), LastSet(ops, key), key, others, ops[|ops| - 1].now)
    decreases |ops|
  {
    var front := ops[..|ops| - 1];
    if |front| == n {
      CachedIsLastSet(max, front, Run(max, front), key, LastSet(front, key));
      TouchIsLast(Run(max, front), max, ops[n]);
    } else {
      SinceSnoc(max, ops, n, key);
      SubsetSize(TouchedSince(max, front, n + 1) - {key}, others - {key});
      TouchKeeps(max, front, n, key, now, TouchedSince(max, front, n + 1));
      TouchStep(max, ops, key, front, ops[|ops| - 1], Run(max, front), TouchedSince(max, front, n + 1), others);
    }
  }

  /** An unexpired key is still a hit, with its last value, as long as fewer than `max` other keys
      were set or hit since it was last set or hit. */
  lemma RecentKeyStays<V>(max: nat, ops: seq<Op<V>>, n: nat, key: string, now: real)
    requires n < |ops| && Touched(max, ops, n) == Some(key) && max > 0
    requires InTimeOrder(ops, now)
    requires |TouchedSince(max, ops, n + 1) - {key}| < max
    requires LastSet(ops, key).Some? && LastSet(ops, key).value.expiry > now
    ensures Hit(Run(max, ops), key, now) == LastSet(ops, key)
  {
    var es := Run(max, ops);
    TouchKeeps(max, ops, n, key, now, TouchedSince(max, ops, n + 1));
    CachedIsLastSet(max, ops, es, key, LastSet(ops, key));
    var i :| 0 <= i < |es| && es[i].key == key;
    LookupFinds(es, es[i]);
  }
}
