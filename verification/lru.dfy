/**
 The LRU result cache: a map of entries beside a recency list whose front is the key that
 has gone untouched longest. `Cache` is the abstract value and the functions on it say what
 each call does; the class `LruCache` in lru_cache.dfy updates its fields in place and is
 proved against them.
 */
module Lru {
  import opened Prelude

  type Key = string

  datatype Entry<V> = Entry(value: V, createdAt: nat, accessedAt: nat, accessCount: nat, ttl: Option<nat>)

  datatype Stats = Stats(hits: nat, misses: nat, evictions: nat, writes: nat)

  datatype Cache<V> = Cache(maxEntries: nat, defaultTtl: nat, entries: map<Key, Entry<V>>, order: seq<Key>, stats: Stats)

  // ── What each call does ────────────────────────────────────────────

  function New<V>(maxEntries: nat, defaultTtl: nat): Cache<V> {
    Cache(maxEntries, defaultTtl, map[], [], Stats(0, 0, 0, 0))
  }

  predicate Expired<V>(e: Entry<V>, now: nat) {
    e.ttl.Some? && SatSub(now, e.createdAt) > e.ttl.value
  }

  function Get<V>(c: Cache<V>, key: Key, now: nat): (Cache<V>, Option<V>) {
    var st := c.stats;
    if key !in c.entries then
      (c.(stats := st.(misses := st.misses + 1)), None)
    else if Expired(c.entries[key], now) then
      (c.(entries := c.entries - {key}, order := Without(c.order, key), stats := st.(misses := st.misses + 1)), None)
    else
      var e := c.entries[key];
      (c.(entries := c.entries[key := e.(accessCount := e.accessCount + 1, accessedAt := now)],
          order := Touch(c.order, key), stats := st.(hits := st.hits + 1)),
       Some(e.value))
  }

  function Delete<V>(c: Cache<V>, key: Key): (Cache<V>, bool) {
    if key in c.entries then
      (c.(entries := c.entries - {key}, order := Without(c.order, key)), true)
    else
      (c, false)
  }

  /** One turn of the eviction loop: delete the front of the recency list and count it. */
  function EvictFront<V>(c: Cache<V>): Cache<V>
    requires c.order != []
  {
    var d := Delete(c, c.order[0]).0;
    d.(stats := d.stats.(evictions := d.stats.evictions + 1))
  }

  predicate HasRoomFor<V>(c: Cache<V>, key: Key) {
    |c.entries| < c.maxEntries || key in c.entries || c.order == []
  }

  /** The eviction loop. It terminates only because the list and the map agree. */
  function MakeRoom<V>(c: Cache<V>, key: Key): Cache<V>
    requires Agrees(c)
    decreases |c.order|
  {
    if HasRoomFor(c, key) then c
    else
      EvictFrontFacts(c);
      MakeRoom(EvictFront(c), key)
  }

  function Insert<V>(c: Cache<V>, key: Key, value: V, ttl: Option<nat>, now: nat): Cache<V> {
    var life := if ttl.Some? then ttl else Some(c.defaultTtl);
    c.(entries := c.entries[key := Entry(value, now, now, 0, life)], order := Touch(c.order, key),
       stats := c.stats.(writes := c.stats.writes + 1))
  }

  function Set<V>(c: Cache<V>, key: Key, value: V, ttl: Option<nat>, now: nat): Cache<V>
    requires Agrees(c)
  {
    Insert(MakeRoom(c, key), key, value, ttl, now)
  }

  function GetOrCompute<V>(c: Cache<V>, key: Key, computed: V, now: nat): (Cache<V>, V)
    requires Agrees(c)
  {
    var (d, hit) := Get(c, key, now);
    GetKeepsAgreement(c, key, now);
    if hit.Some? then (d, hit.value) else (Set(d, key, computed, None, now), computed)
  }

  // ── The list and the map agree ─────────────────────────────────────

  ghost predicate Agrees<V>(c: Cache<V>) {
    NoDup(c.order) && forall k :: k in c.order <==> k in c.entries
  }

  /** The capacity that is really enforced: a limit of 0 still holds one entry. */
  function Capacity<V>(c: Cache<V>): nat {
    Max(c.maxEntries, 1)
  }

  ghost predicate Valid<V>(c: Cache<V>) {
    Agrees(c) && |c.order| <= Capacity(c)
  }

  lemma SameSize<V>(c: Cache<V>)
    requires Agrees(c)
    ensures |c.order| == |c.entries|
  {
    NoDupCardinality(c.order);
    assert (set k | k in c.order) == c.entries.Keys;
  }

  lemma DeleteFacts<V>(c: Cache<V>, key: Key)
    requires Agrees(c)
    ensures Agrees(Delete(c, key).0)
    ensures |Delete(c, key).0.order| == if key in c.entries then |c.order| - 1 else |c.order|
  {
    WithoutNoDup(c.order, key);
    WithoutMembers(c.order, key);
  }

  lemma EvictFrontFacts<V>(c: Cache<V>)
    requires Agrees(c) && c.order != []
    ensures Agrees(EvictFront(c)) && EvictFront(c).order == c.order[1..]
    ensures EvictFront(c).entries == c.entries - {c.order[0]}
  {
    DeleteFacts(c, c.order[0]);
    WithoutHead(c.order);
  }

  lemma GetKeepsAgreement<V>(c: Cache<V>, key: Key, now: nat)
    requires Agrees(c)
    ensures Agrees(Get(c, key, now).0)
    ensures |Get(c, key, now).0.order| <= |c.order|
  {
    WithoutNoDup(c.order, key);
    WithoutMembers(c.order, key);
    TouchFacts(c.order, key);
  }

  lemma InsertFacts<V>(c: Cache<V>, key: Key, value: V, ttl: Option<nat>, now: nat)
    requires Agrees(c)
    ensures Agrees(Insert(c, key, value, ttl, now))
    ensures |Insert(c, key, value, ttl, now).order| == if key in c.entries then |c.order| else |c.order| + 1
  {
    TouchFacts(c.order, key);
  }

  /** If the front of the list were not in the map, a turn of the loop would free nothing. */
  lemma StaleFrontStalls<V>(c: Cache<V>, key: Key)
    requires c.order != [] && c.order[0] !in c.entries && !HasRoomFor(c, key)
    ensures var d := EvictFront(c);
      d.entries == c.entries && d.order == c.order && !HasRoomFor(d, key)
  {
  }

  /** In a valid cache the loop turns at most once, and exactly when a new key finds it full. */
  lemma {:induction false} MakeRoomFacts<V>(c: Cache<V>, key: Key)
    requires Valid(c)
    ensures MakeRoom(c, key) ==
      if key in c.entries || |c.order| < Capacity(c) then c else EvictFront(c)
    ensures Agrees(MakeRoom(c, key))
    ensures key in c.entries || |MakeRoom(c, key).order| < Capacity(c)
  {
    SameSize(c);
    if !HasRoomFor(c, key) {
      EvictFrontFacts(c);
      var d := EvictFront(c);
      SameSize(d);
      assert HasRoomFor(d, key);
    }
  }

  lemma SetKeepsValid<V>(c: Cache<V>, key: Key, value: V, ttl: Option<nat>, now: nat)
    requires Valid(c)
    ensures Valid(Set(c, key, value, ttl, now))
  {
    MakeRoomFacts(c, key);
    InsertFacts(MakeRoom(c, key), key, value, ttl, now);
  }

  /** A write is read back, whatever was evicted for it, for exactly its lifetime. */
  lemma SetThenGet<V>(c: Cache<V>, key: Key, value: V, ttl: Option<nat>, now: nat, later: nat)
    requires Valid(c)
    ensures var life := if ttl.Some? then ttl.value else c.defaultTtl;
      Get(Set(c, key, value, ttl, now), key, later).1 == if SatSub(later, now) <= life then Some(value) else None
  {
    MakeRoomFacts(c, key);
  }

  // ── Runs ───────────────────────────────────────────────────────────

  datatype Op<V> =
    | OpGet(key: Key, now: nat)
    | OpSet(key: Key, value: V, ttl: Option<nat>, now: nat)
    | OpDelete(key: Key)

  ghost function Step<V>(c: Cache<V>, op: Op<V>): (Cache<V>, Option<V>)
    requires Valid(c)
  {
    match op
    case OpGet(k, now) => Get(c, k, now)
    case OpSet(k, v, ttl, now) => (Set(c, k, v, ttl, now), None)
    case OpDelete(k) => (Delete(c, k).0, None)
  }

  lemma StepKeepsValid<V>(c: Cache<V>, op: Op<V>)
    requires Valid(c)
    ensures Valid(Step(c, op).0)
  {
    match op
    case OpGet(k, now) => GetKeepsAgreement(c, k, now);
    case OpSet(k, v, ttl, now) => SetKeepsValid(c, k, v, ttl, now);
    case OpDelete(k) => DeleteFacts(c, k);
  }

  ghost function Run<V>(c: Cache<V>, ops: seq<Op<V>>): (r: Cache<V>)
    requires Valid(c)
    ensures Valid(r)
    decreases |ops|
  {
    if ops == [] then c else StepKeepsValid(c, ops[0]); Run(Step(c, ops[0]).0, ops[1..])
  }

  ghost function Answers<V>(c: Cache<V>, ops: seq<Op<V>>): (r: seq<Option<V>>)
    requires Valid(c)
    ensures |r| == |ops|
    decreases |ops|
  {
    if ops == [] then []
    else
      StepKeepsValid(c, ops[0]);
      [Step(c, ops[0]).1] + Answers(Step(c, ops[0]).0, ops[1..])
  }

  /** After any run the list is a duplicate-free listing of the keys, within capacity. */
  lemma {:induction false} RunStaysWithinCapacity<V>(maxEntries: nat, defaultTtl: nat, ops: seq<Op<V>>)
    ensures var c := Run(New(maxEntries, defaultTtl), ops);
      NoDup(c.order) && (forall k :: k in c.order <==> k in c.entries) && |c.entries| == |c.order| <= Max(maxEntries, 1)
  {
    var c := Run(New(maxEntries, defaultTtl), ops);
    RunKeepsConfig(New<V>(maxEntries, defaultTtl), ops);
    SameSize(c);
  }

  lemma {:induction false} RunKeepsConfig<V>(c: Cache<V>, ops: seq<Op<V>>)
    requires Valid(c)
    ensures Run(c, ops).maxEntries == c.maxEntries && Run(c, ops).defaultTtl == c.defaultTtl
    decreases |ops|
  {
    if ops == [] {
    } else {
      StepKeepsValid(c, ops[0]);
      StepKeepsConfig(c, ops[0]);
      RunKeepsConfig(Step(c, ops[0]).0, ops[1..]);
    }
  }

  lemma StepKeepsConfig<V>(c: Cache<V>, op: Op<V>)
    requires Valid(c)
    ensures Step(c, op).0.maxEntries == c.maxEntries && Step(c, op).0.defaultTtl == c.defaultTtl
  {
    if op.OpSet? { MakeRoomFacts(c, op.key); }
  }

  // ── Inclusion: a larger cache never misses what a smaller one hits ──

  ghost predicate Included<V>(a: Cache<V>, b: Cache<V>) {
    && Valid(a) && Valid(b) && a.defaultTtl == b.defaultTtl
    && Capacity(a) <= Capacity(b)
    && Capacity(a) - |a.order| <= Capacity(b) - |b.order|
    && Nested(a, b)
  }

  /** The recency list of `a` is part of that of `b`, and the entries both hold are the same. */
  ghost predicate Nested<V>(a: Cache<V>, b: Cache<V>) {
    Subseq(a.order, b.order) && forall k :: k in a.entries ==> k in b.entries && a.entries[k] == b.entries[k]
  }

  lemma IncludedRemoval<V>(a: Cache<V>, b: Cache<V>, key: Key)
    requires Included(a, b)
    ensures Included(Delete(a, key).0, Delete(b, key).0)
  {
    DeleteFacts(a, key);
    DeleteFacts(b, key);
    SubseqWithout(a.order, b.order, key);
    WithoutMembers(a.order, key);
    WithoutMembers(b.order, key);
  }

  lemma IncludedGet<V>(a: Cache<V>, b: Cache<V>, key: Key, now: nat)
    requires Included(a, b)
    ensures Included(Get(a, key, now).0, Get(b, key, now).0)
    ensures Get(a, key, now).1.Some? ==> Get(b, key, now).1 == Get(a, key, now).1
  {
    StepKeepsValid(a, OpGet(key, now));
    StepKeepsValid(b, OpGet(key, now));
    if key in b.entries && Expired(b.entries[key], now) {
      IncludedRemoval(a, b, key);
    } else if key in b.entries {
      TouchFacts(a.order, key);
      TouchFacts(b.order, key);
      IncludedTouch(a.order, b.order, key, key in a.entries);
    }
  }

  lemma IncludedTouch(a: seq<Key>, b: seq<Key>, key: Key, both: bool)
    requires Subseq(a, b) && (!both ==> key !in a)
    ensures Subseq(if both then Touch(a, key) else a, Touch(b, key))
  {
    SubseqWithout(a, b, key);
    WithoutMembers(a, key);
    if both {
      SubseqSnoc(Without(a, key), Without(b, key), key);
    } else {
      SubseqExtend(a, Without(b, key), key);
    }
  }

  lemma NestedEvictSmall<V>(a: Cache<V>, b: Cache<V>)
    requires Agrees(a) && Nested(a, b) && a.order != []
    ensures Nested(EvictFront(a), b)
  {
    EvictFrontFacts(a);
    SubseqTail(a.order, b.order);
  }

  lemma NestedEvictBoth<V>(a: Cache<V>, b: Cache<V>)
    requires Agrees(a) && Agrees(b) && Nested(a, b) && a.order != [] && b.order != []
    ensures Nested(EvictFront(a), EvictFront(b))
  {
    EvictFrontFacts(a);
    EvictFrontFacts(b);
    SubseqTails(a.order, b.order);
    SubseqMembers(a.order[1..], b.order[1..]);
    forall k | k in EvictFront(a).entries ensures k in EvictFront(b).entries {
      assert k in EvictFront(a).order;
    }
  }

  lemma NestedInsert<V>(a: Cache<V>, b: Cache<V>, key: Key, value: V, ttl: Option<nat>, now: nat)
    requires Nested(a, b) && a.defaultTtl == b.defaultTtl
    ensures Nested(Insert(a, key, value, ttl, now), Insert(b, key, value, ttl, now))
  {
    IncludedTouch(a.order, b.order, key, true);
  }

  lemma {:induction false} SubseqTails(a: seq<Key>, b: seq<Key>)
    requires Subseq(a, b) && a != [] && b != []
    ensures Subseq(a[1..], b[1..])
  {
    if a[0] != b[0] { SubseqTail(a, b[1..]); }
  }

  /** The size of the list after a write, and what the loop kept before it. */
  lemma SetFacts<V>(c: Cache<V>, key: Key, value: V, ttl: Option<nat>, now: nat)
    requires Valid(c)
    ensures var trimmed := if key in c.entries || |c.order| < Capacity(c) then c else EvictFront(c);
      Set(c, key, value, ttl, now) == Insert(trimmed, key, value, ttl, now)
    ensures |Set(c, key, value, ttl, now).order| == if key in c.entries then |c.order| else Min(|c.order| + 1, Capacity(c))
  {
    MakeRoomFacts(c, key);
    if !(key in c.entries || |c.order| < Capacity(c)) { EvictFrontFacts(c); }
    InsertFacts(MakeRoom(c, key), key, value, ttl, now);
  }

  lemma NestedSet<V>(a: Cache<V>, b: Cache<V>, key: Key, value: V, ttl: Option<nat>, now: nat)
    requires Included(a, b)
    ensures Nested(Set(a, key, value, ttl, now), Set(b, key, value, ttl, now))
  {
    SetFacts(a, key, value, ttl, now);
    SetFacts(b, key, value, ttl, now);
    if !(key in b.entries || |b.order| < Capacity(b)) {
      NestedEvictBoth(a, b);
      NestedInsert(EvictFront(a), EvictFront(b), key, value, ttl, now);
    } else if !(key in a.entries || |a.order| < Capacity(a)) {
      NestedEvictSmall(a, b);
      NestedInsert(EvictFront(a), b, key, value, ttl, now);
    } else {
      NestedInsert(a, b, key, value, ttl, now);
    }
  }

  lemma IncludedSet<V>(a: Cache<V>, b: Cache<V>, key: Key, value: V, ttl: Option<nat>, now: nat)
    requires Included(a, b)
    ensures Included(Set(a, key, value, ttl, now), Set(b, key, value, ttl, now))
  {
    SetKeepsValid(a, key, value, ttl, now);
    SetKeepsValid(b, key, value, ttl, now);
    NestedSet(a, b, key, value, ttl, now);
    SetFacts(a, key, value, ttl, now);
    SetFacts(b, key, value, ttl, now);
  }

  lemma IncludedStep<V>(a: Cache<V>, b: Cache<V>, op: Op<V>)
    requires Included(a, b)
    ensures Included(Step(a, op).0, Step(b, op).0)
    ensures Step(a, op).1.Some? ==> Step(b, op).1 == Step(a, op).1
  {
    match op
    case OpGet(k, now) => IncludedGet(a, b, k, now);
    case OpSet(k, v, ttl, now) => IncludedSet(a, b, k, v, ttl, now);
    case OpDelete(k) => IncludedRemoval(a, b, k);
  }

  lemma {:induction false} IncludedRun<V>(a: Cache<V>, b: Cache<V>, ops: seq<Op<V>>)
    requires Included(a, b)
    ensures Included(Run(a, ops), Run(b, ops))
    ensures forall i :: 0 <= i < |ops| && Answers(a, ops)[i].Some? ==> Answers(b, ops)[i] == Answers(a, ops)[i]
    decreases |ops|
  {
    if ops == [] {
    } else {
      IncludedStep(a, b, ops[0]);
      IncludedRun(Step(a, ops[0]).0, Step(b, ops[0]).0, ops[1..]);
    }
  }

  /**
   Two caches with the same default lifetime, fed the same timed calls: every hit in the one
   with the lower limit is a hit with the same value in the other, and the smaller recency
   list stays an order-preserving part of the larger one.
   */
  lemma {:induction false} LargerCacheHitsMore<V>(small: nat, large: nat, defaultTtl: nat, ops: seq<Op<V>>)
    requires small <= large
    ensures var a, b := New<V>(small, defaultTtl), New<V>(large, defaultTtl);
      && (forall i :: 0 <= i < |ops| && Answers(a, ops)[i].Some? ==> Answers(b, ops)[i] == Answers(a, ops)[i])
      && Subseq(Run(a, ops).order, Run(b, ops).order)
  {
    IncludedRun(New<V>(small, defaultTtl), New<V>(large, defaultTtl), ops);
  }

  // ── The list really is least recently touched first ────────────────

  /** The key a call touches: a write always, a read when it hits. */
  ghost function Touched<V>(c: Cache<V>, op: Op<V>): seq<Key>
    requires Valid(c)
  {
    if op.OpSet? || Step(c, op).1.Some? then [op.key] else []
  }

  ghost function TouchLog<V>(c: Cache<V>, ops: seq<Op<V>>): seq<Key>
    requires Valid(c)
    decreases |ops|
  {
    if ops == [] then []
    else
      StepKeepsValid(c, ops[0]);
      Touched(c, ops[0]) + TouchLog(Step(c, ops[0]).0, ops[1..])
  }

  /** Position of the last touch of `k` in the log, or -1. */
  ghost function LastTouch(log: seq<Key>, k: Key): int {
    if log == [] then -1
    else if log[|log| - 1] == k then |log| - 1
    else LastTouch(log[..|log| - 1], k)
  }

  ghost predicate ByLastTouch(order: seq<Key>, log: seq<Key>) {
    && (forall i :: 0 <= i < |order| ==> 0 <= LastTouch(log, order[i]) < |log|)
    && (forall i, j :: 0 <= i < j < |order| ==> LastTouch(log, order[i]) < LastTouch(log, order[j]))
  }

  lemma {:induction false} ByLastTouchCons(k: Key, order: seq<Key>, log: seq<Key>)
    requires ByLastTouch(order, log) && 0 <= LastTouch(log, k) < |log|
    requires forall x :: x in order ==> LastTouch(log, k) < LastTouch(log, x)
    ensures ByLastTouch([k] + order, log)
  {
  }

  lemma {:induction false} ByLastTouchWithout(order: seq<Key>, log: seq<Key>, key: Key)
    requires ByLastTouch(order, log)
    ensures ByLastTouch(Without(order, key), log)
  {
    if order == [] {
    } else {
      ByLastTouchWithout(order[1..], log, key);
      WithoutMembers(order[1..], key);
      if order[0] != key { ByLastTouchCons(order[0], Without(order[1..], key), log); }
    }
  }

  lemma ByLastTouchTouch(order: seq<Key>, log: seq<Key>, key: Key)
    requires ByLastTouch(order, log)
    ensures ByLastTouch(Touch(order, key), log + [key])
  {
    ByLastTouchWithout(order, log, key);
    var r := Without(order, key);
    WithoutMembers(order, key);
    assert (log + [key])[..|log|] == log;
    forall i | 0 <= i < |r| ensures LastTouch(log + [key], r[i]) == LastTouch(log, r[i]) {
      assert r[i] in r;
    }
  }

  lemma ByLastTouchSet<V>(c: Cache<V>, log: seq<Key>, key: Key, value: V, ttl: Option<nat>, now: nat)
    requires Valid(c) && ByLastTouch(c.order, log)
    ensures ByLastTouch(Set(c, key, value, ttl, now).order, log + [key])
  {
    SetFacts(c, key, value, ttl, now);
    var trimmed := if key in c.entries || |c.order| < Capacity(c) then c else EvictFront(c);
    if trimmed != c { EvictFrontFacts(c); }
    ByLastTouchTouch(trimmed.order, log, key);
  }

  lemma ByLastTouchStep<V>(c: Cache<V>, log: seq<Key>, op: Op<V>)
    requires Valid(c) && ByLastTouch(c.order, log)
    ensures ByLastTouch(Step(c, op).0.order, log + Touched(c, op))
  {
    match op
    case OpSet(k, v, ttl, now) => ByLastTouchSet(c, log, k, v, ttl, now);
    case OpGet(k, now) =>
      assert log + [] == log;
      ByLastTouchWithout(c.order, log, k);
      ByLastTouchTouch(c.order, log, k);
    case OpDelete(k) =>
      assert log + [] == log;
      ByLastTouchWithout(c.order, log, k);
  }

  lemma {:induction false} ByLastTouchRun<V>(c: Cache<V>, log: seq<Key>, ops: seq<Op<V>>)
    requires Valid(c) && ByLastTouch(c.order, log)
    ensures ByLastTouch(Run(c, ops).order, log + TouchLog(c, ops))
    decreases |ops|
  {
    hide ByLastTouch;
    if ops == [] {
      assert log + [] == log;
    } else {
      StepKeepsValid(c, ops[0]);
      ByLastTouchStep(c, log, ops[0]);
      var d := Step(c, ops[0]).0;
      var head, tail := Touched(c, ops[0]), TouchLog(d, ops[1..]);
      ByLastTouchRun(d, log + head, ops[1..]);
      assert (log + head) + tail == log + (head + tail);
    }
  }

  /**
   After any run, writing a new key to a full cache drops exactly one key, and no key that
   was present had been touched longer ago; every other entry is kept as it was.
   */
  lemma EvictsLeastRecentlyTouched<V>(maxEntries: nat, defaultTtl: nat, ops: seq<Op<V>>, key: Key, value: V, ttl: Option<nat>, now: nat)
    returns (victim: Key)
    requires var c := Run(New(maxEntries, defaultTtl), ops);
      key !in c.entries && |c.entries| >= Max(maxEntries, 1)
    ensures var c, log := Run(New(maxEntries, defaultTtl), ops), TouchLog(New(maxEntries, defaultTtl), ops);
      var d := Set(c, key, value, ttl, now);
      && victim in c.entries
      && (forall k :: k in c.entries && k != victim ==> LastTouch(log, victim) < LastTouch(log, k))
      && d.entries.Keys == c.entries.Keys - {victim} + {key}
      && (forall k :: k in c.entries && k != victim ==> d.entries[k] == c.entries[k])
      && d.stats.evictions == c.stats.evictions + 1
  {
    var c0 := New<V>(maxEntries, defaultTtl);
    RunKeepsConfig(c0, ops);
    ByLastTouchRun(c0, [], ops);
    assert [] + TouchLog(c0, ops) == TouchLog(c0, ops);
    victim := EvictsOldest(Run(c0, ops), TouchLog(c0, ops), key, value, ttl, now);
  }

  lemma EvictsOldest<V>(c: Cache<V>, log: seq<Key>, key: Key, value: V, ttl: Option<nat>, now: nat) returns (victim: Key)
    requires Valid(c) && ByLastTouch(c.order, log) && key !in c.entries && |c.entries| >= Capacity(c)
    ensures victim in c.entries
    ensures forall k :: k in c.entries && k != victim ==> LastTouch(log, victim) < LastTouch(log, k)
    ensures var d := Set(c, key, value, ttl, now);
      && d.entries.Keys == c.entries.Keys - {victim} + {key}
      && (forall k :: k in c.entries && k != victim ==> d.entries[k] == c.entries[k])
      && d.stats.evictions == c.stats.evictions + 1
  {
    SameSize(c);
    SetFacts(c, key, value, ttl, now);
    EvictFrontFacts(c);
    victim := c.order[0];
    forall k | k in c.entries && k != victim ensures LastTouch(log, victim) < LastTouch(log, k) {
      assert k in c.order;
    }
  }
}
