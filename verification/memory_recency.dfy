/** The recency list of L1, told from the calls made: which entry a write pushes out of memory, and how often each was read. */
module MemoryRecency {
  import opened Prelude
  import opened FileNames
  import opened TieredSpec
  import opened OneMap
  import opened Demotion
  import Lru

  /** The keys used by the calls of a run, in their order. */
  ghost function Used<V(!new)>(t: Tiered<V>, ops: seq<Op<V>>): seq<Key>
    decreases |ops|
  {
    if ops == [] then []
    else
      var last, before := ops[|ops| - 1], ops[..|ops| - 1];
      Used(t, before) + if !last.OpDemoteCold? && Uses(Run(t, before), last, last.key) then [last.key] else []
  }

  lemma UnusedElsewhere(order: seq<Key>, log: seq<Key>, key: Key)
    requires Lru.ByLastTouch(order, log) && key !in order
    ensures Lru.ByLastTouch(order, log + [key])
  {
    assert (log + [key])[..|log|] == log;
    forall i | 0 <= i < |order| ensures Lru.LastTouch(log + [key], order[i]) == Lru.LastTouch(log, order[i]) {
      assert order[i] in order;
    }
  }

  lemma FrontDropped(order: seq<Key>, log: seq<Key>)
    requires Lru.ByLastTouch(order, log) && order != []
    ensures Lru.ByLastTouch(order[1..], log)
  {
  }

  lemma MemSetByUse<V>(m: Memory<V>, key: Key, value: V, ttl: Option<nat>, now: nat, log: seq<Key>)
    requires Lru.ByLastTouch(m.order, log)
    ensures Lru.ByLastTouch(MemSet(m, key, value, ttl, now).order, log + [key])
  {
    var r := if |m.entries| >= m.maxEntries && key !in m.entries then MemEvict(m) else m;
    if m.order != [] { FrontDropped(m.order, log); }
    Lru.ByLastTouchTouch(r.order, log, key);
    hide Lru.ByLastTouch;
  }

  lemma GetByUse<V(!new)>(t: Tiered<V>, key: Key, now: nat, log: seq<Key>)
    requires MemValid(t.l1) && Lru.ByLastTouch(t.l1.order, log)
    ensures var (u, found) := Get(t, key, now); Lru.ByLastTouch(u.l1.order, log + if found.Some? then [key] else [])
  {
    assert log + [] == log;
    var (m, hit) := MemGet(t.l1, key, now);
    MemGetValid(t.l1, key, now);
    Lru.ByLastTouchWithout(t.l1.order, log, key);
    Lru.ByLastTouchTouch(t.l1.order, log, key);
    hide Lru.ByLastTouch;
    if hit.None? {
      assert Lru.ByLastTouch(m.order, log) && key !in m.order;
      UnusedElsewhere(m.order, log, key);
      if t.l2.Some? {
        var read := FileGet(t.l2.value, key, now).1;
        if read.Some? { MemSetByUse(m, key, read.value.value, read.value.ttl, now, log); }
      }
    }
  }

  lemma {:induction false} WithoutTouched(order: seq<Key>, key: Key)
    ensures Without(Touch(order, key), key) == Without(order, key)
  {
    WithoutConcat(Without(order, key), [key], key);
    WithoutMembers(order, key);
    WithoutMembers(Without(order, key), key);
    assert Without([key], key) == [];
  }

  lemma MoveDownByUse<V>(t: Tiered<V>, key: Key, now: nat, log: seq<Key>)
    requires Lru.ByLastTouch(t.l1.order, log)
    ensures Lru.ByLastTouch(MoveDown(t, key, now).0.l1.order, log)
  {
    Lru.ByLastTouchWithout(t.l1.order, log, key);
    WithoutTouched(t.l1.order, key);
  }

  lemma {:induction false} MoveDownAllByUse<V>(t: Tiered<V>, keys: seq<Key>, now: nat, log: seq<Key>)
    requires Lru.ByLastTouch(t.l1.order, log)
    ensures Lru.ByLastTouch(MoveDownAll(t, keys, now).0.l1.order, log)
    decreases |keys|
  {
    hide Lru.ByLastTouch;
    if keys == [] {
    } else {
      var last := |keys| - 1;
      MoveDownAllByUse(t, keys[..last], now, log);
      MoveDownByUse(MoveDownAll(t, keys[..last], now).0, keys[last], now, log);
    }
  }

  lemma StepByUse<V(!new)>(t: Tiered<V>, op: Op<V>, log: seq<Key>)
    requires MemValid(t.l1) && Lru.ByLastTouch(t.l1.order, log)
    ensures Lru.ByLastTouch(Step(t, op).0.l1.order, log + if !op.OpDemoteCold? && Uses(t, op, op.key) then [op.key] else [])
  {
    assert log + [] == log;
    match op
    case OpGet(k, now) => GetByUse(t, k, now, log);
    case OpSet(k, v, ttl, now) => MemSetByUse(t.l1, k, v, ttl, now, log);
    case OpDelete(k) => Lru.ByLastTouchWithout(t.l1.order, log, k);
    case OpDemote(k, now) => MoveDownByUse(t, k, now, log);
    case OpDemoteCold(keys, now) => MoveDownAllByUse(t, keys, now, log);
    case OpPromote(k, now) =>
      if t.l2.Some? {
        var read := FileGet(t.l2.value, k, now).1;
        if read.Some? { MemSetByUse(t.l1, k, read.value.value, read.value.ttl, now, log); }
      }
  }

  lemma {:induction false} ListedByUse<V(!new)>(t: Tiered<V>, ops: seq<Op<V>>)
    requires t.l1.entries == map[] && t.l1.order == []
    ensures MemValid(Run(t, ops).l1) && Lru.ByLastTouch(Run(t, ops).l1.order, Used(t, ops))
    decreases |ops|
  {
    if ops == [] {
    } else {
      var before, last := ops[..|ops| - 1], ops[|ops| - 1];
      ListedByUse(t, before);
      Demotion.RunSnoc(t, ops);
      StepKeepsMemory(Run(t, before), last);
      StepByUse(Run(t, before), last, Used(t, before));
      hide Step;
      hide MemValid;
      hide Lru.ByLastTouch;
    }
  }

  lemma {:induction false} MoveDownAllKeepsSize<V>(t: Tiered<V>, keys: seq<Key>, now: nat)
    ensures MoveDownAll(t, keys, now).0.l1.maxEntries == t.l1.maxEntries
    decreases |keys|
  {
    if keys == [] {
    } else {
      MoveDownAllKeepsSize(t, keys[..|keys| - 1], now);
    }
  }

  lemma {:induction false} RunKeepsSize<V>(t: Tiered<V>, ops: seq<Op<V>>)
    ensures Run(t, ops).l1.maxEntries == t.l1.maxEntries
    decreases |ops|
  {
    if ops == [] {
    } else {
      if ops[0].OpDemoteCold? { MoveDownAllKeepsSize(t, ops[0].keys, ops[0].now); }
      RunKeepsSize(Step(t, ops[0]).0, ops[1..]);
    }
  }

  /**
   After a run, writing a new key to a full memory pushes out exactly one key, and every other
   key in memory was used after it; all other entries stay as they were.
   */
  lemma {:induction false} PushesOutLeastRecentlyUsed<V(!new)>(t: Tiered<V>, ops: seq<Op<V>>, key: Key, value: V, ttl: Option<nat>, now: nat)
    returns (victim: Key)
    requires t.l1.entries == map[] && t.l1.order == []
    requires var m := Run(t, ops).l1; key !in m.entries && |m.entries| >= Max(t.l1.maxEntries, 1)
    ensures var m, d, log := Run(t, ops).l1.entries, Set(Run(t, ops), key, value, ttl, now).l1.entries, Used(t, ops);
      && victim in m
      && (forall k :: k in m && k != victim ==> Lru.LastTouch(log, victim) < Lru.LastTouch(log, k))
      && d.Keys == m.Keys - {victim} + {key} && (forall k :: k in m && k != victim ==> d[k] == m[k])
  {
    ListedByUse(t, ops);
    RunKeepsSize(t, ops);
    var m := Run(t, ops).l1;
    MemSize(m);
    victim := m.order[0];
    forall k | k in m.entries && k != victim ensures Lru.LastTouch(Used(t, ops), victim) < Lru.LastTouch(Used(t, ops), k) {
      assert k in m.order;
    }
  }

  /** Below that limit nothing is pushed out. */
  lemma {:induction false} RoomForMore<V(!new)>(t: Tiered<V>, ops: seq<Op<V>>, key: Key, value: V, ttl: Option<nat>, now: nat)
    requires t.l1.entries == map[] && t.l1.order == []
    requires var m := Run(t, ops).l1; key in m.entries || |m.entries| < t.l1.maxEntries
    ensures var m, d := Run(t, ops).l1.entries, Set(Run(t, ops), key, value, ttl, now).l1.entries;
      d.Keys == m.Keys + {key} && forall k :: k in m && k != key ==> d[k] == m[k]
  {
    RunKeepsSize(t, ops);
  }
}
