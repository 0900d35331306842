/** The LRU cache as the program has it: fields updated in place, proved against `Lru`. */
module LruCaches {
  import opened Prelude
  import opened Lru

  class LruCache<V> {
    const maxEntries: nat
    const defaultTtl: nat
    var entries: map<Key, Entry<V>>
    var order: seq<Key>
    var stats: Stats

    ghost function State(): Cache<V>
      reads this
    {
      Cache(maxEntries, defaultTtl, entries, order, stats)
    }

    constructor (maxEntries: nat, defaultTtl: nat)
      ensures State() == New(maxEntries, defaultTtl) && Valid(State())
    {
      this.maxEntries, this.defaultTtl := maxEntries, defaultTtl;
      entries, order, stats := map[], [], Stats(0, 0, 0, 0);
    }

    method Get(key: Key, now: nat) returns (value: Option<V>)
      requires Valid(State())
      modifies this
      ensures Valid(State()) && (State(), value) == Lru.Get(old(State()), key, now)
    {
      StepKeepsValid(State(), OpGet(key, now));
      value := None;
      if key in entries && Expired(entries[key], now) {
        entries := entries - {key};
        order := Without(order, key);
        stats := stats.(misses := stats.misses + 1);
        return;
      }
      if key in entries {
        var e := entries[key];
        entries := entries[key := e.(accessCount := e.accessCount + 1, accessedAt := now)];
        value := Some(e.value);
      }
      if value.Some? {
        order := Touch(order, key);
        stats := stats.(hits := stats.hits + 1);
      } else {
        stats := stats.(misses := stats.misses + 1);
      }
    }

    method Delete(key: Key) returns (deleted: bool)
      requires Agrees(State())
      modifies this`entries, this`order
      ensures Agrees(State()) && (State(), deleted) == Lru.Delete(old(State()), key)
    {
      DeleteFacts(State(), key);
      deleted := key in entries;
      if deleted {
        entries := entries - {key};
        order := Without(order, key);
      }
    }

    method Set(key: Key, value: V, ttl: Option<nat>, now: nat)
      requires Valid(State())
      modifies this
      ensures Valid(State()) && State() == Lru.Set(old(State()), key, value, ttl, now)
    {
      SetKeepsValid(State(), key, value, ttl, now);
      while !(|entries| < maxEntries || key in entries)
        invariant Agrees(State()) && MakeRoom(State(), key) == MakeRoom(old(State()), key)
        decreases |order|
      {
        if order == [] { break; }
        EvictFront();
      }
      Insert(key, value, ttl, now);
    }

    method EvictFront()
      requires Agrees(State()) && order != []
      modifies this
      ensures State() == Lru.EvictFront(old(State()))
      ensures Agrees(State()) && order == old(order)[1..]
    {
      EvictFrontFacts(State());
      var _ := Delete(order[0]);
      stats := stats.(evictions := stats.evictions + 1);
    }

    method Insert(key: Key, value: V, ttl: Option<nat>, now: nat)
      modifies this
      ensures State() == Lru.Insert(old(State()), key, value, ttl, now)
    {
      var life := if ttl.Some? then ttl else Some(defaultTtl);
      entries := entries[key := Entry(value, now, now, 0, life)];
      order := Touch(order, key);
      stats := stats.(writes := stats.writes + 1);
    }

    /** `computed` is what the caller's closure returns; it is used only on a miss. */
    method GetOrCompute(key: Key, computed: V, now: nat) returns (value: V)
      requires Valid(State())
      modifies this
      ensures Valid(State()) && (State(), value) == Lru.GetOrCompute(old(State()), key, computed, now)
    {
      var hit := Get(key, now);
      if hit.Some? { return hit.value; }
      Set(key, computed, None, now);
      value := computed;
    }
  }
}
