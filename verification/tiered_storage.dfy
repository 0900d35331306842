/** The two tiers as the program has them: objects updated in place, proved against `TieredSpec`. */
module TieredStorages {
  import opened Prelude
  import opened FileNames
  import opened TieredSpec

  class MemoryStorage<V> {
    const maxEntries: nat
    var entries: map<Key, Entry<V>>
    var order: seq<Key>

    ghost function State(): Memory<V>
      reads this
    {
      Memory(maxEntries, entries, order)
    }

    constructor (maxEntries: nat)
      ensures State() == Memory(maxEntries, map[], [])
    {
      this.maxEntries, entries, order := maxEntries, map[], [];
    }

    method GetEntry(key: Key, now: nat) returns (entry: Option<Entry<V>>)
      modifies this
      ensures (State(), entry) == MemGet(old(State()), key, now)
    {
      if key !in entries { return None; }
      var e := entries[key];
      if Stale(e.createdAt, e.ttl, now) {
        entries := entries - {key};
        order := Without(order, key);
        return None;
      }
      e := e.(accessCount := e.accessCount + 1, accessedAt := now);
      entries := entries[key := e];
      order := Touch(order, key);
      entry := Some(e);
    }

    method EvictLru()
      modifies this
      ensures State() == MemEvict(old(State()))
    {
      if order != [] {
        entries := entries - {order[0]};
        order := order[1..];
      }
    }

    method SetEntry(key: Key, value: V, ttl: Option<nat>, now: nat)
      modifies this
      ensures State() == MemSet(old(State()), key, value, ttl, now)
      ensures old(MemValid(State())) ==> MemValid(State())
    {
      if MemValid(State()) { MemSetValid(State(), key, value, ttl, now); }
      if |entries| >= maxEntries && key !in entries { EvictLru(); }
      entries := entries[key := Entry(value, now, now, 0, ttl)];
      order := Touch(order, key);
    }

    method DeleteEntry(key: Key) returns (deleted: bool)
      modifies this
      ensures (State(), deleted) == MemDelete(old(State()), key)
    {
      deleted := key in entries;
      if deleted {
        entries := entries - {key};
        order := Without(order, key);
      }
    }
  }

  class FileStorage<V> {
    var files: map<string, File<V>>

    constructor ()
      ensures files == map[]
    {
      files := map[];
    }

    method GetEntry(key: Key, now: nat) returns (entry: Option<File<V>>)
      modifies this
      ensures (files, entry) == FileGet(old(files), key, now)
    {
      var path := FileName(key);
      if path !in files { return None; }
      var f := files[path];
      if Stale(f.createdAt, f.ttl, now) {
        files := files - {path};
        return None;
      }
      entry := Some(f.(accessCount := f.accessCount + 1));
    }

    method SetEntry(key: Key, value: V, ttl: Option<nat>, now: nat)
      modifies this
      ensures files == FileSet(old(files), key, value, ttl, now)
    {
      files := files[FileName(key) := File(key, value, now, 0, ttl)];
    }

    method DeleteEntry(key: Key) returns (deleted: bool)
      modifies this
      ensures files == old(files) - {FileName(key)} && deleted == (FileName(key) in old(files))
    {
      deleted := FileName(key) in files;
      files := files - {FileName(key)};
    }
  }

  class TieredStorage<V> {
    const l1: MemoryStorage<V>
    const l2: FileStorage?<V>
    const promotionThreshold: nat
    const demotionThreshold: nat
    var promotions: nat
    var demotions: nat

    ghost function State(): Tiered<V>
      reads this, l1, l2
    {
      Tiered(l1.State(), if l2 == null then None else Some(l2.files), promotionThreshold, demotionThreshold, promotions, demotions)
    }

    constructor (l1MaxEntries: nat, enableL2: bool, promotionThreshold: nat, demotionThreshold: nat)
      ensures State() == Tiered(Memory(l1MaxEntries, map[], []), if enableL2 then Some(map[]) else None,
        promotionThreshold, demotionThreshold, 0, 0)
      ensures fresh(l1) && (l2 != null ==> fresh(l2))
    {
      l1 := new MemoryStorage(l1MaxEntries);
      if enableL2 {
        var files := new FileStorage<V>();
        l2 := files;
      } else {
        l2 := null;
      }
      this.promotionThreshold, this.demotionThreshold := promotionThreshold, demotionThreshold;
      promotions, demotions := 0, 0;
    }

    method Get(key: Key, now: nat) returns (value: Option<V>)
      modifies this, l1, l2
      ensures (State(), value) == TieredSpec.Get(old(State()), key, now)
    {
      var hit := l1.GetEntry(key, now);
      if hit.Some? { return Some(hit.value.value); }
      if l2 == null { return None; }
      var read := l2.GetEntry(key, now);
      if read.None? { return None; }
      if read.value.accessCount >= promotionThreshold {
        l1.SetEntry(key, read.value.value, read.value.ttl, now);
        promotions := promotions + 1;
      }
      value := Some(read.value.value);
    }

    method Set(key: Key, value: V, ttl: Option<nat>, now: nat)
      modifies this, l1, l2
      ensures State() == TieredSpec.Set(old(State()), key, value, ttl, now)
    {
      l1.SetEntry(key, value, ttl, now);
      if l2 != null { l2.SetEntry(key, value, ttl, now); }
    }

    method Delete(key: Key) returns (deleted: bool)
      modifies this, l1, l2
      ensures (State(), deleted) == TieredSpec.Delete(old(State()), key)
    {
      deleted := l1.DeleteEntry(key);
      if l2 != null {
        var fromFiles := l2.DeleteEntry(key);
        deleted := deleted || fromFiles;
      }
    }

    /** The step that `Demote` and `DemoteColdEntries` share. */
    method MoveDown(key: Key, now: nat) returns (moved: bool)
      modifies l1, l2
      ensures (State(), moved) == TieredSpec.MoveDown(old(State()), key, now)
    {
      var hit := l1.GetEntry(key, now);
      if hit.None? { return false; }
      if l2 != null { l2.SetEntry(key, hit.value.value, hit.value.ttl, now); }
      var _ := l1.DeleteEntry(key);
      moved := true;
    }

    method Demote(key: Key, now: nat) returns (moved: bool)
      modifies this, l1, l2
      ensures (State(), moved) == TieredSpec.Demote(old(State()), key, now)
    {
      if l2 == null { return false; }
      moved := MoveDown(key, now);
      if moved { demotions := demotions + 1; }
    }

    /** `keys` is the listing of the cold keys that was worked through. */
    /** The keys of L1 gone unread for longer than the threshold, each once, in some order. */
    method ListColdKeys(now: nat) returns (keys: seq<Key>)
      ensures NoDup(keys) && forall k :: k in keys <==> k in ColdKeys(State(), now)
    {
      var cold := set k | k in l1.entries && SatSub(now, l1.entries[k].accessedAt) > demotionThreshold;
      ghost var all := cold;
      keys := [];
      while cold != {}
        invariant NoDup(keys) && forall k :: k in all <==> k in keys || k in cold
        invariant forall k :: k in keys ==> k !in cold
        decreases cold
      {
        var k :| k in cold;
        keys, cold := keys + [k], cold - {k};
      }
    }

    method MoveDownKeys(keys: seq<Key>, now: nat) returns (count: nat)
      modifies l1, l2
      ensures (State(), count) == MoveDownAll(old(State()), keys, now)
    {
      count := 0;
      for i := 0 to |keys|
        invariant (State(), count) == MoveDownAll(old(State()), keys[..i], now)
      {
        assert keys[..i + 1][..i] == keys[..i];
        var moved := MoveDown(keys[i], now);
        if moved { count := count + 1; }
      }
      assert keys[..|keys|] == keys;
    }

    method DemoteColdEntries(now: nat) returns (count: nat, keys: seq<Key>)
      modifies this, l1, l2
      ensures (State(), count) == DemoteCold(old(State()), keys, now)
      ensures NoDup(keys) && forall k :: k in keys <==> k in ColdKeys(old(State()), now)
    {
      keys := ListColdKeys(now);
      count := MoveDownKeys(keys, now);
      demotions := demotions + count;
    }

    method Promote(key: Key, now: nat) returns (moved: bool)
      modifies this, l1, l2
      ensures (State(), moved) == TieredSpec.Promote(old(State()), key, now)
    {
      if l2 == null { return false; }
      var read := l2.GetEntry(key, now);
      if read.None? { return false; }
      l1.SetEntry(key, read.value.value, read.value.ttl, now);
      var _ := l2.DeleteEntry(key);
      promotions := promotions + 1;
      moved := true;
    }
  }
}
