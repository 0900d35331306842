/**
 The two-tier context store: an in-memory tier with a recency list (L1) in front of one file
 per key (L2). `Tiered` is its abstract value; the classes in tiered_storage.dfy are proved
 against the functions here. JSON values are opaque; files are a map from file name to record.
 */
module TieredSpec {
  import opened Prelude
  import opened FileNames

  type Key = string

  datatype Entry<V> = Entry(value: V, createdAt: nat, accessedAt: nat, accessCount: nat, ttl: Option<nat>)

  datatype File<V> = File(key: Key, value: V, createdAt: nat, accessCount: nat, ttl: Option<nat>)

  datatype Memory<V> = Memory(maxEntries: nat, entries: map<Key, Entry<V>>, order: seq<Key>)

  datatype Tiered<V> = Tiered(l1: Memory<V>, l2: Option<map<string, File<V>>>,
    promotionThreshold: nat, demotionThreshold: nat, promotions: nat, demotions: nat)

  predicate Stale(createdAt: nat, ttl: Option<nat>, now: nat) {
    ttl.Some? && SatSub(now, createdAt) > ttl.value
  }

  // ── L1: memory ─────────────────────────────────────────────────────

  function MemGet<V>(m: Memory<V>, key: Key, now: nat): (Memory<V>, Option<Entry<V>>) {
    if key !in m.entries then (m, None)
    else
      var e := m.entries[key];
      if Stale(e.createdAt, e.ttl, now) then
        (m.(entries := m.entries - {key}, order := Without(m.order, key)), None)
      else
        var seen := e.(accessCount := e.accessCount + 1, accessedAt := now);
        (m.(entries := m.entries[key := seen], order := Touch(m.order, key)), Some(seen))
  }

  /** `evict_lru`: drop the front of the recency list, and its entry. */
  function MemEvict<V>(m: Memory<V>): Memory<V> {
    if m.order == [] then m else m.(entries := m.entries - {m.order[0]}, order := m.order[1..])
  }

  function MemSet<V>(m: Memory<V>, key: Key, value: V, ttl: Option<nat>, now: nat): Memory<V> {
    var r := if |m.entries| >= m.maxEntries && key !in m.entries then MemEvict(m) else m;
    r.(entries := r.entries[key := Entry(value, now, now, 0, ttl)], order := Touch(r.order, key))
  }

  function MemDelete<V>(m: Memory<V>, key: Key): (Memory<V>, bool) {
    if key in m.entries then (m.(entries := m.entries - {key}, order := Without(m.order, key)), true) else (m, false)
  }

  // ── L2: files ──────────────────────────────────────────────────────

  /** The record read back counts one access more than the file, but the file itself keeps its count. */
  function FileGet<V>(files: map<string, File<V>>, key: Key, now: nat): (map<string, File<V>>, Option<File<V>>) {
    var name := FileName(key);
    if name !in files then (files, None)
    else
      var f := files[name];
      if Stale(f.createdAt, f.ttl, now) then (files - {name}, None)
      else (files, Some(f.(accessCount := f.accessCount + 1)))
  }

  function FileSet<V>(files: map<string, File<V>>, key: Key, value: V, ttl: Option<nat>, now: nat): map<string, File<V>> {
    files[FileName(key) := File(key, value, now, 0, ttl)]
  }

  // ── Both tiers ─────────────────────────────────────────────────────

  function Get<V>(t: Tiered<V>, key: Key, now: nat): (Tiered<V>, Option<V>) {
    var (m, hit) := MemGet(t.l1, key, now);
    if hit.Some? then (t.(l1 := m), Some(hit.value.value))
    else if t.l2.None? then (t.(l1 := m), None)
    else
      var (files, read) := FileGet(t.l2.value, key, now);
      if read.None? then (t.(l1 := m, l2 := Some(files)), None)
      else
        var f := read.value;
        var u := t.(l1 := m, l2 := Some(files));
        (if f.accessCount >= t.promotionThreshold
         then u.(l1 := MemSet(m, key, f.value, f.ttl, now), promotions := t.promotions + 1) else u,
         Some(f.value))
  }

  function Set<V>(t: Tiered<V>, key: Key, value: V, ttl: Option<nat>, now: nat): Tiered<V> {
    t.(l1 := MemSet(t.l1, key, value, ttl, now),
       l2 := if t.l2.Some? then Some(FileSet(t.l2.value, key, value, ttl, now)) else None)
  }

  function Delete<V>(t: Tiered<V>, key: Key): (Tiered<V>, bool) {
    var (m, inMemory) := MemDelete(t.l1, key);
    if t.l2.None? then (t.(l1 := m), inMemory)
    else (t.(l1 := m, l2 := Some(t.l2.value - {FileName(key)})), inMemory || FileName(key) in t.l2.value)
  }

  /** Reads an entry of L1, writes it out to L2 if there is one, and drops it from L1. */
  function MoveDown<V>(t: Tiered<V>, key: Key, now: nat): (Tiered<V>, bool) {
    var (m, hit) := MemGet(t.l1, key, now);
    if hit.None? then (t.(l1 := m), false)
    else
      (t.(l1 := MemDelete(m, key).0,
          l2 := if t.l2.Some? then Some(FileSet(t.l2.value, key, hit.value.value, hit.value.ttl, now)) else None),
       true)
  }

  function Demote<V>(t: Tiered<V>, key: Key, now: nat): (Tiered<V>, bool) {
    if t.l2.None? then (t, false)
    else
      var (u, moved) := MoveDown(t, key, now);
      (if moved then u.(demotions := u.demotions + 1) else u, moved)
  }

  /** Keys of L1 that have gone unread for longer than the threshold. */
  function ColdKeys<V>(t: Tiered<V>, now: nat): set<Key> {
    set k | k in t.l1.entries && SatSub(now, t.l1.entries[k].accessedAt) > t.demotionThreshold
  }

  function MoveDownAll<V>(t: Tiered<V>, keys: seq<Key>, now: nat): (Tiered<V>, nat)
    decreases |keys|
  {
    if keys == [] then (t, 0)
    else
      var last := |keys| - 1;
      var (u, n) := MoveDownAll(t, keys[..last], now);
      var (v, moved) := MoveDown(u, keys[last], now);
      (v, if moved then n + 1 else n)
  }

  /** `keys` lists the cold keys in the order the entries happen to be iterated. */
  function DemoteCold<V>(t: Tiered<V>, keys: seq<Key>, now: nat): (Tiered<V>, nat) {
    var (u, n) := MoveDownAll(t, keys, now);
    (u.(demotions := u.demotions + n), n)
  }

  function Promote<V>(t: Tiered<V>, key: Key, now: nat): (Tiered<V>, bool) {
    if t.l2.None? then (t, false)
    else
      var (files, read) := FileGet(t.l2.value, key, now);
      if read.None? then (t.(l2 := Some(files)), false)
      else
        (t.(l1 := MemSet(t.l1, key, read.value.value, read.value.ttl, now),
            l2 := Some(files - {FileName(key)}), promotions := t.promotions + 1),
         true)
  }

  // ── The recency list of L1 ─────────────────────────────────────────

  ghost predicate MemValid<V>(m: Memory<V>) {
    NoDup(m.order) && (forall k :: k in m.order <==> k in m.entries) && |m.order| <= Max(m.maxEntries, 1)
  }

  lemma MemSize<V>(m: Memory<V>)
    requires MemValid(m)
    ensures |m.entries| == |m.order|
  {
    NoDupCardinality(m.order);
    assert (set k | k in m.order) == m.entries.Keys;
  }

  lemma MemGetValid<V>(m: Memory<V>, key: Key, now: nat)
    requires MemValid(m)
    ensures MemValid(MemGet(m, key, now).0)
  {
    WithoutNoDup(m.order, key);
    WithoutMembers(m.order, key);
    TouchFacts(m.order, key);
  }

  lemma MemEvictValid<V>(m: Memory<V>)
    requires MemValid(m)
    ensures MemValid(MemEvict(m)) && (m.order != [] ==> |MemEvict(m).order| == |m.order| - 1)
  {
    if m.order != [] {
      assert m.order == [m.order[0]] + m.order[1..];
      assert m.order[0] !in m.order[1..];
    }
  }

  lemma MemSetValid<V>(m: Memory<V>, key: Key, value: V, ttl: Option<nat>, now: nat)
    requires MemValid(m)
    ensures MemValid(MemSet(m, key, value, ttl, now))
  {
    MemSize(m);
    MemEvictValid(m);
    var r := if |m.entries| >= m.maxEntries && key !in m.entries then MemEvict(m) else m;
    TouchFacts(r.order, key);
  }

  lemma MemDeleteValid<V>(m: Memory<V>, key: Key)
    requires MemValid(m)
    ensures MemValid(MemDelete(m, key).0)
  {
    WithoutNoDup(m.order, key);
    WithoutMembers(m.order, key);
  }

  lemma MoveDownKeepsMemory<V>(t: Tiered<V>, key: Key, now: nat)
    requires MemValid(t.l1)
    ensures MemValid(MoveDown(t, key, now).0.l1)
  {
    MemGetValid(t.l1, key, now);
    MemDeleteValid(MemGet(t.l1, key, now).0, key);
  }

  lemma {:induction false} MoveDownAllKeepsMemory<V>(t: Tiered<V>, keys: seq<Key>, now: nat)
    requires MemValid(t.l1)
    ensures MemValid(MoveDownAll(t, keys, now).0.l1)
    decreases |keys|
  {
    if keys == [] {
    } else {
      var last := |keys| - 1;
      MoveDownAllKeepsMemory(t, keys[..last], now);
      MoveDownKeepsMemory(MoveDownAll(t, keys[..last], now).0, keys[last], now);
    }
  }

  lemma GetKeepsMemory<V>(t: Tiered<V>, key: Key, now: nat)
    requires MemValid(t.l1)
    ensures MemValid(Get(t, key, now).0.l1)
  {
    MemGetValid(t.l1, key, now);
    if t.l2.Some? {
      var read := FileGet(t.l2.value, key, now).1;
      if read.Some? { MemSetValid(MemGet(t.l1, key, now).0, key, read.value.value, read.value.ttl, now); }
    }
  }

  lemma PromoteKeepsMemory<V>(t: Tiered<V>, key: Key, now: nat)
    requires MemValid(t.l1)
    ensures MemValid(Promote(t, key, now).0.l1)
  {
    if t.l2.Some? {
      var read := FileGet(t.l2.value, key, now).1;
      if read.Some? { MemSetValid(t.l1, key, read.value.value, read.value.ttl, now); }
    }
  }
}
