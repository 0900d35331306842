/** The LRU cache told from the calls made: what a read may find, and what the counters count. */
module LruHistory {
  import opened Prelude
  import opened Lru

  datatype Written<V> = Written(value: V, at: nat, life: nat)

  /** The last value written under a key, unless it was deleted since. */
  function LastWrite<V>(defaultTtl: nat, ops: seq<Op<V>>, key: Key): Option<Written<V>>
    decreases |ops|
  {
    if ops == [] then None
    else
      var last, before := ops[|ops| - 1], ops[..|ops| - 1];
      match last
      case OpSet(k, v, ttl, now) =>
        if k == key then Some(Written(v, now, if ttl.Some? then ttl.value else defaultTtl)) else LastWrite(defaultTtl, before, key)
      case OpDelete(k) => if k == key then None else LastWrite(defaultTtl, before, key)
      case OpGet(_, _) => LastWrite(defaultTtl, before, key)
  }

  /** The cache after some calls. */
  ghost function After<V>(maxEntries: nat, defaultTtl: nat, ops: seq<Op<V>>): (c: Cache<V>)
    ensures Valid(c)
  {
    Run(New(maxEntries, defaultTtl), ops)
  }

  /** How often the key was read with success since it was last written. */
  ghost function Reads<V>(maxEntries: nat, defaultTtl: nat, ops: seq<Op<V>>, key: Key): nat
    decreases |ops|
  {
    if ops == [] then 0
    else
      var last, before := ops[|ops| - 1], ops[..|ops| - 1];
      if last.key != key then Reads(maxEntries, defaultTtl, before, key)
      else if last.OpSet? then 0
      else Reads(maxEntries, defaultTtl, before, key) + if Step(After(maxEntries, defaultTtl, before), last).1.Some? then 1 else 0
  }

  lemma {:induction false} RunSnoc<V>(c: Cache<V>, ops: seq<Op<V>>, op: Op<V>)
    requires Valid(c)
    ensures Run(c, ops + [op]) == Step(Run(c, ops), op).0
    decreases |ops|
  {
    hide Step;
    if ops == [] {
      assert [] + [op] == [op] && [op][1..] == [];
      StepKeepsValid(c, op);
    } else {
      StepKeepsValid(c, ops[0]);
      RunSnoc(Step(c, ops[0]).0, ops[1..], op);
      assert (ops + [op])[0] == ops[0] && (ops + [op])[1..] == ops[1..] + [op];
    }
  }

  /** An entry is the last write of its key. */
  ghost predicate IsWrite<V>(e: Entry<V>, w: Option<Written<V>>, seen: nat) {
    w.Some? && e.value == w.value.value && e.createdAt == w.value.at && e.ttl == Some(w.value.life) && e.accessCount == seen
  }

  ghost predicate HoldsWrites<V>(maxEntries: nat, defaultTtl: nat, ops: seq<Op<V>>) {
    var c := After(maxEntries, defaultTtl, ops);
    && c.maxEntries == maxEntries && c.defaultTtl == defaultTtl
    && forall k :: k in c.entries ==> IsWrite(c.entries[k], LastWrite(defaultTtl, ops, k), Reads(maxEntries, defaultTtl, ops, k))
  }

  /** What one call leaves of an entry. */
  lemma StepEntries<V>(c: Cache<V>, op: Op<V>, k: Key)
    requires Valid(c) && k in Step(c, op).0.entries
    ensures var e := Step(c, op).0.entries[k];
      if op.OpSet? && op.key == k then e == Entry(op.value, op.now, op.now, 0, if op.ttl.Some? then op.ttl else Some(c.defaultTtl))
      else
        && k in c.entries && !(op.OpDelete? && op.key == k)
        && (if op.OpGet? && op.key == k then e == c.entries[k].(accessCount := c.entries[k].accessCount + 1, accessedAt := op.now) && Step(c, op).1.Some?
            else e == c.entries[k])
  {
    if op.OpSet? { SetFacts(c, op.key, op.value, op.ttl, op.now); }
  }

  lemma CallHoldsWrites<V>(maxEntries: nat, defaultTtl: nat, ops: seq<Op<V>>, op: Op<V>)
    requires HoldsWrites(maxEntries, defaultTtl, ops)
    ensures HoldsWrites(maxEntries, defaultTtl, ops + [op])
  {
    var c, all := After(maxEntries, defaultTtl, ops), ops + [op];
    RunSnoc(New<V>(maxEntries, defaultTtl), ops, op);
    assert all[..|ops|] == ops && all[|ops|] == op;
    StepKeepsConfig(c, op);
    var d := After(maxEntries, defaultTtl, all);
    forall k | k in d.entries ensures IsWrite(d.entries[k], LastWrite(defaultTtl, all, k), Reads(maxEntries, defaultTtl, all, k)) {
      StepEntries(c, op, k);
    }
  }

  lemma {:induction false} EntriesAreWrites<V>(maxEntries: nat, defaultTtl: nat, ops: seq<Op<V>>)
    ensures HoldsWrites(maxEntries, defaultTtl, ops)
    decreases |ops|
  {
    if ops == [] {
    } else {
      EntriesAreWrites(maxEntries, defaultTtl, ops[..|ops| - 1]);
      CallHoldsWrites(maxEntries, defaultTtl, ops[..|ops| - 1], ops[|ops| - 1]);
      assert ops == ops[..|ops| - 1] + [ops[|ops| - 1]];
    }
  }

  /**
   In every run a read finds the last value written under the key and not deleted since, and
   within its lifetime, or nothing; and nothing only if there is no such value, its lifetime is
   over, or the key was evicted.
   */
  lemma {:induction false} HitsAreLastWrites<V>(maxEntries: nat, defaultTtl: nat, ops: seq<Op<V>>, key: Key, now: nat)
    ensures var c, w := After(maxEntries, defaultTtl, ops), LastWrite(defaultTtl, ops, key);
      Get(c, key, now).1 == if key in c.entries && w.Some? && SatSub(now, w.value.at) <= w.value.life then Some(w.value.value) else None
    ensures var c := After(maxEntries, defaultTtl, ops);
      key in c.entries ==> c.entries[key].accessCount == Reads(maxEntries, defaultTtl, ops, key)
  {
    EntriesAreWrites(maxEntries, defaultTtl, ops);
    hide After;
    hide LastWrite;
    hide Reads;
  }

  // ── Counters ───────────────────────────────────────────────────────

  ghost predicate Evicts<V>(c: Cache<V>, op: Op<V>) {
    op.OpSet? && op.key !in c.entries && |c.entries| >= Max(c.maxEntries, 1)
  }

  ghost function Tally<V>(c: Cache<V>, ops: seq<Op<V>>): Stats
    requires Valid(c)
    decreases |ops|
  {
    if ops == [] then Stats(0, 0, 0, 0)
    else
      StepKeepsValid(c, ops[0]);
      var (d, found) := Step(c, ops[0]);
      var rest := Tally(d, ops[1..]);
      Stats(rest.hits + (if ops[0].OpGet? && found.Some? then 1 else 0), rest.misses + (if ops[0].OpGet? && found.None? then 1 else 0),
            rest.evictions + (if Evicts(c, ops[0]) then 1 else 0), rest.writes + if ops[0].OpSet? then 1 else 0)
  }

  lemma StepCounts<V>(c: Cache<V>, op: Op<V>)
    requires Valid(c)
    ensures var (d, found) := Step(c, op);
      && d.stats.hits == c.stats.hits + (if op.OpGet? && found.Some? then 1 else 0)
      && d.stats.misses == c.stats.misses + (if op.OpGet? && found.None? then 1 else 0)
      && d.stats.evictions == c.stats.evictions + (if Evicts(c, op) then 1 else 0)
      && d.stats.writes == c.stats.writes + (if op.OpSet? then 1 else 0)
  {
    if op.OpSet? {
      MakeRoomFacts(c, op.key);
      SameSize(c);
    }
  }

  /** In every run hits and misses are the reads with and without success, writes the writes, evictions the writes of a new key to a full cache. */
  lemma {:induction false} CountersAreExact<V>(c: Cache<V>, ops: seq<Op<V>>)
    requires Valid(c)
    ensures var s, t, u := c.stats, Tally(c, ops), Run(c, ops).stats;
      u == Stats(s.hits + t.hits, s.misses + t.misses, s.evictions + t.evictions, s.writes + t.writes)
    decreases |ops|
  {
    hide Step;
    hide Evicts;
    if ops == [] {
    } else {
      StepKeepsValid(c, ops[0]);
      StepCounts(c, ops[0]);
      CountersAreExact(Step(c, ops[0]).0, ops[1..]);
    }
  }

  // ── Computing on a miss, and deleting ──────────────────────────────

  /**
   A hit returns what a read would and ignores the computed value. A miss returns the computed
   value and keeps it, so asking again within the default lifetime returns it, whatever is
   computed then.
   */
  lemma ComputesOnce<V>(c: Cache<V>, key: Key, x: V, y: V, now: nat, later: nat)
    requires Valid(c)
    ensures var (d, v) := GetOrCompute(c, key, x, now); var found := Get(c, key, now).1;
      && Valid(d)
      && v == (if found.Some? then found.value else x)
      && (found.Some? ==> d == Get(c, key, now).0)
      && (found.None? ==> GetOrCompute(d, key, y, later).1 == if SatSub(later, now) <= c.defaultTtl then x else y)
  {
    GetKeepsAgreement(c, key, now);
    var miss := Get(c, key, now).0;
    if Get(c, key, now).1.None? {
      SetKeepsValid(miss, key, x, None, now);
      SetThenGet(miss, key, x, None, now, later);
    }
  }

  /** A delete reports exactly whether some read could still have found the key, and after it none does. */
  lemma DeleteReportsExactly<V>(c: Cache<V>, key: Key, now: nat)
    ensures Delete(c, key).1 <==> exists at: nat :: Get(c, key, at).1.Some?
    ensures Get(Delete(c, key).0, key, now).1 == None
  {
    if key in c.entries { assert Get(c, key, c.entries[key].createdAt).1.Some?; }
  }
}
