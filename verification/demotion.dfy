/**
 What demoting cold entries comes to for a caller: which keys leave memory, counted from the
 times of the calls made before, and where they are found afterwards.
 */
module Demotion {
  import opened Prelude
  import opened FileNames
  import opened TieredSpec
  import opened OneMap

  // ── When a key was last used ───────────────────────────────────────

  /** The call writes the key, reads it with success, or promotes it. */
  ghost predicate Uses<V(!new)>(t: Tiered<V>, op: Op<V>, key: Key) {
    match op
    case OpSet(k, _, _, _) => k == key
    case OpGet(k, now) => k == key && Get(t, key, now).1.Some?
    case OpPromote(k, now) => k == key && Promote(t, key, now).1
    case _ => false
  }

  /** The time of the last of these calls. */
  ghost function LastUse<V(!new)>(t: Tiered<V>, ops: seq<Op<V>>, key: Key): nat
    decreases |ops|
  {
    if ops == [] then 0
    else
      var last, before := ops[|ops| - 1], ops[..|ops| - 1];
      if Uses(Run(t, before), last, key) && !last.OpDelete? then last.now else LastUse(t, before, key)
  }

  /** A read of an entry that is in memory and alive. */
  predicate ReadsMemory<V>(t: Tiered<V>, op: Op<V>, key: Key) {
    op.OpGet? && op.key == key && key in t.l1.entries && !Stale(t.l1.entries[key].createdAt, t.l1.entries[key].ttl, op.now)
  }

  /** How often the key was read from memory since it came there or was written. */
  ghost function Reads<V(!new)>(t: Tiered<V>, ops: seq<Op<V>>, key: Key): nat
    decreases |ops|
  {
    if ops == [] then 0
    else
      var last, before := ops[|ops| - 1], ops[..|ops| - 1];
      if ReadsMemory(Run(t, before), last, key) then Reads(t, before, key) + 1
      else if Uses(Run(t, before), last, key) then 0
      else Reads(t, before, key)
  }

  lemma MoveDownLeaves<V>(t: Tiered<V>, key: Key, now: nat, k: Key)
    ensures var m := MoveDown(t, key, now).0.l1.entries;
      k in m ==> k in t.l1.entries && m[k] == t.l1.entries[k] && k != key
    ensures k != key && k in t.l1.entries ==> k in MoveDown(t, key, now).0.l1.entries
  {
  }

  lemma {:induction false} MoveDownAllLeaves<V>(t: Tiered<V>, keys: seq<Key>, now: nat, k: Key)
    ensures var m := MoveDownAll(t, keys, now).0.l1.entries;
      k in m ==> k in t.l1.entries && m[k] == t.l1.entries[k] && k !in keys
    ensures k !in keys && k in t.l1.entries ==> k in MoveDownAll(t, keys, now).0.l1.entries
    decreases |keys|
  {
    if keys == [] {
    } else {
      var last := |keys| - 1;
      MoveDownAllLeaves(t, keys[..last], now, k);
      MoveDownLeaves(MoveDownAll(t, keys[..last], now).0, keys[last], now, k);
      assert keys == keys[..last] + [keys[last]];
      hide MoveDown;
    }
  }

  /** What a call leaves of a key's stamp and count, if the key is in memory afterwards. */
  ghost predicate Stamps<V(!new)>(t: Tiered<V>, op: Op<V>, key: Key)
    requires key in Step(t, op).0.l1.entries
  {
    var e := Step(t, op).0.l1.entries[key];
    if ReadsMemory(t, op, key) then e.accessedAt == op.now && e.accessCount == t.l1.entries[key].accessCount + 1
    else if Uses(t, op, key) && !op.OpDelete? then e.accessedAt == op.now && e.accessCount == 0
    else key in t.l1.entries && e.accessedAt == t.l1.entries[key].accessedAt && e.accessCount == t.l1.entries[key].accessCount
  }

  lemma ReadStamps<V(!new)>(t: Tiered<V>, k: Key, now: nat, key: Key)
    requires key in Step(t, OpGet(k, now)).0.l1.entries
    ensures Stamps(t, OpGet(k, now), key)
    ensures ReadsMemory(t, OpGet(k, now), key) ==> Uses(t, OpGet(k, now), key)
  {
  }

  /** A call that uses a key that is in memory afterwards stamps it, and a read counts; any other call leaves its stamp and count. */
  lemma CallStamps<V(!new)>(t: Tiered<V>, op: Op<V>, key: Key)
    requires key in Step(t, op).0.l1.entries
    ensures Stamps(t, op, key) && (ReadsMemory(t, op, key) ==> Uses(t, op, key))
  {
    match op
    case OpGet(k, now) => ReadStamps(t, k, now, key);
    case OpDemoteCold(keys, now) => MoveDownAllLeaves(t, keys, now, key);
    case OpDemote(k, now) => MoveDownLeaves(t, k, now, key);
    case _ =>
  }

  lemma {:induction false} RunSnoc<V>(t: Tiered<V>, ops: seq<Op<V>>)
    requires ops != []
    ensures Run(t, ops) == Step(Run(t, ops[..|ops| - 1]), ops[|ops| - 1]).0
  {
    var before, last := ops[..|ops| - 1], ops[|ops| - 1];
    assert ops == before + [last];
    AnswersConcat(t, map[], before, [last]);
    assert [last][1..] == [];
    hide Step;
  }

  /** In every run the stamp of an entry in memory is the time its key was last used, and its count its reads since it came. */
  lemma {:induction false} StampsAreUses<V(!new)>(t: Tiered<V>, ops: seq<Op<V>>, key: Key)
    requires t.l1.entries == map[] && key in Run(t, ops).l1.entries
    ensures Run(t, ops).l1.entries[key].accessedAt == LastUse(t, ops, key)
    ensures Run(t, ops).l1.entries[key].accessCount == Reads(t, ops, key)
    decreases |ops|
  {
    if ops == [] {
    } else {
      var before, last := ops[..|ops| - 1], ops[|ops| - 1];
      RunSnoc(t, ops);
      CallStamps(Run(t, before), last, key);
      hide Step;
      hide Uses;
      hide ReadsMemory;
      if key in Run(t, before).l1.entries { StampsAreUses(t, before, key); }
    }
  }

  lemma {:induction false} MoveDownAllKeepsThreshold<V>(t: Tiered<V>, keys: seq<Key>, now: nat)
    ensures var u := MoveDownAll(t, keys, now).0;
      u.demotionThreshold == t.demotionThreshold && u.l2.Some? == t.l2.Some? && u.demotions == t.demotions
    decreases |keys|
  {
    if keys == [] {
    } else {
      MoveDownAllKeepsThreshold(t, keys[..|keys| - 1], now);
    }
  }

  lemma {:induction false} RunKeepsThreshold<V>(t: Tiered<V>, ops: seq<Op<V>>)
    ensures Run(t, ops).demotionThreshold == t.demotionThreshold && Run(t, ops).l2.Some? == t.l2.Some?
    decreases |ops|
  {
    if ops == [] {
    } else {
      if ops[0].OpDemoteCold? { MoveDownAllKeepsThreshold(t, ops[0].keys, ops[0].now); }
      RunKeepsThreshold(Step(t, ops[0]).0, ops[1..]);
    }
  }

  // ── What moves, and where to ───────────────────────────────────────

  predicate Live<V>(e: Entry<V>, now: nat) {
    !Stale(e.createdAt, e.ttl, now)
  }

  /** Some keys of memory whose entries have not expired. */
  function Alive<V>(m: Memory<V>, keys: seq<Key>, now: nat): set<Key> {
    set k | k in keys && k in m.entries && Live(m.entries[k], now)
  }

  lemma MoveDownMoves<V>(t: Tiered<V>, key: Key, now: nat)
    requires key in t.l1.entries
    ensures var (u, moved) := MoveDown(t, key, now); var e := t.l1.entries[key];
      && moved == Live(e, now)
      && u.l2 == if moved && t.l2.Some? then Some(t.l2.value[FileName(key) := File(key, e.value, now, 0, e.ttl)]) else t.l2
  {
  }

  /** As many are counted as were alive. */
  lemma {:induction false} AllAliveAreCounted<V>(t: Tiered<V>, keys: seq<Key>, now: nat)
    requires NoDup(keys) && forall k :: k in keys ==> k in t.l1.entries
    ensures MoveDownAll(t, keys, now).1 == |Alive(t.l1, keys, now)|
    decreases |keys|
  {
    if keys == [] {
    } else {
      var front, last := keys[..|keys| - 1], keys[|keys| - 1];
      assert keys == front + [last] && last !in front;
      AllAliveAreCounted(t, front, now);
      MoveDownAllLeaves(t, front, now, last);
      MoveDownMoves(MoveDownAll(t, front, now).0, last, now);
      hide MoveDown;
      assert last !in Alive(t.l1, front, now);
      assert Alive(t.l1, keys, now) == if Live(t.l1.entries[last], now) then Alive(t.l1, front, now) + {last} else Alive(t.l1, front, now);
    }
  }

  /** Every file that is none of theirs is as it was. */
  lemma {:induction false} OtherFilesStay<V>(t: Tiered<V>, keys: seq<Key>, now: nat, name: string)
    requires NoDup(keys) && (forall k :: k in keys ==> k in t.l1.entries) && t.l2.Some?
    requires NotTheirs(t.l1, keys, now, name)
    ensures var u := MoveDownAll(t, keys, now).0; u.l2.Some? && SameAt(t.l2.value, u.l2.value, name)
    decreases |keys|
  {
    if keys == [] {
    } else {
      var front, last := keys[..|keys| - 1], keys[|keys| - 1];
      assert keys == front + [last] && last !in front;
      OtherFilesStay(t, front, now, name);
      MoveDownAllLeaves(t, front, now, last);
      MoveDownMoves(MoveDownAll(t, front, now).0, last, now);
      hide MoveDown;
      assert Live(t.l1.entries[last], now) ==> last in Alive(t.l1, keys, now);
    }
  }

  /** Each of them is in its own file afterwards. */
  lemma {:induction false} AliveIsFiled<V>(t: Tiered<V>, keys: seq<Key>, now: nat, k: Key)
    requires NoDup(keys) && (forall k :: k in keys ==> k in t.l1.entries) && t.l2.Some? && OwnFiles(set k | k in keys)
    requires k in Alive(t.l1, keys, now)
    ensures Filed(t, MoveDownAll(t, keys, now).0, k, now)
    decreases |keys|
  {
    var front, last := keys[..|keys| - 1], keys[|keys| - 1];
    assert keys == front + [last] && last !in front;
    MoveDownAllLeaves(t, front, now, last);
    var u := MoveDownAll(t, front, now).0;
    MoveDownMoves(u, last, now);
    MoveDownAllKeepsThreshold(t, front, now);
    hide MoveDown;
    hide FileName;
    if k != last {
      assert k in (set k | k in keys) && last in (set k | k in keys);
      assert FileName(k) != FileName(last);
      assert OwnFiles(set k | k in front);
      AliveIsFiled(t, front, now, k);
    }
  }

  ghost predicate Filed<V>(t: Tiered<V>, u: Tiered<V>, k: Key, now: nat) {
    && k in t.l1.entries && u.l2.Some? && FileName(k) in u.l2.value
    && u.l2.value[FileName(k)] == File(k, t.l1.entries[k].value, now, 0, t.l1.entries[k].ttl)
  }

  ghost predicate NotTheirs<V>(m: Memory<V>, keys: seq<Key>, now: nat, name: string) {
    forall k :: k in Alive(m, keys, now) ==> FileName(k) != name
  }

  ghost predicate SameAt<V>(files: map<string, File<V>>, files': map<string, File<V>>, name: string) {
    (name in files <==> name in files') && (name in files ==> files'[name] == files[name])
  }

  /** The keys in memory that a run last used more than the threshold before `now` and that have not expired. */
  ghost function Moving<V(!new)>(t: Tiered<V>, ops: seq<Op<V>>, now: nat): set<Key> {
    var m := Run(t, ops).l1.entries;
    set k | k in m && SatSub(now, LastUse(t, ops, k)) > t.demotionThreshold && Live(m[k], now)
  }

  /**
   After a run, demoting cold entries leaves in memory exactly the keys last used at most the
   threshold ago, as they were. Every other key that has not expired is in its file with its
   value and lifetime afterwards, and these are counted; no other file is touched.
   */
  lemma {:induction false} DemotingExactly<V(!new)>(t: Tiered<V>, ops: seq<Op<V>>, keys: seq<Key>, now: nat)
    requires t.l1.entries == map[]
    requires NoDup(keys) && forall k :: k in keys <==> k in ColdKeys(Run(t, ops), now)
    ensures var u, n, m := DemoteCold(Run(t, ops), keys, now).0, DemoteCold(Run(t, ops), keys, now).1, Run(t, ops).l1.entries;
      && (forall k :: k in u.l1.entries <==> k in m && SatSub(now, LastUse(t, ops, k)) <= t.demotionThreshold)
      && (forall k :: k in u.l1.entries ==> u.l1.entries[k] == m[k])
      && n == |Moving(t, ops, now)| && u.demotions == Run(t, ops).demotions + n
      && (t.l2.Some? && OwnFiles(m.Keys) ==> forall k :: k in Moving(t, ops, now) ==> Filed(Run(t, ops), u, k, now))
      && (t.l2.Some? ==> Run(t, ops).l2.Some? && u.l2.Some? && forall name :: NotTheirs(Run(t, ops).l1, keys, now, name) ==> SameAt(Run(t, ops).l2.value, u.l2.value, name))
  {
    var s := Run(t, ops);
    var u := MoveDownAll(s, keys, now).0;
    RunKeepsThreshold(t, ops);
    MoveDownAllKeepsThreshold(s, keys, now);
    forall k | k in s.l1.entries ensures s.l1.entries[k].accessedAt == LastUse(t, ops, k) { StampsAreUses(t, ops, k); }
    forall k ensures k in u.l1.entries <==> k in s.l1.entries && k !in keys { MoveDownAllLeaves(s, keys, now, k); }
    forall k | k in u.l1.entries ensures u.l1.entries[k] == s.l1.entries[k] { MoveDownAllLeaves(s, keys, now, k); }
    assert Alive(s.l1, keys, now) == Moving(t, ops, now);
    AllAliveAreCounted(s, keys, now);
    if t.l2.Some? {
      if OwnFiles(s.l1.entries.Keys) {
        assert OwnFiles(set k | k in keys);
        forall k | k in Moving(t, ops, now) ensures Filed(s, u, k, now) { AliveIsFiled(s, keys, now, k); }
      }
      forall name | NotTheirs(s.l1, keys, now, name) ensures SameAt(s.l2.value, u.l2.value, name) { OtherFilesStay(s, keys, now, name); }
    }
  }

  // ── What is counted, and what a delete reports ─────────────────────

  /** The entries a call moves down: those of a key still alive in memory, if there are files to move to, or what a sweep counts. */
  function MovedDown<V>(t: Tiered<V>, op: Op<V>): nat {
    match op
    case OpDemote(k, now) => if t.l2.Some? && k in t.l1.entries && Live(t.l1.entries[k], now) then 1 else 0
    case OpDemoteCold(keys, now) => DemoteCold(t, keys, now).1
    case _ => 0
  }

  /** Whether a call brings a key up: one absent from memory, or expired there, that is in memory afterwards without a write. */
  function MovedUp<V>(t: Tiered<V>, op: Op<V>): nat {
    match op
    case OpGet(k, now) => if (k in t.l1.entries ==> !Live(t.l1.entries[k], now)) && k in Step(t, op).0.l1.entries then 1 else 0
    case OpPromote(k, now) => if t.l2.Some? && FileGet(t.l2.value, k, now).1.Some? then 1 else 0
    case _ => 0
  }

  function Moves<V>(t: Tiered<V>, ops: seq<Op<V>>): (int, int)
    decreases |ops|
  {
    if ops == [] then (0, 0)
    else
      var (up, down) := Moves(Step(t, ops[0]).0, ops[1..]);
      (up + MovedUp(t, ops[0]), down + MovedDown(t, ops[0]))
  }

  lemma StepIsCounted<V>(t: Tiered<V>, op: Op<V>)
    ensures var u := Step(t, op).0; u.promotions == t.promotions + MovedUp(t, op) && u.demotions == t.demotions + MovedDown(t, op)
  {
    if op.OpDemoteCold? {
      MoveDownAllKeepsThreshold(t, op.keys, op.now);
      MoveDownAllKeepsCount(t, op.keys, op.now);
    }
  }

  lemma {:induction false} MoveDownAllKeepsCount<V>(t: Tiered<V>, keys: seq<Key>, now: nat)
    ensures MoveDownAll(t, keys, now).0.promotions == t.promotions
    decreases |keys|
  {
    if keys == [] {
    } else {
      MoveDownAllKeepsCount(t, keys[..|keys| - 1], now);
    }
  }

  /** In every run the two counters are the entries moved up and down. */
  lemma {:induction false} MovesAreCounted<V>(t: Tiered<V>, ops: seq<Op<V>>)
    ensures var u := Run(t, ops); u.promotions == t.promotions + Moves(t, ops).0 && u.demotions == t.demotions + Moves(t, ops).1
    decreases |ops|
  {
    hide Step;
    hide MovedUp;
    hide MovedDown;
    if ops == [] {
    } else {
      StepIsCounted(t, ops[0]);
      MovesAreCounted(Step(t, ops[0]).0, ops[1..]);
    }
  }

  lemma {:induction false} RunAgrees<V>(t: Tiered<V>, ref: Ref<V>, keys: set<Key>, promoted: set<Key>, timeless: bool, ops: seq<Op<V>>)
    requires Agrees(t, ref, keys, promoted, timeless)
    requires forall i :: 0 <= i < |ops| ==> Allowed(ops[i], keys, promoted, timeless)
    ensures Agrees(Run(t, ops), RefRun(ref, ops), keys, promoted, timeless)
    decreases |ops|
  {
    hide Agrees;
    if ops == [] {
    } else {
      StepAgrees(t, ref, keys, promoted, timeless, ops[0]);
      RunAgrees(Step(t, ops[0]).0, RefStep(ref, ops[0]).0, keys, promoted, timeless, ops[1..]);
    }
  }

  /** After a plain run over keys with their own files, a delete reports exactly whether the one map holds the key. */
  lemma {:induction false} DeleteReportsExactly<V>(n: nat, p: nat, d: nat, keys: set<Key>, ops: seq<Op<V>>, key: Key)
    requires OwnFiles(keys) && Plainly(ops, keys) && key in keys
    ensures Delete(Run(Fresh(n, p, d), ops), key).1 <==> key in RefRun(map[], ops)
  {
    FreshAgrees<V>(n, p, d, keys);
    RunAgrees(Fresh(n, p, d), map[], keys, {}, true, ops);
    assert FileAgrees(Run(Fresh(n, p, d), ops).l2.value, RefRun(map[], ops), key, {});
  }
}
