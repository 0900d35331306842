/**
 How far the two tiers are one map, beyond the plain runs of one_map.dfy: with keys promoted by
 hand, with lifetimes, and with both. Each time the runs over a set of keys all match exactly
 under a condition on the keys and the configuration.
 */
module TierLimits {
  import opened Prelude
  import opened FileNames
  import opened TieredSpec
  import opened OneMap

  /** Runs without lifetimes in which every key may also be promoted by hand. */
  ghost predicate Promoting<V>(ops: seq<Op<V>>, keys: set<Key>) {
    forall i :: 0 <= i < |ops| ==> Allowed(ops[i], keys, keys, true)
  }

  /** Runs of reads, writes and deletions, with lifetimes. */
  ghost predicate Lived<V>(ops: seq<Op<V>>, keys: set<Key>) {
    forall i :: 0 <= i < |ops| ==> Allowed(ops[i], keys, {}, false)
  }

  /** Any runs over the keys. */
  ghost predicate Anything<V>(ops: seq<Op<V>>, keys: set<Key>) {
    forall i :: 0 <= i < |ops| && !ops[i].OpDemoteCold? ==> ops[i].key in keys
  }

  /** L1 has a place for each of the keys. */
  predicate Holds(n: nat, keys: set<Key>) {
    |keys| <= Max(n, 1)
  }

  // ── With a place for each key nothing is ever evicted ──────────────

  lemma SmallerSet<T>(a: set<T>, b: set<T>)
    requires a <= b
    ensures |a| <= |b|
  {
    assert b == a + (b - a);
  }

  lemma NoEviction<V>(m: Memory<V>, keys: set<Key>, key: Key, value: V, ttl: Option<nat>, now: nat)
    requires MemValid(m) && m.entries.Keys <= keys && key in keys && Holds(m.maxEntries, keys)
    ensures MemSet(m, key, value, ttl, now).entries == m.entries[key := Entry(value, now, now, 0, ttl)]
  {
    if key !in m.entries {
      assert m.entries.Keys <= keys - {key};
      SmallerSet(m.entries.Keys, keys - {key});
      assert |m.entries| == |m.entries.Keys| < |keys|;
      MemSize(m);
    }
  }

  // ── Promotion by hand ──────────────────────────────────────────────

  /** Every key of the reference map is in L1 or in its file. */
  ghost predicate Kept<V>(t: Tiered<V>, ref: Ref<V>, keys: set<Key>) {
    && ref.Keys <= keys && t.l2.Some?
    && forall k :: k in ref ==> k in t.l1.entries || FileName(k) in t.l2.value
  }

  ghost predicate Safe<V>(t: Tiered<V>, ref: Ref<V>, keys: set<Key>) {
    && Agrees(t, ref, keys, keys, true) && Kept(t, ref, keys)
    && MemValid(t.l1) && Holds(t.l1.maxEntries, keys)
  }

  lemma GetKeepsAll<V>(t: Tiered<V>, ref: Ref<V>, keys: set<Key>, key: Key, now: nat)
    requires Safe(t, ref, keys) && key in keys
    ensures Kept(Get(t, key, now).0, ref, keys) && (key in ref ==> Get(t, key, now).1.Some?)
  {
    var m := MemGet(t.l1, key, now).0;
    assert FileAgrees(t.l2.value, ref, key, keys);
    assert m.entries.Keys == t.l1.entries.Keys;
    MemGetValid(t.l1, key, now);
    var read := FileGet(t.l2.value, key, now).1;
    if read.Some? { NoEviction(m, keys, key, read.value.value, read.value.ttl, now); }
  }

  lemma MoveDownKeepsAll<V>(t: Tiered<V>, ref: Ref<V>, keys: set<Key>, key: Key, now: nat)
    requires Agrees(t, ref, keys, keys, true) && Kept(t, ref, keys)
    ensures Kept(MoveDown(t, key, now).0, ref, keys) && MoveDown(t, key, now).0.l1.maxEntries == t.l1.maxEntries
  {
  }

  lemma {:induction false} MoveDownAllKeepsAll<V>(t: Tiered<V>, ref: Ref<V>, keys: set<Key>, list: seq<Key>, now: nat)
    requires Agrees(t, ref, keys, keys, true) && Kept(t, ref, keys)
    ensures Kept(MoveDownAll(t, list, now).0, ref, keys) && MoveDownAll(t, list, now).0.l1.maxEntries == t.l1.maxEntries
    decreases |list|
  {
    if list == [] {
    } else {
      var front, last := list[..|list| - 1], list[|list| - 1];
      MoveDownAllAgrees(t, ref, keys, keys, front, now);
      MoveDownAllKeepsAll(t, ref, keys, front, now);
      MoveDownKeepsAll(MoveDownAll(t, front, now).0, ref, keys, last, now);
    }
  }

  lemma PromoteKeepsAll<V>(t: Tiered<V>, ref: Ref<V>, keys: set<Key>, key: Key, now: nat)
    requires Safe(t, ref, keys) && key in keys
    ensures Kept(Promote(t, key, now).0, ref, keys)
  {
    var read := FileGet(t.l2.value, key, now).1;
    if read.Some? { NoEviction(t.l1, keys, key, read.value.value, read.value.ttl, now); }
    assert FileAgrees(t.l2.value, ref, key, keys);
  }

  lemma SetKeepsAll<V>(t: Tiered<V>, ref: Ref<V>, keys: set<Key>, key: Key, value: V, ttl: Option<nat>, now: nat)
    requires Safe(t, ref, keys) && key in keys
    ensures Kept(Set(t, key, value, ttl, now), ref[key := Item(value, now, ttl)], keys)
  {
    NoEviction(t.l1, keys, key, value, ttl, now);
  }

  lemma DeleteKeepsAll<V>(t: Tiered<V>, ref: Ref<V>, keys: set<Key>, key: Key)
    requires OwnFiles(keys) && Kept(t, ref, keys) && key in keys
    ensures Kept(Delete(t, key).0, ref - {key}, keys)
  {
  }

  lemma {:induction false} MoveDownAllKeepsCapacity<V>(t: Tiered<V>, list: seq<Key>, now: nat)
    ensures MoveDownAll(t, list, now).0.l1.maxEntries == t.l1.maxEntries
    decreases |list|
  {
    if list == [] {
    } else {
      MoveDownAllKeepsCapacity(t, list[..|list| - 1], now);
    }
  }

  lemma StepKeepsCapacity<V>(t: Tiered<V>, op: Op<V>)
    ensures Step(t, op).0.l1.maxEntries == t.l1.maxEntries
  {
    if op.OpDemoteCold? { MoveDownAllKeepsCapacity(t, op.keys, op.now); }
  }

  lemma StepKeepsAll<V>(t: Tiered<V>, ref: Ref<V>, keys: set<Key>, op: Op<V>)
    requires Safe(t, ref, keys) && Allowed(op, keys, keys, true)
    ensures Kept(Step(t, op).0, RefStep(ref, op).0, keys)
    ensures op.OpGet? && op.key in ref ==> Step(t, op).1.Some?
  {
    hide Kept;
    hide Agrees;
    hide MemValid;
    match op
    case OpGet(k, now) =>
      GetKeepsAll(t, ref, keys, k, now);
      TimelessGet(t, ref, keys, k, now);
    case OpSet(k, v, ttl, now) => SetKeepsAll(t, ref, keys, k, v, ttl, now);
    case OpDelete(k) =>
      SafeHasFiles(t, ref, keys);
      DeleteKeepsAll(t, ref, keys, k);
    case OpDemote(k, now) =>
      MoveDownKeepsAll(t, ref, keys, k, now);
      SafeHasFiles(t, ref, keys);
      CountedKept(MoveDown(t, k, now).0, Demote(t, k, now).0, ref, keys);
    case OpDemoteCold(list, now) =>
      MoveDownAllKeepsAll(t, ref, keys, list, now);
      CountedKept(MoveDownAll(t, list, now).0, DemoteCold(t, list, now).0, ref, keys);
    case OpPromote(k, now) => PromoteKeepsAll(t, ref, keys, k, now);
  }

  lemma SafeHasFiles<V>(t: Tiered<V>, ref: Ref<V>, keys: set<Key>)
    requires Safe(t, ref, keys)
    ensures OwnFiles(keys) && t.l2.Some?
  {
  }

  /** Without lifetimes a read leaves the reference map as it is. */
  lemma TimelessGet<V>(t: Tiered<V>, ref: Ref<V>, keys: set<Key>, key: Key, now: nat)
    requires Safe(t, ref, keys)
    ensures RefStep(ref, OpGet(key, now)).0 == ref
  {
  }

  lemma CountedKept<V>(t: Tiered<V>, u: Tiered<V>, ref: Ref<V>, keys: set<Key>)
    requires Kept(t, ref, keys) && u.l1 == t.l1 && u.l2 == t.l2
    ensures Kept(u, ref, keys)
  {
  }

  lemma StepStaysSafe<V>(t: Tiered<V>, ref: Ref<V>, keys: set<Key>, op: Op<V>)
    requires Safe(t, ref, keys) && Allowed(op, keys, keys, true)
    ensures Safe(Step(t, op).0, RefStep(ref, op).0, keys) && Step(t, op).1 == RefStep(ref, op).1
  {
    StepAgrees(t, ref, keys, keys, true, op);
    StepKeepsMemory(t, op);
    StepKeepsCapacity(t, op);
    StepKeepsAll(t, ref, keys, op);
    MissIsNone(ref, op);
    hide Kept;
    hide Agrees;
    hide MemValid;
    hide Step;
    hide RefStep;
  }

  /** Only a read of a known key is answered by the reference map. */
  lemma MissIsNone<V>(ref: Ref<V>, op: Op<V>)
    ensures !(op.OpGet? && op.key in ref) ==> RefStep(ref, op).1 == None
  {
  }

  lemma {:induction false} SafeRunsMatch<V>(t: Tiered<V>, ref: Ref<V>, keys: set<Key>, ops: seq<Op<V>>)
    requires Safe(t, ref, keys) && Promoting(ops, keys)
    ensures Answers(t, ops) == RefAnswers(ref, ops)
    decreases |ops|
  {
    hide Safe;
    if ops == [] {
    } else {
      StepStaysSafe(t, ref, keys, ops[0]);
      SafeRunsMatch(Step(t, ops[0]).0, RefStep(ref, ops[0]).0, keys, ops[1..]);
    }
  }

  // ── Filling L1 with other keys ─────────────────────────────────────

  function Writes<V>(keys: seq<Key>, v: V): seq<Op<V>> {
    if keys == [] then [] else Writes(keys[..|keys| - 1], v) + [OpSet(keys[|keys| - 1], v, None, 0)]
  }

  lemma {:induction false} WritesOnly<V>(keys: seq<Key>, v: V)
    ensures |Writes(keys, v)| == |keys| && forall i :: 0 <= i < |keys| ==> Writes(keys, v)[i] == OpSet(keys[i], v, None, 0)
    decreases |keys|
  {
    if keys == [] {
    } else {
      WritesOnly(keys[..|keys| - 1], v);
    }
  }

  /** L1 holds `a`, touched longest ago, and the others, in order. */
  ghost predicate Lined<V>(m: Memory<V>, a: Key, others: seq<Key>) {
    m.order == [a] + others && forall k :: k in m.entries <==> k == a || k in others
  }

  /** The file of `a`, and the configuration, are as they were. */
  predicate SameFile<V(==)>(t: Tiered<V>, u: Tiered<V>, a: Key) {
    && t.l2.Some? && u.l2.Some? && u.l1.maxEntries == t.l1.maxEntries && u.promotionThreshold == t.promotionThreshold
    && (FileName(a) in u.l2.value <==> FileName(a) in t.l2.value)
    && (FileName(a) in t.l2.value ==> u.l2.value[FileName(a)] == t.l2.value[FileName(a)])
  }

  lemma NewInFront(a: Key, others: seq<Key>)
    requires a !in others && NoDup(others)
    ensures NoDup([a] + others)
  {
    forall i, j | 0 <= i < j <= |others| ensures ([a] + others)[i] != ([a] + others)[j] {
      assert others[j - 1] in others;
    }
  }

  lemma LastIsNew(keys: seq<Key>)
    requires NoDup(keys) && keys != []
    ensures var front, last := keys[..|keys| - 1], keys[|keys| - 1];
      keys == front + [last] && NoDup(front) && last !in front && last in keys && forall k :: k in front ==> k in keys
  {
  }

  lemma LinedSize<V>(m: Memory<V>, a: Key, others: seq<Key>)
    requires Lined(m, a, others) && a !in others && NoDup(others)
    ensures |m.entries| == 1 + |others|
  {
    NewInFront(a, others);
    NoDupCardinality([a] + others);
    assert (set k | k in [a] + others) == m.entries.Keys;
  }

  lemma TouchNew(order: seq<Key>, x: Key)
    requires x !in order
    ensures Touch(order, x) == order + [x]
  {
    WithoutMembers(order, x);
  }

  /** Writing one more key while there is a place for it. */
  lemma LinedGrows<V>(m: Memory<V>, a: Key, others: seq<Key>, key: Key, v: V)
    requires Lined(m, a, others) && key !in [a] + others && |m.entries| < m.maxEntries
    ensures Lined(MemSet(m, key, v, None, 0), a, others + [key])
  {
    TouchNew([a] + others, key);
    assert [a] + others + [key] == [a] + (others + [key]);
  }

  /** Writing one more key when there is none: `a` goes. */
  lemma LinedEvicts<V>(m: Memory<V>, a: Key, others: seq<Key>, key: Key, v: V)
    requires Lined(m, a, others) && key !in [a] + others && |m.entries| >= m.maxEntries
    ensures a !in MemSet(m, key, v, None, 0).entries
  {
    assert key != a && m.order[0] == a;
  }

  lemma WritesSnoc<V>(t: Tiered<V>, keys: seq<Key>, v: V)
    requires keys != []
    ensures Run(t, Writes(keys, v)) == Set(Run(t, Writes(keys[..|keys| - 1], v)), keys[|keys| - 1], v, None, 0)
  {
    var last := [OpSet(keys[|keys| - 1], v, None, 0)];
    AnswersConcat(t, map[], Writes(keys[..|keys| - 1], v), last);
    OneStep(Run(t, Writes(keys[..|keys| - 1], v)), map[], last);
  }

  lemma {:induction false} Fill<V>(t: Tiered<V>, a: Key, others: seq<Key>, v: V)
    requires t.l2.Some? && Lined(t.l1, a, []) && a !in others && NoDup(others) && |others| < Max(t.l1.maxEntries, 1)
    requires forall k :: k in others ==> FileName(k) != FileName(a)
    ensures var u := Run(t, Writes(others, v)); Lined(u.l1, a, others) && SameFile(t, u, a)
    decreases |others|
  {
    if others == [] {
    } else {
      var front, last := others[..|others| - 1], others[|others| - 1];
      LastIsNew(others);
      Fill(t, a, front, v);
      var u := Run(t, Writes(front, v));
      WritesSnoc(t, others, v);
      LinedSize(u.l1, a, front);
      LinedGrows(u.l1, a, front, last, v);
    }
  }

  /** Writing as many other keys as L1 has places pushes `a` out, and leaves its file alone. */
  lemma {:induction false} FillEvicts<V>(t: Tiered<V>, a: Key, others: seq<Key>, v: V)
    requires t.l2.Some? && Lined(t.l1, a, []) && a !in others && NoDup(others) && |others| == Max(t.l1.maxEntries, 1)
    requires forall k :: k in others ==> FileName(k) != FileName(a)
    ensures var u := Run(t, Writes(others, v)); a !in u.l1.entries && SameFile(t, u, a)
  {
    var front, last := others[..|others| - 1], others[|others| - 1];
    LastIsNew(others);
    Fill(t, a, front, v);
    var u := Run(t, Writes(front, v));
    WritesSnoc(t, others, v);
    LinedSize(u.l1, a, front);
    LinedEvicts(u.l1, a, front, last, v);
  }

  lemma {:induction false} Choose(keys: set<Key>, n: nat) returns (list: seq<Key>)
    requires n <= |keys|
    ensures |list| == n && NoDup(list) && forall k :: k in list ==> k in keys
    decreases n
  {
    if n == 0 {
      list := [];
    } else {
      var k :| k in keys;
      var rest := Choose(keys - {k}, n - 1);
      list := [k] + rest;
    }
  }

  /** With more keys than places: one of them, and as many others as there are places. */
  lemma ChooseTooMany(n: nat, keys: set<Key>) returns (a: Key, others: seq<Key>)
    requires OwnFiles(keys) && !Holds(n, keys)
    ensures a in keys && |others| == Max(n, 1) && a !in others && NoDup(others)
    ensures forall k :: k in others ==> k in keys && FileName(k) != FileName(a)
  {
    a :| a in keys;
    others := Choose(keys - {a}, Max(n, 1));
  }

  lemma {:induction false} WritesInRef<V>(ref: Ref<V>, a: Key, others: seq<Key>, v: V)
    requires a !in others
    ensures var after := RefRun(ref, Writes(others, v));
      (a in after <==> a in ref) && (a in ref ==> after[a] == ref[a])
    decreases |others|
  {
    if others == [] {
    } else {
      var front, last := others[..|others| - 1], others[|others| - 1];
      assert others == front + [last];
      WritesInRef(ref, a, front, v);
      AnswersConcat(Fresh<V>(0, 0, 0), ref, Writes(front, v), [OpSet(last, v, None, 0)]);
    }
  }

  // ── Exactly when promotion by hand is harmless ─────────────────────

  lemma FirstWrite<V>(n: nat, p: nat, d: nat, a: Key, v: V, ttl: Option<nat>)
    ensures var t := Set(Fresh(n, p, d), a, v, ttl, 0);
      && Lined(t.l1, a, []) && t.l1.maxEntries == n && t.promotionThreshold == p && t.l2 == Some(map[FileName(a) := File(a, v, 0, 0, ttl)])
  {
    assert Touch([], a) == [a];
  }

  /** A key in neither tier is not read; one in the reference map, without a lifetime, is. */
  lemma ReadsDiffer<V>(t: Tiered<V>, ref: Ref<V>, a: Key, v: V)
    requires a !in t.l1.entries && t.l2.Some? && FileName(a) !in t.l2.value && a in ref && ref[a] == Item(v, 0, None)
    ensures Step(t, OpGet(a, 0)).1 == None && RefStep(ref, OpGet(a, 0)).1 == Some(v)
  {
  }

  /** Writing a key and promoting it leaves it in L1 alone. */
  lemma WriteAndPromote<V>(n: nat, p: nat, d: nat, a: Key, v: V)
    ensures var ops := [OpSet(a, v, None, 0), OpPromote(a, 0)]; var u := Run(Fresh(n, p, d), ops);
      && Lined(u.l1, a, []) && u.l2 == Some(map[]) && u.l1.maxEntries == n
      && RefRun(map[], ops) == map[a := Item(v, 0, None)]
  {
    FirstWrite(n, p, d, a, v, None);
    PromoteOnly(Set(Fresh(n, p, d), a, v, None, 0), a, v);
    TwoSteps(Fresh(n, p, d), map[], [OpSet(a, v, None, 0), OpPromote(a, 0)]);
  }

  /** The run that loses a promoted key: write it, promote it, and write as many others as L1 has places. */
  lemma {:induction false} PromotedKeyIsLost<V>(n: nat, p: nat, d: nat, a: Key, others: seq<Key>, v: V)
    requires |others| == Max(n, 1) && a !in others && NoDup(others) && forall k :: k in others ==> FileName(k) != FileName(a)
    ensures var ops := [OpSet(a, v, None, 0), OpPromote(a, 0)] + Writes(others, v); var last := OpGet(a, 0);
      Answers(Fresh(n, p, d), ops + [last]) != RefAnswers(map[], ops + [last])
  {
    var start, rest, last := [OpSet(a, v, None, 0), OpPromote(a, 0)], Writes(others, v), OpGet(a, 0);
    var t0 := Fresh<V>(n, p, d);
    var t, ref := Run(t0, start), RefRun(map[], start);
    WriteAndPromote(n, p, d, a, v);
    FillEvicts(t, a, others, v);
    WritesInRef(ref, a, others, v);
    AnswersConcat(t0, map[], start, rest);
    ReadsDiffer(Run(t, rest), RefRun(ref, rest), a, v);
    LastAnswer(t0, map[], start + rest, last);
    hide Run;
    hide RefRun;
    hide Step;
    hide RefStep;
    hide Answers;
    hide RefAnswers;
    assert Answers(t0, start + rest + [last])[|start + rest|] != RefAnswers(map[], start + rest + [last])[|start + rest|];
  }

  lemma {:induction false} TwoSteps<V>(t: Tiered<V>, ref: Ref<V>, ops: seq<Op<V>>)
    requires |ops| == 2
    ensures Run(t, ops) == Step(Step(t, ops[0]).0, ops[1]).0 && RefRun(ref, ops) == RefStep(RefStep(ref, ops[0]).0, ops[1]).0
  {
    assert ops == [ops[0]] + [ops[1]];
    AnswersConcat(t, ref, [ops[0]], [ops[1]]);
    OneStep(t, ref, [ops[0]]);
    OneStep(Step(t, ops[0]).0, RefStep(ref, ops[0]).0, [ops[1]]);
  }

  /** Promoting the only key leaves it in L1 and nothing in its file. */
  lemma PromoteOnly<V>(t: Tiered<V>, a: Key, v: V)
    requires Lined(t.l1, a, []) && t.l2 == Some(map[FileName(a) := File(a, v, 0, 0, None)])
    ensures var u := Promote(t, a, 0).0;
      Lined(u.l1, a, []) && u.l2 == Some(map[]) && u.l1.maxEntries == t.l1.maxEntries && u.promotionThreshold == t.promotionThreshold
  {
    assert Without([a][1..], a) == [];
    assert Touch([a], a) == [a];
    assert t.l2.value - {FileName(a)} == map[];
  }

  lemma PromotingMismatch<V>(n: nat, p: nat, d: nat, keys: set<Key>, v: V, w: V) returns (ops: seq<Op<V>>)
    requires v != w && !(OwnFiles(keys) && Holds(n, keys))
    ensures Promoting(ops, keys) && Answers(Fresh(n, p, d), ops) != RefAnswers(map[], ops)
  {
    if !OwnFiles(keys) {
      var a, b :| a in keys && b in keys && FileName(a) == FileName(b) && a != b;
      ops := [OpSet(a, v, None, 0), OpDemote(a, 0), OpSet(b, w, None, 0), OpGet(a, 0)];
      SharedFileBreaks(Fresh(n, p, d), a, b, v, w);
    } else {
      var a, others := ChooseTooMany(n, keys);
      ops := [OpSet(a, v, None, 0), OpPromote(a, 0)] + Writes(others, v) + [OpGet(a, 0)];
      WritesOnly(others, v);
      PromotedKeyIsLost(n, p, d, a, others, v);
    }
  }

  /**
   For each size of L1 and each pair of thresholds, the runs without lifetimes in which any key
   may be promoted by hand are answered like the one map exactly when no two of the keys share
   a file and L1 has a place for each of them.
   */
  lemma PromotingExactly<V(!new)>(n: nat, p: nat, d: nat, keys: set<Key>, v: V, w: V)
    requires v != w
    ensures OwnFiles(keys) && Holds(n, keys) <==>
      forall ops: seq<Op<V>> :: Promoting(ops, keys) ==> Answers(Fresh(n, p, d), ops) == RefAnswers(map[], ops)
  {
    hide Promoting;
    hide Answers;
    hide RefAnswers;
    if OwnFiles(keys) && Holds(n, keys) {
      forall ops: seq<Op<V>> | Promoting(ops, keys) ensures Answers(Fresh(n, p, d), ops) == RefAnswers(map[], ops) {
        SafeRunsMatch(Fresh(n, p, d), map[], keys, ops);
      }
    } else {
      var ops := PromotingMismatch(n, p, d, keys, v, w);
    }
  }

  // ── Lifetimes ──────────────────────────────────────────────────────

  /** Every item is in L1, and what its file holds is as old. */
  ghost predicate Resident<V>(t: Tiered<V>, ref: Ref<V>, keys: set<Key>) {
    && t.l2.Some? && OwnFiles(keys) && ref.Keys == t.l1.entries.Keys
    && MemoryAgrees(t.l1, ref, keys) && FilesAgree(t.l2.value, ref, keys, keys)
    && MemValid(t.l1) && Holds(t.l1.maxEntries, keys)
  }

  lemma GetStaysResident<V>(t: Tiered<V>, ref: Ref<V>, keys: set<Key>, key: Key, now: nat)
    requires Resident(t, ref, keys) && key in keys
    ensures Resident(Get(t, key, now).0, RefStep(ref, OpGet(key, now)).0, keys)
    ensures Get(t, key, now).1 == RefStep(ref, OpGet(key, now)).1
  {
    hide MemValid;
    hide FileName;
    hide Touch;
    hide Without;
    assert FileAgrees(t.l2.value, ref, key, keys);
    MemGetValid(t.l1, key, now);
    var ref' := RefStep(ref, OpGet(key, now)).0;
    if key in ref && Stale(ref[key].createdAt, ref[key].ttl, now) {
      FileRemoveAgrees(t.l2.value, ref, ref', keys, keys, key);
      assert FileName(key) !in t.l2.value ==> t.l2.value - {FileName(key)} == t.l2.value;
    }
  }

  lemma MemoryKeys<V>(m: Memory<V>, ref: Ref<V>, keys: set<Key>)
    requires MemoryAgrees(m, ref, keys)
    ensures m.entries.Keys <= keys
  {
  }

  lemma SetMemory<V>(m: Memory<V>, ref: Ref<V>, keys: set<Key>, key: Key, v: V, ttl: Option<nat>, now: nat)
    requires MemoryAgrees(m, ref, keys) && key in keys
    ensures MemoryAgrees(MemSet(m, key, v, ttl, now), ref[key := Item(v, now, ttl)], keys)
  {
    MemSetAgrees(m, ref[key := Item(v, now, ttl)], keys, key, v, ttl, now);
  }

  lemma SetFiles<V>(files: map<string, File<V>>, ref: Ref<V>, keys: set<Key>, key: Key, v: V, ttl: Option<nat>, now: nat)
    requires OwnFiles(keys) && FilesAgree(files, ref, keys, keys) && key in keys
    ensures FilesAgree(FileSet(files, key, v, ttl, now), ref[key := Item(v, now, ttl)], keys, keys)
  {
    hide FilesAgree;
    hide OwnFiles;
    FileSetAgrees(files, ref, ref[key := Item(v, now, ttl)], keys, keys, key, v, ttl, now);
  }

  lemma SetStaysResident<V>(t: Tiered<V>, ref: Ref<V>, keys: set<Key>, key: Key, v: V, ttl: Option<nat>, now: nat)
    requires Resident(t, ref, keys) && key in keys
    ensures Resident(Set(t, key, v, ttl, now), ref[key := Item(v, now, ttl)], keys)
  {
    hide MemValid;
    hide MemoryAgrees;
    hide FilesAgree;
    hide OwnFiles;
    MemoryKeys(t.l1, ref, keys);
    NoEviction(t.l1, keys, key, v, ttl, now);
    MemSetValid(t.l1, key, v, ttl, now);
    SetMemory(t.l1, ref, keys, key, v, ttl, now);
    SetFiles(t.l2.value, ref, keys, key, v, ttl, now);
  }

  lemma DeleteMemory<V>(m: Memory<V>, ref: Ref<V>, keys: set<Key>, key: Key)
    requires MemoryAgrees(m, ref, keys) && ref.Keys == m.entries.Keys
    ensures MemoryAgrees(MemDelete(m, key).0, ref - {key}, keys) && (ref - {key}).Keys == MemDelete(m, key).0.entries.Keys
  {
  }

  lemma DeleteStaysResident<V>(t: Tiered<V>, ref: Ref<V>, keys: set<Key>, key: Key)
    requires Resident(t, ref, keys) && key in keys
    ensures Resident(Delete(t, key).0, ref - {key}, keys)
  {
    hide MemValid;
    hide MemoryAgrees;
    hide FilesAgree;
    hide OwnFiles;
    MemDeleteValid(t.l1, key);
    DeleteMemory(t.l1, ref, keys, key);
    FileRemoveAgrees(t.l2.value, ref, ref - {key}, keys, keys, key);
  }

  lemma StepStaysResident<V>(t: Tiered<V>, ref: Ref<V>, keys: set<Key>, op: Op<V>)
    requires Resident(t, ref, keys) && Allowed(op, keys, {}, false)
    ensures Resident(Step(t, op).0, RefStep(ref, op).0, keys) && Step(t, op).1 == RefStep(ref, op).1
  {
    hide Resident;
    match op
    case OpGet(k, now) => GetStaysResident(t, ref, keys, k, now);
    case OpSet(k, v, ttl, now) => SetStaysResident(t, ref, keys, k, v, ttl, now);
    case OpDelete(k) => DeleteStaysResident(t, ref, keys, k);
  }

  lemma {:induction false} ResidentRunsMatch<V>(t: Tiered<V>, ref: Ref<V>, keys: set<Key>, ops: seq<Op<V>>)
    requires Resident(t, ref, keys) && Lived(ops, keys)
    ensures Answers(t, ops) == RefAnswers(ref, ops)
    decreases |ops|
  {
    hide Resident;
    if ops == [] {
    } else {
      StepStaysResident(t, ref, keys, ops[0]);
      ResidentRunsMatch(Step(t, ops[0]).0, RefStep(ref, ops[0]).0, keys, ops[1..]);
    }
  }

  /** A promotion by use restarts a lifetime: an item pushed out of L1 and read back outlives itself by one time unit. */
  lemma {:induction false} UseRestartsLifetime<V>(n: nat, p: nat, d: nat, a: Key, others: seq<Key>, v: V)
    requires p <= 1 && |others| == Max(n, 1) && a !in others && NoDup(others) && forall k :: k in others ==> FileName(k) != FileName(a)
    ensures var ops := [OpSet(a, v, Some(1), 0)] + Writes(others, v) + [OpGet(a, 1)]; var last := OpGet(a, 2);
      Answers(Fresh(n, p, d), ops + [last]) != RefAnswers(map[], ops + [last])
  {
    var t0, first, rest, read, last := Fresh<V>(n, p, d), [OpSet(a, v, Some(1), 0)], Writes(others, v), [OpGet(a, 1)], OpGet(a, 2);
    FirstWrite(n, p, d, a, v, Some(1));
    var t1 := Set(t0, a, v, Some(1), 0);
    OneStep(t0, map[], first);
    FillEvicts(t1, a, others, v);
    var t2 := Run(t1, rest);
    WritesInRef(map[a := Item(v, 0, Some(1))], a, others, v);
    AnswersConcat(t0, map[], first, rest);
    AnswersConcat(t0, map[], first + rest, read);
    OneStep(t2, RefRun(map[], first + rest), read);
    PromotedByUse(t2, a, v);
    LastAnswer(t0, map[], first + rest + read, last);
  }

  lemma {:induction false} OneStep<V>(t: Tiered<V>, ref: Ref<V>, ops: seq<Op<V>>)
    requires |ops| == 1
    ensures Run(t, ops) == Step(t, ops[0]).0 && RefRun(ref, ops) == RefStep(ref, ops[0]).0
  {
  }

  lemma PromotedByUse<V>(t: Tiered<V>, a: Key, v: V)
    requires a !in t.l1.entries && t.l2.Some? && t.promotionThreshold <= 1
    requires FileName(a) in t.l2.value && t.l2.value[FileName(a)] == File(a, v, 0, 0, Some(1))
    ensures Get(Get(t, a, 1).0, a, 2).1 == Some(v)
  {
    var u := Get(t, a, 1).0;
    assert a in u.l1.entries && u.l1.entries[a].createdAt == 1 && u.l1.entries[a].ttl == Some(1);
  }

  /** Two keys sharing a file break the promise for reads, writes and lifetimes alone. */
  lemma {:induction false} SharedFileOutlives<V>(t: Tiered<V>, a: Key, b: Key, v: V)
    requires a != b && FileName(a) == FileName(b) && t.l2.Some?
    ensures var ops := [OpSet(a, v, Some(0), 0), OpSet(b, v, None, 0)];
      Answers(t, ops + [OpGet(a, 1)]) != RefAnswers(map[], ops + [OpGet(a, 1)])
  {
    var ops := [OpSet(a, v, Some(0), 0), OpSet(b, v, None, 0)];
    TwoSteps(t, map[], ops);
    LastAnswer(t, map[], ops, OpGet(a, 1));
    var u := Set(Set(t, a, v, Some(0), 0), b, v, None, 0);
    assert a in u.l1.entries ==> u.l1.entries[a].ttl == Some(0) && u.l1.entries[a].createdAt == 0;
    assert u.l2.value[FileName(a)] == File(b, v, 0, 0, None);
  }

  lemma LivedMismatch<V>(n: nat, p: nat, d: nat, keys: set<Key>, v: V) returns (ops: seq<Op<V>>)
    requires !(OwnFiles(keys) && (p > 1 || Holds(n, keys)))
    ensures Lived(ops, keys) && Answers(Fresh(n, p, d), ops) != RefAnswers(map[], ops)
  {
    if !OwnFiles(keys) {
      var a, b :| a in keys && b in keys && FileName(a) == FileName(b) && a != b;
      ops := [OpSet(a, v, Some(0), 0), OpSet(b, v, None, 0)] + [OpGet(a, 1)];
      SharedFileOutlives(Fresh(n, p, d), a, b, v);
    } else {
      var a, others := ChooseTooMany(n, keys);
      ops := [OpSet(a, v, Some(1), 0)] + Writes(others, v) + [OpGet(a, 1)] + [OpGet(a, 2)];
      WritesOnly(others, v);
      UseRestartsLifetime(n, p, d, a, others, v);
    }
  }

  lemma {:induction false} LivedMatch<V>(n: nat, p: nat, d: nat, keys: set<Key>, ops: seq<Op<V>>)
    requires OwnFiles(keys) && (p > 1 || Holds(n, keys)) && Lived(ops, keys)
    ensures Answers(Fresh(n, p, d), ops) == RefAnswers(map[], ops)
  {
    if p > 1 {
      TwoTiersAreOneMap(Fresh(n, p, d), map[], keys, {}, false, ops);
    } else {
      ResidentRunsMatch(Fresh(n, p, d), map[], keys, ops);
    }
  }

  /**
   For each size of L1 and each pair of thresholds, the runs of reads, writes and deletions with
   lifetimes are answered like the one map exactly when no two of the keys share a file and
   either use never promotes or L1 has a place for each key.
   */
  lemma LivedExactly<V(!new)>(n: nat, p: nat, d: nat, keys: set<Key>, v: V)
    ensures OwnFiles(keys) && (p > 1 || Holds(n, keys)) <==>
      forall ops: seq<Op<V>> :: Lived(ops, keys) ==> Answers(Fresh(n, p, d), ops) == RefAnswers(map[], ops)
  {
    hide Lived;
    hide Answers;
    hide RefAnswers;
    if OwnFiles(keys) && (p > 1 || Holds(n, keys)) {
      forall ops: seq<Op<V>> | Lived(ops, keys) ensures Answers(Fresh(n, p, d), ops) == RefAnswers(map[], ops) {
        LivedMatch(n, p, d, keys, ops);
      }
    } else {
      var ops := LivedMismatch(n, p, d, keys, v);
    }
  }

  lemma DemotedOutlives<V>(n: nat, p: nat, d: nat, a: Key, v: V)
    ensures var ops := [OpSet(a, v, Some(1), 0), OpDemote(a, 1)] + [OpGet(a, 2)];
      Answers(Fresh(n, p, d), ops) != RefAnswers(map[], ops)
  {
    var ops := [OpSet(a, v, Some(1), 0), OpDemote(a, 1)];
    TwoSteps(Fresh(n, p, d), map[], ops);
    LastAnswer(Fresh(n, p, d), map[], ops, OpGet(a, 2));
    DemotionRestartsLifetime(Fresh(n, p, d), a, v, 1, 1, 2);
  }

  /** Lifetimes together with moves between the tiers never match, but for an empty set of keys. */
  lemma AnythingExactly<V(!new)>(n: nat, p: nat, d: nat, keys: set<Key>, v: V)
    ensures keys == {} <==>
      forall ops: seq<Op<V>> :: Anything(ops, keys) ==> Answers(Fresh(n, p, d), ops) == RefAnswers(map[], ops)
  {
    hide Answers;
    hide RefAnswers;
    if keys == {} {
      forall ops: seq<Op<V>> | Anything(ops, keys) ensures Answers(Fresh(n, p, d), ops) == RefAnswers(map[], ops) {
        PlainRunsMatch(n, p, d, keys, ops);
      }
    } else {
      var a :| a in keys;
      var ops := [OpSet(a, v, Some(1), 0), OpDemote(a, 1)] + [OpGet(a, 2)];
      assert Anything(ops, keys);
      DemotedOutlives(n, p, d, a, v);
    }
  }
}
