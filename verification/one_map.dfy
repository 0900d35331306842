/**
 What the two tiers promise together: to behave like one map whose items may have lifetimes.
 The map below is that reference; the lemmas say for which runs the promise is kept.
 */
module OneMap {
  import opened Prelude
  import opened FileNames
  import opened TieredSpec

  datatype Item<V> = Item(value: V, createdAt: nat, ttl: Option<nat>)

  type Ref<V> = map<Key, Item<V>>

  datatype Op<V> =
    | OpGet(key: Key, now: nat)
    | OpSet(key: Key, value: V, ttl: Option<nat>, now: nat)
    | OpDelete(key: Key)
    | OpDemote(key: Key, now: nat)
    | OpDemoteCold(keys: seq<Key>, now: nat)
    | OpPromote(key: Key, now: nat)

  function Step<V>(t: Tiered<V>, op: Op<V>): (Tiered<V>, Option<V>) {
    match op
    case OpGet(k, now) => Get(t, k, now)
    case OpSet(k, v, ttl, now) => (Set(t, k, v, ttl, now), None)
    case OpDelete(k) => (Delete(t, k).0, None)
    case OpDemote(k, now) => (Demote(t, k, now).0, None)
    case OpDemoteCold(keys, now) => (DemoteCold(t, keys, now).0, None)
    case OpPromote(k, now) => (Promote(t, k, now).0, None)
  }

  /** The same call on the one map: moving between tiers means nothing to it. */
  function RefStep<V>(ref: Ref<V>, op: Op<V>): (Ref<V>, Option<V>) {
    match op
    case OpGet(k, now) =>
      if k !in ref then (ref, None)
      else if Stale(ref[k].createdAt, ref[k].ttl, now) then (ref - {k}, None)
      else (ref, Some(ref[k].value))
    case OpSet(k, v, ttl, now) => (ref[k := Item(v, now, ttl)], None)
    case OpDelete(k) => (ref - {k}, None)
    case _ => (ref, None)
  }

  function Run<V>(t: Tiered<V>, ops: seq<Op<V>>): Tiered<V>
    decreases |ops|
  {
    if ops == [] then t else Run(Step(t, ops[0]).0, ops[1..])
  }

  function Answers<V>(t: Tiered<V>, ops: seq<Op<V>>): (r: seq<Option<V>>)
    ensures |r| == |ops|
    decreases |ops|
  {
    if ops == [] then [] else [Step(t, ops[0]).1] + Answers(Step(t, ops[0]).0, ops[1..])
  }

  function RefAnswers<V>(ref: Ref<V>, ops: seq<Op<V>>): (r: seq<Option<V>>)
    ensures |r| == |ops|
    decreases |ops|
  {
    if ops == [] then [] else [RefStep(ref, ops[0]).1] + RefAnswers(RefStep(ref, ops[0]).0, ops[1..])
  }

  function RefRun<V>(ref: Ref<V>, ops: seq<Op<V>>): Ref<V>
    decreases |ops|
  {
    if ops == [] then ref else RefRun(RefStep(ref, ops[0]).0, ops[1..])
  }

  lemma {:induction false} AnswersConcat<V>(t: Tiered<V>, ref: Ref<V>, xs: seq<Op<V>>, ys: seq<Op<V>>)
    ensures Answers(t, xs + ys) == Answers(t, xs) + Answers(Run(t, xs), ys)
    ensures RefAnswers(ref, xs + ys) == RefAnswers(ref, xs) + RefAnswers(RefRun(ref, xs), ys)
    ensures Run(t, xs + ys) == Run(Run(t, xs), ys) && RefRun(ref, xs + ys) == RefRun(RefRun(ref, xs), ys)
    decreases |xs|
  {
    hide Step;
    hide RefStep;
    if xs == [] {
      assert xs + ys == ys;
    } else {
      assert (xs + ys)[0] == xs[0] && (xs + ys)[1..] == xs[1..] + ys;
      var (u, x) := Step(t, xs[0]);
      var (r, y) := RefStep(ref, xs[0]);
      AnswersConcat(u, r, xs[1..], ys);
      assert [x] + (Answers(u, xs[1..]) + Answers(Run(u, xs[1..]), ys)) == ([x] + Answers(u, xs[1..])) + Answers(Run(u, xs[1..]), ys);
      assert [y] + (RefAnswers(r, xs[1..]) + RefAnswers(RefRun(r, xs[1..]), ys)) == ([y] + RefAnswers(r, xs[1..])) + RefAnswers(RefRun(r, xs[1..]), ys);
    }
  }

  /** The last answer of a run is that of its last call. */
  lemma {:induction false} LastAnswer<V>(t: Tiered<V>, ref: Ref<V>, ops: seq<Op<V>>, last: Op<V>)
    ensures Answers(t, ops + [last])[|ops|] == Step(Run(t, ops), last).1
    ensures RefAnswers(ref, ops + [last])[|ops|] == RefStep(RefRun(ref, ops), last).1
  {
    hide Step;
    hide RefStep;
    AnswersConcat(t, ref, ops, [last]);
  }

  /** Every run keeps the recency list of L1 a duplicate-free listing of its keys, within capacity. */
  lemma {:induction false} RunKeepsMemory<V>(t: Tiered<V>, ops: seq<Op<V>>)
    requires MemValid(t.l1)
    ensures MemValid(Run(t, ops).l1)
    decreases |ops|
  {
    hide MemValid;
    if ops == [] {
    } else {
      StepKeepsMemory(t, ops[0]);
      RunKeepsMemory(Step(t, ops[0]).0, ops[1..]);
    }
  }

  lemma StepKeepsMemory<V>(t: Tiered<V>, op: Op<V>)
    requires MemValid(t.l1)
    ensures MemValid(Step(t, op).0.l1)
  {
    hide MemValid;
    match op
    case OpGet(k, now) => GetKeepsMemory(t, k, now);
    case OpSet(k, v, ttl, now) => MemSetValid(t.l1, k, v, ttl, now);
    case OpDelete(k) => MemDeleteValid(t.l1, k);
    case OpDemote(k, now) => MoveDownKeepsMemory(t, k, now);
    case OpDemoteCold(keys, now) => MoveDownAllKeepsMemory(t, keys, now);
    case OpPromote(k, now) => PromoteKeepsMemory(t, k, now);
  }

  // ── Agreement of the tiers with the map ────────────────────────────

  predicate Same<V(==)>(value: V, createdAt: nat, ttl: Option<nat>, item: Item<V>) {
    value == item.value && ttl == item.ttl && (ttl.Some? ==> createdAt == item.createdAt)
  }

  ghost predicate MemoryAgrees<V>(m: Memory<V>, ref: Ref<V>, keys: set<Key>) {
    forall k :: k in m.entries ==> k in keys && k in ref && Same(m.entries[k].value, m.entries[k].createdAt, m.entries[k].ttl, ref[k])
  }

  ghost predicate FileAgrees<V>(files: map<string, File<V>>, ref: Ref<V>, k: Key, promoted: set<Key>) {
    && (FileName(k) in files ==>
          k in ref && Same(files[FileName(k)].value, files[FileName(k)].createdAt, files[FileName(k)].ttl, ref[k])
          && files[FileName(k)].accessCount == 0)
    && (k in ref && k !in promoted ==> FileName(k) in files)
  }

  ghost predicate FilesAgree<V>(files: map<string, File<V>>, ref: Ref<V>, keys: set<Key>, promoted: set<Key>) {
    forall k :: k in keys ==> FileAgrees(files, ref, k, promoted)
  }

  /** No two keys in use share a file. */
  ghost predicate OwnFiles(keys: set<Key>) {
    forall a, b :: a in keys && b in keys && FileName(a) == FileName(b) ==> a == b
  }

  ghost predicate Timeless<V>(ref: Ref<V>) {
    forall k :: k in ref ==> ref[k].ttl == None
  }

  /**
   Everything known of a store mid-run. `promoted` holds the keys promoted by hand so far or
   later. A run is either `timeless`, or never restamps an item by moving it between tiers.
   */
  ghost predicate Agrees<V>(t: Tiered<V>, ref: Ref<V>, keys: set<Key>, promoted: set<Key>, timeless: bool) {
    && OwnFiles(keys) && t.l2.Some?
    && MemoryAgrees(t.l1, ref, keys) && FilesAgree(t.l2.value, ref, keys, promoted)
    && (timeless ==> Timeless(ref)) && (!timeless ==> t.promotionThreshold > 1)
  }

  ghost predicate Allowed<V>(op: Op<V>, keys: set<Key>, promoted: set<Key>, timeless: bool) {
    && (!op.OpDemoteCold? ==> op.key in keys)
    && (op.OpPromote? ==> op.key in promoted)
    && (timeless ==> op.OpSet? ==> op.ttl == None)
    && (!timeless ==> op.OpGet? || op.OpSet? || op.OpDelete?)
  }

  // ── One call ───────────────────────────────────────────────────────

  lemma MemSetAgrees<V>(m: Memory<V>, ref: Ref<V>, keys: set<Key>, key: Key, value: V, ttl: Option<nat>, now: nat)
    requires forall k :: k in m.entries && k != key ==>
      k in keys && k in ref && Same(m.entries[k].value, m.entries[k].createdAt, m.entries[k].ttl, ref[k])
    requires key in keys && key in ref && Same(value, now, ttl, ref[key])
    ensures MemoryAgrees(MemSet(m, key, value, ttl, now), ref, keys)
  {
  }

  lemma GetAgrees<V>(t: Tiered<V>, ref: Ref<V>, keys: set<Key>, promoted: set<Key>, timeless: bool, key: Key, now: nat)
    requires Agrees(t, ref, keys, promoted, timeless) && key in keys
    ensures Agrees(Get(t, key, now).0, RefStep(ref, OpGet(key, now)).0, keys, promoted, timeless)
    ensures Get(t, key, now).1 == RefStep(ref, OpGet(key, now)).1 || (key in promoted && Get(t, key, now).1 == None)
  {
    assert FileAgrees(t.l2.value, ref, key, promoted);
    var (m, hit) := MemGet(t.l1, key, now);
    var (files, read) := FileGet(t.l2.value, key, now);
    var ref' := RefStep(ref, OpGet(key, now)).0;
    assert MemoryAgrees(m, ref', keys);
    if hit.None? {
      forall k | k in keys ensures FileAgrees(files, ref', k, promoted) {
        assert FileAgrees(t.l2.value, ref, k, promoted);
      }
      if read.Some? && read.value.accessCount >= t.promotionThreshold {
        MemSetAgrees(m, ref', keys, key, read.value.value, read.value.ttl, now);
      }
    }
  }

  lemma FileSetAgrees<V>(files: map<string, File<V>>, ref: Ref<V>, ref': Ref<V>, keys: set<Key>, promoted: set<Key>,
      key: Key, value: V, ttl: Option<nat>, now: nat)
    requires OwnFiles(keys) && key in keys && key in ref' && Same(value, now, ttl, ref'[key])
    requires FilesAgree(files, ref, keys, promoted)
    requires forall k :: k != key ==> (k in ref' <==> k in ref) && (k in ref ==> ref'[k] == ref[k])
    ensures FilesAgree(FileSet(files, key, value, ttl, now), ref', keys, promoted)
  {
    forall k | k in keys ensures FileAgrees(FileSet(files, key, value, ttl, now), ref', k, promoted) {
      assert FileAgrees(files, ref, k, promoted);
    }
  }

  lemma FileRemoveAgrees<V>(files: map<string, File<V>>, ref: Ref<V>, ref': Ref<V>, keys: set<Key>, promoted: set<Key>, key: Key)
    requires OwnFiles(keys) && key in keys && FilesAgree(files, ref, keys, promoted)
    requires key in promoted || key !in ref'
    requires forall k :: k != key ==> (k in ref' <==> k in ref) && (k in ref ==> ref'[k] == ref[k])
    ensures FilesAgree(files - {FileName(key)}, ref', keys, promoted)
  {
    forall k | k in keys ensures FileAgrees(files - {FileName(key)}, ref', k, promoted) {
      assert FileAgrees(files, ref, k, promoted);
    }
  }

  lemma SetAgrees<V>(t: Tiered<V>, ref: Ref<V>, keys: set<Key>, promoted: set<Key>, timeless: bool,
      key: Key, value: V, ttl: Option<nat>, now: nat)
    requires Agrees(t, ref, keys, promoted, timeless) && key in keys && (timeless ==> ttl == None)
    ensures Agrees(Set(t, key, value, ttl, now), ref[key := Item(value, now, ttl)], keys, promoted, timeless)
  {
    var ref' := ref[key := Item(value, now, ttl)];
    MemSetAgrees(t.l1, ref', keys, key, value, ttl, now);
    FileSetAgrees(t.l2.value, ref, ref', keys, promoted, key, value, ttl, now);
  }

  lemma DeleteAgrees<V>(t: Tiered<V>, ref: Ref<V>, keys: set<Key>, promoted: set<Key>, timeless: bool, key: Key)
    requires Agrees(t, ref, keys, promoted, timeless) && key in keys
    ensures Agrees(Delete(t, key).0, ref - {key}, keys, promoted, timeless)
  {
    FileRemoveAgrees(t.l2.value, ref, ref - {key}, keys, promoted, key);
  }

  lemma MoveDownAgrees<V>(t: Tiered<V>, ref: Ref<V>, keys: set<Key>, promoted: set<Key>, key: Key, now: nat)
    requires Agrees(t, ref, keys, promoted, true)
    ensures Agrees(MoveDown(t, key, now).0, ref, keys, promoted, true)
  {
    if key in t.l1.entries {
      FileSetAgrees(t.l2.value, ref, ref, keys, promoted, key, t.l1.entries[key].value, t.l1.entries[key].ttl, now);
    }
  }

  lemma {:induction false} MoveDownAllAgrees<V>(t: Tiered<V>, ref: Ref<V>, keys: set<Key>, promoted: set<Key>, list: seq<Key>, now: nat)
    requires Agrees(t, ref, keys, promoted, true)
    ensures Agrees(MoveDownAll(t, list, now).0, ref, keys, promoted, true)
    decreases |list|
  {
    if list == [] {
    } else {
      var last := |list| - 1;
      MoveDownAllAgrees(t, ref, keys, promoted, list[..last], now);
      MoveDownAgrees(MoveDownAll(t, list[..last], now).0, ref, keys, promoted, list[last], now);
    }
  }

  lemma PromoteAgrees<V>(t: Tiered<V>, ref: Ref<V>, keys: set<Key>, promoted: set<Key>, key: Key, now: nat)
    requires Agrees(t, ref, keys, promoted, true) && key in keys && key in promoted
    ensures Agrees(Promote(t, key, now).0, ref, keys, promoted, true)
  {
    assert FileAgrees(t.l2.value, ref, key, promoted);
    if FileName(key) in t.l2.value {
      var f := t.l2.value[FileName(key)];
      MemSetAgrees(t.l1, ref, keys, key, f.value, f.ttl, now);
      FileRemoveAgrees(t.l2.value, ref, ref, keys, promoted, key);
    }
  }

  lemma StepAgrees<V>(t: Tiered<V>, ref: Ref<V>, keys: set<Key>, promoted: set<Key>, timeless: bool, op: Op<V>)
    requires Agrees(t, ref, keys, promoted, timeless) && Allowed(op, keys, promoted, timeless)
    ensures Agrees(Step(t, op).0, RefStep(ref, op).0, keys, promoted, timeless)
    ensures Step(t, op).1 == RefStep(ref, op).1 || (op.OpGet? && op.key in promoted && Step(t, op).1 == None)
  {
    match op
    case OpGet(k, now) => GetAgrees(t, ref, keys, promoted, timeless, k, now);
    case OpSet(k, v, ttl, now) => SetAgrees(t, ref, keys, promoted, timeless, k, v, ttl, now);
    case OpDelete(k) => DeleteAgrees(t, ref, keys, promoted, timeless, k);
    case OpDemote(k, now) => MoveDownAgrees(t, ref, keys, promoted, k, now);
    case OpDemoteCold(list, now) => MoveDownAllAgrees(t, ref, keys, promoted, list, now);
    case OpPromote(k, now) => PromoteAgrees(t, ref, keys, promoted, k, now);
  }

  // ── Whole runs ─────────────────────────────────────────────────────

  /**
   Any run in which no two keys share a file, and in which either no item has a lifetime or
   none is moved between tiers, answers every read like the one map, whatever L1 evicts
   meanwhile. Only a key promoted by hand can be lost, and even then the answer is never a
   value other than the last one written.
   */
  lemma {:induction false} TwoTiersAreOneMap<V>(t: Tiered<V>, ref: Ref<V>, keys: set<Key>, promoted: set<Key>, timeless: bool, ops: seq<Op<V>>)
    requires Agrees(t, ref, keys, promoted, timeless)
    requires forall i :: 0 <= i < |ops| ==> Allowed(ops[i], keys, promoted, timeless)
    ensures forall i :: 0 <= i < |ops| ==>
      Answers(t, ops)[i] == RefAnswers(ref, ops)[i] || (ops[i].OpGet? && ops[i].key in promoted && Answers(t, ops)[i] == None)
    decreases |ops|
  {
    if ops == [] {
    } else {
      StepAgrees(t, ref, keys, promoted, timeless, ops[0]);
      TwoTiersAreOneMap(Step(t, ops[0]).0, RefStep(ref, ops[0]).0, keys, promoted, timeless, ops[1..]);
    }
  }

  function Fresh<V>(l1MaxEntries: nat, promotionThreshold: nat, demotionThreshold: nat): Tiered<V> {
    Tiered(Memory(l1MaxEntries, map[], []), Some(map[]), promotionThreshold, demotionThreshold, 0, 0)
  }

  /** Runs over some keys with lifetimes unused and nothing promoted by hand. */
  ghost predicate Plainly<V>(ops: seq<Op<V>>, keys: set<Key>) {
    forall i :: 0 <= i < |ops| ==> Allowed(ops[i], keys, {}, true)
  }

  lemma FreshAgrees<V>(l1MaxEntries: nat, promotionThreshold: nat, demotionThreshold: nat, keys: set<Key>)
    requires OwnFiles(keys)
    ensures Agrees(Fresh<V>(l1MaxEntries, promotionThreshold, demotionThreshold), map[], keys, {}, true)
  {
  }

  lemma {:induction false} PlainRunsMatch<V>(l1MaxEntries: nat, promotionThreshold: nat, demotionThreshold: nat, keys: set<Key>, ops: seq<Op<V>>)
    requires OwnFiles(keys) && Plainly(ops, keys)
    ensures Answers(Fresh(l1MaxEntries, promotionThreshold, demotionThreshold), ops) == RefAnswers(map[], ops)
  {
    FreshAgrees<V>(l1MaxEntries, promotionThreshold, demotionThreshold, keys);
    TwoTiersAreOneMap(Fresh(l1MaxEntries, promotionThreshold, demotionThreshold), map[], keys, {}, true, ops);
  }

  /** Keys free of underscores are always safe. */
  lemma UnderscoreFreeKeysOwnFiles(keys: set<Key>)
    requires forall k :: k in keys ==> '_' !in k
    ensures OwnFiles(keys)
  {
    forall a, b | a in keys && b in keys && FileName(a) == FileName(b) ensures a == b { FileNameInjective(a, b); }
  }

  // ── Where the promise ends ─────────────────────────────────────────

  lemma {:induction false} FourthAnswer<V>(t: Tiered<V>, ref: Ref<V>, ops: seq<Op<V>>)
    requires |ops| == 4
    ensures Answers(t, ops)[3] == Step(Step(Step(Step(t, ops[0]).0, ops[1]).0, ops[2]).0, ops[3]).1
    ensures RefAnswers(ref, ops)[3] == RefStep(RefStep(RefStep(RefStep(ref, ops[0]).0, ops[1]).0, ops[2]).0, ops[3]).1
  {
    assert ops[1..][0] == ops[1] && ops[1..][1..] == ops[2..] && ops[2..][0] == ops[2] && ops[2..][1..] == ops[3..] && ops[3..][0] == ops[3];
    var t1, r1 := Step(t, ops[0]).0, RefStep(ref, ops[0]).0;
    var t2, r2 := Step(t1, ops[1]).0, RefStep(r1, ops[1]).0;
    var t3, r3 := Step(t2, ops[2]).0, RefStep(r2, ops[2]).0;
    assert Answers(t, ops)[3] == Answers(t1, ops[1..])[2] == Answers(t2, ops[2..])[1] == Answers(t3, ops[3..])[0];
    assert RefAnswers(ref, ops)[3] == RefAnswers(r1, ops[1..])[2] == RefAnswers(r2, ops[2..])[1] == RefAnswers(r3, ops[3..])[0];
  }

  /** Two keys sharing a file do break the promise, for every size of L1. */
  lemma {:induction false} SharedFileBreaks<V>(t: Tiered<V>, a: Key, b: Key, v: V, w: V)
    requires a != b && FileName(a) == FileName(b) && v != w && t.l2.Some?
    ensures var ops := [OpSet(a, v, None, 0), OpDemote(a, 0), OpSet(b, w, None, 0), OpGet(a, 0)];
      Answers(t, ops)[3] == Some(w) && RefAnswers(map[], ops)[3] == Some(v)
  {
    FourthAnswer(t, map[], [OpSet(a, v, None, 0), OpDemote(a, 0), OpSet(b, w, None, 0), OpGet(a, 0)]);
    var t1 := Set(t, a, v, None, 0);
    var t2 := Demote(t1, a, 0).0;
    assert a !in t2.l1.entries;
    var t3 := Set(t2, b, w, None, 0);
    assert Get(t3, a, 0).1 == Some(w);
  }

  /**
   For each size of L1 and each pair of thresholds, the plain runs over a set of keys are
   answered like the one map exactly when no two of the keys share a file.
   */
  lemma OneMapExactly<V(!new)>(n: nat, p: nat, d: nat, keys: set<Key>, v: V, w: V)
    requires v != w
    ensures OwnFiles(keys) <==>
      forall ops: seq<Op<V>> :: Plainly(ops, keys) ==> Answers(Fresh(n, p, d), ops) == RefAnswers(map[], ops)
  {
    if OwnFiles(keys) {
      forall ops: seq<Op<V>> | Plainly(ops, keys) ensures Answers(Fresh(n, p, d), ops) == RefAnswers(map[], ops) {
        PlainRunsMatch(n, p, d, keys, ops);
      }
    } else {
      var a, b :| a in keys && b in keys && FileName(a) == FileName(b) && a != b;
      var ops := [OpSet(a, v, None, 0), OpDemote(a, 0), OpSet(b, w, None, 0), OpGet(a, 0)];
      assert Plainly(ops, keys);
      SharedFileBreaks(Fresh(n, p, d), a, b, v, w);
    }
  }

  /** Promoting by hand removes the file, so the next eviction from L1 loses the key. */
  lemma PromotedKeyCanBeLost<V>(a: Key, b: Key, v: V, w: V)
    requires FileName(a) != FileName(b)
    ensures var t := Promote(Set(Fresh(1, 5, 0), a, v, None, 0), a, 0).0;
      Get(t, a, 0).1 == Some(v) && Get(Set(t, b, w, None, 0), a, 0).1 == None
  {
    var t0 := Set(Fresh<V>(1, 5, 0), a, v, None, 0);
    assert t0.l1.order == [a] && [a][1..] == [];
    assert Touch([a], a) == [a];
    var t := Promote(t0, a, 0).0;
    assert t.l1.entries.Keys == {a} && t.l1.order == [a] && FileName(a) !in t.l2.value;
    assert |t.l1.entries| == |t.l1.entries.Keys| == 1;
  }

  /** Demotion restarts a lifetime: an item is still read up to a full lifetime after it moved down. */
  lemma DemotionRestartsLifetime<V>(t: Tiered<V>, key: Key, v: V, life: nat, moved: nat, now: nat)
    requires t.l2.Some? && moved <= life
    ensures var u := Demote(Set(t, key, v, Some(life), 0), key, moved).0;
      Get(u, key, now).1 == if SatSub(now, moved) <= life then Some(v) else None
  {
  }

  // ── Promotion by use ───────────────────────────────────────────────

  ghost predicate UncountedFiles<V>(t: Tiered<V>) {
    t.l2.Some? ==> forall f :: f in t.l2.value ==> t.l2.value[f].accessCount == 0
  }

  ghost predicate NoneByHand<V>(ops: seq<Op<V>>) {
    forall i :: 0 <= i < |ops| ==> !ops[i].OpPromote?
  }

  lemma {:induction false} MoveDownAllPromotesNothing<V>(t: Tiered<V>, list: seq<Key>, now: nat)
    requires UncountedFiles(t)
    ensures var u := MoveDownAll(t, list, now).0;
      UncountedFiles(u) && u.promotions == t.promotions && u.promotionThreshold == t.promotionThreshold
    decreases |list|
  {
    if list == [] {
    } else {
      MoveDownAllPromotesNothing(t, list[..|list| - 1], now);
    }
  }

  lemma StepPromotesNothing<V>(t: Tiered<V>, op: Op<V>)
    requires UncountedFiles(t) && t.promotionThreshold > 1 && !op.OpPromote?
    ensures var u := Step(t, op).0;
      UncountedFiles(u) && u.promotions == t.promotions && u.promotionThreshold == t.promotionThreshold
  {
    if op.OpDemoteCold? { MoveDownAllPromotesNothing(t, op.keys, op.now); }
  }

  lemma {:induction false} RunPromotesNothing<V>(t: Tiered<V>, ops: seq<Op<V>>)
    requires UncountedFiles(t) && t.promotionThreshold > 1
    requires NoneByHand(ops)
    ensures Run(t, ops).promotions == t.promotions
    decreases |ops|
  {
    if ops == [] {
    } else {
      StepPromotesNothing(t, ops[0]);
      RunPromotesNothing(Step(t, ops[0]).0, ops[1..]);
    }
  }

  lemma LowThresholdPromotes<V>(threshold: nat, key: Key, v: V) returns (ops: seq<Op<V>>)
    requires threshold <= 1
    ensures NoneByHand(ops) && Run(Fresh(1, threshold, 0), ops).promotions > 0
  {
    var t := Fresh<V>(1, threshold, 0);
    ops := [OpSet(key, v, None, 0), OpDemote(key, 0), OpGet(key, 0)];
    var t1 := Step(t, ops[0]).0;
    var t2 := Step(t1, ops[1]).0;
    assert key !in t2.l1.entries;
    assert t2.l2.value[FileName(key)].accessCount == 0 && t2.l2.value[FileName(key)].ttl == None;
    var t3 := Step(t2, ops[2]).0;
    assert t3.promotions == 1;
    assert ops[1..][0] == ops[1] && ops[1..][1..] == ops[2..] && ops[2..][0] == ops[2] && ops[2..][1..] == [];
    assert Run(t, ops) == Run(t1, ops[1..]) == Run(t2, ops[2..]) == Run(t3, []) == t3;
  }

  /**
   Reads are never written back to a file's access count, so frequent use brings an item up
   to L1 exactly when the promotion threshold is 0 or 1: with any higher one no run ever does.
   */
  lemma UsePromotesExactly<V(!new)>(threshold: nat, key: Key, v: V)
    ensures threshold <= 1 <==>
      exists n: nat, d: nat, ops: seq<Op<V>> ::
        NoneByHand(ops) && Run(Fresh(n, threshold, d), ops).promotions > 0
  {
    if threshold <= 1 {
      var ops := LowThresholdPromotes(threshold, key, v);
    } else {
      forall n: nat, d: nat, ops: seq<Op<V>> | NoneByHand(ops)
        ensures Run(Fresh(n, threshold, d), ops).promotions == 0
      {
        RunPromotesNothing(Fresh(n, threshold, d), ops);
      }
    }
  }
}
