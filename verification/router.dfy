/** The index arithmetic under the selection strategies. */
module Router {
  import opened Prelude
  import opened StableHashing

  function RoundRobinIndex(last: Option<nat>, len: nat): (r: Option<nat>)
    ensures r.Some? <==> len > 0
    ensures r.Some? ==> r.value < len
  {
    if len == 0 then None
    else Some(if last.Some? then (last.value + 1) % len else 0)
  }

  function HashingIndex(key: Bytes, len: nat): (r: Option<nat>)
    ensures r.Some? <==> len > 0
    ensures r.Some? ==> r.value < len
  {
    if len == 0 then None else Some(StableHash(key) % len)
  }

  lemma HashingIndexMeans(key: Bytes, len: nat) returns (q: nat, i: nat)
    requires len > 0
    ensures i < len && Fnv1a(key) == q * len + i && HashingIndex(key, len) == Some(i)
  {
    StableHashIsFnv1a(key);
    hide StableHash;
    hide Fnv1a;
    q, i := StableHash(key) / len, StableHash(key) % len;
  }

  // ── Walking round a ring of `len` slots ────────────────────────────

  /** The first `k` indices handed out from cursor `last`. */
  function Walk(last: Option<nat>, len: nat, k: nat): (r: seq<nat>)
    requires len > 0
    ensures |r| == k && forall i :: 0 <= i < k ==> r[i] < len
    decreases k
  {
    if k == 0 then []
    else
      var next := RoundRobinIndex(last, len);
      [next.value] + Walk(next, len, k - 1)
  }

  function CursorAfter(last: Option<nat>, len: nat, k: nat): Option<nat>
    requires len > 0
    decreases k
  {
    if k == 0 then last else CursorAfter(RoundRobinIndex(last, len), len, k - 1)
  }

  lemma {:induction false} WalkSplit(last: Option<nat>, len: nat, j: nat, k: nat)
    requires len > 0
    ensures Walk(last, len, j + k) == Walk(last, len, j) + Walk(CursorAfter(last, len, j), len, k)
    decreases j
  {
    if j == 0 {
    } else {
      WalkSplit(RoundRobinIndex(last, len), len, j - 1, k);
    }
  }

  lemma NextInRing(i: nat, len: nat)
    requires i < len
    ensures (i + 1) % len == if i + 1 < len then i + 1 else 0
  {
  }

  /** From a cursor inside the ring the walk counts up, wrapping at the end. */
  lemma {:induction false} WalkFrom(last: nat, len: nat, k: nat, i: nat)
    requires last < len && i < k <= len
    ensures Walk(Some(last), len, k)[i] == if last + 1 + i < len then last + 1 + i else last + 1 + i - len
    decreases k
  {
    NextInRing(last, len);
    if i == 0 {
    } else {
      WalkFrom(RoundRobinIndex(Some(last), len).value, len, k - 1, i - 1);
    }
  }

  lemma {:induction false} WalkFromAny(last: Option<nat>, len: nat, i: nat)
    requires i < len
    ensures var s := RoundRobinIndex(last, len).value;
      Walk(last, len, len)[i] == if s + i < len then s + i else s + i - len
  {
    if i > 0 { WalkFrom(RoundRobinIndex(last, len).value, len, len - 1, i - 1); }
  }

  function Visits<T>(last: Option<nat>, ring: seq<T>, k: nat): seq<T>
    requires ring != []
  {
    seq(k, i requires 0 <= i < k => ring[Walk(last, |ring|, k)[i]])
  }

  /** One full turn from any cursor visits every slot exactly once. */
  lemma FullTurnVisitsAll<T>(last: Option<nat>, ring: seq<T>)
    requires ring != []
    ensures multiset(Visits(last, ring, |ring|)) == multiset(ring)
  {
    var s := RoundRobinIndex(last, |ring|).value;
    forall i | 0 <= i < |ring| ensures Visits(last, ring, |ring|)[i] == (ring[s..] + ring[..s])[i] {
      WalkFromAny(last, |ring|, i);
    }
    assert Visits(last, ring, |ring|) == ring[s..] + ring[..s];
    assert ring == ring[..s] + ring[s..];
  }

  /** Without a cursor the first turn takes the slots in their order. */
  lemma FirstTurnInOrder<T>(ring: seq<T>)
    requires ring != []
    ensures Visits(None, ring, |ring|) == ring
  {
    forall i | 0 <= i < |ring| ensures Visits(None, ring, |ring|)[i] == ring[i] {
      WalkFromAny(None, |ring|, i);
    }
  }

  lemma VisitsSplit<T>(last: Option<nat>, ring: seq<T>, j: nat, k: nat)
    requires ring != []
    ensures Visits(last, ring, j + k) == Visits(last, ring, j) + Visits(CursorAfter(last, |ring|, j), ring, k)
  {
    WalkSplit(last, |ring|, j, k);
  }

  /** `n` added up `turns` times. */
  function Repeated(n: nat, turns: nat): nat {
    if turns == 0 then 0 else n + Repeated(n, turns - 1)
  }

  lemma {:induction false} RepeatedIsTimes(n: nat, turns: nat)
    ensures Repeated(n, turns) == turns * n
  {
    if turns == 0 {
    } else {
      RepeatedIsTimes(n, turns - 1);
      assert turns * n == (turns - 1) * n + n;
    }
  }

  lemma {:induction false} TurnsVisitRepeatedly<T>(last: Option<nat>, ring: seq<T>, turns: nat, x: T)
    requires ring != []
    ensures multiset(Visits(last, ring, Repeated(|ring|, turns)))[x] == Repeated(multiset(ring)[x], turns)
    decreases turns
  {
    if turns == 0 {
    } else {
      var n, rest := |ring|, Repeated(|ring|, turns - 1);
      var after := CursorAfter(last, n, n);
      VisitsSplit(last, ring, n, rest);
      FullTurnVisitsAll(last, ring);
      TurnsVisitRepeatedly(after, ring, turns - 1, x);
      assert Visits(last, ring, n + rest) == Visits(last, ring, n) + Visits(after, ring, rest);
    }
  }

  lemma TurnsVisitEvenly<T>(last: Option<nat>, ring: seq<T>, turns: nat, x: T)
    requires ring != []
    ensures multiset(Visits(last, ring, turns * |ring|))[x] == turns * multiset(ring)[x]
  {
    TurnsVisitRepeatedly(last, ring, turns, x);
    RepeatedIsTimes(|ring|, turns);
    RepeatedIsTimes(multiset(ring)[x], turns);
  }

  lemma PartTurn<T>(last: Option<nat>, ring: seq<T>, rest: nat, x: T)
    requires ring != [] && rest <= |ring|
    ensures multiset(Visits(last, ring, rest))[x] <= multiset(ring)[x]
  {
    VisitsSplit(last, ring, rest, |ring| - rest);
    FullTurnVisitsAll(last, ring);
  }

  /** After any number of full turns and part of one more, a slot value has come up its share of times per turn, and at most one share more. */
  lemma VisitsAreShared<T>(last: Option<nat>, ring: seq<T>, turns: nat, rest: nat, x: T)
    requires ring != [] && rest <= |ring|
    ensures var share, visited := multiset(ring)[x], multiset(Visits(last, ring, turns * |ring| + rest))[x];
      turns * share <= visited <= turns * share + share
  {
    VisitsSplit(last, ring, turns * |ring|, rest);
    TurnsVisitEvenly(last, ring, turns, x);
    PartTurn(CursorAfter(last, |ring|, turns * |ring|), ring, rest, x);
  }
}
