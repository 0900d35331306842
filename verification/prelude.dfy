/** Small facts about options, sequences and saturating subtraction shared by the models. */
module Prelude {

  datatype Option<+T> = None | Some(value: T)

  function Min(a: int, b: int): int {
    if a <= b then a else b
  }

  function Max(a: int, b: int): int {
    if a <= b then b else a
  }

  /** Rust's `saturating_sub` on unsigned integers. */
  function SatSub(a: nat, b: nat): nat {
    if a <= b then 0 else a - b
  }

  // ── Duplicate-free sequences and `Vec::retain` ─────────────────────

  ghost predicate NoDup<T>(s: seq<T>) {
    forall i, j :: 0 <= i < j < |s| ==> s[i] != s[j]
  }

  /** `vec.retain(|y| y != x)`. */
  function Without<T(==)>(s: seq<T>, x: T): seq<T> {
    if s == [] then []
    else if s[0] == x then Without(s[1..], x)
    else [s[0]] + Without(s[1..], x)
  }

  lemma {:induction false} WithoutMembers<T(!new)>(s: seq<T>, x: T)
    ensures forall y :: y in Without(s, x) <==> y in s && y != x
    ensures x !in s ==> Without(s, x) == s
  {
    if s == [] {
    } else {
      WithoutMembers(s[1..], x);
      assert s == [s[0]] + s[1..];
    }
  }

  lemma {:induction false} WithoutConcat<T(!new)>(a: seq<T>, b: seq<T>, x: T)
    ensures Without(a + b, x) == Without(a, x) + Without(b, x)
  {
    if a == [] {
      assert a + b == b;
    } else {
      WithoutConcat(a[1..], b, x);
      assert (a + b)[1..] == a[1..] + b;
    }
  }

  /** Removing an element keeps a list duplicate-free and shortens it by exactly one. */
  lemma {:induction false} WithoutNoDup<T(!new)>(s: seq<T>, x: T)
    requires NoDup(s)
    ensures NoDup(Without(s, x))
    ensures x in s ==> |Without(s, x)| == |s| - 1
  {
    if s == [] {
    } else {
      WithoutNoDup(s[1..], x);
      WithoutMembers(s[1..], x);
      assert s[0] !in s[1..];
    }
  }

  /** Removing the head of a duplicate-free list is dropping it. */
  lemma {:induction false} WithoutHead<T(!new)>(s: seq<T>)
    requires NoDup(s) && s != []
    ensures Without(s, s[0]) == s[1..]
  {
    assert s[0] !in s[1..];
    WithoutMembers(s[1..], s[0]);
  }

  /** Distinct elements: the list is as long as its set of elements is large. */
  lemma {:induction false} NoDupCardinality<T>(s: seq<T>)
    requires NoDup(s)
    ensures |set x | x in s| == |s|
  {
    if s == [] {
      assert (set x | x in s) == {};
    } else {
      NoDupCardinality(s[1..]);
      assert s[0] !in s[1..];
      assert (set x | x in s) == {s[0]} + (set x | x in s[1..]);
    }
  }

  // ── Recency lists: the front is the least recently touched key ─────

  /** `order.retain(|k| k != key); order.push(key)`. */
  function Touch<T(==)>(order: seq<T>, key: T): seq<T> {
    Without(order, key) + [key]
  }

  lemma TouchFacts<T(!new)>(order: seq<T>, key: T)
    requires NoDup(order)
    ensures NoDup(Touch(order, key))
    ensures |Touch(order, key)| == if key in order then |order| else |order| + 1
    ensures forall y :: y in Touch(order, key) <==> y in order || y == key
  {
    WithoutNoDup(order, key);
    WithoutMembers(order, key);
  }

  // ── Order-preserving subsequences ──────────────────────────────────

  ghost predicate Subseq<T>(a: seq<T>, b: seq<T>) {
    a == [] || (b != [] && (if a[0] == b[0] then Subseq(a[1..], b[1..]) else Subseq(a, b[1..])))
  }

  lemma {:induction false} SubseqMembers<T>(a: seq<T>, b: seq<T>)
    requires Subseq(a, b)
    ensures forall x :: x in a ==> x in b
  {
    if a == [] {
    } else {
      if a[0] == b[0] { SubseqMembers(a[1..], b[1..]); } else { SubseqMembers(a, b[1..]); }
      forall x | x in a ensures x in b {
        if a[0] == b[0] && x != a[0] { assert x in a[1..]; }
      }
    }
  }

  lemma {:induction false} SubseqRefl<T>(a: seq<T>)
    ensures Subseq(a, a)
  {
    if a == [] {
    } else {
      SubseqRefl(a[1..]);
    }
  }

  /** Dropping the head of the smaller list, or adding one to the larger, keeps the relation. */
  lemma {:induction false} SubseqTail<T>(a: seq<T>, b: seq<T>)
    requires Subseq(a, b) && a != []
    ensures Subseq(a[1..], b)
    decreases |b|, 0
  {
    if a[0] != b[0] { SubseqTail(a, b[1..]); }
    SubseqCons(a[1..], b[1..], b[0]);
    assert [b[0]] + b[1..] == b;
  }

  lemma {:induction false} SubseqCons<T>(a: seq<T>, b: seq<T>, x: T)
    requires Subseq(a, b)
    ensures Subseq(a, [x] + b)
    decreases |b|, 1
  {
    assert ([x] + b)[1..] == b;
    if a != [] && a[0] == x { SubseqTail(a, b); }
  }

  /** A common suffix can be appended to both. */
  lemma {:induction false} SubseqSnoc<T>(a: seq<T>, b: seq<T>, x: T)
    requires Subseq(a, b)
    ensures Subseq(a + [x], b + [x])
    decreases |b|
  {
    if a == [] {
      assert a + [x] == [x];
      SubseqLast(b, x);
    } else {
      assert (a + [x])[1..] == a[1..] + [x] && (b + [x])[1..] == b[1..] + [x];
      if a[0] == b[0] { SubseqSnoc(a[1..], b[1..], x); } else { SubseqSnoc(a, b[1..], x); }
    }
  }

  lemma {:induction false} SubseqLast<T>(b: seq<T>, x: T)
    ensures Subseq([x], b + [x])
  {
    if b != [] && b[0] != x {
      SubseqLast(b[1..], x);
      assert (b + [x])[1..] == b[1..] + [x];
    }
  }

  lemma {:induction false} SubseqExtend<T>(a: seq<T>, b: seq<T>, x: T)
    requires Subseq(a, b)
    ensures Subseq(a, b + [x])
  {
    if a == [] {
    } else {
      assert (b + [x])[1..] == b[1..] + [x];
      if a[0] == b[0] { SubseqExtend(a[1..], b[1..], x); } else { SubseqExtend(a, b[1..], x); }
    }
  }

  /** A common first element can be put in front of both. */
  lemma {:induction false} SubseqCommonHead<T>(a: seq<T>, b: seq<T>, x: T)
    requires Subseq(a, b)
    ensures Subseq([x] + a, [x] + b)
  {
    assert ([x] + a)[1..] == a && ([x] + b)[1..] == b;
  }

  /** Deleting one and the same value from both lists keeps the relation. */
  lemma {:induction false} SubseqWithout<T(!new)>(a: seq<T>, b: seq<T>, x: T)
    requires Subseq(a, b)
    ensures Subseq(Without(a, x), Without(b, x))
    decreases |b|
  {
    if a == [] {
      assert Without(a, x) == [];
    } else if a[0] == b[0] {
      SubseqWithout(a[1..], b[1..], x);
      if a[0] != x {
        SubseqCommonHead(Without(a[1..], x), Without(b[1..], x), a[0]);
      }
    } else {
      SubseqWithout(a, b[1..], x);
      if b[0] != x {
        SubseqCons(Without(a, x), Without(b[1..], x), b[0]);
      }
    }
  }

  /** The element at an inner position can be dropped from the smaller list. */
  lemma {:induction false} SubseqOmit<T>(a: seq<T>, m: T, c: seq<T>, b: seq<T>)
    requires Subseq(a + [m] + c, b)
    ensures Subseq(a + c, b)
    decreases |b|
  {
    var s := a + [m] + c;
    if a == [] {
      assert s[1..] == c && a + c == c;
      SubseqTail(s, b);
    } else {
      assert s[0] == a[0] && s[1..] == a[1..] + [m] + c;
      assert (a + c)[0] == a[0] && (a + c)[1..] == a[1..] + c;
      if a[0] == b[0] { SubseqOmit(a[1..], m, c, b[1..]); } else { SubseqOmit(a, m, c, b[1..]); }
    }
  }
}
