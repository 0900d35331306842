/** Matching a context key against a pattern with `*` (any bytes) and `?` (one byte). */
module Glob {

  newtype Byte = x: int | 0 <= x < 256

  type Bytes = seq<Byte>

  const STAR: Byte := 42

  const QUESTION: Byte := 63

  /** `match_recursive`: the code's own case analysis on the two first bytes. */
  predicate Matches(key: Bytes, pattern: Bytes)
    decreases |key| + |pattern|
  {
    if pattern == [] then key == []
    else if pattern[0] == STAR then
      Matches(key, pattern[1..]) || (key != [] && Matches(key[1..], pattern))
    else
      key != [] && (pattern[0] == QUESTION || pattern[0] == key[0]) && Matches(key[1..], pattern[1..])
  }

  // ── What a pattern means ───────────────────────────────────────────

  /** The pieces one pattern symbol stands for. */
  predicate Fits(piece: Bytes, symbol: Byte) {
    symbol == STAR || (|piece| == 1 && (symbol == QUESTION || piece[0] == symbol))
  }

  function Join(pieces: seq<Bytes>): Bytes {
    if pieces == [] then [] else pieces[0] + Join(pieces[1..])
  }

  /** `pieces` cuts `key` into one piece for each symbol of the pattern, each fitting its symbol. */
  ghost predicate Cuts(pieces: seq<Bytes>, key: Bytes, pattern: Bytes) {
    && |pieces| == |pattern|
    && Join(pieces) == key
    && forall i :: 0 <= i < |pattern| ==> Fits(pieces[i], pattern[i])
  }

  lemma {:induction false} MatchGivesPieces(key: Bytes, pattern: Bytes) returns (pieces: seq<Bytes>)
    requires Matches(key, pattern)
    ensures Cuts(pieces, key, pattern)
    decreases |key| + |pattern|
  {
    if pattern == [] {
      pieces := [];
    } else if pattern[0] == STAR && !Matches(key, pattern[1..]) {
      var rest := MatchGivesPieces(key[1..], pattern);
      pieces := [[key[0]] + rest[0]] + rest[1..];
      assert Join(pieces) == [key[0]] + Join(rest);
    } else {
      var n := if pattern[0] == STAR then 0 else 1;
      var rest := MatchGivesPieces(key[n..], pattern[1..]);
      pieces := [key[..n]] + rest;
      assert Join(pieces) == key[..n] + Join(rest);
    }
  }

  lemma {:induction false} PiecesGiveMatch(pieces: seq<Bytes>, key: Bytes, pattern: Bytes)
    requires Cuts(pieces, key, pattern)
    ensures Matches(key, pattern)
    decreases |pattern|, |key|
  {
    if pattern == [] {
    } else {
      var head, rest := pieces[0], key[|pieces[0]|..];
      assert key == head + Join(pieces[1..]);
      assert Cuts(pieces[1..], rest, pattern[1..]);
      PiecesGiveMatch(pieces[1..], rest, pattern[1..]);
      if pattern[0] == STAR { StarAbsorbs(head, rest, pattern); }
      assert head + rest == key;
    }
  }

  lemma {:induction false} StarAbsorbs(head: Bytes, rest: Bytes, pattern: Bytes)
    requires pattern != [] && pattern[0] == STAR && Matches(rest, pattern[1..])
    ensures Matches(head + rest, pattern)
  {
    if head == [] {
      assert head + rest == rest;
    } else {
      StarAbsorbs(head[1..], rest, pattern);
      assert (head + rest)[1..] == head[1..] + rest;
    }
  }

  /** A key matches exactly when it can be cut into pieces fitting the pattern symbol by symbol. */
  lemma {:induction false} MatchesMeaning(key: Bytes, pattern: Bytes)
    ensures Matches(key, pattern) <==> exists pieces :: Cuts(pieces, key, pattern)
  {
    if Matches(key, pattern) {
      var pieces := MatchGivesPieces(key, pattern);
    } else {
      forall pieces | Cuts(pieces, key, pattern) ensures false { PiecesGiveMatch(pieces, key, pattern); }
    }
  }

  lemma {:induction false} JoinCons(piece: Bytes, rest: seq<Bytes>)
    ensures Join([piece] + rest) == piece + Join(rest)
  {
    assert ([piece] + rest)[1..] == rest;
  }

  lemma Associative(x: Bytes, y: Bytes, z: Bytes)
    ensures x + (y + z) == (x + y) + z
  {
  }

  lemma {:induction false} JoinConcat(a: seq<Bytes>, b: seq<Bytes>)
    ensures Join(a + b) == Join(a) + Join(b)
  {
    hide Join;
    if a == [] {
      JoinNothing();
      assert a + b == b;
    } else {
      var piece, rest := a[0], a[1..];
      assert a == [piece] + rest && a + b == [piece] + (rest + b);
      JoinConcat(rest, b);
      JoinCons(piece, rest);
      JoinCons(piece, rest + b);
      Associative(piece, Join(rest), Join(b));
    }
  }

  lemma JoinNothing()
    ensures Join([]) == []
  {
  }

  lemma SplitMatch(key: Bytes, p: Bytes, q: Bytes) returns (n: nat)
    requires Matches(key, p + q)
    ensures n <= |key| && Matches(key[..n], p) && Matches(key[n..], q)
  {
    var pieces := MatchGivesPieces(key, p + q);
    var a, b := pieces[..|p|], pieces[|p|..];
    assert pieces == a + b;
    JoinConcat(a, b);
    n := |Join(a)|;
    assert key[..n] == Join(a) && key[n..] == Join(b);
    forall i | 0 <= i < |q| ensures Fits(b[i], q[i]) {
      assert b[i] == pieces[|p| + i] && (p + q)[|p| + i] == q[i];
    }
    PiecesGiveMatch(a, key[..n], p);
    PiecesGiveMatch(b, key[n..], q);
  }

  lemma {:induction false} JoinMatch(left: Bytes, right: Bytes, p: Bytes, q: Bytes)
    requires Matches(left, p) && Matches(right, q)
    ensures Matches(left + right, p + q)
  {
    var a := MatchGivesPieces(left, p);
    var b := MatchGivesPieces(right, q);
    JoinConcat(a, b);
    PiecesGiveMatch(a + b, left + right, p + q);
  }

  /** Matching a concatenated pattern is matching the two halves on some split of the key. */
  lemma {:induction false} MatchesConcat(key: Bytes, p: Bytes, q: Bytes)
    ensures Matches(key, p + q) <==>
      exists n :: 0 <= n <= |key| && Matches(key[..n], p) && Matches(key[n..], q)
  {
    if Matches(key, p + q) {
      var n := SplitMatch(key, p, q);
    }
    forall n | 0 <= n <= |key| && Matches(key[..n], p) && Matches(key[n..], q) ensures Matches(key, p + q) {
      JoinMatch(key[..n], key[n..], p, q);
      assert key == key[..n] + key[n..];
    }
  }

  /** `*` alone matches everything, so doubling a star anywhere changes nothing. */
  lemma {:induction false} DoubleStar(key: Bytes, p: Bytes, q: Bytes)
    ensures Matches(key, p + [STAR, STAR] + q) <==> Matches(key, p + [STAR] + q)
  {
    assert p + [STAR, STAR] + q == p + ([STAR, STAR] + q) && p + [STAR] + q == p + ([STAR] + q);
    MatchesConcat(key, p, [STAR, STAR] + q);
    MatchesConcat(key, p, [STAR] + q);
    forall k: Bytes ensures Matches(k, [STAR, STAR] + q) <==> Matches(k, [STAR] + q) { StarStar(k, q); }
  }

  lemma {:induction false} StarStar(key: Bytes, q: Bytes)
    ensures Matches(key, [STAR, STAR] + q) <==> Matches(key, [STAR] + q)
    decreases |key|
  {
    assert ([STAR, STAR] + q)[1..] == [STAR] + q;
    if key == [] {
    } else {
      StarStar(key[1..], q);
    }
  }

  /** A pattern without wildcards matches only itself. */
  lemma {:induction false} LiteralMatchesItself(key: Bytes, pattern: Bytes)
    requires STAR !in pattern && QUESTION !in pattern
    ensures Matches(key, pattern) <==> key == pattern
  {
    if pattern != [] && key != [] {
      LiteralMatchesItself(key[1..], pattern[1..]);
      assert key == [key[0]] + key[1..] && pattern == [pattern[0]] + pattern[1..];
    }
  }
}
