/** FNV-1a over 64-bit words, the hash under the hashing strategy. Words are integers and wrap around explicitly. */
module StableHashing {

  type Byte = b: int | 0 <= b < 256

  type Bytes = seq<Byte>

  /** An unsigned 64-bit word. */
  type Word = h: int | 0 <= h < 0x1_0000_0000_0000_0000

  const FNV_OFFSET_BASIS: Word := 0xcbf2_9ce4_8422_2325

  const FNV_PRIME: Word := 0x100_0000_01b3

  /** Exclusive or, bit by bit from the lowest. */
  function Xor(a: nat, b: nat): nat {
    if a == 0 && b == 0 then 0 else 2 * Xor(a / 2, b / 2) + (a + b) % 2
  }

  function WrappingMul(a: Word, b: Word): Word {
    (a * b) % 0x1_0000_0000_0000_0000
  }

  /** One FNV-1a round: xor the byte in, multiply with wrap-around. */
  function Mix(hash: Word, byte: Byte): Word {
    XorStaysWord(hash, byte);
    WrappingMul(Xor(hash, byte), FNV_PRIME)
  }

  function HashFrom(hash: Word, input: Bytes): Word
    decreases |input|
  {
    if input == [] then hash else HashFrom(Mix(hash, input[0]), input[1..])
  }

  function StableHash(input: Bytes): Word {
    HashFrom(FNV_OFFSET_BASIS, input)
  }

  method ComputeStableHash(input: Bytes) returns (hash: Word)
    ensures hash == StableHash(input) == Fnv1a(input)
  {
    StableHashIsFnv1a(input);
    hash := FNV_OFFSET_BASIS;
    for i := 0 to |input|
      invariant HashFrom(hash, input[i..]) == StableHash(input)
    {
      assert input[i..][1..] == input[i + 1..];
      hash := Mix(hash, input[i]);
    }
  }

  // ── The hash ───────────────────────────────────────────────────────

  function Pow2(k: nat): nat {
    if k == 0 then 1 else 2 * Pow2(k - 1)
  }

  function Bit(n: nat, i: nat): nat {
    if i == 0 then n % 2 else Bit(n / 2, i - 1)
  }

  /** A bit is set in the exclusive or exactly when it is set in one of the two. */
  lemma {:induction false} XorBits(a: nat, b: nat, i: nat)
    ensures Bit(Xor(a, b), i) == 1 <==> Bit(a, i) != Bit(b, i)
    decreases i
  {
    assert Xor(a, b) / 2 == Xor(a / 2, b / 2);
    if i == 0 {
    } else {
      XorBits(a / 2, b / 2, i - 1);
    }
  }

  lemma {:induction false} XorFits(a: nat, b: nat, k: nat)
    requires a < Pow2(k) && b < Pow2(k)
    ensures Xor(a, b) < Pow2(k)
  {
    if k == 0 {
    } else {
      XorFits(a / 2, b / 2, k - 1);
    }
  }

  lemma {:induction false} Pow2Adds(j: nat, k: nat)
    ensures Pow2(j + k) == Pow2(j) * Pow2(k)
  {
    if j == 0 {
    } else {
      Pow2Adds(j - 1, k);
    }
  }

  lemma Pow2Of8()
    ensures Pow2(8) == 256
  {
    assert Pow2(2) == 4;
    Pow2Adds(2, 2);
    Pow2Adds(4, 4);
  }

  lemma Pow2Of64()
    ensures Pow2(64) == 0x1_0000_0000_0000_0000
  {
    Pow2Of8();
    hide Pow2;
    Pow2Adds(8, 8);
    Pow2Adds(16, 16);
    Pow2Adds(32, 32);
  }

  lemma {:induction false} XorStaysWord(a: Word, b: Byte)
    ensures Xor(a, b) < 0x1_0000_0000_0000_0000
  {
    hide Xor;
    Pow2Of64();
    hide Pow2;
    XorFits(a, b, 64);
  }

  /** FNV-1a over 64 bits, as it is defined: from the last byte inwards, in integers. */
  function Fnv1a(input: Bytes): (h: nat)
    decreases |input|
  {
    if input == [] then 14695981039346656037
    else (Xor(Fnv1a(input[..|input| - 1]), input[|input| - 1]) * 1099511628211) % 18446744073709551616
  }

  lemma {:induction false} HashFromSnoc(hash: Word, input: Bytes, byte: Byte)
    ensures HashFrom(hash, input + [byte]) == Mix(HashFrom(hash, input), byte)
    decreases |input|
  {
    hide Mix;
    if input == [] {
      assert HashFrom(hash, [byte]) == HashFrom(Mix(hash, byte), [byte][1..]);
    } else {
      HashFromSnoc(Mix(hash, input[0]), input[1..], byte);
      assert (input + [byte])[1..] == input[1..] + [byte];
    }
  }

  lemma {:induction false} StableHashIsFnv1a(input: Bytes)
    ensures StableHash(input) == Fnv1a(input)
    decreases |input|
  {
    if input == [] {
    } else {
      var front, last := input[..|input| - 1], input[|input| - 1];
      StableHashIsFnv1a(front);
      assert input == front + [last];
      HashFromSnoc(FNV_OFFSET_BASIS, front, last);
    }
  }

  lemma XorStep(h: nat, x: nat, g: nat, y: nat)
    requires x < 2 && y < 2
    ensures Xor(2 * h + x, 2 * g + y) == 2 * Xor(h, g) + (x + y) % 2
  {
    assert (2 * h + x) / 2 == h && (2 * g + y) / 2 == g;
  }

  /** The lowest `k` bits. */
  function Low(n: nat, k: nat): nat {
    if k == 0 then 0 else 2 * Low(n / 2, k - 1) + n % 2
  }

  /** A word of `k` bits leaves the bits above as they are. */
  lemma {:induction false} XorLow(a: nat, b: nat, k: nat)
    requires Low(b, k) == b
    ensures Low(a, k) <= a
    ensures Xor(a, b) == a - Low(a, k) + Xor(Low(a, k), b)
  {
    hide Xor;
    if k == 0 {
      XorNothing(a);
      XorNothing(0);
    } else {
      XorLow(a / 2, b / 2, k - 1);
      XorStep(a / 2, a % 2, b / 2, b % 2);
      XorStep(Low(a / 2, k - 1), a % 2, b / 2, b % 2);
    }
  }

  lemma {:induction false} XorNothing(a: nat)
    ensures Xor(a, 0) == a
  {
    if a == 0 {
    } else {
      XorNothing(a / 2);
    }
  }

  lemma XorOfBasis()
    ensures Xor(0xcbf2_9ce4_8422_2325, 0x61) == 0xcbf2_9ce4_8422_2344 && Xor(0xcbf2_9ce4_8422_2325, 0x62) == 0xcbf2_9ce4_8422_2347
  {
    LowByte(0xcb_f29c_e484_2223, 0x25);
    LowByte(0, 0x61);
    LowByte(0, 0x62);
    XorLow(0xcbf2_9ce4_8422_2325, 0x61, 8);
    XorLow(0xcbf2_9ce4_8422_2325, 0x62, 8);
    SmallXors();
    hide Low;
    hide Xor;
  }

  lemma SmallXors()
    ensures Xor(0x25, 0x61) == 0x44 && Xor(0x25, 0x62) == 0x47
  {
    hide Xor;
    XorNothing(0);
    XorStep(0, 0, 0, 1);
    XorStep(0, 1, 1, 1);
    XorStep(1, 0, 3, 0);
    XorStep(2, 0, 6, 0);
    XorStep(4, 1, 12, 0);
    XorStep(9, 0, 24, 0);
    XorStep(9, 0, 24, 1);
    XorStep(18, 1, 48, 1);
    XorStep(18, 1, 49, 0);
  }

  lemma {:induction false} LowOf(high: nat, low: nat, k: nat, p: nat)
    requires p == Pow2(k) && low < p
    ensures Low(high * p + low, k) == low
    decreases k
  {
    if k == 0 {
    } else {
      var half := p / 2;
      assert high * p == 2 * (high * half);
      assert (high * p + low) / 2 == high * half + low / 2 && (high * p + low) % 2 == low % 2;
      LowOf(high, low / 2, k - 1, half);
    }
  }

  lemma LowByte(high: nat, low: nat)
    requires low < 256
    ensures Low(high * 256 + low, 8) == low
  {
    Pow2Of8();
    hide Pow2;
    LowOf(high, low, 8, 256);
  }

  /** The published values for one byte: `a` hashes to an even word, `b` to an odd one. */
  lemma OneByteHashes()
    ensures StableHash([0x61]) == 0xaf63_dc4c_8601_ec8c && StableHash([0x62]) == 0xaf63_df4c_8601_f1a5
  {
    XorOfBasis();
    hide Xor;
    StableHashIsFnv1a([0x61]);
    StableHashIsFnv1a([0x62]);
    assert Fnv1a([0x61][..0]) == Fnv1a([0x62][..0]) == 0xcbf2_9ce4_8422_2325;
  }
}
