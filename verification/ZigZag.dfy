/**
 The shift-and-xor ZigZag mapping of signed integers, on two's complement bit patterns.
 */
module ZigZag {
  function Pow2(k: nat): (p: int)
    ensures p >= 1
  {
    if k == 0 then 1 else 2 * Pow2(k - 1)
  }

  /** Bitwise exclusive or. */
  function Xor(a: nat, b: nat): nat
    decreases a + b
  {
    if a == 0 && b == 0 then 0 else (a % 2 + b % 2) % 2 + 2 * Xor(a / 2, b / 2)
  }

  predicate Fits(n: int, bits: nat)
    requires bits >= 1
  {
    -Pow2(bits - 1) <= n < Pow2(bits - 1)
  }

  /** The two's complement pattern of a number: its low `bits` bits. */
  function Pattern(n: int, bits: nat): (p: nat)
    ensures p < Pow2(bits)
  {
    n % Pow2(bits)
  }

  /** The signed number with a given pattern. */
  function FromPattern(p: nat, bits: nat): int
    requires bits >= 1
  {
    if p < Pow2(bits - 1) then p else p - Pow2(bits)
  }

  /** Arithmetic shift right: the sign fills the high bits. */
  function ShiftRight(n: int, k: nat): int {
    n / Pow2(k)
  }

  /** `(n << 1) ^ (n >> (bits - 1))`, read as an unsigned number. */
  function Encode(n: int, bits: nat): nat
    requires bits >= 1
  {
    Xor(Pattern(2 * n, bits), Pattern(ShiftRight(n, bits - 1), bits))
  }

  /** `(v >> 1) ^ -(v & 1)`, read as a signed number. */
  function Decode(v: nat, bits: nat): int
    requires bits >= 1
  {
    FromPattern(Xor(v / 2, Pattern(-(v % 2), bits)), bits)
  }

  lemma {:induction false} XorZero(a: nat)
    ensures Xor(a, 0) == a
  {
    if a != 0 { XorZero(a / 2); }
  }

  /** Exclusive or with all ones is the complement. */
  lemma {:induction false} XorOnes(a: nat, bits: nat)
    requires a < Pow2(bits)
    ensures Xor(a, Pow2(bits) - 1) == Pow2(bits) - 1 - a
  {
    if bits != 0 {
      XorOnes(a / 2, bits - 1);
      assert (Pow2(bits) - 1) / 2 == Pow2(bits - 1) - 1;
    }
  }

  lemma {:induction false} PatternOf(n: int, bits: nat)
    ensures 0 <= n < Pow2(bits) ==> Pattern(n, bits) == n
    ensures -Pow2(bits) <= n < 0 ==> Pattern(n, bits) == n + Pow2(bits)
  {
    var p := Pow2(bits);
    if 0 <= n < p {
      ModUnique(n, p, 0, n);
    } else if -p <= n < 0 {
      ModUnique(n, p, -1, n + p);
    }
  }

  lemma {:induction false} ModUnique(n: int, p: int, q: int, r: nat)
    requires p >= 1 && n == p * q + r && r < p
    ensures n % p == r && n / p == q
  {
    var d := n / p - q;
    assert p * d == r - n % p;
    assert d >= 1 ==> p * d >= p;
    assert d <= -1 ==> p * d <= -p;
  }

  /** What the bit twiddling computes: the non-negative numbers take the even codes, the
      negative ones the odd codes. */
  lemma {:induction false} EncodeMeaning(n: int, bits: nat)
    requires bits >= 1 && Fits(n, bits)
    ensures Encode(n, bits) == if n >= 0 then 2 * n else -2 * n - 1
    ensures Encode(n, bits) < Pow2(bits)
  {
    var p := Pow2(bits);
    PatternOf(2 * n, bits);
    PatternOf(-1, bits);
    PatternOf(0, bits);
    if n >= 0 {
      ModUnique(n, Pow2(bits - 1), 0, n);
      XorZero(2 * n);
    } else {
      ModUnique(n, Pow2(bits - 1), -1, n + Pow2(bits - 1));
      XorOnes(2 * n + p, bits);
    }
  }

  lemma {:induction false} DecodeMeaning(v: nat, bits: nat)
    requires bits >= 1 && v < Pow2(bits)
    ensures Decode(v, bits) == if v % 2 == 0 then v / 2 else -(v / 2) - 1
    ensures Fits(Decode(v, bits), bits)
  {
    PatternOf(0, bits);
    PatternOf(-1, bits);
    if v % 2 == 0 {
      XorZero(v / 2);
    } else {
      XorOnes(v / 2, bits);
    }
  }

  /** ZigZag is a bijection between the signed numbers of a width and its bit patterns, and
      sint decoding is its inverse. */
  lemma {:induction false} Bijection(n: int, v: nat, bits: nat)
    requires bits >= 1
    ensures Fits(n, bits) ==> Encode(n, bits) < Pow2(bits) && Decode(Encode(n, bits), bits) == n
    ensures v < Pow2(bits) ==> Fits(Decode(v, bits), bits) && Encode(Decode(v, bits), bits) == v
  {
    hide Encode, Decode, Fits, Pow2;
    if Fits(n, bits) {
      EncodeMeaning(n, bits);
      DecodeMeaning(Encode(n, bits), bits);
    }
    if v < Pow2(bits) {
      DecodeMeaning(v, bits);
      EncodeMeaning(Decode(v, bits), bits);
    }
  }

  lemma {:induction false} Doubles(bits: nat)
    requires bits >= 1
    ensures Pow2(bits) == 2 * Pow2(bits - 1)
  {
  }

  lemma {:induction false} Powers()
    ensures Pow2(7) == 0x80 && Pow2(8) == 0x100
    ensures Pow2(15) == 0x8000 && Pow2(16) == 0x1_0000
    ensures Pow2(31) == 0x8000_0000 && Pow2(32) == 0x1_0000_0000
    ensures Pow2(63) == 0x8000_0000_0000_0000 && Pow2(64) == 0x1_0000_0000_0000_0000
  {
    Powers32();
    assert Pow2(40) == 0x100_0000_0000;
    assert Pow2(48) == 0x1_0000_0000_0000;
    assert Pow2(56) == 0x100_0000_0000_0000;
  }

  lemma {:induction false} Powers32()
    ensures Pow2(24) == 0x100_0000 && Pow2(32) == 0x1_0000_0000
  {
    assert Pow2(8) == 0x100;
    assert Pow2(16) == 0x1_0000;
  }
}
