/** FNV-1a, 64 bits, as watermark.c computes it.

    A hash is a natural number below 2^64.  The exclusive-or with one byte only
    touches the low byte, and the product is taken modulo 2^64.  Every step can
    be undone, because exclusive-or is its own inverse and the prime is odd, so
    it has an inverse modulo 2^64. */
module Fnv {
  type Byte = b: int | 0 <= b < 256

  const MODULUS: int := 0x1_0000_0000_0000_0000
  const OFFSET_BASIS: int := 0xcbf29ce484222325
  const PRIME: int := 0x100000001b3
  const PRIME_INVERSE: int := 0xce965057aff6957b

  type Hash = h: int | 0 <= h < MODULUS

  // ---- exclusive-or ----

  /** Exclusive-or of the low `n` bits. */
  function XorBits(x: nat, y: nat, n: nat): nat {
    if n == 0 then 0 else (x + y) % 2 + 2 * XorBits(x / 2, y / 2, n - 1)
  }

  function Power2(n: nat): (p: nat)
    ensures p > 0
  {
    if n == 0 then 1 else 2 * Power2(n - 1)
  }

  /** A number is its parity and its half. */
  lemma LastBit(x: nat, y: nat, rest: nat)
    ensures var v := (x + y) % 2 + 2 * rest; v / 2 == rest && (v + y) % 2 == x % 2
  {
  }

  lemma SameParity(x: nat, a: nat, b: nat, restA: nat, restB: nat)
    requires (x + a) % 2 + 2 * restA == (x + b) % 2 + 2 * restB
    ensures restA == restB && a % 2 == b % 2
  {
  }

  lemma {:induction false} XorBitsTwice(x: nat, y: nat, n: nat)
    requires x < Power2(n)
    ensures XorBits(x, y, n) < Power2(n)
    ensures XorBits(XorBits(x, y, n), y, n) == x
  {
    if n > 0 {
      XorBitsTwice(x / 2, y / 2, n - 1);
      LastBit(x, y, XorBits(x / 2, y / 2, n - 1));
    }
  }

  lemma {:induction false} XorBitsInjective(x: nat, a: nat, b: nat, n: nat)
    requires a < Power2(n) && b < Power2(n)
    requires XorBits(x, a, n) == XorBits(x, b, n)
    ensures a == b
  {
    if n > 0 {
      SameParity(x, a, b, XorBits(x / 2, a / 2, n - 1), XorBits(x / 2, b / 2, n - 1));
      XorBitsInjective(x / 2, a / 2, b / 2, n - 1);
    }
  }

  lemma EightBits()
    ensures Power2(8) == 256
  {
    assert Power2(8) == 16 * Power2(4);
  }

  function XorByte(x: Byte, b: Byte): Byte {
    EightBits();
    XorBitsTwice(x, b, 8);
    XorBits(x, b, 8)
  }

  lemma XorByteTwice(x: Byte, b: Byte)
    ensures XorByte(XorByte(x, b), b) == x
  {
    EightBits();
    XorBitsTwice(x, b, 8);
  }

  lemma XorByteInjective(x: Byte, a: Byte, b: Byte)
    requires XorByte(x, a) == XorByte(x, b)
    ensures a == b
  {
    EightBits();
    XorBitsInjective(x, a, b, 8);
  }

  /** The word with another low byte. */
  function WithLowByte(h: Hash, r: Byte): (w: Hash)
    ensures w / 256 == h / 256 && w % 256 == r
  {
    h - h % 256 + r
  }

  /** `h ^= b` on a 64-bit word. */
  function XorLow(h: Hash, b: Byte): Hash {
    WithLowByte(h, XorByte(h % 256, b))
  }

  lemma XorLowTwice(h: Hash, b: Byte)
    ensures XorLow(XorLow(h, b), b) == h
  {
    XorByteTwice(h % 256, b);
  }

  // ---- exclusive-or of bits ----

  function Number(v: bv8): Byte { v as int }
  function Last(v: bv8): bv8 { v & 1 }
  function Half(v: bv8): bv8 { v >> 1 }
  function Xor(v: bv8, w: bv8): bv8 { v ^ w }

  lemma HalfAndLast(v: bv8)
    ensures Number(v) == Number(Last(v)) + 2 * Number(Half(v))
    ensures Number(Last(v)) < 2
  {
  }

  lemma XorHalf(v: bv8, w: bv8)
    ensures Half(Xor(v, w)) == Xor(Half(v), Half(w))
  {
  }

  lemma XorLast(v: bv8, w: bv8)
    ensures Number(Last(Xor(v, w))) == if Number(Last(v)) == Number(Last(w)) then 0 else 1
  {
  }

  lemma XorZero(v: bv8, w: bv8)
    requires Number(v) < 1 && Number(w) < 1
    ensures Number(Xor(v, w)) == XorBits(Number(v), Number(w), 0)
  {
    assert v == 0 && w == 0;
  }

  lemma HalfOf(x: nat, last: nat, half: nat)
    requires last < 2 && x == last + 2 * half
    ensures x / 2 == half && x % 2 == last
  {
  }

  lemma XorBitsSplit(lastX: nat, lastY: nat, halfX: nat, halfY: nat, n: nat)
    requires n > 0 && lastX < 2 && lastY < 2
    ensures XorBits(lastX + 2 * halfX, lastY + 2 * halfY, n)
         == (if lastX == lastY then 0 else 1) + 2 * XorBits(halfX, halfY, n - 1)
  {
    HalfOf(lastX + 2 * halfX, lastX, halfX);
    HalfOf(lastY + 2 * halfY, lastY, halfY);
    if lastX + lastY < 2 {
      HalfOf(lastX + 2 * halfX + (lastY + 2 * halfY), lastX + lastY, halfX + halfY);
    } else {
      HalfOf(lastX + 2 * halfX + (lastY + 2 * halfY), 0, halfX + halfY + 1);
    }
  }

  lemma HalfBelow(v: bv8, n: nat)
    requires n > 0 && Number(v) < Power2(n)
    ensures Number(Half(v)) < Power2(n - 1)
  {
    hide Number, Half, Last;
    HalfAndLast(v);
  }

  lemma XorFromHalves(v: bv8, w: bv8, n: nat)
    requires n > 0 && XorBits(Number(Half(v)), Number(Half(w)), n - 1) == Number(Xor(Half(v), Half(w)))
    ensures XorBits(Number(v), Number(w), n) == Number(Xor(v, w))
  {
    hide Number, Last, Half, Xor, XorBits;
    XorLast(v, w);
    XorHalf(v, w);
    HalfAndLast(v);
    HalfAndLast(w);
    HalfAndLast(Xor(v, w));
    XorBitsSplit(Number(Last(v)), Number(Last(w)), Number(Half(v)), Number(Half(w)), n);
  }

  lemma {:induction false} XorBitsIsXor(v: bv8, w: bv8, n: nat)
    requires Number(v) < Power2(n) && Number(w) < Power2(n)
    ensures XorBits(Number(v), Number(w), n) == Number(Xor(v, w))
    decreases n
  {
    hide Number, Half, Xor, XorBits;
    if n == 0 {
      XorZero(v, w);
    } else {
      HalfBelow(v, n);
      HalfBelow(w, n);
      XorBitsIsXor(Half(v), Half(w), n - 1);
      XorFromHalves(v, w, n);
    }
  }

  /** On bytes the arithmetic is the exclusive-or of eight bits. */
  lemma XorByteIsXor(v: bv8, w: bv8)
    ensures XorByte(v as int, w as int) == (v ^ w) as int
  {
    EightBits();
    XorBitsIsXor(v, w, 8);
  }

  // ---- the product ----

  function Times(h: Hash, factor: int): Hash {
    (h * factor) % MODULUS
  }

  lemma Reduce(x: int, q: int, r: Hash)
    requires x == r + MODULUS * q
    ensures x % MODULUS == r
  {
  }

  /** PRIME * PRIME_INVERSE is one more than 887285111055 times the modulus. */
  lemma TimesPrimeInverse(h: Hash)
    ensures Times(Times(h, PRIME), PRIME_INVERSE) == h
    ensures Times(Times(h, PRIME_INVERSE), PRIME) == h
  {
    var q := (h * PRIME) / MODULUS;
    Reduce(Times(h, PRIME) * PRIME_INVERSE, 887285111055 * h - q * PRIME_INVERSE, h);
    var p := (h * PRIME_INVERSE) / MODULUS;
    Reduce(Times(h, PRIME_INVERSE) * PRIME, 887285111055 * h - p * PRIME, h);
  }

  // ---- one step ----

  function Step(h: Hash, b: Byte): Hash {
    Times(XorLow(h, b), PRIME)
  }

  function Unstep(h: Hash, b: Byte): Hash {
    XorLow(Times(h, PRIME_INVERSE), b)
  }

  /** For each byte the step is a bijection of the 2^64 hashes. */
  lemma StepInverse(h: Hash, b: Byte)
    ensures Unstep(Step(h, b), b) == h
    ensures Step(Unstep(h, b), b) == h
  {
    TimesPrimeInverse(XorLow(h, b));
    XorLowTwice(h, b);
    XorLowTwice(Times(h, PRIME_INVERSE), b);
    TimesPrimeInverse(h);
  }

  /** From one hash, different bytes lead to different hashes. */
  lemma StepSeparatesBytes(h: Hash, a: Byte, b: Byte)
    requires a != b
    ensures Step(h, a) != Step(h, b)
  {
    if Step(h, a) == Step(h, b) {
      TimesPrimeInverse(XorLow(h, a));
      TimesPrimeInverse(XorLow(h, b));
      XorByteInjective(h % 256, a, b);
    }
  }

  // ---- the whole loop ----

  /** The hash after the bytes of `data`, starting from `h`. */
  function Digest(h: Hash, data: seq<Byte>): Hash {
    if data == [] then h
    else Step(Digest(h, data[..|data| - 1]), data[|data| - 1])
  }

  function Undigest(h: Hash, data: seq<Byte>): Hash
    decreases |data|
  {
    if data == [] then h
    else Undigest(Unstep(h, data[|data| - 1]), data[..|data| - 1])
  }

  method Fnv1a64(data: array<Byte>, len: nat) returns (h: Hash)
    requires len <= data.Length
    ensures h == Digest(OFFSET_BASIS, data[..len])
  {
    h := OFFSET_BASIS;
    for i := 0 to len
      invariant h == Digest(OFFSET_BASIS, data[..i])
    {
      assert data[..i + 1][..i] == data[..i];
      h := Step(h, data[i]);
    }
  }

  /** Hashing a fixed string is a bijection of the starting hashes. */
  lemma {:induction false} DigestInverse(h: Hash, data: seq<Byte>)
    ensures Undigest(Digest(h, data), data) == h
    ensures Digest(Undigest(h, data), data) == h
    decreases |data|
  {
    if data != [] {
      var front, b := data[..|data| - 1], data[|data| - 1];
      StepInverse(Digest(h, front), b);
      DigestInverse(h, front);
      DigestInverse(Unstep(h, b), front);
      StepInverse(h, b);
    }
  }

  lemma {:induction false} DigestConcat(h: Hash, a: seq<Byte>, b: seq<Byte>)
    ensures Digest(h, a + b) == Digest(Digest(h, a), b)
    decreases |b|
  {
    if b == [] {
      assert a + b == a;
    } else {
      assert (a + b)[..|a + b| - 1] == a + b[..|b| - 1];
      DigestConcat(h, a, b[..|b| - 1]);
    }
  }

  /** Two strings of equal length that differ in exactly one byte never collide. */
  lemma OneByteSeparates(h: Hash, before: seq<Byte>, a: Byte, b: Byte, after: seq<Byte>)
    requires a != b
    ensures Digest(h, before + [a] + after) != Digest(h, before + [b] + after)
  {
    var start := Digest(h, before);
    forall c | c in {a, b} ensures Digest(h, before + [c] + after) == Digest(Step(start, c), after) {
      DigestConcat(h, before + [c], after);
      DigestConcat(h, before, [c]);
      assert Digest(start, [c][..0]) == start;
    }
    StepSeparatesBytes(start, a, b);
    DigestInverse(Step(start, a), after);
    DigestInverse(Step(start, b), after);
  }

  // ---- known answers ----

  /** One step, given the product with its quotient and remainder. */
  lemma KnownStep(h: Hash, low: bv8, b: bv8, quotient: int, next: Hash)
    requires h % 256 == low as int
    requires (h - h % 256 + (b ^ low) as int) * PRIME == next + MODULUS * quotient
    ensures Step(h, b as int) == next
  {
    hide XorByte;
    XorByteIsXor(low, b);
    assert low ^ b == b ^ low;
    Reduce((h - h % 256 + (b ^ low) as int) * PRIME, quotient, next);
  }

  lemma OneByteHash(b: bv8, h: Hash)
    requires (OFFSET_BASIS - 0x25 + (b ^ 0x25) as int) * PRIME == h + MODULUS * 875948729822
    ensures Digest(OFFSET_BASIS, [b as int]) == h
  {
    hide Step;
    KnownStep(OFFSET_BASIS, 0x25, b, 875948729822, h);
    assert [b as int][..0] == [];
  }

  /** The published hash of the letter a, and those of the four prefix bytes on their own. */
  lemma KnownHashes()
    ensures Digest(OFFSET_BASIS, ['a' as int]) == 0xaf63dc4c8601ec8c
    ensures Digest(OFFSET_BASIS, [0]) == 0xaf63bd4c8601b7df
    ensures Digest(OFFSET_BASIS, [1]) == 0xaf63bc4c8601b62c
    ensures Digest(OFFSET_BASIS, [2]) == 0xaf63bf4c8601bb45
    ensures Digest(OFFSET_BASIS, [3]) == 0xaf63be4c8601b992
  {
    hide Digest;
    OneByteHash(97, 0xaf63dc4c8601ec8c);
    OneByteHash(0, 0xaf63bd4c8601b7df);
    OneByteHash(1, 0xaf63bc4c8601b62c);
    OneByteHash(2, 0xaf63bf4c8601bb45);
    OneByteHash(3, 0xaf63be4c8601b992);
  }
}
