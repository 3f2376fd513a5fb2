/** The 256-bit fingerprint of an identity string, and the generator seed made from it. */
module Fingerprint {
  import opened Wrappers
  import opened Fnv
  import Xorshift

  const PREFIXES := 4
  const COPIED_MAX := 255

  /** What the hash reads: the prefix byte, then at most 255 bytes of the identity. */
  function Hashed(prefix: Byte, identity: seq<Byte>): seq<Byte> {
    [prefix] + Copied(identity)
  }

  function Copied(identity: seq<Byte>): seq<Byte> {
    if |identity| < COPIED_MAX then identity else identity[..COPIED_MAX]
  }

  function Word(identity: seq<Byte>, i: nat): Hash
    requires i < PREFIXES
  {
    Digest(OFFSET_BASIS, Hashed(i, identity))
  }

  /** The low `n` bytes of `h`, least significant first. */
  function LittleEndian(h: nat, n: nat): (bytes: seq<Byte>)
    ensures |bytes| == n
  {
    if n == 0 then [] else [h % 256] + LittleEndian(h / 256, n - 1)
  }

  /** The first `n` words, as they lie in memory. */
  function Words(identity: seq<Byte>, n: nat): (bytes: seq<Byte>)
    requires n <= PREFIXES
    ensures |bytes| == 8 * n
  {
    if n == 0 then [] else Words(identity, n - 1) + LittleEndian(Word(identity, n - 1), 8)
  }

  function Of(identity: seq<Byte>): (fingerprint: seq<Byte>)
    ensures |fingerprint| == 32
  {
    Words(identity, PREFIXES)
  }

  /** One pass of the loop over the prefixes, through the local buffer. */
  method HashWithPrefix(i: nat, text: seq<Byte>) returns (bytes: seq<Byte>)
    requires i < PREFIXES
    ensures bytes == LittleEndian(Word(text, i), 8)
  {
    var buf := new Byte[256];
    buf[0] := i;
    var copy := if |text| < COPIED_MAX then |text| else COPIED_MAX;
    forall k | 0 <= k < copy {
      buf[1 + k] := text[k];
    }
    assert buf[..copy + 1] == Hashed(i, text);
    var h := Fnv1a64(buf, copy + 1);
    bytes := LittleEndian(h, 8);
  }

  method StoreWord(fingerprint: array<Byte>, i: nat, bytes: seq<Byte>)
    requires 8 * i + 8 <= fingerprint.Length && |bytes| == 8
    modifies fingerprint
    ensures fingerprint[..8 * (i + 1)] == old(fingerprint[..8 * i]) + bytes
  {
    forall k | 0 <= k < 8 {
      fingerprint[8 * i + k] := bytes[k];
    }
  }

  class WatermarkState {
    var enabled: bool
    const fingerprint: array<Byte>
    var hasIdentity: bool

    ghost predicate Valid()
      reads this
    {
      fingerprint.Length == 32
    }

    constructor ()
      ensures Valid() && fresh(fingerprint) && !hasIdentity && !enabled
    {
      fingerprint := new Byte[32];
      enabled, hasIdentity := false, false;
    }

    /** `None` is the null pointer, which changes nothing. */
    method SetIdentity(identity: Option<seq<Byte>>)
      requires Valid()
      modifies this`hasIdentity, fingerprint
      ensures identity.None? ==> hasIdentity == old(hasIdentity) && fingerprint[..] == old(fingerprint[..])
      ensures identity.Some? ==> hasIdentity && fingerprint[..] == Of(identity.value)
    {
      if identity.None? {
        return;
      }
      var text := identity.value;
      for i := 0 to PREFIXES
        invariant fingerprint[..8 * i] == Words(text, i)
      {
        var bytes := HashWithPrefix(i, text);
        StoreWord(fingerprint, i, bytes);
      }
      hasIdentity := true;
    }
  }

  // ---- the words ----

  /** The four words of one identity are pairwise different, whatever the identity. */
  lemma WordsDiffer(identity: seq<Byte>, i: nat, j: nat)
    requires i < PREFIXES && j < PREFIXES && i != j
    ensures Word(identity, i) != Word(identity, j)
  {
    OneByteSeparates(OFFSET_BASIS, [], i, j, Copied(identity));
    HashedSplit(i, identity);
    HashedSplit(j, identity);
  }

  /** Known answers: the four words of the empty identity, and a word of the identity "a". */
  lemma KnownWords()
    ensures Word([], 0) == 0xaf63bd4c8601b7df
    ensures Word([], 1) == 0xaf63bc4c8601b62c
    ensures Word([], 2) == 0xaf63bf4c8601bb45
    ensures Word([], 3) == 0xaf63be4c8601b992
    ensures Word(['a' as int], 0) == 0x8326707b4eb37da
  {
    hide Digest, Step;
    KnownHashes();
    assert Hashed(0, []) == [0] && Hashed(1, []) == [1] && Hashed(2, []) == [2] && Hashed(3, []) == [3];
    assert Hashed(0, [97]) == [0, 97];
    KnownStep(0xaf63bd4c8601b7df, 0xdf, 97, 753292627376, 0x8326707b4eb37da);
    LastByte(OFFSET_BASIS, 0, 97);
  }

  lemma LastByte(h: Hash, a: Byte, b: Byte)
    ensures Digest(h, [a, b]) == Step(Digest(h, [a]), b)
  {
    assert [a, b][..1] == [a];
  }

  lemma HashedSplit(prefix: Byte, identity: seq<Byte>)
    ensures [] + [prefix] + Copied(identity) == Hashed(prefix, identity)
  {
  }

  lemma HashedUpdate(prefix: Byte, identity: seq<Byte>, at: nat, b: Byte)
    requires at < |identity| && at < COPIED_MAX
    ensures [prefix] + Copied(identity)[..at] + [b] + Copied(identity)[at + 1..] == Hashed(prefix, identity[at := b])
  {
  }

  /** Equal-length identities that differ in one of the first 255 bytes differ in every word. */
  lemma OneByteChangesEveryWord(identity: seq<Byte>, at: nat, b: Byte, i: nat)
    requires at < |identity| && at < 255
    requires b != identity[at]
    requires i < PREFIXES
    ensures Word(identity, i) != Word(identity[at := b], i)
  {
    var text := Copied(identity);
    OneByteSeparates(OFFSET_BASIS, [i] + text[..at], identity[at], b, text[at + 1..]);
    HashedUpdate(i, identity, at, identity[at]);
    HashedUpdate(i, identity, at, b);
    assert identity[at := identity[at]] == identity;
  }

  lemma {:induction false} SameWords(a: seq<Byte>, b: seq<Byte>, n: nat)
    requires Copied(a) == Copied(b) && n <= PREFIXES
    ensures Words(a, n) == Words(b, n)
  {
    if n > 0 {
      SameWords(a, b, n - 1);
      assert Hashed(n - 1, a) == Hashed(n - 1, b);
    }
  }

  /** Identities that agree on their first 255 bytes, and go on in any two ways, have one fingerprint. */
  lemma LongIdentitiesShare(a: seq<Byte>, b: seq<Byte>)
    requires |a| >= 255 && |b| >= 255 && a[..255] == b[..255]
    ensures Of(a) == Of(b)
  {
    assert Copied(a) == a[..255] && Copied(b) == b[..255];
    SameWords(a, b, PREFIXES);
  }

  // ---- words and bytes ----

  /** The number that bytes in memory stand for, least significant first. */
  function ValueOf(bytes: seq<Byte>): nat {
    if bytes == [] then 0 else bytes[0] + 256 * ValueOf(bytes[1..])
  }

  lemma {:induction false} LittleEndianValue(h: nat, n: nat)
    requires h < Power256(n)
    ensures ValueOf(LittleEndian(h, n)) == h
  {
    if n > 0 {
      LittleEndianValue(h / 256, n - 1);
      assert LittleEndian(h, n)[1..] == LittleEndian(h / 256, n - 1);
    }
  }

  function Power256(n: nat): nat {
    if n == 0 then 1 else 256 * Power256(n - 1)
  }

  lemma EightBytesHoldAWord()
    ensures Power256(8) == MODULUS
  {
    assert Power256(4) == 0x1_0000_0000;
    assert Power256(8) == 256 * (256 * (256 * (256 * Power256(4))));
  }

  /** Word `i` lies at byte 8 * i. */
  lemma WordInMemory(identity: seq<Byte>, i: nat)
    requires i < PREFIXES
    ensures Of(identity)[8 * i..8 * i + 8] == LittleEndian(Word(identity, i), 8)
  {
    hide Word, LittleEndian;
    WordsPrefix(identity, i + 1, PREFIXES);
    var upTo := Words(identity, i + 1);
    assert Of(identity)[8 * i..8 * i + 8] == upTo[8 * i..8 * i + 8];
    assert upTo == Words(identity, i) + LittleEndian(Word(identity, i), 8);
  }

  lemma {:induction false} WordsPrefix(identity: seq<Byte>, m: nat, n: nat)
    requires m <= n <= PREFIXES
    ensures Words(identity, m) <= Words(identity, n)
  {
    if m < n {
      WordsPrefix(identity, m, n - 1);
    }
  }

  // ---- the seed ----

  /** Four bytes read as one little-endian 32-bit word. */
  function Join(b0: Byte, b1: Byte, b2: Byte, b3: Byte): Xorshift.Word {
    JoinBits(b0 as bv8, b1 as bv8, b2 as bv8, b3 as bv8)
  }

  function JoinBits(b0: bv8, b1: bv8, b2: bv8, b3: bv8): bv32 {
    (b0 as bv32) | ((b1 as bv32) << 8) | ((b2 as bv32) << 16) | ((b3 as bv32) << 24)
  }

  lemma JoinBitsInjective(a0: bv8, a1: bv8, a2: bv8, a3: bv8, b0: bv8, b1: bv8, b2: bv8, b3: bv8)
    requires JoinBits(a0, a1, a2, a3) == JoinBits(b0, b1, b2, b3)
    ensures a0 == b0 && a1 == b1 && a2 == b2 && a3 == b3
  {
  }

  lemma BitsOfByte(b: Byte)
    ensures (b as bv8) as int == b
  {
    assert b / 256 == 0 && b % 256 == b;
  }

  lemma JoinInjective(a: seq<Byte>, b: seq<Byte>)
    requires |a| == |b| == 4
    requires Join(a[0], a[1], a[2], a[3]) == Join(b[0], b[1], b[2], b[3])
    ensures a == b
  {
    JoinBitsInjective(a[0] as bv8, a[1] as bv8, a[2] as bv8, a[3] as bv8,
                      b[0] as bv8, b[1] as bv8, b[2] as bv8, b[3] as bv8);
    forall i | 0 <= i < 4 ensures a[i] == b[i] {
      BitsOfByte(a[i]);
      BitsOfByte(b[i]);
    }
  }

  function Unsigned(w: Xorshift.Word): nat { w as int }

  lemma JoinPair(low: bv8, high: bv8)
    ensures ((low as bv16) | ((high as bv16) << 8)) as int == low as int + 256 * (high as int)
  {
  }

  lemma JoinPairs(low: bv16, high: bv16)
    ensures ((low as bv32) | ((high as bv32) << 16)) as int == low as int + 0x1_0000 * (high as int)
  {
  }

  lemma JoinBitsOfPairs(b0: bv8, b1: bv8, b2: bv8, b3: bv8)
    ensures JoinBits(b0, b1, b2, b3)
         == (((b0 as bv16) | ((b1 as bv16) << 8)) as bv32) | ((((b2 as bv16) | ((b3 as bv16) << 8)) as bv32) << 16)
  {
  }

  lemma JoinBitsValue(b0: bv8, b1: bv8, b2: bv8, b3: bv8)
    ensures JoinBits(b0, b1, b2, b3) as int
         == b0 as int + 256 * (b1 as int) + 0x1_0000 * (b2 as int) + 0x100_0000 * (b3 as int)
  {
    JoinBitsOfPairs(b0, b1, b2, b3);
    JoinPairs((b0 as bv16) | ((b1 as bv16) << 8), (b2 as bv16) | ((b3 as bv16) << 8));
    JoinPair(b0, b1);
    JoinPair(b2, b3);
  }

  lemma JoinValue(b0: Byte, b1: Byte, b2: Byte, b3: Byte)
    ensures Unsigned(Join(b0, b1, b2, b3)) == b0 + 256 * b1 + 0x1_0000 * b2 + 0x100_0000 * b3
  {
    hide JoinBits;
    JoinBitsValue(b0 as bv8, b1 as bv8, b2 as bv8, b3 as bv8);
    BitsOfByte(b0);
    BitsOfByte(b1);
    BitsOfByte(b2);
    BitsOfByte(b3);
  }

  function Load(bytes: seq<Byte>, at: nat): Xorshift.State
    requires at + 16 <= |bytes|
  {
    Xorshift.State(
      Join(bytes[at], bytes[at + 1], bytes[at + 2], bytes[at + 3]),
      Join(bytes[at + 4], bytes[at + 5], bytes[at + 6], bytes[at + 7]),
      Join(bytes[at + 8], bytes[at + 9], bytes[at + 10], bytes[at + 11]),
      Join(bytes[at + 12], bytes[at + 13], bytes[at + 14], bytes[at + 15]))
  }

  /** Both halves of the fingerprint, exclusive-or'ed. */
  function Halves(fingerprint: seq<Byte>): Xorshift.State
    requires |fingerprint| == 32
  {
    Xorshift.Sum(Load(fingerprint, 0), Load(fingerprint, 16))
  }

  function Seed(fingerprint: seq<Byte>): Xorshift.State
    requires |fingerprint| == 32
  {
    var s := Halves(fingerprint);
    if s == Xorshift.ZERO then s.(s0 := 1) else s
  }

  lemma LoadInjective(f: seq<Byte>, p: nat, g: seq<Byte>, q: nat)
    requires p + 16 <= |f| && q + 16 <= |g|
    requires Load(f, p) == Load(g, q)
    ensures f[p..p + 16] == g[q..q + 16]
  {
    hide Join;
    JoinInjective(f[p..p + 4], g[q..q + 4]);
    JoinInjective(f[p + 4..p + 8], g[q + 4..q + 8]);
    JoinInjective(f[p + 8..p + 12], g[q + 8..q + 12]);
    JoinInjective(f[p + 12..p + 16], g[q + 12..q + 16]);
    InFours(f, p);
    InFours(g, q);
  }

  lemma InFours(f: seq<Byte>, p: nat)
    requires p + 16 <= |f|
    ensures f[p..p + 16] == f[p..p + 4] + f[p + 4..p + 8] + f[p + 8..p + 12] + f[p + 12..p + 16]
  {
    assert f[p..p + 8] == f[p..p + 4] + f[p + 4..p + 8];
    assert f[p..p + 12] == f[p..p + 8] + f[p + 8..p + 12];
    assert f[p..p + 16] == f[p..p + 12] + f[p + 12..p + 16];
  }

  /** All 32 bytes contribute: fingerprints that differ in exactly one byte have different seeds. */
  lemma EveryByteCounts(f: seq<Byte>, i: nat, b: Byte)
    requires |f| == 32 && i < 32 && b != f[i]
    ensures Halves(f) != Halves(f[i := b])
  {
    hide Load, Xorshift.Sum;
    var g, at := f[i := b], i / 16 * 16;
    if Halves(f) == Halves(g) {
      SameBytesLoadAlike(f, g, 16 - at);
      Xorshift.SumCancels(Load(f, 16 - at), Load(f, at), Load(g, at));
      LoadInjective(f, at, g, at);
      assert false;
    }
  }

  function LowHalf(h: Hash): Xorshift.Word {
    Bits(h % 0x1_0000_0000)
  }

  function HighHalf(h: Hash): Xorshift.Word {
    Bits(h / 0x1_0000_0000)
  }

  function Bits(n: nat): Xorshift.Word
    requires n < 0x1_0000_0000
  {
    n as Xorshift.Word
  }

  lemma JoinWord(identity: seq<Byte>, i: nat)
    requires i < PREFIXES
    ensures var f := Of(identity);
      Join(f[8 * i], f[8 * i + 1], f[8 * i + 2], f[8 * i + 3]) == LowHalf(Word(identity, i)) &&
      Join(f[8 * i + 4], f[8 * i + 5], f[8 * i + 6], f[8 * i + 7]) == HighHalf(Word(identity, i))
  {
    hide Word, Of, Join, LowHalf, HighHalf, LittleEndian;
    var bytes := Of(identity)[8 * i..8 * i + 8];
    WordInMemory(identity, i);
    JoinEight(bytes, Word(identity, i));
  }

  lemma JoinEight(bytes: seq<Byte>, h: Hash)
    requires bytes == LittleEndian(h, 8)
    ensures Join(bytes[0], bytes[1], bytes[2], bytes[3]) == LowHalf(h)
    ensures Join(bytes[4], bytes[5], bytes[6], bytes[7]) == HighHalf(h)
  {
    hide *;
    EightBytesHoldAWord();
    LittleEndianValue(h, 8);
    FourOf(bytes);
    FourOf(bytes[4..]);
    JoinValue(bytes[0], bytes[1], bytes[2], bytes[3]);
    JoinValue(bytes[4], bytes[5], bytes[6], bytes[7]);
    NoBytes(bytes[4..][4..]);
    HalvesOfSum(h, Join(bytes[0], bytes[1], bytes[2], bytes[3]), Join(bytes[4], bytes[5], bytes[6], bytes[7]));
  }

  lemma NoBytes(bytes: seq<Byte>)
    requires |bytes| == 0
    ensures ValueOf(bytes) == 0
  {
  }

  lemma HalvesOfSum(h: Hash, low: Xorshift.Word, high: Xorshift.Word)
    requires h == Unsigned(low) + 0x1_0000_0000 * Unsigned(high)
    ensures LowHalf(h) == low && HighHalf(h) == high
  {
    hide Unsigned, Bits;
    BitsOfUnsigned(low);
    BitsOfUnsigned(high);
  }

  lemma BitsOfUnsigned(w: Xorshift.Word)
    ensures Unsigned(w) < 0x1_0000_0000 && Bits(Unsigned(w)) == w
  {
  }

  lemma FourOf(bytes: seq<Byte>)
    requires |bytes| >= 4
    ensures ValueOf(bytes)
         == bytes[0] + 256 * bytes[1] + 0x1_0000 * bytes[2] + 0x100_0000 * bytes[3]
            + 0x1_0000_0000 * ValueOf(bytes[4..])
  {
    assert bytes[1..][1..] == bytes[2..] && bytes[2..][1..] == bytes[3..] && bytes[3..][1..] == bytes[4..];
    assert ValueOf(bytes[2..]) == bytes[2] + 256 * (bytes[3] + 256 * ValueOf(bytes[4..]));
  }

  lemma SameBytesLoadAlike(f: seq<Byte>, g: seq<Byte>, at: nat)
    requires |f| == |g| == 32 && at + 16 <= 32
    requires forall k :: at <= k < at + 16 ==> f[k] == g[k]
    ensures Load(f, at) == Load(g, at)
  {
    hide Join;
  }

  /** The halves of a fingerprint never cancel, so the fallback for a zero seed is never used,
      and the generator it seeds never reaches the state that would select every pixel. */
  lemma FallbackNeverTaken(identity: seq<Byte>, n: nat)
    ensures Halves(Of(identity)) != Xorshift.ZERO
    ensures Seed(Of(identity)) == Halves(Of(identity))
    ensures Xorshift.After(Seed(Of(identity)), n) != Xorshift.ZERO
  {
    var f := Of(identity);
    if Halves(f) == Xorshift.ZERO {
      Xorshift.SumIsZero(Load(f, 0), Load(f, 16));
      LoadInjective(f, 0, f, 16);
      assert f[0..8] == f[0..16][..8] == f[16..32][..8] == f[16..24];
      WordInMemory(identity, 0);
      WordInMemory(identity, 2);
      EightBytesHoldAWord();
      LittleEndianValue(Word(identity, 0), 8);
      LittleEndianValue(Word(identity, 2), 8);
      WordsDiffer(identity, 0, 2);
      assert false;
    }
    Xorshift.ZeroOnlyFromZero(Seed(f), n);
  }

  /** The seed in terms of the hashes: the words of prefixes 0 and 2, and those of 1 and 3, exclusive-or'ed. */
  lemma SeedOfWords(identity: seq<Byte>)
    ensures Seed(Of(identity)) == Xorshift.State(
      Xorshift.Plus(LowHalf(Word(identity, 0)), LowHalf(Word(identity, 2))),
      Xorshift.Plus(HighHalf(Word(identity, 0)), HighHalf(Word(identity, 2))),
      Xorshift.Plus(LowHalf(Word(identity, 1)), LowHalf(Word(identity, 3))),
      Xorshift.Plus(HighHalf(Word(identity, 1)), HighHalf(Word(identity, 3))))
  {
    hide Word, Of, Join, Seed, LowHalf, HighHalf, Xorshift.Plus;
    FallbackNeverTaken(identity, 0);
    JoinWord(identity, 0);
    JoinWord(identity, 1);
    JoinWord(identity, 2);
    JoinWord(identity, 3);
  }
}
