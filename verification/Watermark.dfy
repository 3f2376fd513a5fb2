/** Writing a fingerprint into the blue channel of a frame, and reading it back. */
module Watermark {
  import opened FrameLayout
  import opened Fnv
  import opened Xorshift
  import Fingerprint

  /** The DRM pixel formats that `blue_offset` tells apart. */
  datatype Format = ARGB8888 | XRGB8888 | ABGR8888 | XBGR8888 | OtherFormat(code: nat)

  function BlueOffset(format: Format): (offset: int)
    ensures -1 <= offset < 4
  {
    match format
    case ARGB8888 => 0
    case XRGB8888 => 0
    case ABGR8888 => 2
    case XBGR8888 => 2
    case OtherFormat(_) => -1
  }

  /** The channels as the name of the format lists them, from the highest byte of a little-endian pixel down. */
  function Channels(format: Format): string {
    match format
    case ARGB8888 => "ARGB"
    case XRGB8888 => "XRGB"
    case ABGR8888 => "ABGR"
    case XBGR8888 => "XBGR"
    case OtherFormat(_) => ""
  }

  /** The blue byte is the one that the name calls B; a format that is not listed has none. */
  lemma BlueOffsetIsTheB(format: Format, i: nat)
    ensures BlueOffset(format) == i
       <==> i < |Channels(format)| && Channels(format)[|Channels(format)| - 1 - i] == 'B'
  {
  }

  // ---- which pixels are selected ----

  predicate Selects(draw: Word) {
    draw & 0xF == 0
  }

  predicate Selected(seed: State, k: nat) {
    Selects(Draw(seed, k))
  }

  /** How many of the first `n` pixels are selected. */
  function Count(seed: State, n: nat): (c: nat)
    ensures c <= n
  {
    if n == 0 then 0 else Count(seed, n - 1) + if Selected(seed, n - 1) then 1 else 0
  }

  /** Pixel `k` is selected iff the draw made for it is a multiple of sixteen. */
  lemma SelectedIff(seed: State, k: nat)
    ensures Selected(seed, k) <==> After(seed, k + 1).s0 % 16 == 0
  {
    hide After;
    SelectsIff(Draw(seed, k));
  }

  lemma SelectsIff(draw: Word)
    ensures Selects(draw) <==> draw % 16 == 0
  {
  }

  // ---- bits ----

  type Bit = b: int | 0 <= b < 2

  /** `(b >> j) & 1`. */
  function BitOf(b: Byte, j: nat): Bit {
    if j == 0 then b % 2 else BitOf(b / 2, j - 1)
  }

  /** Bit `i` of the fingerprint, counted from the lowest bit of the first byte. */
  function FingerprintBit(fingerprint: seq<Byte>, i: nat): Bit
    requires |fingerprint| == 32 && i < 256
  {
    BitOf(fingerprint[i / 8], i % 8)
  }

  /** The byte with its lowest bit replaced: `(b & 0xFE) | bit`. */
  function WithLowBit(b: Byte, bit: Bit): Byte {
    b - b % 2 + bit
  }

  // ---- the marked frame ----

  /** One run over a buffer: its prior contents, the blue bytes in visiting order, and what is written
      with which seed. */
  datatype Run = Run(pixels: seq<Byte>, offsets: seq<nat>, fingerprint: seq<Byte>, seed: State) {
    ghost predicate Valid() {
      |fingerprint| == 32 && Increasing(offsets) && Within(offsets, 0, |pixels|)
    }

    /** The bit that the `k`-th visited pixel carries if it is selected. */
    function BitFor(k: nat): Bit
      requires |fingerprint| == 32
    {
      FingerprintBit(fingerprint, Count(seed, k) % 256)
    }

    /** The buffer after the first `n` pixels have been visited. */
    ghost function Marked(n: nat): (r: seq<Byte>)
      requires Valid() && n <= |offsets|
      ensures |r| == |pixels|
    {
      if n == 0 then pixels
      else
        var before := Marked(n - 1);
        var at := offsets[n - 1];
        if Selected(seed, n - 1) then before[at := WithLowBit(before[at], BitFor(n - 1))] else before
    }

    ghost function Result(): (r: seq<Byte>)
      requires Valid()
      ensures |r| == |pixels|
    {
      Marked(|offsets|)
    }
  }

  class Frame {
    const width: int
    const height: int
    const stride: nat
    const format: Format
    const data: array<Byte>

    constructor (width: int, height: int, stride: nat, format: Format, data: array<Byte>)
      ensures this.width == width && this.height == height && this.stride == stride
      ensures this.format == format && this.data == data
    {
      this.width, this.height, this.stride, this.format, this.data := width, height, stride, format, data;
    }

    /** The buffer holds every row, and rows do not overlap. */
    ghost predicate Valid() {
      && 4 * width <= stride
      && (0 < height ==> (height - 1) * stride + 4 * width <= data.Length)
    }

    /** The blue bytes in visiting order; a frame without rows or columns has none. */
    ghost function BlueBytes(): seq<nat>
      requires BlueOffset(format) >= 0
    {
      if width <= 0 || height <= 0 then [] else Offsets(width, height, stride, BlueOffset(format))
    }
  }

  lemma BlueBytesFit(frame: Frame)
    requires frame.Valid() && BlueOffset(frame.format) >= 0
    ensures Increasing(frame.BlueBytes()) && Within(frame.BlueBytes(), 0, frame.data.Length)
  {
    if frame.width > 0 && frame.height > 0 {
      OffsetsIncrease(frame.width, frame.height, frame.stride, BlueOffset(frame.format));
    }
  }

  /** The blue bytes of a frame are the bytes at the blue offset of each of its pixels, row by row. */
  lemma BlueBytesIff(frame: Frame, y: nat, r: nat)
    requires frame.Valid() && BlueOffset(frame.format) >= 0 && r < frame.stride
    ensures y * frame.stride + r in frame.BlueBytes()
       <==> y < frame.height && r / 4 < frame.width && r % 4 == BlueOffset(frame.format)
  {
    if frame.width > 0 && frame.height > 0 {
      OnlyBlueBytesAreVisited(frame.width, frame.height, frame.stride, BlueOffset(frame.format), y, r);
    }
  }

  /** `access` is whether the buffer could be mapped. */
  method Apply(frame: Frame?, state: Fingerprint.WatermarkState?, access: bool) returns (ok: bool)
    requires frame != null ==> frame.Valid()
    requires state != null ==> state.Valid()
    requires frame != null && state != null ==> frame.data != state.fingerprint
    modifies if frame != null then {frame.data} else {}
    ensures ok <==> frame != null && state != null && state.hasIdentity && access && BlueOffset(frame.format) >= 0
    ensures frame != null && !ok ==> frame.data[..] == old(frame.data[..])
    ensures ok ==>
      var fingerprint := state.fingerprint[..];
      var run := Run(old(frame.data[..]), frame.BlueBytes(), fingerprint, Fingerprint.Seed(fingerprint));
      run.Valid() && frame.data[..] == run.Result()
  {
    if frame == null || state == null || !state.hasIdentity {
      return false;
    }
    if !access {
      return false;
    }
    var blue := BlueOffset(frame.format);
    if blue < 0 {
      return false;
    }
    BlueBytesFit(frame);
    var fingerprint := state.fingerprint[..];
    MarkFrame(frame, fingerprint, Fingerprint.Seed(fingerprint), blue);
    return true;
  }

  /** The first `n` pixels have been visited: the buffer, the generator and the running bit index agree on that. */
  ghost predicate Visited(data: array<Byte>, rng: Xorshift128, bitIndex: nat, run: Run, n: nat)
    reads data, rng.s
  {
    && run.Valid() && n <= |run.offsets|
    && rng.s as object != data && rng.s.Length == 4 && rng.Value() == After(run.seed, n)
    && bitIndex == Count(run.seed, n) % 256
    && data[..] == run.Marked(n)
  }

  /** The body of the inner loop. */
  method VisitPixel(data: array<Byte>, rng: Xorshift128, bitIndex: nat, fingerprint: seq<Byte>, at: nat,
                    ghost run: Run, ghost n: nat) returns (next: nat)
    requires Visited(data, rng, bitIndex, run, n)
    requires fingerprint == run.fingerprint && n < |run.offsets| && at == run.offsets[n]
    modifies data, rng.s
    ensures Visited(data, rng, next, run, n + 1)
  {
    hide Draw, After, Selects, WithLowBit, FingerprintBit, Increasing;
    var r := DrawNext(rng, run.seed, n);
    next := if Selects(r) then (bitIndex + 1) % 256 else bitIndex;
    if Selects(r) {
      SetLowBit(data, at, FingerprintBit(fingerprint, bitIndex));
    }
  }

  method SetLowBit(data: array<Byte>, at: nat, bit: Bit)
    requires at < data.Length
    modifies data
    ensures data[..] == old(data[..])[at := WithLowBit(old(data[at]), bit)]
  {
    data[at] := WithLowBit(data[at], bit);
  }

  method DrawNext(rng: Xorshift128, ghost seed: State, ghost n: nat) returns (r: Word)
    requires rng.s.Length == 4 && rng.Value() == After(seed, n)
    modifies rng.s
    ensures rng.Value() == After(seed, n + 1)
    ensures r == Draw(seed, n)
  {
    r := rng.Draw();
  }

  /** The inner loop: row `y`. */
  method MarkRow(frame: Frame, rng: Xorshift128, bitIndex: nat, fingerprint: seq<Byte>, blue: nat, y: nat,
                 ghost run: Run, ghost start: nat) returns (next: nat)
    requires Visited(frame.data, rng, bitIndex, run, start)
    requires fingerprint == run.fingerprint && start + frame.width <= |run.offsets| && 0 <= frame.width
    requires forall x | 0 <= x < frame.width :: run.offsets[start + x] == Address(y, x, frame.stride, blue)
    modifies frame.data, rng.s
    ensures Visited(frame.data, rng, next, run, start + frame.width)
  {
    next := bitIndex;
    for x := 0 to frame.width
      invariant Visited(frame.data, rng, next, run, start + x)
    {
      next := VisitPixel(frame.data, rng, next, fingerprint, Address(y, x, frame.stride, blue), run, start + x);
    }
  }

  /** The outer loop.  Nothing is visited in a frame without rows or columns. */
  method MarkFrame(frame: Frame, fingerprint: seq<Byte>, seed: State, blue: nat)
    requires blue == BlueOffset(frame.format)
    requires Run(frame.data[..], frame.BlueBytes(), fingerprint, seed).Valid()
    modifies frame.data
    ensures frame.data[..] == Run(old(frame.data[..]), frame.BlueBytes(), fingerprint, seed).Result()
  {
    ghost var run := Run(frame.data[..], frame.BlueBytes(), fingerprint, seed);
    var rng := new Xorshift128(seed);
    var bitIndex := 0;
    if frame.width <= 0 || frame.height <= 0 {
      return;
    }
    for y := 0 to frame.height
      invariant fresh(rng.s)
      invariant Visited(frame.data, rng, bitIndex, run, |Offsets(frame.width, y, frame.stride, blue)|)
    {
      RowAddresses(frame.width, frame.height, frame.stride, blue, y);
      bitIndex := MarkRow(frame, rng, bitIndex, fingerprint, blue, y, run,
                          |Offsets(frame.width, y, frame.stride, blue)|);
    }
  }

  // ---- what a run leaves in the buffer ----

  /** Every byte of the result: a selected blue byte carries its bit, every other byte is as before. */
  lemma {:induction false} MarkedAt(run: Run, n: nat, k: nat)
    requires run.Valid() && n <= |run.offsets| && k < |run.offsets|
    ensures var at := run.offsets[k];
      run.Marked(n)[at]
      == if k < n && Selected(run.seed, k) then WithLowBit(run.pixels[at], run.BitFor(k)) else run.pixels[at]
  {
    if n > 0 {
      MarkedAt(run, n - 1, k);
      assert k < n - 1 ==> run.offsets[k] < run.offsets[n - 1];
      assert k > n - 1 ==> run.offsets[k] > run.offsets[n - 1];
    }
  }

  lemma {:induction false} MarkedElsewhere(run: Run, n: nat, at: nat)
    requires run.Valid() && n <= |run.offsets| && at < |run.pixels| && at !in run.offsets
    ensures run.Marked(n)[at] == run.pixels[at]
  {
    if n > 0 {
      MarkedElsewhere(run, n - 1, at);
    }
  }

  /** Only the lowest bit can change, and only in the blue byte of a selected pixel. */
  lemma FrameExact(run: Run, at: nat)
    requires run.Valid() && at < |run.pixels|
    ensures run.Result()[at] / 2 == run.pixels[at] / 2
    ensures -1 <= run.Result()[at] as int - run.pixels[at] as int <= 1
    ensures run.Result()[at] != run.pixels[at] ==>
      exists k :: 0 <= k < |run.offsets| && at == run.offsets[k] && Selected(run.seed, k)
  {
    if at in run.offsets {
      var k :| 0 <= k < |run.offsets| && run.offsets[k] == at;
      MarkedAt(run, |run.offsets|, k);
    } else {
      MarkedElsewhere(run, |run.offsets|, at);
    }
  }

  /** Every byte outside the blue channel, the padding of each row included, is exactly as before. */
  lemma OtherChannelsUntouched(run: Run, width: nat, height: nat, stride: nat, blue: nat, y: nat, r: nat)
    requires run.Valid() && run.offsets == Offsets(width, height, stride, blue)
    requires 4 * width <= stride && blue < 4 && r < stride && y * stride + r < |run.pixels|
    requires r % 4 != blue || r / 4 >= width
    ensures run.Result()[y * stride + r] == run.pixels[y * stride + r]
  {
    OnlyBlueBytesAreVisited(width, height, stride, blue, y, r);
    MarkedElsewhere(run, |run.offsets|, y * stride + r);
  }

  lemma SecondRunAt(run: Run, again: Run, at: nat)
    requires run.Valid() && again.Valid() && again == run.(pixels := run.Result()) && at < |run.pixels|
    ensures again.Result()[at] == run.Result()[at]
  {
    hide Selected;
    if at in run.offsets {
      var k :| 0 <= k < |run.offsets| && run.offsets[k] == at;
      MarkedAt(run, |run.offsets|, k);
      MarkedAt(again, |run.offsets|, k);
    } else {
      MarkedElsewhere(again, |run.offsets|, at);
    }
  }

  /** The same run over its own result changes nothing. */
  lemma SecondRunChangesNothing(run: Run, again: Run)
    requires run.Valid() && again == run.(pixels := run.Result())
    ensures again.Valid() && again.Result() == run.Result()
  {
    forall at | 0 <= at < |run.pixels| ensures again.Result()[at] == run.Result()[at] {
      SecondRunAt(run, again, at);
    }
  }

  // ---- reading the mark back ----

  /** The lowest bits of the selected pixels among the first `n`, re-running the generator from `seed`. */
  function Read(pixels: seq<Byte>, offsets: seq<nat>, seed: State, n: nat): seq<Bit>
    requires n <= |offsets| && Within(offsets, 0, |pixels|)
  {
    if n == 0 then []
    else Read(pixels, offsets, seed, n - 1) + if Selected(seed, n - 1) then [pixels[offsets[n - 1]] % 2] else []
  }

  /** The first `count` bits of the fingerprint, repeated. */
  function Repeated(fingerprint: seq<Byte>, count: nat): (bits: seq<Bit>)
    requires |fingerprint| == 32
    ensures |bits| == count
  {
    if count == 0 then [] else Repeated(fingerprint, count - 1) + [FingerprintBit(fingerprint, (count - 1) % 256)]
  }

  lemma {:induction false} RepeatedAt(fingerprint: seq<Byte>, count: nat, i: nat)
    requires |fingerprint| == 32 && i < count
    ensures Repeated(fingerprint, count)[i] == FingerprintBit(fingerprint, i % 256)
  {
    if i < count - 1 {
      RepeatedAt(fingerprint, count - 1, i);
    }
  }

  lemma LowBitOfResult(run: Run, k: nat)
    requires run.Valid() && k < |run.offsets| && Selected(run.seed, k)
    ensures run.Result()[run.offsets[k]] % 2 == run.BitFor(k)
  {
    hide Selected, FingerprintBit;
    MarkedAt(run, |run.offsets|, k);
  }

  /** The k-th selected pixel carries fingerprint bit k mod 256, whatever the frame held before. */
  lemma {:induction false} ReadsBack(run: Run, n: nat)
    requires run.Valid() && n <= |run.offsets|
    ensures Read(run.Result(), run.offsets, run.seed, n) == Repeated(run.fingerprint, Count(run.seed, n))
  {
    hide Selected, FingerprintBit;
    if n > 0 {
      ReadsBack(run, n - 1);
      if Selected(run.seed, n - 1) {
        LowBitOfResult(run, n - 1);
      }
    }
  }

  /** The number with these bits, lowest first. */
  function ValueOf(bits: seq<Bit>): (v: nat)
    ensures v < Power2(|bits|)
  {
    if bits == [] then 0 else bits[0] + 2 * ValueOf(bits[1..])
  }

  lemma {:induction false} ValueOfItsBits(b: Byte, bits: seq<Bit>)
    requires b < Power2(|bits|)
    requires forall j | 0 <= j < |bits| :: bits[j] == BitOf(b, j)
    ensures ValueOf(bits) == b
  {
    if bits != [] {
      forall j | 0 <= j < |bits| - 1 ensures bits[1..][j] == BitOf(b / 2, j) {
        assert bits[j + 1] == BitOf(b, j + 1);
      }
      ValueOfItsBits(b / 2, bits[1..]);
      assert bits[0] == BitOf(b, 0);
    }
  }

  /** The bits put together again, eight to a byte. */
  function Assemble(bits: seq<Bit>, n: nat): (bytes: seq<nat>)
    requires 8 * n <= |bits|
    ensures |bytes| == n
  {
    if n == 0 then [] else Assemble(bits, n - 1) + [ValueOf(bits[8 * (n - 1)..8 * n])]
  }

  lemma RepeatedHoldsByte(fingerprint: seq<Byte>, count: nat, i: nat)
    requires |fingerprint| == 32 && i < 32 && 256 <= count
    ensures ValueOf(Repeated(fingerprint, count)[8 * i..8 * i + 8]) == fingerprint[i]
  {
    hide ValueOf, Repeated, BitOf;
    var bits := Repeated(fingerprint, count)[8 * i..8 * i + 8];
    forall j | 0 <= j < 8 ensures bits[j] == BitOf(fingerprint[i], j) {
      RepeatedAt(fingerprint, count, 8 * i + j);
    }
    EightBits();
    ValueOfItsBits(fingerprint[i], bits);
  }

  lemma {:induction false} AssembleRepeated(fingerprint: seq<Byte>, count: nat, n: nat)
    requires |fingerprint| == 32 && n <= 32 && 256 <= count
    ensures Assemble(Repeated(fingerprint, count), n) == fingerprint[..n]
  {
    if n > 0 {
      AssembleRepeated(fingerprint, count, n - 1);
      RepeatedHoldsByte(fingerprint, count, n - 1);
    }
  }

  /** Any frame with at least 256 selected pixels yields the whole fingerprint. */
  lemma FingerprintRecovered(run: Run)
    requires run.Valid() && Count(run.seed, |run.offsets|) >= 256
    ensures var bits := Read(run.Result(), run.offsets, run.seed, |run.offsets|);
      |bits| >= 256 && Assemble(bits, 32) == run.fingerprint
  {
    ReadsBack(run, |run.offsets|);
    AssembleRepeated(run.fingerprint, Count(run.seed, |run.offsets|), 32);
  }

  // ---- identities ----

  function RunFor(pixels: seq<Byte>, offsets: seq<nat>, identity: seq<Byte>): Run {
    Run(pixels, offsets, Fingerprint.Of(identity), Fingerprint.Seed(Fingerprint.Of(identity)))
  }

  /** The frame after each identity in turn has been applied to it. */
  ghost function AppliedInTurn(pixels: seq<Byte>, offsets: seq<nat>, identities: seq<seq<Byte>>): (r: seq<Byte>)
    requires Increasing(offsets) && Within(offsets, 0, |pixels|)
    ensures |r| == |pixels|
  {
    if identities == [] then pixels
    else
      var last := |identities| - 1;
      RunFor(AppliedInTurn(pixels, offsets, identities[..last]), offsets, identities[last]).Result()
  }

  /** However often a frame is marked, the last identity is the one that is read back. */
  lemma LastIdentityDecodes(pixels: seq<Byte>, offsets: seq<nat>, identities: seq<seq<Byte>>, last: seq<Byte>)
    requires Increasing(offsets) && Within(offsets, 0, |pixels|)
    requires Count(Fingerprint.Seed(Fingerprint.Of(last)), |offsets|) >= 256
    ensures var marked := AppliedInTurn(pixels, offsets, identities + [last]);
      var bits := Read(marked, offsets, Fingerprint.Seed(Fingerprint.Of(last)), |offsets|);
      |bits| >= 256 && Assemble(bits, 32) == Fingerprint.Of(last)
  {
    assert (identities + [last])[..|identities|] == identities;
    FingerprintRecovered(RunFor(AppliedInTurn(pixels, offsets, identities), offsets, last));
  }
}
