/** Where the blue bytes of a frame lie: rows of `stride` bytes, four bytes a pixel, padding at the end. */
module FrameLayout {

  /** The blue bytes of the first `width` pixels of row `y`. */
  function RowOffsets(y: nat, stride: nat, blue: nat, width: nat): (offsets: seq<nat>)
    ensures |offsets| == width
  {
    if width == 0 then [] else RowOffsets(y, stride, blue, width - 1) + [y * stride + 4 * (width - 1) + blue]
  }

  /** The blue bytes of the first `height` rows, in the order in which pixels are visited. */
  function Offsets(width: nat, height: nat, stride: nat, blue: nat): seq<nat> {
    if height == 0 then [] else Offsets(width, height - 1, stride, blue) + RowOffsets(height - 1, stride, blue, width)
  }

  ghost predicate Increasing(offsets: seq<nat>) {
    forall i, j | 0 <= i < j < |offsets| :: offsets[i] < offsets[j]
  }

  ghost predicate Within(offsets: seq<nat>, low: int, high: int) {
    forall i | 0 <= i < |offsets| :: low <= offsets[i] < high
  }

  function Address(y: nat, x: nat, stride: nat, channel: nat): nat {
    y * stride + 4 * x + channel
  }

  lemma {:induction false} RowOffsetsAt(y: nat, stride: nat, blue: nat, width: nat, x: nat)
    requires x < width
    ensures RowOffsets(y, stride, blue, width)[x] == Address(y, x, stride, blue)
  {
    if x < width - 1 {
      RowOffsetsAt(y, stride, blue, width - 1, x);
    }
  }

  /** Row `y` follows the rows above it. */
  lemma {:induction false} RowInOffsets(width: nat, height: nat, stride: nat, blue: nat, y: nat)
    requires y < height
    ensures Offsets(width, y, stride, blue) + RowOffsets(y, stride, blue, width) <= Offsets(width, height, stride, blue)
  {
    if y < height - 1 {
      RowInOffsets(width, height - 1, stride, blue, y);
    }
  }

  lemma {:induction false} OffsetsIncrease(width: nat, height: nat, stride: nat, blue: nat)
    requires 4 * width <= stride && blue < 4 && height > 0
    ensures Increasing(Offsets(width, height, stride, blue))
    ensures Within(Offsets(width, height, stride, blue), 0, (height - 1) * stride + 4 * width)
  {
    var row := RowOffsets(height - 1, stride, blue, width);
    forall x | 0 <= x < width ensures row[x] == (height - 1) * stride + 4 * x + blue {
      RowOffsetsAt(height - 1, stride, blue, width, x);
    }
    if height > 1 {
      OffsetsIncrease(width, height - 1, stride, blue);
      assert (height - 2) * stride + stride == (height - 1) * stride;
    }
  }

  lemma RowsAreApart(y: nat, later: nat, stride: nat)
    requires y < later
    ensures y * stride + stride <= later * stride
  {
    var between := later - y - 1;
    assert later * stride == (y + 1 + between) * stride == y * stride + stride + between * stride;
  }

  /** An address names one row and one byte of it. */
  lemma OneAddress(y: nat, r: nat, row: nat, byte: nat, stride: nat)
    requires r < stride && byte < stride && y * stride + r == row * stride + byte
    ensures y == row && r == byte
  {
    if y < row { RowsAreApart(y, row, stride); }
    if row < y { RowsAreApart(row, y, stride); }
  }

  lemma {:induction false} OffsetsAreAddresses(width: nat, height: nat, stride: nat, blue: nat, at: nat)
    requires at in Offsets(width, height, stride, blue)
    ensures exists y, x :: 0 <= y < height && 0 <= x < width && at == Address(y, x, stride, blue)
  {
    hide RowOffsets, Address;
    var row := RowOffsets(height - 1, stride, blue, width);
    if at in row {
      var x :| 0 <= x < width && row[x] == at;
      RowOffsetsAt(height - 1, stride, blue, width, x);
      assert at == Address(height - 1, x, stride, blue);
    } else {
      OffsetsAreAddresses(width, height - 1, stride, blue, at);
    }
  }

  lemma AddressIsAnOffset(width: nat, height: nat, stride: nat, blue: nat, y: nat, x: nat)
    requires y < height && x < width
    ensures Address(y, x, stride, blue) in Offsets(width, height, stride, blue)
  {
    var row, above := RowOffsets(y, stride, blue, width), Offsets(width, y, stride, blue);
    RowOffsetsAt(y, stride, blue, width, x);
    RowInOffsets(width, height, stride, blue, y);
    assert (above + row)[|above| + x] == row[x];
    assert Offsets(width, height, stride, blue)[|above| + x] == row[x];
  }

  /** Byte `r` of row `y` is visited iff it is the blue byte of a pixel: never another channel, never padding. */
  lemma OnlyBlueBytesAreVisited(width: nat, height: nat, stride: nat, blue: nat, y: nat, r: nat)
    requires 4 * width <= stride && blue < 4 && r < stride
    ensures y * stride + r in Offsets(width, height, stride, blue) <==> y < height && r / 4 < width && r % 4 == blue
  {
    hide Offsets;
    var at := y * stride + r;
    if at in Offsets(width, height, stride, blue) {
      OffsetsAreAddresses(width, height, stride, blue, at);
      var row, x :| 0 <= row < height && 0 <= x < width && at == Address(row, x, stride, blue);
      OneAddress(y, r, row, 4 * x + blue, stride);
    }
    if y < height && r / 4 < width && r % 4 == blue {
      AddressIsAnOffset(width, height, stride, blue, y, r / 4);
    }
  }

  lemma RowAddresses(width: nat, height: nat, stride: nat, blue: nat, y: nat)
    requires y < height
    ensures var start := |Offsets(width, y, stride, blue)|; var offsets := Offsets(width, height, stride, blue);
      && start + width == |Offsets(width, y + 1, stride, blue)| <= |offsets|
      && forall x | 0 <= x < width :: offsets[start + x] == Address(y, x, stride, blue)
  {
    RowInOffsets(width, height, stride, blue, y);
    forall x | 0 <= x < width
      ensures Offsets(width, height, stride, blue)[|Offsets(width, y, stride, blue)| + x] == Address(y, x, stride, blue)
    {
      RowOffsetsAt(y, stride, blue, width, x);
      assert (Offsets(width, y, stride, blue)
              + RowOffsets(y, stride, blue, width))[|Offsets(width, y, stride, blue)| + x]
          == RowOffsets(y, stride, blue, width)[x];
    }
  }
}
