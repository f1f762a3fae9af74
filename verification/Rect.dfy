/**
  The memory into which the server reads a rectangle of a buffer.

  Its size is computed from the region and the pitches of the host's layout, in 64-bit arithmetic.
  The driver stores byte (x, y, z) of the region at the offset that section 5.2.2 of OpenCL 1.2
  gives; it had better be within that memory.
 */
module Rectangles {
  import opened Bytes

  const WORD64: nat := 0x1_0000_0000_0000_0000

  /** The fields of the request that describe the host's layout, all of 32 bits. */
  datatype Rect = Rect(origin: (word, word, word), region: (word, word, word), hostRowPitch: word, hostSlicePitch: word)

  /** The size of the server's memory, as the server computes it. */
  function DataSize(r: Rect): nat {
    var rowPitch := if r.hostRowPitch > 0 then r.hostRowPitch else r.region.0;
    var slicePitch := if r.hostSlicePitch > 0 then r.hostSlicePitch else r.region.1 * rowPitch;
    slicePitch * r.region.2 % WORD64
  }

  // ---- the layout that the driver uses ----

  /** The driver steps from row to row by `row` bytes and from slice to slice by `slice`. */
  ghost predicate Steps(r: Rect, row: nat, slice: nat) {
    && (r.hostRowPitch != 0 ==> row == r.hostRowPitch)
    && (r.hostRowPitch == 0 ==> row == r.region.0)
    && (r.hostSlicePitch != 0 ==> slice == r.hostSlicePitch)
    && (r.hostSlicePitch == 0 ==> slice == r.region.1 * row)
  }

  /** No dimension is zero, and no step is smaller than what it steps over. */
  ghost predicate Legal(r: Rect, row: nat, slice: nat) {
    && Steps(r, row, slice)
    && r.region.0 > 0 && r.region.1 > 0 && r.region.2 > 0
    && r.region.0 <= row && r.region.1 * row <= slice
  }

  ghost predicate InRegion(r: Rect, x: nat, y: nat, z: nat) {
    x < r.region.0 && y < r.region.1 && z < r.region.2
  }

  /** Where the driver stores byte (x, y, z) of the region. */
  function Offset(r: Rect, row: nat, slice: nat, x: nat, y: nat, z: nat): int {
    (r.origin.2 + z) * slice + (r.origin.1 + y) * row + r.origin.0 + x
  }

  ghost predicate Inside(r: Rect, row: nat, slice: nat) {
    forall x, y, z :: InRegion(r, x, y, z) ==> Offset(r, row, slice, x, y, z) < DataSize(r)
  }

  ghost predicate Injective(r: Rect, row: nat, slice: nat) {
    forall x, y, z, x', y', z' | InRegion(r, x, y, z) && InRegion(r, x', y', z') ::
      Offset(r, row, slice, x, y, z) == Offset(r, row, slice, x', y', z') ==>
      x == x' && y == y' && z == z'
  }

  /** The size in terms of the fields: by the pitch that is given, or by the region alone. */
  lemma DataSizeIs(r: Rect)
    ensures r.hostSlicePitch != 0 ==> DataSize(r) == r.hostSlicePitch * r.region.2 % 0x1_0000_0000_0000_0000
    ensures r.hostSlicePitch == 0 && r.hostRowPitch != 0 ==>
      DataSize(r) == r.region.1 * r.hostRowPitch * r.region.2 % 0x1_0000_0000_0000_0000
    ensures r.hostSlicePitch == 0 && r.hostRowPitch == 0 ==>
      DataSize(r) == r.region.1 * r.region.0 * r.region.2 % 0x1_0000_0000_0000_0000
  {
  }

  lemma DataSizeBySteps(r: Rect, row: nat, slice: nat)
    requires Steps(r, row, slice)
    ensures DataSize(r) == slice * r.region.2 % WORD64
  {
  }

  lemma Product(a: nat, b: nat, c: nat, d: nat)
    requires a <= b && c <= d
    ensures a * c <= b * d
  {
    assert a * c <= b * c <= b * d;
  }

  lemma StepsFit(r: Rect, row: nat, slice: nat)
    requires Legal(r, row, slice)
    ensures 0 < row < 0x1_0000_0000 && 0 < r.region.1 * row && 0 < slice < WORD64
  {
    Product(1, r.region.1, 1, row);
    Product(r.region.1, 0xFFFF_FFFF, row, 0xFFFF_FFFF);
  }

  /** Quotient and remainder determine a number, and are determined by it. */
  lemma Unique(pitch: nat, a: nat, p: nat, b: nat, q: nat)
    requires p < pitch && q < pitch && a * pitch + p == b * pitch + q
    ensures a == b && p == q
  {
    assert a < b ==> (a + 1) * pitch <= b * pitch;
    assert b < a ==> (b + 1) * pitch <= a * pitch;
  }

  /** The part of a row and its column within one slice. */
  lemma InSlice(r: Rect, row: nat, slice: nat, x: nat, y: nat)
    requires Legal(r, row, slice) && x < r.region.0 && y < r.region.1
    ensures y * row + x < r.region.1 * row <= slice
  {
    Product(y + 1, r.region.1, row, row);
    assert (y + 1) * row == y * row + row;
  }

  lemma SamePlace(slice: nat, row: nat, x: nat, y: nat, z: nat, x': nat, y': nat, z': nat)
    requires x < row && x' < row && y * row + x < slice && y' * row + x' < slice
    requires z * slice + y * row + x == z' * slice + y' * row + x'
    ensures x == x' && y == y' && z == z'
  {
    Unique(slice, z, y * row + x, z', y' * row + x');
    Unique(row, y, x, y', x');
  }

  lemma SameOffset(r: Rect, row: nat, slice: nat, x: nat, y: nat, z: nat, x': nat, y': nat, z': nat)
    requires Legal(r, row, slice) && InRegion(r, x, y, z) && InRegion(r, x', y', z')
    requires Offset(r, row, slice, x, y, z) == Offset(r, row, slice, x', y', z')
    ensures x == x' && y == y' && z == z'
  {
    InSlice(r, row, slice, x, y);
    InSlice(r, row, slice, x', y');
    FromOrigin(r.origin.2, z, slice);
    FromOrigin(r.origin.2, z', slice);
    FromOrigin(r.origin.1, y, row);
    FromOrigin(r.origin.1, y', row);
    SamePlace(slice, row, x, y, z, x', y', z');
  }

  lemma FromOrigin(origin: nat, n: nat, step: nat)
    ensures (origin + n) * step == origin * step + n * step
  {
  }

  /** The greatest offset, plus one. */
  function Extent(r: Rect, row: nat, slice: nat): int {
    (r.origin.2 + r.region.2 - 1) * slice + (r.origin.1 + r.region.1 - 1) * row + r.origin.0 + r.region.0
  }

  lemma InsideIffExtent(r: Rect, row: nat, slice: nat)
    requires Legal(r, row, slice)
    ensures Inside(r, row, slice) <==> Extent(r, row, slice) <= DataSize(r)
  {
    var x, y, z := r.region.0 - 1, r.region.1 - 1, r.region.2 - 1;
    assert InRegion(r, x, y, z) && Offset(r, row, slice, x, y, z) == Extent(r, row, slice) - 1;
    forall x', y', z' | InRegion(r, x', y', z')
      ensures Offset(r, row, slice, x', y', z') < Extent(r, row, slice)
    {
      Product(r.origin.2 + z', r.origin.2 + z, slice, slice);
      Product(r.origin.1 + y', r.origin.1 + y, row, row);
    }
  }

  /** No two bytes of the region share a place, wherever it starts. */
  lemma OffsetsAreInjective(r: Rect, row: nat, slice: nat)
    requires Legal(r, row, slice)
    ensures Injective(r, row, slice)
  {
    forall x: nat, y: nat, z: nat, x': nat, y': nat, z': nat |
      && InRegion(r, x, y, z) && InRegion(r, x', y', z')
      && Offset(r, row, slice, x, y, z) == Offset(r, row, slice, x', y', z')
      ensures x == x' && y == y' && z == z'
    {
      SameOffset(r, row, slice, x, y, z, x', y', z');
    }
  }

  /**
    With the host's origin at zero and legal pitches, every byte of the region has a place of its own
    inside the memory, exactly if the size does not overflow 64 bits.
   */
  lemma RegionInsideIffNoOverflow(r: Rect, row: nat, slice: nat)
    requires Legal(r, row, slice) && r.origin == (0, 0, 0)
    ensures (forall x, y, z :: InRegion(r, x, y, z) ==> AtZero(row, slice, x, y, z) < DataSize(r))
      <==> slice * r.region.2 < 0x1_0000_0000_0000_0000
    ensures Injective(r, row, slice)
  {
    OffsetsAreInjective(r, row, slice);
    InsideIffExtent(r, row, slice);
    StepsFit(r, row, slice);
    InSlice(r, row, slice, r.region.0 - 1, r.region.1 - 1);
    ExtentAtZero(r, row, slice);
    DataSizeBySteps(r, row, slice);
    OverflowShrinks(slice, r.region.2, (r.region.1 - 1) * row + r.region.0);
    assert forall x, y, z :: Offset(r, row, slice, x, y, z) == AtZero(row, slice, x, y, z);
  }

  /** The place of a byte when the host's origin is zero. */
  function AtZero(row: nat, slice: nat, x: nat, y: nat, z: nat): int { z * slice + y * row + x }

  lemma ExtentAtZero(r: Rect, row: nat, slice: nat)
    requires r.origin == (0, 0, 0)
    ensures Extent(r, row, slice) == (r.region.2 - 1) * slice + ((r.region.1 - 1) * row + r.region.0)
  {
  }

  /** A region of `n` slices, the last of which extends to `a`. */
  lemma OverflowShrinks(s: nat, n: nat, a: nat)
    requires 0 < a <= s < WORD64 && n > 0
    ensures (n - 1) * s + a <= s * n % WORD64 <==> s * n < WORD64
  {
    assert s * n == (n - 1) * s + s;
    assert s * n == s * n / WORD64 * WORD64 + s * n % WORD64;
  }

  /**
    The size ignores the host's origin. Wherever the region starts, it is inside the memory only if it
    starts in the first slice and its last row, shifted by the origin, still ends within one slice.
   */
  lemma OriginMustFitTheFirstSlice(r: Rect, row: nat, slice: nat)
    requires Legal(r, row, slice) && slice * r.region.2 < WORD64
    ensures Inside(r, row, slice) <==>
      r.origin.2 == 0 && r.origin.0 + r.region.0 + (r.origin.1 + r.region.1 - 1) * row <= slice
  {
    InsideIffExtent(r, row, slice);
    StepsFit(r, row, slice);
    DataSizeBySteps(r, row, slice);
    FirstSlice(slice, r.region.2, r.origin.2, row, r.origin.1 + r.region.1 - 1, r.origin.0 + r.region.0);
  }

  lemma FirstSlice(s: nat, n: nat, o: nat, row: nat, y: nat, x: nat)
    requires s > 0 && n > 0 && x > 0
    ensures (o + n - 1) * s + y * row + x <= s * n <==> o == 0 && x + y * row <= s
  {
    Product(0, y, 0, row);
    assert (o + n - 1) * s == o * s + n * s - s;
    assert o > 0 ==> o * s >= s;
  }

  /** A second slice of a region that starts at slice 1 is outside. */
  lemma ShiftedRegionIsOutside()
    ensures var r := Rect((0, 0, 1), (1, 1, 1), 0, 0); Legal(r, 1, 1) && !Inside(r, 1, 1)
  {
    var r := Rect((0, 0, 1), (1, 1, 1), 0, 0);
    assert DataSize(r) == 1;
    OriginMustFitTheFirstSlice(r, 1, 1);
  }
}
