/** Choosing the listhead a Bcb is linked on (GetBcbListHead in cc.h).

    A Shared Cache Map normally keeps all its Bcbs on the single list
    `BcbList`. For a section larger than BEGIN_BCB_LIST_ARRAY whose
    modified writing is disabled, the Bcbs are instead spread over an array
    of listheads placed straight after the Vacb array, one listhead per
    SIZE_PER_BCB_LIST bytes. The listhead for file offset `Off` is found by
    shifting `SectionSize + Off` right by BCB_LIST_SHIFT and using the
    result as an index of listheads counted from the start of the Vacb
    array.

    VACB_OFFSET_SHIFT (and so VACB_MAPPING_GRANULARITY, which is two to
    that power) is defined outside cc.h; it is the parameter `offsetShift`
    here. */
module BcbListHeads {
  import opened CcFlags

  /** Sections larger than this many bytes may use the listhead array. */
  const BEGIN_BCB_LIST_ARRAY: int := 0x200000

  /** Two to the power `n`. */
  function Pow2(n: nat): (r: nat)
    ensures r >= 1
  {
    if n == 0 then 1 else 2 * Pow2(n - 1)
  }

  /** VACB_MAPPING_GRANULARITY: the size of one view. */
  function VacbMappingGranularity(offsetShift: nat): nat
  {
    Pow2(offsetShift)
  }

  /** SIZE_PER_BCB_LIST: the bytes covered by one listhead, two views. */
  function SizePerBcbList(offsetShift: nat): nat
  {
    VacbMappingGranularity(offsetShift) * 2
  }

  /** BCB_LIST_SHIFT. */
  function BcbListShift(offsetShift: nat): nat
  {
    offsetShift + 1
  }

  /** `x >> n` on a signed 64-bit value: `n` arithmetic shifts by one, each
      halving and rounding towards minus infinity. */
  function ShiftRight(x: int, n: nat): int
    decreases n
  {
    if n == 0 then x else ShiftRight(Half(x), n - 1)
  }

  /** One arithmetic shift right: the floor of half of `x` (Euclidean
      division by the positive 2 rounds down for negative `x` too). */
  function Half(x: int): (r: int)
    ensures 2 * r <= x <= 2 * r + 1
  {
    x / 2
  }

  /** The listhead chosen: the Shared Cache Map's own `BcbList`, or the
      listhead at `index` counted in listheads from the start of the Vacb
      array. */
  datatype ListHead = BcbList | BcbListArray(index: int)

  /** The listhead array is in use for this section. */
  predicate UsesListArray(sectionSize: int, flags: bv32)
  {
    sectionSize > BEGIN_BCB_LIST_ARRAY && FlagOn(flags, MODIFIED_WRITE_DISABLED) != 0
  }

  /** GetBcbListHead(SCM, OFF) for a map with these `SectionSize` and
      `Flags`. Where the result lies is stated by the lemmas below. */
  function GetBcbListHead(sectionSize: int, flags: bv32, off: int, offsetShift: nat): (r: ListHead)
    ensures r.BcbListArray? <==> UsesListArray(sectionSize, flags)
  {
    if UsesListArray(sectionSize, flags) then
      BcbListArray(ShiftRight(sectionSize + off, BcbListShift(offsetShift)))
    else
      BcbList
  }

  /** Shifting right by `n` is the floor of the division by two to the
      `n`: the result is the index of the `Pow2(n)`-sized chunk that holds
      `x`. */
  lemma {:induction false} ShiftRightIsChunk(x: int, n: nat)
    ensures Pow2(n) * ShiftRight(x, n) <= x < Pow2(n) * (ShiftRight(x, n) + 1)
    decreases n
  {
    if n > 0 {
      var y, q := Half(x), ShiftRight(Half(x), n - 1);
      ShiftRightIsChunk(y, n - 1);
      var m := Pow2(n - 1);
      assert m * q <= y < m * (q + 1);
      assert y + 1 <= m * (q + 1);
      calc {
        Pow2(n) * q;
        2 * (m * q);
      <= 2 * y;
      <= x;
      }
      calc {
        x;
      <= 2 * y + 1;
      < 2 * (y + 1);
      <= 2 * (m * (q + 1));
        Pow2(n) * (q + 1);
      }
    }
  }

  /** Multiplying by a non-negative factor keeps the order. */
  lemma MulMonotone(a: int, b: int, c: int)
    requires a >= 0
    ensures b <= c ==> a * b <= a * c
  {
    if b <= c {
      assert a * c == a * b + a * (c - b);
    }
  }

  /** An index with the chunk property is the only one: `k` is the chunk of
      `x` for chunks of size `a` in exactly one way. */
  lemma ChunkIsUnique(x: int, a: int, k: int, j: int)
    requires a > 0
    requires a * k <= x < a * (k + 1)
    requires a * j <= x < a * (j + 1)
    ensures k == j
  {
    MulMonotone(a, k + 1, j);
    MulMonotone(a, j + 1, k);
  }

  /** The shift agrees with Euclidean division by the chunk size, so the
      listhead index is `(SectionSize + Off) / SIZE_PER_BCB_LIST`. */
  lemma ShiftRightIsDivision(x: int, n: nat)
    ensures ShiftRight(x, n) == x / Pow2(n)
  {
    ShiftRightIsChunk(x, n);
    var a := Pow2(n);
    assert a * (x / a) <= x < a * (x / a + 1) by {
      assert x == a * (x / a) + x % a;
    }
    ChunkIsUnique(x, a, ShiftRight(x, n), x / a);
  }

  /** BCB_LIST_SHIFT is the shift for SIZE_PER_BCB_LIST, and with the
      256 KB views of this cache manager each listhead covers 512 KB. */
  lemma ListShiftMatchesListSize(offsetShift: nat)
    ensures Pow2(BcbListShift(offsetShift)) == SizePerBcbList(offsetShift)
    ensures offsetShift == 18 ==> SizePerBcbList(offsetShift) == 0x80000
  {
    if offsetShift == 18 {
      assert Pow2(18) == 0x40000 by {
        assert Pow2(8) == 256;
        assert Pow2(16) == 4 * 4 * Pow2(12) == 0x10000;
      }
    }
  }

  /** In the array case the chosen listhead is the one whose
      SIZE_PER_BCB_LIST-sized chunk holds `SectionSize + Off`. */
  lemma ListHeadCoversOffset(sectionSize: int, flags: bv32, off: int, offsetShift: nat)
    requires UsesListArray(sectionSize, flags)
    ensures var r := GetBcbListHead(sectionSize, flags, off, offsetShift);
            var size := SizePerBcbList(offsetShift);
            r.BcbListArray? && size * r.index <= sectionSize + off < size * (r.index + 1)
  {
    ListShiftMatchesListSize(offsetShift);
    ShiftRightIsChunk(sectionSize + off, BcbListShift(offsetShift));
  }

  /** Outside the array case every offset shares the one `BcbList`. */
  lemma SingleListForSmallSections(sectionSize: int, flags: bv32, off: int, offsetShift: nat)
    requires !UsesListArray(sectionSize, flags)
    ensures GetBcbListHead(sectionSize, flags, off, offsetShift) == BcbList
  {
  }

  /** Greater offsets never map to lower listheads, so a walk through the
      file in ascending order walks the listheads in ascending order. */
  lemma ListHeadMonotone(sectionSize: int, flags: bv32, off1: int, off2: int, offsetShift: nat)
    requires UsesListArray(sectionSize, flags) && off1 <= off2
    ensures GetBcbListHead(sectionSize, flags, off1, offsetShift).index <= GetBcbListHead(sectionSize, flags, off2, offsetShift).index
  {
    var size := SizePerBcbList(offsetShift);
    ListHeadCoversOffset(sectionSize, flags, off1, offsetShift);
    ListHeadCoversOffset(sectionSize, flags, off2, offsetShift);
    var k1 := GetBcbListHead(sectionSize, flags, off1, offsetShift).index;
    var k2 := GetBcbListHead(sectionSize, flags, off2, offsetShift).index;
    MulMonotone(size, k2 + 1, k1);
  }

  /** Two offsets share a listhead exactly when `SectionSize + Off` falls
      in the same SIZE_PER_BCB_LIST-sized chunk for both. */
  lemma SameListHeadIffSameChunk(sectionSize: int, flags: bv32, off1: int, off2: int, offsetShift: nat)
    requires UsesListArray(sectionSize, flags)
    ensures var size := SizePerBcbList(offsetShift);
            GetBcbListHead(sectionSize, flags, off1, offsetShift) == GetBcbListHead(sectionSize, flags, off2, offsetShift)
            <==> (sectionSize + off1) / size == (sectionSize + off2) / size
  {
    ListShiftMatchesListSize(offsetShift);
    ShiftRightIsDivision(sectionSize + off1, BcbListShift(offsetShift));
    ShiftRightIsDivision(sectionSize + off2, BcbListShift(offsetShift));
  }

  /** Adding whole chunks to an offset moves its chunk by that many. */
  lemma ChunkOfAlignedSum(size: int, c: int, off: int)
    requires size > 0
    ensures (size * c + off) / size == c + off / size
  {
    var o := off / size;
    assert off == size * o + off % size;
    assert size * (c + o) == size * c + size * o;
    assert size * (c + o + 1) == size * (c + o) + size;
    assert size * ((size * c + off) / size) <= size * c + off < size * ((size * c + off) / size + 1) by {
      assert size * c + off == size * ((size * c + off) / size) + (size * c + off) % size;
    }
    ChunkIsUnique(size * c + off, size, (size * c + off) / size, c + o);
  }

  /** For a section whose size is a whole number of listhead chunks, the
      listhead of an offset inside the section is the one `Off /
      SIZE_PER_BCB_LIST` places after index `SectionSize /
      SIZE_PER_BCB_LIST`, the first listhead past the Vacb array. */
  lemma ListHeadIndexInArray(sectionSize: int, flags: bv32, off: int, offsetShift: nat)
    requires UsesListArray(sectionSize, flags)
    requires sectionSize % SizePerBcbList(offsetShift) == 0
    requires 0 <= off < sectionSize
    ensures var size := SizePerBcbList(offsetShift);
            var r := GetBcbListHead(sectionSize, flags, off, offsetShift);
            && r.index == sectionSize / size + off / size
            && sectionSize / size <= r.index < 2 * (sectionSize / size)
  {
    var size := SizePerBcbList(offsetShift);
    var c := sectionSize / size;
    assert sectionSize == size * c;
    ListShiftMatchesListSize(offsetShift);
    ShiftRightIsDivision(sectionSize + off, BcbListShift(offsetShift));
    ChunkOfAlignedSum(size, c, off);
    ChunkOfAlignedSum(size, 0, off);
    MulMonotone(size, c, off / size);
    assert size * (off / size) <= off by {
      assert off == size * (off / size) + off % size;
    }
  }
}
