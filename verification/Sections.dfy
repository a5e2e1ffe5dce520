/** Blocks, sections and byte ranges: the 32-bit arithmetic of include/protocol.hpp, the block
    geometry of include/file_io.hpp and the section sizes the proxy's dispatch queue counts. */
module Sections {
  import opened Common

  const PAYLOAD_SIZE := 1200

  // ----- The source's operations, wrap-around included

  function SectionIdForBlock(block: uint32, sectionBlocks: uint32): Result<uint32> {
    if sectionBlocks == 0 then Thrown else Ok(block / sectionBlocks)
  }

  function SectionFirstBlock(section: uint32, sectionBlocks: uint32): Result<uint32> {
    if sectionBlocks == 0 then Thrown else Ok(section * sectionBlocks % U32)
  }

  function SectionCount(totalBlocks: uint32, sectionBlocks: uint32): Result<uint32> {
    if sectionBlocks == 0 then Thrown
    else if totalBlocks == 0 then Ok(0)
    else Ok(WrappedQuotient(totalBlocks + sectionBlocks - 1, sectionBlocks))
  }

  /** 32-bit unsigned division of a sum that has wrapped. */
  function WrappedQuotient(sum: nat, divisor: uint32): (q: uint32)
    requires divisor > 0
  {
    QuotientFits(sum % U32, divisor);
    sum % U32 / divisor
  }

  function SectionBlockCount(totalBlocks: uint32, section: uint32, sectionBlocks: uint32): Result<uint32> {
    var first :- SectionFirstBlock(section, sectionBlocks);
    if first >= totalBlocks then Thrown
    else Ok(Min(sectionBlocks, totalBlocks - first))
  }

  lemma QuotientFits(n: uint32, d: uint32)
    requires d > 0
    ensures 0 <= n / d < U32
  {
  }

  /** Block count announced for a file: 64-bit arithmetic, wrapped. */
  function ExpectedBlocks(fileSize: uint64): nat {
    (fileSize + PAYLOAD_SIZE - 1) % U64 / PAYLOAD_SIZE
  }

  function BlockOffset(block: nat): nat {
    block * PAYLOAD_SIZE
  }

  /** The payload size of a block, for blocks that start inside the file. */
  function BlockSize(fileSize: uint64, block: nat): nat
    requires BlockOffset(block) <= fileSize
  {
    Min(PAYLOAD_SIZE, fileSize - BlockOffset(block))
  }

  // ----- Geometry of one accepted transfer

  datatype Geometry = Geometry(fileSize: uint64, totalBlocks: uint32, sectionBlocks: uint32)

  /** The payload size of a block; blocks past the end of the file have none. */
  function BlockSizeOf(g: Geometry, block: nat): nat {
    if BlockOffset(block) <= g.fileSize then BlockSize(g.fileSize, block) else 0
  }

  /** What FILE_META admission checks. */
  predicate Admitted(g: Geometry) {
    g.sectionBlocks != 0 && ExpectedBlocks(g.fileSize) == g.totalBlocks
  }

  /** The bounds under which no sum of the geometry wraps. */
  predicate Bounded(g: Geometry) {
    1 <= g.totalBlocks && 1 <= g.sectionBlocks
    && g.totalBlocks + g.sectionBlocks - 1 < U32
    && g.fileSize + PAYLOAD_SIZE - 1 < U64
  }

  predicate Valid(g: Geometry) {
    Admitted(g) && Bounded(g)
  }

  function Count(g: Geometry): nat
    requires g.sectionBlocks != 0
  {
    SectionCount(g.totalBlocks, g.sectionBlocks).value
  }

  /** First block of a section, without wrap-around. */
  function First(g: Geometry, section: nat): nat {
    section * g.sectionBlocks
  }

  /** One past the last block of a section. */
  function End(g: Geometry, section: nat): nat {
    Min(g.totalBlocks, First(g, section) + g.sectionBlocks)
  }

  predicate InSection(g: Geometry, section: nat, block: nat) {
    First(g, section) <= block < End(g, section)
  }

  // ----- Nonlinear facts

  lemma QuotientBounds(n: nat, d: nat)
    requires d > 0
    ensures n / d * d <= n < (n / d + 1) * d
  {
  }

  lemma QuotientIs(n: nat, d: nat, q: nat)
    requires d > 0 && q * d <= n < (q + 1) * d
    ensures n / d == q
  {
    QuotientBounds(n, d);
    if n / d < q {
      MulMonotone(n / d + 1, q, d);
    } else if q < n / d {
      MulMonotone(q + 1, n / d, d);
    }
  }

  lemma MulMonotone(a: nat, b: nat, d: nat)
    requires a <= b
    ensures a * d <= b * d
  {
  }

  // ----- Sections tile the blocks

  lemma CountIsCeiling(g: Geometry)
    requires Bounded(g)
    ensures Count(g) >= 1
    ensures First(g, Count(g) - 1) < g.totalBlocks <= First(g, Count(g))
  {
    var n, d := g.totalBlocks + g.sectionBlocks - 1, g.sectionBlocks;
    assert n % U32 == n;
    assert Count(g) == n / d;
    QuotientBounds(n, d);
    QuotientIs(d, d, 1);
    if n / d == 0 {
      assert false;
    }
    assert (n / d - 1) * d == n / d * d - d;
  }

  /** In-range section ids never wrap: the 32-bit first block and block count are the exact ones. */
  lemma InRangeIsExact(g: Geometry, section: nat)
    requires Bounded(g) && section < Count(g)
    ensures First(g, section) < g.totalBlocks && section < U32
    ensures SectionFirstBlock(section, g.sectionBlocks) == Ok(First(g, section))
    ensures SectionBlockCount(g.totalBlocks, section, g.sectionBlocks)
         == Ok(End(g, section) - First(g, section))
    ensures First(g, section) < End(g, section)
  {
    CountIsCeiling(g);
    MulMonotone(section, Count(g) - 1, g.sectionBlocks);
    MulMonotone(1, g.sectionBlocks, section);
    var first := section * g.sectionBlocks;
    assert first == First(g, section);
    assert first % U32 == first;
  }

  lemma DividedBounds(g: Geometry, block: nat)
    requires g.sectionBlocks > 0
    ensures var q := block / g.sectionBlocks; First(g, q) <= block < First(g, q + 1)
  {
    QuotientBounds(block, g.sectionBlocks);
  }

  lemma FirstMonotone(g: Geometry, a: nat, b: nat)
    requires a <= b
    ensures First(g, a) <= First(g, b)
  {
    MulMonotone(a, b, g.sectionBlocks);
  }

  lemma DividedBlockIsInside(g: Geometry, block: nat)
    requires Bounded(g) && block < g.totalBlocks
    ensures var q := block / g.sectionBlocks; q < Count(g) && InSection(g, q, block)
  {
    hide First;
    var q := block / g.sectionBlocks;
    CountIsCeiling(g);
    DividedBounds(g, block);
    NextFirst(g, q);
    if q >= Count(g) {
      FirstMonotone(g, Count(g), q);
    }
  }

  lemma NextFirst(g: Geometry, section: nat)
    ensures First(g, section + 1) == First(g, section) + g.sectionBlocks
  {
  }

  lemma InsideIsDivided(g: Geometry, block: nat, section: nat)
    requires g.sectionBlocks > 0 && InSection(g, section, block)
    ensures block / g.sectionBlocks == section
  {
    NextFirst(g, section);
    QuotientIs(block, g.sectionBlocks, section);
  }

  /** Every block lies in exactly one section: the one its id is divided into. */
  lemma ExactlyOneSection(g: Geometry, block: uint32, section: nat)
    requires Bounded(g) && block < g.totalBlocks
    ensures section < Count(g) && InSection(g, section, block)
       <==> SectionIdForBlock(block, g.sectionBlocks).value == section
  {
    DividedBlockIsInside(g, block);
    if InSection(g, section, block) {
      InsideIsDivided(g, block, section);
    }
  }

  lemma WrappedCountIsZero(totalBlocks: uint32, sectionBlocks: uint32)
    requires 1 <= totalBlocks && 1 <= sectionBlocks && totalBlocks + sectionBlocks - 1 >= U32
    ensures SectionCount(totalBlocks, sectionBlocks).value == 0
  {
    var wrapped := totalBlocks + sectionBlocks - 1 - U32;
    assert (totalBlocks + sectionBlocks - 1) % U32 == wrapped < sectionBlocks;
    QuotientIs(wrapped, sectionBlocks, 0);
  }

  /** The 32-bit section count covers every block exactly when its numerator does not wrap; when it
      wraps the count is zero and the transfer has no section at all. */
  lemma CountCoversIff(totalBlocks: uint32, sectionBlocks: uint32)
    requires 1 <= totalBlocks && 1 <= sectionBlocks
    ensures totalBlocks + sectionBlocks - 1 < U32
       <==> forall block: uint32 :: block < totalBlocks
              ==> SectionIdForBlock(block, sectionBlocks).value < SectionCount(totalBlocks, sectionBlocks).value
    ensures totalBlocks + sectionBlocks - 1 >= U32 <==> SectionCount(totalBlocks, sectionBlocks).value == 0
  {
    if totalBlocks + sectionBlocks - 1 < U32 {
      var g := Geometry(0, totalBlocks, sectionBlocks);
      forall block: uint32 | block < totalBlocks
        ensures SectionIdForBlock(block, sectionBlocks).value < Count(g)
      {
        DividedBlockIsInside(g, block);
      }
      CountIsCeiling(g);
    } else {
      WrappedCountIsZero(totalBlocks, sectionBlocks);
      assert SectionIdForBlock(0, sectionBlocks).value >= 0;
    }
  }

  /** The range check of `section_block_count` looks at the wrapped product: it refuses every
      out-of-range id whose product fits 32 bits, and accepts the others by their residue. */
  lemma RangeCheckIff(g: Geometry, section: uint32)
    requires Bounded(g)
    ensures SectionBlockCount(g.totalBlocks, section, g.sectionBlocks).Ok?
       <==> section * g.sectionBlocks % U32 < g.totalBlocks
    ensures First(g, section) < U32 ==>
            (SectionBlockCount(g.totalBlocks, section, g.sectionBlocks).Ok? <==> section < Count(g))
  {
    CountIsCeiling(g);
    if First(g, section) < U32 {
      assert section * g.sectionBlocks % U32 == First(g, section);
      if section < Count(g) {
        InRangeIsExact(g, section);
      } else {
        MulMonotone(Count(g), section, g.sectionBlocks);
      }
    }
  }

  /** An id far out of range that passes the check: section 2^31 of a transfer with two-block
      sections is taken for section 0. */
  lemma WrappedIdAccepted()
    ensures var g := Geometry(4800, 4, 2);
            Valid(g) && 0x8000_0000 >= Count(g) &&
            SectionBlockCount(4, 0x8000_0000, 2) == SectionBlockCount(4, 0, 2) == Ok(2)
  {
  }

  // ----- Blocks tile the file

  /** Blocks cover the file from front to back, each with 1 to 1200 bytes. */
  lemma BlocksTileFile(g: Geometry, block: uint32)
    requires Valid(g) && block < g.totalBlocks
    ensures BlockOffset(block) < g.fileSize
    ensures 1 <= BlockSize(g.fileSize, block) <= PAYLOAD_SIZE
    ensures BlockOffset(block) + BlockSize(g.fileSize, block)
         == if block + 1 < g.totalBlocks then BlockOffset(block + 1) else g.fileSize
  {
  }

  // ----- Section sizes in bytes

  /** The byte count of one dispatch task. */
  function SectionBytes(g: Geometry, section: nat): int {
    Min((End(g, section) - First(g, section)) * PAYLOAD_SIZE, g.fileSize - First(g, section) * PAYLOAD_SIZE)
  }

  function MaximumSectionBytes(g: Geometry): nat {
    Min(g.fileSize, g.sectionBlocks * PAYLOAD_SIZE)
  }

  function BytesBefore(g: Geometry, section: nat): int
    decreases section
  {
    if section == 0 then 0 else BytesBefore(g, section - 1) + SectionBytes(g, section - 1)
  }

  lemma SectionBytesBounds(g: Geometry, section: nat)
    requires Valid(g) && section < Count(g)
    ensures 1 <= SectionBytes(g, section) <= MaximumSectionBytes(g)
  {
    InRangeIsExact(g, section);
    BlocksTileFile(g, First(g, section));
  }

  lemma {:induction false} BytesBeforeIs(g: Geometry, section: nat)
    requires Valid(g) && section <= Count(g)
    ensures BytesBefore(g, section) == Min(g.fileSize, First(g, section) * PAYLOAD_SIZE)
    decreases section
  {
    if section > 0 {
      BytesBeforeIs(g, section - 1);
      InRangeIsExact(g, section - 1);
      BlocksTileFile(g, End(g, section - 1) - 1);
      assert First(g, section) == First(g, section - 1) + g.sectionBlocks;
    }
  }

  /** The section sizes add up to the file. */
  lemma SectionBytesSum(g: Geometry)
    requires Valid(g)
    ensures BytesBefore(g, Count(g)) == g.fileSize
  {
    CountIsCeiling(g);
    BytesBeforeIs(g, Count(g));
    BlocksTileFile(g, g.totalBlocks - 1);
  }
}
