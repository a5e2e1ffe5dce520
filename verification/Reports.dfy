/** Missing-block reports: the bitmaps of include/protocol.hpp, the report a receiver builds
    (src/receiver.cpp) and the check the proxy applies to it (src/sender.cpp). */
module Reports {
  import opened Common

  datatype StatusCode = Missing | Complete | Failed

  /** SECTION_STATUS. */
  datatype SectionStatus = SectionStatus(
    transferId: uint64, sectionId: uint32, roundId: uint32,
    code: StatusCode, missingCount: uint32, bitmap: Bytes)

  // ----- Bitmaps

  /** `1U << bit` for a bit of one byte. */
  function Mask(bit: nat): bv8
    requires bit < 8
  {
    match bit
    case 0 => 0x01
    case 1 => 0x02
    case 2 => 0x04
    case 3 => 0x08
    case 4 => 0x10
    case 5 => 0x20
    case 6 => 0x40
    case _ => 0x80
  }

  predicate HasBit(byte: bv8, bit: nat)
    requires bit < 8
  {
    byte & Mask(bit) != 0
  }

  function BitmapSize(blocks: nat): nat {
    (blocks + 7) / 8
  }

  function BitmapTest(bitmap: Bytes, block: nat): Result<bool> {
    if block / 8 >= |bitmap| then Thrown else Ok(HasBit(bitmap[block / 8], block % 8))
  }

  /** `bitmap_test` on an index known to be inside the bitmap. */
  predicate Marked(bitmap: Bytes, block: nat) {
    BitmapTest(bitmap, block) == Ok(true)
  }

  lemma SetOneBit(byte: bv8, bit: nat, other: nat)
    requires bit < 8 && other < 8
    ensures HasBit(byte | Mask(bit), other) <==> other == bit || HasBit(byte, other)
  {
  }

  method BitmapSet(bitmap: array<bv8>, block: nat) returns (ok: bool)
    modifies bitmap
    ensures ok <==> block / 8 < bitmap.Length
    ensures !ok ==> bitmap[..] == old(bitmap[..])
    ensures ok ==> forall k :: 0 <= k < 8 * bitmap.Length ==>
              (Marked(bitmap[..], k) <==> k == block || old(Marked(bitmap[..], k)))
  {
    var byte, bit := block / 8, block % 8;
    if byte >= bitmap.Length {
      return false;
    }
    ghost var before := bitmap[byte];
    bitmap[byte] := bitmap[byte] | Mask(bit);
    forall k | 0 <= k < 8 * bitmap.Length
      ensures Marked(bitmap[..], k) <==> k == block || old(Marked(bitmap[..], k))
    {
      SetOneBit(before, bit, k % 8);
    }
    return true;
  }

  /** Number of marked blocks among the first `n`. */
  function CountMarked(bitmap: Bytes, n: nat): (count: nat)
    ensures count <= n
    decreases n
  {
    if n == 0 then 0
    else CountMarked(bitmap, n - 1) + if Marked(bitmap, n - 1) then 1 else 0
  }

  // ----- The receiver's report

  /** `bitmap` marks exactly the blocks of the window `received[first..first+n]` that are not received. */
  ghost predicate Reports(bitmap: Bytes, received: seq<bool>, first: nat, n: nat)
    requires first + n <= |received|
  {
    && |bitmap| == BitmapSize(n)
    && forall k :: 0 <= k < 8 * |bitmap| ==>
         (Marked(bitmap, k) <==> k < n && !received[first + k])
  }

  function CountUnreceived(received: seq<bool>, first: nat, n: nat): (count: nat)
    requires first + n <= |received|
    ensures count <= n
    decreases n
  {
    if n == 0 then 0
    else CountUnreceived(received, first, n - 1) + if received[first + n - 1] then 0 else 1
  }

  method MakeMissingBitmap(received: seq<bool>, first: nat, n: nat) returns (bitmap: Bytes, missingCount: nat)
    requires first + n <= |received|
    ensures Reports(bitmap, received, first, n)
    ensures missingCount == CountUnreceived(received, first, n)
  {
    var bytes := new bv8[BitmapSize(n)](_ => 0);
    missingCount := 0;
    var local := 0;
    while local < n
      invariant 0 <= local <= n
      invariant missingCount == CountUnreceived(received, first, local)
      invariant forall k :: 0 <= k < 8 * bytes.Length ==>
                  (Marked(bytes[..], k) <==> k < local && !received[first + k])
    {
      if !received[first + local] {
        var ok := BitmapSet(bytes, local);
        missingCount := missingCount + 1;
      }
      local := local + 1;
    }
    bitmap := bytes[..];
  }

  // ----- The proxy's check

  /** The bits of the last byte beyond block `n - 1`. */
  ghost predicate UnusedBitsClear(bitmap: Bytes, n: nat) {
    forall k :: n <= k < 8 * |bitmap| ==> !Marked(bitmap, k)
  }

  ghost predicate WellFormed(status: SectionStatus, n: nat) {
    if status.code == Missing then
      && |status.bitmap| == BitmapSize(n)
      && UnusedBitsClear(status.bitmap, n)
      && status.missingCount == CountMarked(status.bitmap, n)
      && status.missingCount != 0
    else
      status.missingCount == 0 && status.bitmap == []
  }

  function UnusedMask(usedBits: nat): bv8
    requires 0 < usedBits < 8
  {
    match usedBits
    case 1 => 0xfe
    case 2 => 0xfc
    case 3 => 0xf8
    case 4 => 0xf0
    case 5 => 0xe0
    case 6 => 0xc0
    case _ => 0x80
  }

  lemma UnusedMaskCovers(byte: bv8, usedBits: nat)
    requires 0 < usedBits < 8
    ensures byte & UnusedMask(usedBits) == 0 <==> forall bit :: usedBits <= bit < 8 ==> !HasBit(byte, bit)
  {
    assert forall bit :: usedBits <= bit < 8 ==> HasBit(byte, bit) ==> byte & UnusedMask(usedBits) != 0;
    if byte & UnusedMask(usedBits) != 0 {
      assert HasBit(byte, 7) || HasBit(byte, 6) || HasBit(byte, 5) || HasBit(byte, 4)
          || HasBit(byte, 3) || HasBit(byte, 2) || HasBit(byte, 1);
    }
  }

  lemma UnusedBitsOfLastByte(bitmap: Bytes, n: nat)
    requires |bitmap| == BitmapSize(n) && n % 8 != 0
    ensures UnusedBitsClear(bitmap, n) <==> bitmap[|bitmap| - 1] & UnusedMask(n % 8) == 0
  {
    var last := bitmap[|bitmap| - 1];
    UnusedMaskCovers(last, n % 8);
    assert |bitmap| - 1 == n / 8;
    forall k | n <= k < 8 * |bitmap|
      ensures k / 8 == n / 8 && n % 8 <= k % 8 && (Marked(bitmap, k) <==> HasBit(last, k % 8))
    {
    }
    if UnusedBitsClear(bitmap, n) {
      forall bit | n % 8 <= bit < 8 ensures !HasBit(last, bit) {
        var k := n / 8 * 8 + bit;
        assert !Marked(bitmap, k);
      }
    }
  }

  method ValidateMissingBitmap(status: SectionStatus, sectionBlocks: uint32) returns (ok: bool)
    ensures ok <==> WellFormed(status, sectionBlocks)
  {
    var expected := BitmapSize(sectionBlocks);
    if status.code == Missing {
      if |status.bitmap| != expected || status.missingCount == 0 {
        return false;
      }
      var counted := 0;
      var local := 0;
      while local < sectionBlocks
        invariant 0 <= local <= sectionBlocks
        invariant counted == CountMarked(status.bitmap, local)
      {
        if HasBit(status.bitmap[local / 8], local % 8) {
          counted := counted + 1;
        }
        local := local + 1;
      }
      if sectionBlocks % 8 != 0 && status.bitmap != [] {
        UnusedBitsOfLastByte(status.bitmap, sectionBlocks);
        if status.bitmap[|status.bitmap| - 1] & UnusedMask(sectionBlocks % 8) != 0 {
          return false;
        }
      }
      return counted == status.missingCount;
    }
    return status.missingCount == 0 && status.bitmap == [];
  }

  // ----- Fidelity

  lemma {:induction false} CountsAgree(bitmap: Bytes, received: seq<bool>, first: nat, total: nat, n: nat)
    requires n <= total && first + total <= |received| && Reports(bitmap, received, first, total)
    ensures CountMarked(bitmap, n) == CountUnreceived(received, first, n)
    decreases n
  {
    if n > 0 {
      CountsAgree(bitmap, received, first, total, n - 1);
      assert n - 1 < 8 * |bitmap|;
    }
  }

  /** The report a receiver builds for an incomplete section is always accepted by the proxy's
      check, and reading it back block by block gives exactly the blocks the receiver lacks. */
  lemma ReportAccepted(status: SectionStatus, received: seq<bool>, first: nat, n: nat)
    requires first + n <= |received| && status.code == Missing
    requires Reports(status.bitmap, received, first, n)
    requires status.missingCount == CountUnreceived(received, first, n) != 0
    ensures WellFormed(status, n)
    ensures forall k :: 0 <= k < n ==> BitmapTest(status.bitmap, k) == Ok(!received[first + k])
  {
    CountsAgree(status.bitmap, received, first, n, n);
    forall k | 0 <= k < n ensures BitmapTest(status.bitmap, k) == Ok(!received[first + k]) {
      assert Marked(status.bitmap, k) <==> !received[first + k];
    }
  }

  /** A section is complete exactly when nothing is counted. */
  lemma {:induction false} NoneUnreceived(received: seq<bool>, first: nat, n: nat)
    requires first + n <= |received|
    ensures CountUnreceived(received, first, n) == 0 <==> forall k :: first <= k < first + n ==> received[k]
    decreases n
  {
    if n > 0 {
      NoneUnreceived(received, first, n - 1);
    }
  }
}
