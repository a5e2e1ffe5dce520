/** Where each field stands on the wire: the most significant byte of a number comes first, and the
    frames hold their fields in the order and at the widths of include/protocol.hpp. Round trips alone
    would not notice a writer and a reader that agree on another order. */
module WireLayout {
  import opened Common
  import opened Reports
  import opened Messages
  import opened Octets
  import opened Wire
  import opened Codecs

  // ----- Byte order

  lemma Multiple(d: nat, k: int)
    requires k >= 1
    ensures d * k >= d
  {
  }

  lemma Difference(d: nat, a: int, b: int)
    ensures d * a - d * b == d * (a - b)
  {
  }

  lemma NotBelow(d: nat, q: int, r: nat, z: int, s: nat)
    requires d >= 1 && d * q + r == d * z + s && r < d && s < d
    ensures q <= z
  {
    Difference(d, q, z);
    if q - z >= 1 {
      Multiple(d, q - z);
    }
  }

  lemma QuotientIs(value: nat, d: nat, q: nat, r: nat)
    requires d >= 1 && value == d * q + r && r < d
    ensures value / d == q
  {
    var z, s := value / d, value % d;
    assert value == d * z + s;
    NotBelow(d, q, r, z, s);
    NotBelow(d, z, s, q, r);
  }

  lemma Shuffle(b: nat, p: nat)
    ensures 256 * (b * p) == (256 * b) * p
  {
  }

  lemma DivideTwice(value: nat, b: nat)
    requires b >= 1
    ensures (value / 256) / b == value / (256 * b)
  {
    var q := value / 256;
    var p, rest := q / b, 256 * (q % b) + value % 256;
    assert q == b * p + q % b;
    Shuffle(b, p);
    QuotientIs(value, 256 * b, p, rest);
  }

  /** The most significant byte comes first. */
  lemma {:induction false} HighByteFirst(width: nat, value: nat, i: nat)
    requires i < width
    ensures BigEndian(width, value)[i] == ByteOf((value / Pow256(width - 1 - i)) % 256)
    decreases width
  {
    hide ByteOf;
    if i == width - 1 {
      assert value / Pow256(0) == value;
    } else {
      HighByteFirst(width - 1, value / 256, i);
      DivideTwice(value, Pow256(width - 2 - i));
    }
  }

  lemma NextDigit(width: nat, q: nat, b: nat)
    requires b < 256
    ensures BigEndian(width + 1, 256 * q + b) == BigEndian(width, q) + [ByteOf(b)]
  {
    hide ByteOf;
    assert (256 * q + b) / 256 == q && (256 * q + b) % 256 == b;
  }

  lemma TwoBytes(a: nat, b: nat)
    requires a < 256 && b < 256
    ensures BigEndian(2, 256 * a + b) == [ByteOf(a), ByteOf(b)]
  {
    hide BigEndian, ByteOf;
    NextDigit(0, 0, a);
    NextDigit(1, a, b);
  }

  lemma FourBytes(value: nat, a: nat, b: nat, c: nat, d: nat)
    requires a < 256 && b < 256 && c < 256 && d < 256
    requires value == 256 * (256 * (256 * a + b) + c) + d
    ensures BigEndian(4, value) == [ByteOf(a), ByteOf(b), ByteOf(c), ByteOf(d)]
  {
    hide BigEndian, ByteOf;
    var two := 256 * a + b;
    var three := 256 * two + c;
    TwoBytes(a, b);
    NextDigit(2, two, c);
    NextDigit(3, three, d);
    Appended(ByteOf(a), ByteOf(b), ByteOf(c), ByteOf(d));
  }

  lemma Appended(a: bv8, b: bv8, c: bv8, d: bv8)
    ensures [a, b] + [c] + [d] == [a, b, c, d]
  {
  }

  // ----- Headers

  lemma PackFirst(widths: seq<nat>, values: seq<nat>, width: nat, value: nat)
    requires |widths| == |values|
    ensures Pack([width] + widths, [value] + values) == BigEndian(width, value) + Pack(widths, values)
  {
    hide BigEndian;
    assert ([width] + widths)[1..] == widths && ([value] + values)[1..] == values;
  }

  lemma PackPair(widths: seq<nat>, values: seq<nat>)
    requires |widths| == |values| >= 2
    ensures Pack(widths, values)
         == BigEndian(widths[0], values[0]) + BigEndian(widths[1], values[1]) + Pack(widths[2..], values[2..])
  {
    hide BigEndian;
    assert widths[1..][1..] == widths[2..] && values[1..][1..] == values[2..];
  }

  lemma Regroup(a: Bytes, b: Bytes, c: Bytes, d: Bytes)
    ensures a + b + (c + d) == (a + b + c) + d
  {
  }

  lemma Header(magic: uint32, kind: uint16, widths: seq<nat>, values: seq<nat>)
    requires |widths| == |values|
    ensures Pack([4, 2, 2] + widths, [magic, VERSION, kind] + values)
         == BigEndian(4, magic) + BigEndian(2, VERSION) + BigEndian(2, kind) + Pack(widths, values)
  {
    hide BigEndian, Pack;
    var allWidths, allValues := [4, 2, 2] + widths, [magic, VERSION, kind] + values;
    PackPair(allWidths, allValues);
    assert allWidths[2..] == [2] + widths && allValues[2..] == [kind] + values;
    PackFirst(widths, values, 2, kind);
    Regroup(BigEndian(4, magic), BigEndian(2, VERSION), BigEndian(2, kind), Pack(widths, values));
  }

  lemma HeaderBytes(kind: uint16)
    requires kind < 256
    ensures BigEndian(2, VERSION) == [0x00, 0x0a] && BigEndian(2, kind) == [0x00, ByteOf(kind)]
  {
    hide BigEndian, ByteOf;
    TwoBytes(0, VERSION);
    TwoBytes(0, kind);
    SmallBytes();
  }

  lemma SmallBytes()
    ensures ByteOf(0) == 0 && ByteOf(10) == 0x0a && ByteOf(2) == 0x02 && ByteOf(21) == 0x15
  {
  }

  lemma LetterBytes()
    ensures ByteOf(0x53) == 0x53 && ByteOf(0x52) == 0x52 && ByteOf(0x43) == 0x43 && ByteOf(0x31) == 0x31
  {
  }

  lemma MagicBytes()
    ensures BigEndian(4, CONTROL_MAGIC) == [0x53, 0x52, 0x43, 0x43]
    ensures BigEndian(4, MAGIC) == [0x53, 0x52, 0x43, 0x31]
  {
    hide BigEndian, ByteOf;
    FourBytes(CONTROL_MAGIC, 0x53, 0x52, 0x43, 0x43);
    FourBytes(MAGIC, 0x53, 0x52, 0x43, 0x31);
    LetterBytes();
  }

  /** Every control frame begins with "SRCC", version 10 and its type. */
  lemma ControlHeader(kind: uint16, widths: seq<nat>, values: seq<nat>)
    requires |widths| == |values| && kind < 256
    ensures Pack([4, 2, 2] + widths, [CONTROL_MAGIC, VERSION, kind] + values)
         == [0x53, 0x52, 0x43, 0x43, 0x00, 0x0a, 0x00, ByteOf(kind)] + Pack(widths, values)
  {
    hide BigEndian, Pack;
    Header(CONTROL_MAGIC, kind, widths, values);
    MagicBytes();
    HeaderBytes(kind);
    Joined(ByteOf(kind));
  }

  lemma Joined(kind: bv8)
    ensures [0x53, 0x52, 0x43, 0x43] + [0x00, 0x0a] + [0x00, kind]
         == [0x53, 0x52, 0x43, 0x43, 0x00, 0x0a, 0x00, kind]
    ensures [0x53, 0x52, 0x43, 0x31] + [0x00, 0x0a] + [0x00, kind]
         == [0x53, 0x52, 0x43, 0x31, 0x00, 0x0a, 0x00, kind]
  {
  }

  /** Every datagram begins with "SRC1", version 10 and its type. */
  lemma DataHeader(kind: uint16, widths: seq<nat>, values: seq<nat>)
    requires |widths| == |values| && kind < 256
    ensures Pack([4, 2, 2] + widths, [MAGIC, VERSION, kind] + values)
         == [0x53, 0x52, 0x43, 0x31, 0x00, 0x0a, 0x00, ByteOf(kind)] + Pack(widths, values)
  {
    hide BigEndian, Pack;
    Header(MAGIC, kind, widths, values);
    MagicBytes();
    HeaderBytes(kind);
    Joined(ByteOf(kind));
  }

  // ----- Frames

  lemma {:induction false} PackFields(widths: seq<nat>, values: seq<nat>)
    requires |widths| == |values| == 7
    ensures Pack(widths, values)
         == BigEndian(widths[0], values[0]) + BigEndian(widths[1], values[1]) + BigEndian(widths[2], values[2])
            + BigEndian(widths[3], values[3]) + BigEndian(widths[4], values[4]) + BigEndian(widths[5], values[5])
            + BigEndian(widths[6], values[6])
  {
    hide BigEndian, Pack;
    PackPair(widths, values);
    PackPair(widths[2..], values[2..]);
    PackPair(widths[4..], values[4..]);
    PackTail(widths[6..], values[6..]);
    assert widths[2..][2..] == widths[4..] && widths[4..][2..] == widths[6..];
    assert values[2..][2..] == values[4..] && values[4..][2..] == values[6..];
  }

  lemma PackTail(widths: seq<nat>, values: seq<nat>)
    requires |widths| == |values| == 1
    ensures Pack(widths, values) == BigEndian(widths[0], values[0])
  {
    assert Pack(widths[1..], values[1..]) == [];
  }

  lemma PackSix(widths: seq<nat>, values: seq<nat>)
    requires |widths| == |values| == 6
    ensures Pack(widths, values)
         == BigEndian(widths[0], values[0]) + BigEndian(widths[1], values[1]) + BigEndian(widths[2], values[2])
            + BigEndian(widths[3], values[3]) + BigEndian(widths[4], values[4]) + BigEndian(widths[5], values[5])
  {
    hide BigEndian, Pack;
    PackPair(widths, values);
    PackPair(widths[2..], values[2..]);
    PackPair(widths[4..], values[4..]);
    assert widths[2..][2..] == widths[4..] && values[2..][2..] == values[4..];
    PackNone(widths[4..][2..], values[4..][2..]);
  }

  lemma PackNone(widths: seq<nat>, values: seq<nat>)
    requires widths == [] && values == []
    ensures Pack(widths, values) == []
  {
  }

  /** SECTION_STATUS, type 2: transfer, section, round, code (1 missing, 2 complete, 3 failed), reserved,
      number of missing blocks, bitmap size, bitmap. */
  lemma StatusLayout(m: SectionStatus, reserved: uint16)
    requires |m.bitmap| < U32
    ensures StatusFrame(m, reserved)
         == [0x53, 0x52, 0x43, 0x43, 0x00, 0x0a, 0x00, 0x02]
            + (BigEndian(8, m.transferId) + BigEndian(4, m.sectionId) + BigEndian(4, m.roundId)
               + BigEndian(2, match m.code case Missing => 1 case Complete => 2 case Failed => 3)
               + BigEndian(2, reserved) + BigEndian(4, m.missingCount) + BigEndian(4, |m.bitmap|))
            + m.bitmap
  {
    hide BigEndian, Pack;
    SmallBytes();
    var widths, values := STATUS_WIDTHS[3..], StatusValues(m, reserved)[3..];
    assert STATUS_WIDTHS == [4, 2, 2] + widths;
    assert StatusValues(m, reserved) == [CONTROL_MAGIC, VERSION, SECTION_STATUS_TYPE] + values;
    ControlHeader(SECTION_STATUS_TYPE, widths, values);
    PackFields(widths, values);
  }

  /** FILE_META, type 10: transfer, section, file size, block size, block count, section size, name size, name,
      digest. */
  lemma MetaLayout(m: MetaMessage)
    requires |m.name| < U16
    ensures MetaFrame(m)
         == [0x53, 0x52, 0x43, 0x43, 0x00, 0x0a, 0x00, 0x0a]
            + (BigEndian(8, m.transferId) + BigEndian(4, m.sectionId) + BigEndian(8, m.fileSize)
               + BigEndian(4, m.blockSize) + BigEndian(4, m.totalBlocks) + BigEndian(4, m.sectionBlocks)
               + BigEndian(2, |m.name|))
            + (m.name + m.sha256)
  {
    hide BigEndian, Pack;
    SmallBytes();
    var widths, values := META_WIDTHS[3..], MetaValues(m)[3..];
    assert META_WIDTHS == [4, 2, 2] + widths;
    assert MetaValues(m) == [CONTROL_MAGIC, VERSION, FILE_META_TYPE] + values;
    ControlHeader(FILE_META_TYPE, widths, values);
    PackFields(widths, values);
  }

  /** The checksum travels high byte first as well. */
  lemma ChecksumHighByteFirst(crc: bv32)
    ensures CrcBytes(crc)
         == [(crc >> 24) as bv8, ((crc >> 16) & 0xff) as bv8, ((crc >> 8) & 0xff) as bv8, (crc & 0xff) as bv8]
  {
    TopByte(crc);
  }

  lemma TopByte(crc: bv32)
    ensures (crc >> 24) & 0xff == crc >> 24
  {
  }

  /** DATA, type 2: transfer, section, block, offset, payload size, reserved, checksum, payload. */
  lemma DataLayout(p: DataPacket, reserved: uint16)
    requires |p.payload| < U16
    ensures DataFrame(p, reserved)
         == [0x53, 0x52, 0x43, 0x31, 0x00, 0x0a, 0x00, 0x02]
            + (BigEndian(8, p.transferId) + BigEndian(4, p.sectionId) + BigEndian(4, p.blockId)
               + BigEndian(8, p.offset) + BigEndian(2, |p.payload|) + BigEndian(2, reserved))
            + (CrcBytes(p.crc) + p.payload)
  {
    hide BigEndian, Pack, CrcBytes;
    SmallBytes();
    var widths, values := DATA_WIDTHS[3..], DataValues(p, reserved)[3..];
    assert DATA_WIDTHS == [4, 2, 2] + widths;
    assert DataValues(p, reserved) == [MAGIC, VERSION, DATA_TYPE] + values;
    DataHeader(DATA_TYPE, widths, values);
    PackSix(widths, values);
  }

  /** PEER_REPAIR_TASK, type 21: transfer, section, round, task, address, port, reserved, number of blocks, block
      ids of four bytes each. */
  lemma TaskLayout(m: TaskMessage, reserved: uint16)
    requires |m.blocks| < U32
    ensures TaskFrame(m, reserved)
         == [0x53, 0x52, 0x43, 0x43, 0x00, 0x0a, 0x00, 0x15]
            + (BigEndian(8, m.transferId) + (BigEndian(4, m.sectionId) + BigEndian(4, m.roundId)
               + BigEndian(8, m.taskId) + BigEndian(4, m.targetIp) + BigEndian(2, m.targetPort)
               + BigEndian(2, reserved) + BigEndian(4, |m.blocks|)))
            + Pack(Fours(|m.blocks|), m.blocks)
  {
    hide BigEndian, Pack;
    SmallBytes();
    var widths, values := TASK_WIDTHS[4..], TaskValues(m, reserved)[4..];
    assert TASK_WIDTHS == [4, 2, 2] + ([8] + widths);
    assert TaskValues(m, reserved) == [CONTROL_MAGIC, VERSION, PEER_REPAIR_TASK_TYPE] + ([m.transferId] + values);
    ControlHeader(PEER_REPAIR_TASK_TYPE, [8] + widths, [m.transferId] + values);
    PackFirst(widths, values, 8, m.transferId);
    PackFields(widths, values);
  }

  /** In a bitmap, block k is bit k % 8 of byte k / 8, counted from the least significant bit. */
  lemma LowBitFirst(bitmap: Bytes, k: nat)
    requires k < 8 * |bitmap|
    ensures Marked(bitmap, k) <==> (bitmap[k / 8] >> (k % 8)) & 1 == 1
  {
    BitOfByte(bitmap[k / 8], k % 8);
  }

  lemma BitOfByte(byte: bv8, bit: nat)
    requires bit < 8
    ensures HasBit(byte, bit) <==> (byte >> bit) & 1 == 1
  {
    if bit == 0 {
    } else if bit == 1 {
    } else if bit == 2 {
    } else if bit == 3 {
    } else if bit == 4 {
    } else if bit == 5 {
    } else if bit == 6 {
    } else {
      assert bit == 7;
    }
  }
}
