/** The codecs of UDP DATA, FILE_META and PEER_REPAIR_TASK (include/protocol.hpp). */
module Codecs {
  import opened Common
  import opened Messages
  import opened Sections
  import opened Wire

  const DIGEST_SIZE := 32
  const NAME_LIMIT := 255

  // ----- The checksum field

  function CrcBytes(crc: bv32): (bytes: Bytes)
    ensures |bytes| == 4
  {
    [((crc >> 24) & 0xff) as bv8, ((crc >> 16) & 0xff) as bv8, ((crc >> 8) & 0xff) as bv8, (crc & 0xff) as bv8]
  }

  function CrcOf(bytes: Bytes): bv32
    requires |bytes| == 4
  {
    ((bytes[0] as bv32) << 24) | ((bytes[1] as bv32) << 16) | ((bytes[2] as bv32) << 8) | (bytes[3] as bv32)
  }

  lemma CrcRoundTrip(crc: bv32, bytes: Bytes)
    ensures CrcOf(CrcBytes(crc)) == crc
    ensures |bytes| == 4 ==> CrcBytes(CrcOf(bytes)) == bytes
  {
    if |bytes| == 4 {
      var a, b, c, d := bytes[0], bytes[1], bytes[2], bytes[3];
      CrcJoin(a, b, c, d);
    }
  }

  lemma CrcJoin(a: bv8, b: bv8, c: bv8, d: bv8)
    ensures var j := ((a as bv32) << 24) | ((b as bv32) << 16) | ((c as bv32) << 8) | (d as bv32);
      ((j >> 24) & 0xff) as bv8 == a && ((j >> 16) & 0xff) as bv8 == b
      && ((j >> 8) & 0xff) as bv8 == c && (j & 0xff) as bv8 == d
  {
  }

  // ----- UDP DATA

  const DATA_WIDTHS: seq<nat> := [4, 2, 2, 8, 4, 4, 8, 2, 2]

  function DataValues(p: DataPacket, reserved: uint16): seq<nat> {
    [MAGIC, VERSION, DATA_TYPE, p.transferId, p.sectionId, p.blockId, p.offset, |p.payload|, reserved]
  }

  function DataFrame(p: DataPacket, reserved: uint16): Bytes {
    Pack(DATA_WIDTHS, DataValues(p, reserved)) + (CrcBytes(p.crc) + p.payload)
  }

  function DecodeData(packet: Bytes): Result<DataPacket> {
    match Unpack(DATA_WIDTHS, packet)
    case None => Thrown
    case Some((v, tail)) =>
      UnpackedData(packet);
      if |tail| < 4 || v[0] != MAGIC || v[1] != VERSION || v[2] != DATA_TYPE
         || v[7] > PAYLOAD_SIZE || v[7] != |tail| - 4
      then Thrown
      else Ok(DataPacket(v[3], v[4], v[5], v[6], CrcOf(tail[..4]), tail[4..]))
  }

  lemma UnpackedData(packet: Bytes)
    ensures Unpack(DATA_WIDTHS, packet).Some? <==> |packet| >= 36
    ensures Unpack(DATA_WIDTHS, packet).Some? ==>
              var (v, tail) := Unpack(DATA_WIDTHS, packet).value;
              |v| == 9 && v[3] < U64 && v[4] < U32 && v[5] < U32 && v[6] < U64 && v[8] < U16
              && |tail| == |packet| - 36 && packet == Pack(DATA_WIDTHS, v) + tail
  {
    ReadWasWritten(DATA_WIDTHS, packet);
    Widths();
    if Unpack(DATA_WIDTHS, packet).Some? {
      PackLength(DATA_WIDTHS, Unpack(DATA_WIDTHS, packet).value.0);
    }
  }

  method WriteCommon(writer: PacketWriter, kind: uint16, transferId: uint64)
    requires writer.Valid() && writer.widths == [] && writer.values == [] && writer.raw == []
    modifies writer
    ensures writer.Valid() && writer.raw == []
    ensures writer.widths == [4, 2, 2, 8] && writer.values == [MAGIC, VERSION, kind, transferId]
  {
    hide Fits, Pack, Pow256;
    writer.U32(MAGIC);
    writer.U16(VERSION);
    writer.U16(kind);
    writer.U64(transferId);
  }

  /** `read_common` and the comparison with the expected type, on a packet long enough for it. */
  method ReadCommon(reader: PacketReader, kind: uint16) returns (matches: bool, transferId: uint64)
    requires reader.Valid() && reader.offset == 0 && reader.widths == [] && reader.values == [] && |reader.data| >= 16
    modifies reader
    ensures reader.Valid() && reader.offset == 16 && reader.widths == [4, 2, 2, 8] && |reader.values| == 4
    ensures reader.values[3] == transferId
    ensures matches
         == (reader.values[0] == MAGIC && reader.values[1] == VERSION && reader.values[2] == kind)
  {
    hide Fits, Pack, Pow256;
    var magic := reader.U32();
    var version := reader.U16();
    var type' := reader.U16();
    var id := reader.U64();
    return magic.value == MAGIC && version.value == VERSION && type'.value == kind, id.value;
  }

  method EncodeData(p: DataPacket) returns (packet: Result<Bytes>)
    ensures packet == if |p.payload| > PAYLOAD_SIZE then Thrown else Ok(DataFrame(p, 0))
  {
    hide Pack, Unpack, Fits, Value, BigEndian, Pow256, Total, CrcBytes;
    if |p.payload| > PAYLOAD_SIZE {
      return Thrown;
    }
    var writer := new PacketWriter();
    WriteCommon(writer, DATA_TYPE, p.transferId);
    writer.U32(p.sectionId);
    writer.U32(p.blockId);
    writer.U64(p.offset);
    writer.U16(|p.payload|);
    writer.U16(0);
    assert writer.widths == DATA_WIDTHS && writer.values == DataValues(p, 0);
    writer.Append(CrcBytes(p.crc));
    writer.Append(p.payload);
    writer.Contents();
    assert writer.raw == CrcBytes(p.crc) + p.payload;
    return Ok(writer.data);
  }

  method ParseData(packet: Bytes) returns (r: Result<DataPacket>)
    ensures r == DecodeData(packet)
  {
    hide Pack, Unpack, Fits, Value, BigEndian, Pow256, Total, CrcOf;
    UnpackedData(packet);
    if |packet| < 40 {
      return Thrown;
    }
    var reader := new PacketReader(packet);
    var headed, transferId := ReadCommon(reader, DATA_TYPE);
    var sectionId := reader.U32();
    var blockId := reader.U32();
    var offset := reader.U64();
    var payloadSize := reader.U16();
    var reserved := reader.U16();
    reader.Contents();
    assert reader.widths == DATA_WIDTHS;
    var tail := packet[reader.offset..];
    if !headed || payloadSize.value > PAYLOAD_SIZE || payloadSize.value != |tail| - 4 {
      return Thrown;
    }
    return Ok(DataPacket(transferId, sectionId.value, blockId.value, offset.value, CrcOf(tail[..4]), tail[4..]));
  }

  lemma DataFits(p: DataPacket, reserved: uint16)
    requires |p.payload| <= PAYLOAD_SIZE
    ensures Fits(DATA_WIDTHS, DataValues(p, reserved))
  {
    Widths();
  }

  /** A datagram decodes to a packet exactly when it is that packet's datagram with some reserved field. */
  lemma DataDecodesIff(p: DataPacket, packet: Bytes)
    ensures DecodeData(packet) == Ok(p)
       <==> |p.payload| <= PAYLOAD_SIZE && exists reserved: uint16 :: packet == DataFrame(p, reserved)
  {
    hide Unpack, Pack, Pow256, CrcBytes, CrcOf;
    if |p.payload| <= PAYLOAD_SIZE {
      forall reserved: uint16 | packet == DataFrame(p, reserved) ensures DecodeData(packet) == Ok(p) {
        DataFits(p, reserved);
        var tail := CrcBytes(p.crc) + p.payload;
        ReadsWhatWasWritten(DATA_WIDTHS, DataValues(p, reserved), tail, packet);
        assert tail[..4] == CrcBytes(p.crc) && tail[4..] == p.payload;
        CrcRoundTrip(p.crc, []);
      }
    }
    if DecodeData(packet) == Ok(p) {
      UnpackedData(packet);
      var (v, tail) := Unpack(DATA_WIDTHS, packet).value;
      CrcRoundTrip(p.crc, tail[..4]);
      assert tail == CrcBytes(p.crc) + p.payload;
      assert v == DataValues(p, v[8]);
      assert packet == DataFrame(p, v[8]);
    }
  }

  // ----- FILE_META

  /** FILE_META on the wire, its name as bytes. */
  datatype MetaMessage = MetaMessage(
    transferId: uint64, sectionId: uint32, fileSize: uint64, blockSize: uint32, totalBlocks: uint32,
    sectionBlocks: uint32, name: Bytes, sha256: Digest)

  const META_WIDTHS: seq<nat> := [4, 2, 2, 8, 4, 8, 4, 4, 4, 2]

  function MetaValues(m: MetaMessage): seq<nat> {
    [CONTROL_MAGIC, VERSION, FILE_META_TYPE, m.transferId, m.sectionId, m.fileSize, m.blockSize, m.totalBlocks,
     m.sectionBlocks, |m.name|]
  }

  function MetaFrame(m: MetaMessage): Bytes {
    Pack(META_WIDTHS, MetaValues(m)) + (m.name + m.sha256)
  }

  predicate NameOk(name: Bytes) {
    1 <= |name| <= NAME_LIMIT
  }

  function DecodeMeta(frame: Bytes): Result<MetaMessage> {
    match Unpack(META_WIDTHS, frame)
    case None => Thrown
    case Some((v, tail)) =>
      UnpackedMeta(frame);
      if v[0] != CONTROL_MAGIC || v[1] != VERSION || v[2] != FILE_META_TYPE
         || v[9] < 1 || v[9] > NAME_LIMIT || |tail| != v[9] + DIGEST_SIZE
      then Thrown
      else Ok(MetaMessage(v[3], v[4], v[5], v[6], v[7], v[8], tail[..v[9]], tail[v[9]..]))
  }

  lemma UnpackedMeta(frame: Bytes)
    ensures Unpack(META_WIDTHS, frame).Some? <==> |frame| >= 42
    ensures Unpack(META_WIDTHS, frame).Some? ==>
              var (v, tail) := Unpack(META_WIDTHS, frame).value;
              |v| == 10 && v[3] < U64 && v[4] < U32 && v[5] < U64 && v[6] < U32 && v[7] < U32 && v[8] < U32
              && |tail| == |frame| - 42 && frame == Pack(META_WIDTHS, v) + tail
  {
    ReadWasWritten(META_WIDTHS, frame);
    Widths();
    if Unpack(META_WIDTHS, frame).Some? {
      PackLength(META_WIDTHS, Unpack(META_WIDTHS, frame).value.0);
    }
  }

  method EncodeFileMeta(m: MetaMessage) returns (frame: Result<Bytes>)
    ensures frame == if NameOk(m.name) then Ok(MetaFrame(m)) else Thrown
  {
    hide Pack, Unpack, Fits, Value, BigEndian, Pow256, Total;
    if m.name == [] || |m.name| > NAME_LIMIT {
      return Thrown;
    }
    var writer := new PacketWriter();
    WriteControlHeader(writer, FILE_META_TYPE);
    writer.U64(m.transferId);
    writer.U32(m.sectionId);
    writer.U64(m.fileSize);
    writer.U32(m.blockSize);
    writer.U32(m.totalBlocks);
    writer.U32(m.sectionBlocks);
    writer.U16(|m.name|);
    assert writer.widths == META_WIDTHS && writer.values == MetaValues(m);
    writer.Append(m.name);
    writer.Append(m.sha256);
    writer.Contents();
    assert writer.raw == m.name + m.sha256;
    return Ok(writer.data);
  }

  method DecodeFileMeta(frame: Bytes) returns (r: Result<MetaMessage>)
    ensures r == DecodeMeta(frame)
  {
    hide Pack, Unpack, Fits, Value, BigEndian, Pow256, Total;
    UnpackedMeta(frame);
    if |frame| < 74 {
      return Thrown;
    }
    var reader := new PacketReader(frame);
    var headed := ReadControlHeader(reader, FILE_META_TYPE);
    var transferId := reader.U64();
    var sectionId := reader.U32();
    var fileSize := reader.U64();
    var blockSize := reader.U32();
    var totalBlocks := reader.U32();
    var sectionBlocks := reader.U32();
    var nameSize := reader.U16();
    reader.Contents();
    assert reader.widths == META_WIDTHS;
    var tail := frame[reader.offset..];
    if !headed || nameSize.value == 0 || nameSize.value > NAME_LIMIT || |tail| < nameSize.value {
      return Thrown;
    }
    if |tail| - nameSize.value < DIGEST_SIZE {
      return Thrown;
    }
    if |tail| - nameSize.value - DIGEST_SIZE != 0 {
      return Thrown;
    }
    return Ok(MetaMessage(transferId.value, sectionId.value, fileSize.value, blockSize.value, totalBlocks.value,
                          sectionBlocks.value, tail[..nameSize.value], tail[nameSize.value..]));
  }

  lemma MetaFits(m: MetaMessage)
    requires NameOk(m.name)
    ensures Fits(META_WIDTHS, MetaValues(m))
  {
    Widths();
  }

  /** FILE_META has exactly one frame per message. */
  lemma MetaDecodesIff(m: MetaMessage, frame: Bytes)
    ensures DecodeMeta(frame) == Ok(m) <==> NameOk(m.name) && |m.sha256| == DIGEST_SIZE && frame == MetaFrame(m)
  {
    hide Unpack, Pack, Pow256;
    if NameOk(m.name) && |m.sha256| == DIGEST_SIZE && frame == MetaFrame(m) {
      MetaFits(m);
      var tail := m.name + m.sha256;
      ReadsWhatWasWritten(META_WIDTHS, MetaValues(m), tail, frame);
      assert tail[..|m.name|] == m.name && tail[|m.name|..] == m.sha256;
    }
    if DecodeMeta(frame) == Ok(m) {
      UnpackedMeta(frame);
      var (v, tail) := Unpack(META_WIDTHS, frame).value;
      assert tail == m.name + m.sha256;
      assert v == MetaValues(m);
    }
  }

  // ----- PEER_REPAIR_TASK

  datatype TaskMessage = TaskMessage(
    transferId: uint64, sectionId: uint32, roundId: uint32, taskId: uint64, targetIp: uint32, targetPort: uint16,
    blocks: seq<uint32>)

  const TASK_WIDTHS: seq<nat> := [4, 2, 2, 8, 4, 4, 8, 4, 2, 2, 4]

  function Fours(n: nat): (widths: seq<nat>)
    ensures |widths| == n && forall i :: 0 <= i < n ==> widths[i] == 4
  {
    seq(n, _ => 4)
  }

  function TaskValues(m: TaskMessage, reserved: uint16): seq<nat> {
    [CONTROL_MAGIC, VERSION, PEER_REPAIR_TASK_TYPE, m.transferId, m.sectionId, m.roundId, m.taskId, m.targetIp,
     m.targetPort, reserved, |m.blocks|]
  }

  function TaskFrame(m: TaskMessage, reserved: uint16): Bytes {
    Pack(TASK_WIDTHS, TaskValues(m, reserved)) + Pack(Fours(|m.blocks|), m.blocks)
  }

  function DecodeTask(frame: Bytes): Result<TaskMessage> {
    match Unpack(TASK_WIDTHS, frame)
    case None => Thrown
    case Some((v, tail)) =>
      UnpackedTask(frame);
      if v[0] != CONTROL_MAGIC || v[1] != VERSION || v[2] != PEER_REPAIR_TASK_TYPE
         || v[10] < 1 || v[10] > MAX_PEER_BLOCKS || |tail| != 4 * v[10]
      then Thrown
      else
        UnpackedBlocks(tail, v[10]);
        Ok(TaskMessage(v[3], v[4], v[5], v[6], v[7], v[8], Unpack(Fours(v[10]), tail).value.0))
  }

  lemma UnpackedTask(frame: Bytes)
    ensures Unpack(TASK_WIDTHS, frame).Some? <==> |frame| >= 44
    ensures Unpack(TASK_WIDTHS, frame).Some? ==>
              var (v, tail) := Unpack(TASK_WIDTHS, frame).value;
              && |v| == 11 && v[3] < U64 && v[4] < U32 && v[5] < U32 && v[6] < U64
              && v[7] < U32 && v[8] < U16 && v[9] < U16
              && |tail| == |frame| - 44 && frame == Pack(TASK_WIDTHS, v) + tail
  {
    ReadWasWritten(TASK_WIDTHS, frame);
    Widths();
    if Unpack(TASK_WIDTHS, frame).Some? {
      PackLength(TASK_WIDTHS, Unpack(TASK_WIDTHS, frame).value.0);
    }
  }

  lemma {:induction false} TotalFours(n: nat)
    ensures Total(Fours(n)) == 4 * n
    decreases n
  {
    if n > 0 {
      assert Fours(n)[1..] == Fours(n - 1);
      TotalFours(n - 1);
    }
  }

  lemma UnpackedBlocks(tail: Bytes, n: nat)
    requires |tail| == 4 * n
    ensures Unpack(Fours(n), tail).Some?
    ensures var (ids, rest) := Unpack(Fours(n), tail).value;
            |ids| == n && rest == [] && (forall i :: 0 <= i < n ==> ids[i] < U32) && tail == Pack(Fours(n), ids)
  {
    ReadWasWritten(Fours(n), tail);
    TotalFours(n);
    Widths();
    var (ids, rest) := Unpack(Fours(n), tail).value;
    PackLength(Fours(n), ids);
  }

  /** Reading two runs of fields one after the other. */
  lemma {:induction false} UnpackAppend(a: seq<nat>, b: seq<nat>, bytes: Bytes)
    ensures Unpack(a + b, bytes)
         == match Unpack(a, bytes)
            case None => None
            case Some((v, rest)) =>
              match Unpack(b, rest)
              case None => None
              case Some((u, last)) => Some((v + u, last))
    decreases |a|
  {
    hide Value;
    if a == [] {
      assert a + b == b;
      if Unpack(b, bytes).Some? {
        var u := Unpack(b, bytes).value.0;
        assert [] + u == u;
      }
    } else if |bytes| >= a[0] {
      assert (a + b)[1..] == a[1..] + b;
      UnpackAppend(a[1..], b, bytes[a[0]..]);
      if Unpack(a + b, bytes).Some? {
        var (v, rest) := Unpack(a[1..], bytes[a[0]..]).value;
        var (u, last) := Unpack(b, rest).value;
        var head := [Value(bytes[..a[0]])];
        assert head + (v + u) == (head + v) + u;
      }
    }
  }

  method EncodePeerTask(m: TaskMessage) returns (frame: Result<Bytes>)
    ensures frame == if 1 <= |m.blocks| <= MAX_PEER_BLOCKS then Ok(TaskFrame(m, 0)) else Thrown
  {
    hide Pack, Unpack, Fits, Value, BigEndian, Pow256, Total;
    if m.blocks == [] || |m.blocks| > MAX_PEER_BLOCKS {
      return Thrown;
    }
    var writer := new PacketWriter();
    WriteControlHeader(writer, PEER_REPAIR_TASK_TYPE);
    writer.U64(m.transferId);
    writer.U32(m.sectionId);
    writer.U32(m.roundId);
    writer.U64(m.taskId);
    writer.U32(m.targetIp);
    writer.U16(m.targetPort);
    writer.U16(0);
    writer.U32(|m.blocks|);
    assert writer.widths == TASK_WIDTHS && writer.values == TaskValues(m, 0);
    WriteBlocks(writer, m.blocks, TaskValues(m, 0));
    return Ok(writer.data);
  }

  method WriteBlocks(writer: PacketWriter, blocks: seq<uint32>, ghost header: seq<nat>)
    requires writer.Valid() && writer.raw == [] && writer.widths == TASK_WIDTHS && writer.values == header
    requires |header| == 11
    modifies writer
    ensures writer.data == Pack(TASK_WIDTHS, header) + Pack(Fours(|blocks|), blocks)
  {
    hide Pack, Unpack, Fits, Value, BigEndian, Pow256, Total;
    for i := 0 to |blocks|
      invariant writer.Valid() && writer.raw == []
      invariant writer.widths == TASK_WIDTHS + Fours(i) && writer.values == header + blocks[..i]
    {
      writer.U32(blocks[i]);
    }
    writer.Contents();
    assert blocks[..|blocks|] == blocks;
    PackAppend(TASK_WIDTHS, header, Fours(|blocks|), blocks);
  }

  lemma {:induction false} PackAppend(a: seq<nat>, v: seq<nat>, b: seq<nat>, u: seq<nat>)
    requires |a| == |v| && |b| == |u|
    ensures Pack(a + b, v + u) == Pack(a, v) + Pack(b, u)
    decreases |a|
  {
    hide BigEndian;
    if a == [] {
      assert a + b == b && v + u == u;
    } else {
      assert (a + b)[1..] == a[1..] + b && (v + u)[1..] == v[1..] + u;
      PackAppend(a[1..], v[1..], b, u);
    }
  }

  method DecodePeerTask(frame: Bytes) returns (r: Result<TaskMessage>)
    ensures r == DecodeTask(frame)
  {
    hide Pack, Unpack, Fits, Value, BigEndian, Pow256, Total;
    UnpackedTask(frame);
    if |frame| < 44 {
      return Thrown;
    }
    var reader := new PacketReader(frame);
    var headed := ReadControlHeader(reader, PEER_REPAIR_TASK_TYPE);
    var transferId := reader.U64();
    var sectionId := reader.U32();
    var roundId := reader.U32();
    var taskId := reader.U64();
    var targetIp := reader.U32();
    var targetPort := reader.U16();
    var reserved := reader.U16();
    var count := reader.U32();
    reader.Contents();
    assert reader.widths == TASK_WIDTHS;
    if !headed || count.value == 0 || count.value > MAX_PEER_BLOCKS || |frame| - reader.offset != 4 * count.value {
      return Thrown;
    }
    var blocks := ReadBlocks(reader, count.value, reader.values);
    return Ok(TaskMessage(transferId.value, sectionId.value, roundId.value, taskId.value, targetIp.value,
                          targetPort.value, blocks));
  }

  method ReadBlocks(reader: PacketReader, n: nat, ghost header: seq<nat>) returns (blocks: seq<uint32>)
    requires reader.Valid() && reader.widths == TASK_WIDTHS && reader.values == header && |header| == 11
    requires |reader.data| == reader.offset + 4 * n
    modifies reader
    ensures old(reader.offset) <= |reader.data|
    ensures Unpack(Fours(n), reader.data[old(reader.offset)..]).Some?
    ensures Unpack(Fours(n), reader.data[old(reader.offset)..]).value.0 == blocks
  {
    hide Pack, Unpack, Fits, Value, BigEndian, Pow256, Total;
    reader.Contents();
    ghost var start := reader.offset;
    blocks := [];
    for i := 0 to n
      invariant reader.Valid() && reader.offset == start + 4 * i && |blocks| == i
      invariant reader.widths == TASK_WIDTHS + Fours(i) && reader.values == header + blocks
    {
      var block := reader.U32();
      blocks := blocks + [block.value];
    }
    reader.Contents();
    UnpackAppend(TASK_WIDTHS, Fours(n), reader.data);
    UnpackedBlocks(reader.data[start..], n);
    SameTail(header, blocks, Unpack(Fours(n), reader.data[start..]).value.0);
  }

  lemma SameTail(header: seq<nat>, a: seq<nat>, b: seq<nat>)
    requires header + a == header + b
    ensures a == b
  {
    assert (header + a)[|header|..] == a && (header + b)[|header|..] == b;
  }

  lemma TaskFits(m: TaskMessage, reserved: uint16)
    requires |m.blocks| <= MAX_PEER_BLOCKS
    ensures Fits(TASK_WIDTHS, TaskValues(m, reserved)) && Fits(Fours(|m.blocks|), m.blocks)
  {
    Widths();
  }

  /** A frame decodes to a task exactly when the task has 1 to 64 blocks and the frame is its frame with
      some reserved field. */
  lemma TaskDecodesIff(m: TaskMessage, frame: Bytes)
    ensures DecodeTask(frame) == Ok(m)
       <==> 1 <= |m.blocks| <= MAX_PEER_BLOCKS && exists reserved: uint16 :: frame == TaskFrame(m, reserved)
  {
    hide Unpack, Pack, Pow256, Total;
    if 1 <= |m.blocks| <= MAX_PEER_BLOCKS {
      forall reserved: uint16 | frame == TaskFrame(m, reserved) ensures DecodeTask(frame) == Ok(m) {
        TaskFits(m, reserved);
        var tail := Pack(Fours(|m.blocks|), m.blocks);
        ReadsWhatWasWritten(TASK_WIDTHS, TaskValues(m, reserved), tail, frame);
        ReadsWhatWasWritten(Fours(|m.blocks|), m.blocks, [], tail);
        assert tail == tail + [];
        PackLength(Fours(|m.blocks|), m.blocks);
        TotalFours(|m.blocks|);
      }
    }
    if DecodeTask(frame) == Ok(m) {
      UnpackedTask(frame);
      var (v, tail) := Unpack(TASK_WIDTHS, frame).value;
      UnpackedBlocks(tail, v[10]);
      assert v == TaskValues(m, v[9]);
      assert frame == TaskFrame(m, v[9]);
    }
  }
}
