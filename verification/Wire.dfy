/** The wire format of include/protocol.hpp: the writer and reader of big-endian fields, one law that
    says they are inverses, and the codecs of the messages that carry lists, names or payloads. */
module Wire {
  import opened Common
  import opened Reports
  import opened Messages
  import opened Octets

  // ----- Big-endian integers

  function Pow256(width: nat): (p: nat)
    ensures p >= 1
  {
    if width == 0 then 1 else 256 * Pow256(width - 1)
  }

  lemma Widths()
    ensures Pow256(2) == U16 && Pow256(4) == U32 && Pow256(8) == U64
  {
    assert Pow256(4) == 256 * (256 * Pow256(2));
    assert Pow256(6) == 256 * (256 * Pow256(4));
    assert Pow256(8) == 256 * (256 * Pow256(6));
  }

  function BigEndian(width: nat, value: nat): (bytes: Bytes)
    ensures |bytes| == width
  {
    if width == 0 then [] else BigEndian(width - 1, value / 256) + [ByteOf(value % 256)]
  }

  function Value(bytes: Bytes): nat
    decreases |bytes|
  {
    if bytes == [] then 0 else 256 * Value(bytes[..|bytes| - 1]) + ByteValue(bytes[|bytes| - 1])
  }

  lemma {:induction false} ValueOfBigEndian(width: nat, value: nat)
    requires value < Pow256(width)
    ensures Value(BigEndian(width, value)) == value
    decreases width
  {
    hide ByteOf, ByteValue;
    if width > 0 {
      var bytes := BigEndian(width, value);
      assert bytes[..width - 1] == BigEndian(width - 1, value / 256);
      ValueOfBigEndian(width - 1, value / 256);
      ByteRoundTrip(value % 256);
    }
  }

  lemma {:induction false} BigEndianOfValue(bytes: Bytes)
    ensures Value(bytes) < Pow256(|bytes|) && BigEndian(|bytes|, Value(bytes)) == bytes
    decreases |bytes|
  {
    hide ByteOf, ByteValue;
    if bytes != [] {
      var init, last := bytes[..|bytes| - 1], bytes[|bytes| - 1];
      BigEndianOfValue(init);
      ByteValueRoundTrip(last);
      assert Value(bytes) / 256 == Value(init) && Value(bytes) % 256 == ByteValue(last);
    }
  }

  // ----- Runs of fixed-width fields

  predicate Fits(widths: seq<nat>, values: seq<nat>) {
    |widths| == |values| && forall i :: 0 <= i < |widths| ==> values[i] < Pow256(widths[i])
  }

  function Pack(widths: seq<nat>, values: seq<nat>): Bytes
    requires |widths| == |values|
  {
    if widths == [] then [] else BigEndian(widths[0], values[0]) + Pack(widths[1..], values[1..])
  }

  function Total(widths: seq<nat>): nat {
    if widths == [] then 0 else widths[0] + Total(widths[1..])
  }

  /** Reads the fields from the front; None when the bytes run out. */
  function Unpack(widths: seq<nat>, bytes: Bytes): Option<(seq<nat>, Bytes)> {
    if widths == [] then Some(([], bytes))
    else if |bytes| < widths[0] then None
    else
      match Unpack(widths[1..], bytes[widths[0]..])
      case None => None
      case Some((values, rest)) => Some(([Value(bytes[..widths[0]])] + values, rest))
  }

  /** Reading undoes writing, and whatever is read was written: the law every codec rests on. */
  lemma {:induction false} ReadsWhatWasWritten(widths: seq<nat>, values: seq<nat>, rest: Bytes, bytes: Bytes)
    ensures Unpack(widths, bytes) == Some((values, rest))
       <==> Fits(widths, values) && bytes == Pack(widths, values) + rest
    decreases |widths|
  {
    if Fits(widths, values) && bytes == Pack(widths, values) + rest {
      WrittenIsRead(widths, values, rest);
    }
    if Unpack(widths, bytes) == Some((values, rest)) {
      ReadWasWritten(widths, bytes);
    }
  }

  lemma {:induction false} WrittenIsRead(widths: seq<nat>, values: seq<nat>, rest: Bytes)
    requires Fits(widths, values)
    ensures Unpack(widths, Pack(widths, values) + rest) == Some((values, rest))
    decreases |widths|
  {
    hide BigEndian, Value;
    if widths != [] {
      var head, tail := BigEndian(widths[0], values[0]), Pack(widths[1..], values[1..]);
      var bytes := Pack(widths, values) + rest;
      assert bytes == head + (tail + rest);
      assert bytes[..widths[0]] == head && bytes[widths[0]..] == tail + rest;
      ValueOfBigEndian(widths[0], values[0]);
      assert Fits(widths[1..], values[1..]);
      WrittenIsRead(widths[1..], values[1..], rest);
      assert values == [values[0]] + values[1..];
    } else {
      assert values == [] && Pack(widths, values) + rest == rest;
    }
  }

  lemma {:induction false} ReadWasWritten(widths: seq<nat>, bytes: Bytes)
    ensures Unpack(widths, bytes).Some? <==> |bytes| >= Total(widths)
    ensures Unpack(widths, bytes).Some? ==>
              var (values, rest) := Unpack(widths, bytes).value;
              Fits(widths, values) && bytes == Pack(widths, values) + rest
    decreases |widths|
  {
    hide BigEndian, Value;
    if widths != [] && |bytes| >= widths[0] {
      var head, tail := bytes[..widths[0]], bytes[widths[0]..];
      ReadWasWritten(widths[1..], tail);
      BigEndianOfValue(head);
      if Unpack(widths[1..], tail).Some? {
        var (values, rest) := Unpack(widths, bytes).value;
        assert values[1..] == Unpack(widths[1..], tail).value.0;
        assert bytes == head + tail;
      }
    }
  }

  lemma {:induction false} PackSnoc(widths: seq<nat>, values: seq<nat>, width: nat, value: nat)
    requires |widths| == |values|
    ensures Pack(widths + [width], values + [value]) == Pack(widths, values) + BigEndian(width, value)
    decreases |widths|
  {
    hide BigEndian;
    if widths != [] {
      assert (widths + [width])[1..] == widths[1..] + [width];
      assert (values + [value])[1..] == values[1..] + [value];
      PackSnoc(widths[1..], values[1..], width, value);
    }
  }

  // ----- The writer and the reader

  class PacketWriter {
    var data: Bytes
    ghost var widths: seq<nat>
    ghost var values: seq<nat>
    ghost var raw: Bytes

    ghost predicate Valid()
      reads this
    {
      Fits(widths, values) && data == Pack(widths, values) + raw
    }

    lemma Contents()
      requires Valid()
      ensures |widths| == |values| && data == Pack(widths, values) + raw
    {
    }

    constructor ()
      ensures Valid() && widths == [] && values == [] && raw == []
    {
      data, widths, values, raw := [], [], [], [];
    }

    method Number(width: nat, value: nat)
      requires Valid() && raw == [] && value < Pow256(width)
      modifies this
      ensures Valid() && raw == [] && widths == old(widths) + [width] && values == old(values) + [value]
    {
      PackSnoc(widths, values, width, value);
      data := data + BigEndian(width, value);
      widths, values := widths + [width], values + [value];
    }

    method U16(value: uint16)
      requires Valid() && raw == []
      modifies this
      ensures Valid() && raw == [] && widths == old(widths) + [2] && values == old(values) + [value]
    {
      Widths();
      Number(2, value);
    }

    method U32(value: uint32)
      requires Valid() && raw == []
      modifies this
      ensures Valid() && raw == [] && widths == old(widths) + [4] && values == old(values) + [value]
    {
      Widths();
      Number(4, value);
    }

    method U64(value: uint64)
      requires Valid() && raw == []
      modifies this
      ensures Valid() && raw == [] && widths == old(widths) + [8] && values == old(values) + [value]
    {
      Widths();
      Number(8, value);
    }

    method Append(source: Bytes)
      requires Valid()
      modifies this
      ensures Valid() && raw == old(raw) + source && widths == old(widths) && values == old(values)
    {
      data := data + source;
      raw := raw + source;
    }
  }

  class PacketReader {
    const data: Bytes
    var offset: nat
    ghost var widths: seq<nat>
    ghost var values: seq<nat>

    ghost predicate Valid()
      reads this
    {
      offset <= |data| && Fits(widths, values) && data[..offset] == Pack(widths, values)
    }

    constructor (data: Bytes)
      ensures this.data == data && Valid() && offset == 0 && widths == [] && values == []
    {
      this.data, offset, widths, values := data, 0, [], [];
    }

    /** A field of `width` bytes, or an exception when the packet is truncated. */
    method Number(width: nat) returns (r: Result<nat>)
      requires Valid()
      modifies this
      ensures Valid() && (r.Ok? <==> width <= |data| - old(offset))
      ensures r.Ok? ==> r.value < Pow256(width) && offset == old(offset) + width
                        && widths == old(widths) + [width] && values == old(values) + [r.value]
    {
      if width > |data| - offset {
        return Thrown;
      }
      var bytes := data[offset..offset + width];
      BigEndianOfValue(bytes);
      PackSnoc(widths, values, width, Value(bytes));
      assert data[..offset + width] == data[..offset] + bytes;
      offset := offset + width;
      widths, values := widths + [width], values + [Value(bytes)];
      return Ok(Value(bytes));
    }

    method U16() returns (r: Result<uint16>)
      requires Valid()
      modifies this
      ensures Valid() && (r.Ok? <==> 2 <= |data| - old(offset))
      ensures r.Ok? ==> offset == old(offset) + 2
                        && widths == old(widths) + [2] && values == old(values) + [r.value]
    {
      Widths();
      var n :- Number(2);
      return Ok(n);
    }

    method U32() returns (r: Result<uint32>)
      requires Valid()
      modifies this
      ensures Valid() && (r.Ok? <==> 4 <= |data| - old(offset))
      ensures r.Ok? ==> offset == old(offset) + 4
                        && widths == old(widths) + [4] && values == old(values) + [r.value]
    {
      Widths();
      var n :- Number(4);
      return Ok(n);
    }

    method U64() returns (r: Result<uint64>)
      requires Valid()
      modifies this
      ensures Valid() && (r.Ok? <==> 8 <= |data| - old(offset))
      ensures r.Ok? ==> offset == old(offset) + 8
                        && widths == old(widths) + [8] && values == old(values) + [r.value]
    {
      Widths();
      var n :- Number(8);
      return Ok(n);
    }

    /** What has been read so far is what unpacking the whole packet yields. */
    lemma Contents()
      requires Valid()
      ensures offset <= |data| && Unpack(widths, data) == Some((values, data[offset..]))
    {
      assert data == data[..offset] + data[offset..];
      ReadsWhatWasWritten(widths, values, data[offset..], data);
    }
  }

  // ----- Message headers

  const MAGIC: uint32 := 0x5352_4331
  const CONTROL_MAGIC: uint32 := 0x5352_4343
  const VERSION: uint16 := 10
  const DATA_TYPE: uint16 := 2
  const SECTION_STATUS_TYPE: uint16 := 2
  const FILE_META_TYPE: uint16 := 10
  const PEER_REPAIR_TASK_TYPE: uint16 := 21
  const MAX_CONTROL_FRAME := 1024 * 1024

  method WriteControlHeader(writer: PacketWriter, kind: uint16)
    requires writer.Valid() && writer.widths == [] && writer.values == [] && writer.raw == []
    modifies writer
    ensures writer.Valid() && writer.raw == []
    ensures writer.widths == [4, 2, 2] && writer.values == [CONTROL_MAGIC, VERSION, kind]
  {
    hide Fits, Pack, Pow256;
    writer.U32(CONTROL_MAGIC);
    writer.U16(VERSION);
    writer.U16(kind);
  }

  /** `read_control_header` and the comparison with the expected type, on a frame long enough for it. */
  method ReadControlHeader(reader: PacketReader, kind: uint16) returns (matches: bool)
    requires reader.Valid() && reader.offset == 0 && reader.widths == [] && reader.values == [] && |reader.data| >= 8
    modifies reader
    ensures reader.Valid() && reader.offset == 8 && reader.widths == [4, 2, 2] && |reader.values| == 3
    ensures matches
         == (reader.values[0] == CONTROL_MAGIC && reader.values[1] == VERSION && reader.values[2] == kind)
  {
    hide Fits, Pack, Pow256;
    var magic := reader.U32();
    var version := reader.U16();
    var type' := reader.U16();
    return magic.value == CONTROL_MAGIC && version.value == VERSION && type'.value == kind;
  }

  // ----- SECTION_STATUS

  const STATUS_WIDTHS: seq<nat> := [4, 2, 2, 8, 4, 4, 2, 2, 4, 4]

  function CodeNumber(code: StatusCode): uint16 {
    match code
    case Missing => 1
    case Complete => 2
    case Failed => 3
  }

  function CodeOf(n: nat): StatusCode {
    if n == 1 then Missing else if n == 2 then Complete else Failed
  }

  function StatusValues(m: SectionStatus, reserved: uint16): seq<nat> {
    [CONTROL_MAGIC, VERSION, SECTION_STATUS_TYPE, m.transferId, m.sectionId, m.roundId,
     CodeNumber(m.code), reserved, m.missingCount, |m.bitmap|]
  }

  /** The frame of a status, with any content of its reserved field. */
  function StatusFrame(m: SectionStatus, reserved: uint16): Bytes {
    Pack(STATUS_WIDTHS, StatusValues(m, reserved)) + m.bitmap
  }

  function DecodeStatus(frame: Bytes): Result<SectionStatus> {
    match Unpack(STATUS_WIDTHS, frame)
    case None => Thrown
    case Some((v, bitmap)) =>
      UnpackedStatus(frame);
      if v[0] != CONTROL_MAGIC || v[1] != VERSION || v[2] != SECTION_STATUS_TYPE
         || v[6] < 1 || v[6] > 3 || v[9] != |bitmap|
      then Thrown
      else
        Ok(SectionStatus(v[3], v[4], v[5], CodeOf(v[6]), v[8], bitmap))
  }

  lemma UnpackedStatus(frame: Bytes)
    ensures Unpack(STATUS_WIDTHS, frame).Some? <==> |frame| >= 36
    ensures Unpack(STATUS_WIDTHS, frame).Some? ==>
              var v := Unpack(STATUS_WIDTHS, frame).value.0;
              |v| == 10 && v[3] < U64 && v[4] < U32 && v[5] < U32 && v[7] < U16 && v[8] < U32 && v[9] < U32
  {
    ReadWasWritten(STATUS_WIDTHS, frame);
    Widths();
  }

  method EncodeSectionStatus(m: SectionStatus) returns (frame: Result<Bytes>)
    ensures frame == if |m.bitmap| >= U32 then Thrown else Ok(StatusFrame(m, 0))
  {
    hide Pack, Unpack, Fits, Value, BigEndian, Pow256, Total, StatusFrame, StatusValues, DecodeStatus, CodeNumber,
      CodeOf;
    if |m.bitmap| >= U32 {
      return Thrown;
    }
    var writer := new PacketWriter();
    WriteControlHeader(writer, SECTION_STATUS_TYPE);
    writer.U64(m.transferId);
    writer.U32(m.sectionId);
    writer.U32(m.roundId);
    writer.U16(CodeNumber(m.code));
    writer.U16(0);
    writer.U32(m.missingCount);
    writer.U32(|m.bitmap|);
    writer.Append(m.bitmap);
    writer.Contents();
    assert writer.raw == m.bitmap;
    StatusFrameIs(m, writer.widths, writer.values);
    return Ok(writer.data);
  }

  method DecodeSectionStatus(frame: Bytes) returns (r: Result<SectionStatus>)
    ensures r == DecodeStatus(frame)
  {
    hide Pack, Unpack, Fits, Value, BigEndian, Pow256, Total, StatusFrame, StatusValues, DecodeStatus, CodeNumber,
      CodeOf;
    DecodeStatusIs(frame);
    if |frame| < 36 {
      return Thrown;
    }
    var reader := new PacketReader(frame);
    var headed := ReadControlHeader(reader, SECTION_STATUS_TYPE);
    var transferId := reader.U64();
    var sectionId := reader.U32();
    var roundId := reader.U32();
    var code := reader.U16();
    var reserved := reader.U16();
    var missingCount := reader.U32();
    var bitmapSize := reader.U32();
    reader.Contents();
    assert reader.widths == STATUS_WIDTHS;
    var bitmap := frame[reader.offset..];
    if !headed || code.value < 1 || code.value > 3 || bitmapSize.value != |bitmap| {
      return Thrown;
    }
    return Ok(SectionStatus(transferId.value, sectionId.value, roundId.value, CodeOf(code.value),
                            missingCount.value, bitmap));
  }

  lemma StatusFrameIs(m: SectionStatus, widths: seq<nat>, values: seq<nat>)
    requires |widths| == |values| == 10 && widths == STATUS_WIDTHS
    requires values == [CONTROL_MAGIC, VERSION, SECTION_STATUS_TYPE, m.transferId, m.sectionId, m.roundId,
                        CodeNumber(m.code), 0, m.missingCount, |m.bitmap|]
    ensures StatusFrame(m, 0) == Pack(widths, values) + m.bitmap
  {
  }

  lemma DecodeStatusIs(frame: Bytes)
    ensures |frame| < 36 ==> DecodeStatus(frame) == Thrown
    ensures |frame| >= 36 ==> Unpack(STATUS_WIDTHS, frame).Some?
    ensures Unpack(STATUS_WIDTHS, frame).Some? ==>
      var (v, bitmap) := Unpack(STATUS_WIDTHS, frame).value;
      && |v| == 10 && v[3] < U64 && v[4] < U32 && v[5] < U32 && v[8] < U32
      && DecodeStatus(frame)
         == if v[0] == CONTROL_MAGIC && v[1] == VERSION && v[2] == SECTION_STATUS_TYPE && 1 <= v[6] <= 3
               && v[9] == |bitmap|
            then Ok(SectionStatus(v[3], v[4], v[5], CodeOf(v[6]), v[8], bitmap)) else Thrown
  {
    UnpackedStatus(frame);
  }

  /** A frame decodes to a status exactly when it is that status's frame with some reserved field. */
  lemma StatusDecodesIff(m: SectionStatus, frame: Bytes)
    ensures DecodeStatus(frame) == Ok(m)
       <==> |m.bitmap| < U32 && exists reserved: uint16 :: frame == StatusFrame(m, reserved)
  {
    hide DecodeStatus, Unpack, Pack, Pow256, CodeOf;
    if |m.bitmap| < U32 {
      forall reserved: uint16 | frame == StatusFrame(m, reserved) ensures DecodeStatus(frame) == Ok(m) {
        StatusFits(m, reserved);
        ReadsWhatWasWritten(STATUS_WIDTHS, StatusValues(m, reserved), m.bitmap, frame);
        DecodeStatusIs(frame);
      }
    }
    if DecodeStatus(frame) == Ok(m) {
      DecodeStatusIs(frame);
      var (v, bitmap) := Unpack(STATUS_WIDTHS, frame).value;
      UnpackedStatus(frame);
      ReadsWhatWasWritten(STATUS_WIDTHS, v, bitmap, frame);
      CodeRoundTrip(m.code, v[6]);
      assert v == StatusValues(m, v[7]);
      assert frame == StatusFrame(m, v[7]);
    }
  }

  lemma CodeRoundTrip(code: StatusCode, n: nat)
    ensures CodeOf(CodeNumber(code)) == code
    ensures 1 <= n <= 3 ==> CodeNumber(CodeOf(n)) == n
  {
  }

  lemma StatusFits(m: SectionStatus, reserved: uint16)
    requires |m.bitmap| < U32
    ensures Fits(STATUS_WIDTHS, StatusValues(m, reserved)) && CodeOf(CodeNumber(m.code)) == m.code
  {
    Widths();
  }

  lemma StatusRoundTrip(m: SectionStatus)
    requires |m.bitmap| < U32
    ensures DecodeStatus(StatusFrame(m, 0)) == Ok(m)
  {
    hide DecodeStatus, StatusFrame;
    StatusDecodesIff(m, StatusFrame(m, 0));
  }

  /** The report of a section fits one control frame exactly up to 8,388,320 blocks. */
  lemma ReportFitsFrameIff(m: SectionStatus, n: nat)
    requires |m.bitmap| == BitmapSize(n)
    ensures |StatusFrame(m, 0)| <= MAX_CONTROL_FRAME <==> n <= 8_388_320
  {
    PackLength(STATUS_WIDTHS, StatusValues(m, 0));
  }

  lemma {:induction false} PackLength(widths: seq<nat>, values: seq<nat>)
    requires |widths| == |values|
    ensures |Pack(widths, values)| == Total(widths)
    decreases |widths|
  {
    if widths != [] {
      PackLength(widths[1..], values[1..]);
    }
  }
}
