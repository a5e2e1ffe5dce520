/** Fixed values of the CRC-32: the check value that identifies the variant, and the residue that the
    division of a payload followed by its own checksum leaves. Neither names the register's start. */
module CrcResidue {
  import opened Common
  import opened Crc32

  // ----- The check value

  lemma DivideNext(reg: bv32, b: bv8, rest: Bytes, next: bv32)
    requires Shifts(Xor(reg, b as bv32), 8) == next
    ensures Divide(reg, [b] + rest) == Divide(next, rest)
  {
    hide Xor, DivideBits, Shifts;
    assert ([b] + rest)[1..] == rest;
    ByteStep(reg, b);
  }

  lemma FirstDigits(rest: Bytes)
    ensures Divide(0xffff_ffff, [0x31, 0x32, 0x33] + rest) == Divide(0x77b7_9c2d, rest)
  {
    hide Divide;
    assert [0x31, 0x32, 0x33] + rest == [0x31] + ([0x32] + ([0x33] + rest));
    DivideNext(0xffff_ffff, 0x31, [0x32] + ([0x33] + rest), 0x7c23_1048);
    DivideNext(0x7c23_1048, 0x32, [0x33] + rest, 0xb0ac_bb32);
    DivideNext(0xb0ac_bb32, 0x33, rest, 0x77b7_9c2d);
  }

  lemma MiddleDigits(rest: Bytes)
    ensures Divide(0x77b7_9c2d, [0x34, 0x35, 0x36] + rest) == Divide(0xf68d_2c9e, rest)
  {
    hide Divide;
    assert [0x34, 0x35, 0x36] + rest == [0x34] + ([0x35] + ([0x36] + rest));
    DivideNext(0x77b7_9c2d, 0x34, [0x35] + ([0x36] + rest), 0x641c_1f5c);
    DivideNext(0x641c_1f5c, 0x35, [0x36] + rest, 0x340a_c5e3);
    DivideNext(0x340a_c5e3, 0x36, rest, 0xf68d_2c9e);
  }

  lemma LastDigits(rest: Bytes)
    ensures Divide(0xf68d_2c9e, [0x37, 0x38, 0x39] + rest) == Divide(0x340b_c6d9, rest)
  {
    hide Divide;
    assert [0x37, 0x38, 0x39] + rest == [0x37] + ([0x38] + ([0x39] + rest));
    DivideNext(0xf68d_2c9e, 0x37, [0x38] + ([0x39] + rest), 0xaffc_9660);
    DivideNext(0xaffc_9660, 0x38, [0x39] + rest, 0x651f_2550);
    DivideNext(0x651f_2550, 0x39, rest, 0x340b_c6d9);
  }

  /** The checksum of the digits 1 to 9 is the one that catalogues give for the CRC-32 of RFC 1952. */
  lemma CheckValue()
    ensures Crc([0x31, 0x32, 0x33, 0x34, 0x35, 0x36, 0x37, 0x38, 0x39]) == 0xcbf4_3926
  {
    hide Divide;
    var digits: Bytes := [0x31, 0x32, 0x33, 0x34, 0x35, 0x36, 0x37, 0x38, 0x39];
    var last: Bytes := [0x37, 0x38, 0x39] + [];
    assert digits == [0x31, 0x32, 0x33] + ([0x34, 0x35, 0x36] + last);
    FirstDigits([0x34, 0x35, 0x36] + last);
    MiddleDigits(last);
    LastDigits([]);
    DivideNone(0x340b_c6d9);
  }

  // ----- The residue

  /** The four bytes of a checksum, low byte first. */
  function LowByteFirst(v: bv32): (d: Bytes)
    ensures |d| == 4
  {
    [(v & 0xff) as bv8, ((v >> 8) & 0xff) as bv8, ((v >> 16) & 0xff) as bv8, (v >> 24) as bv8]
  }

  lemma PackOne(b: bv8)
    ensures Pack([b]) == b as bv32
  {
    assert [b][1..] == [];
  }

  lemma PackLowByteFirst(v: bv32)
    ensures Pack(LowByteFirst(v)) == v
  {
    hide Pack, Xor, Up;
    var d := LowByteFirst(v);
    assert d[1..][1..] == d[2..] && d[2..][1..] == d[3..] && d[3..] == [d[3]];
    PackOf(d);
    PackOf(d[1..]);
    PackOf(d[2..]);
    PackOne(d[3]);
    Reassembled(v);
  }

  lemma Reassembled(v: bv32)
    ensures Xor(v & 0xff, Up(Xor((v >> 8) & 0xff, Up(Xor((v >> 16) & 0xff, Up(v >> 24)))))) == v
    ensures ((v & 0xff) as bv8) as bv32 == v & 0xff && (((v >> 8) & 0xff) as bv8) as bv32 == (v >> 8) & 0xff
    ensures (((v >> 16) & 0xff) as bv8) as bv32 == (v >> 16) & 0xff && ((v >> 24) as bv8) as bv32 == v >> 24
  {
  }

  lemma XorComplement(r: bv32)
    ensures Xor(r, Xor(r, 0xffff_ffff)) == 0xffff_ffff
  {
  }

  lemma AllOnesShifted()
    ensures Shifts(0xffff_ffff, 32) == 0xdebb_20e3
  {
    hide Shift;
    ShiftsCompose(0xffff_ffff, 8, 24);
    ShiftsCompose(0x2dfd_1072, 8, 16);
    ShiftsCompose(0xbe26_ed00, 8, 8);
    FourShifts();
  }

  lemma FourShifts()
    ensures Shifts(0xffff_ffff, 8) == 0x2dfd_1072 && Shifts(0x2dfd_1072, 8) == 0xbe26_ed00
    ensures Shifts(0xbe26_ed00, 8) == 0x00be_26ed && Shifts(0x00be_26ed, 8) == 0xdebb_20e3
  {
  }

  /** Dividing any payload followed by its own checksum, low byte first, from the all-ones register
      leaves one fixed register, whatever the payload. */
  lemma ResidueIsFixed(data: Bytes)
    ensures Divide(0xffff_ffff, data + LowByteFirst(Crc(data))) == 0xdebb_20e3
    ensures Crc(data + LowByteFirst(Crc(data))) == 0x2144_df1c
  {
    hide Divide, Shifts, Xor, LowByteFirst;
    var r := Divide(0xffff_ffff, data);
    DivideAppend(0xffff_ffff, data, LowByteFirst(Crc(data)));
    DivideIsPack(r, LowByteFirst(Crc(data)));
    PackLowByteFirst(Crc(data));
    XorComplement(r);
    AllOnesShifted();
    FinalXor();
  }

  lemma FinalXor()
    ensures Xor(0xdebb_20e3, 0xffff_ffff) == 0x2144_df1c
  {
  }
}
