/** The CRC-32 of src/checksum.cpp: a 256-entry table and one lookup per byte, proved equal to
    the bit-at-a-time reflected division that section 8 of RFC 1952 describes, and proved to tell
    apart any two payloads of one length that differ only inside four consecutive bytes. */
module Crc32 {
  import opened Common

  const POLYNOMIAL: bv32 := 0xedb8_8320
  const INITIAL: bv32 := 0xffff_ffff

  // The three register operations, named so that proofs can reason about them by their laws.

  function Xor(a: bv32, b: bv32): bv32 { a ^ b }

  function Half(v: bv32): bv32 { v >> 1 }

  predicate Odd(v: bv32) { v & 1 == 1 }

  lemma XorAssociative(a: bv32, b: bv32, c: bv32)
    ensures Xor(Xor(a, b), c) == Xor(a, Xor(b, c))
  {
  }

  lemma XorCommutative(a: bv32, b: bv32)
    ensures Xor(a, b) == Xor(b, a)
  {
  }

  lemma XorZero(v: bv32)
    ensures Xor(v, 0) == v
  {
  }

  lemma XorSelf(v: bv32)
    ensures Xor(v, v) == 0
  {
  }

  lemma HalfXor(a: bv32, b: bv32)
    ensures Half(Xor(a, b)) == Xor(Half(a), Half(b))
  {
  }

  lemma OddXor(a: bv32, b: bv32)
    ensures Odd(Xor(a, b)) <==> (Odd(a) <==> !Odd(b))
  {
  }

  /** Cancelling a common term on the left. */
  lemma {:induction false} XorCancel(p: bv32, a: bv32, b: bv32)
    ensures Xor(Xor(p, a), Xor(p, b)) == Xor(a, b)
  {
    hide *;
    XorCommutative(p, a);
    XorAssociative(a, p, Xor(p, b));
    XorAssociative(p, p, b);
    XorSelf(p);
    XorCommutative(0, b);
    XorZero(b);
  }

  // ----- Reference: one message bit at a time, least significant bit of each byte first

  /** Shifts one message bit through the division register: the bit leaving the register is added
      to the message bit, and the sum decides whether the polynomial is subtracted. */
  function DivideBit(reg: bv32, bit: bv32): bv32 {
    if Odd(Xor(reg, bit)) then Xor(POLYNOMIAL, Half(reg)) else Half(reg)
  }

  function DivideBits(reg: bv32, byte: bv32, count: nat): bv32
    decreases count
  {
    if count == 0 then reg else DivideBits(DivideBit(reg, byte & 1), Half(byte), count - 1)
  }

  function Divide(reg: bv32, data: Bytes): bv32
    decreases |data|
  {
    if data == [] then reg else Divide(DivideBits(reg, data[0] as bv32, 8), data[1..])
  }

  /** The checksum of `data` by bit-serial division. */
  function Crc(data: Bytes): bv32 {
    Xor(Divide(INITIAL, data), INITIAL)
  }

  // ----- The register map without message bits, as the table construction applies it

  function Shift(v: bv32): bv32 {
    if Odd(v) then Xor(POLYNOMIAL, Half(v)) else Half(v)
  }

  function Shifts(v: bv32, count: nat): bv32
    decreases count
  {
    if count == 0 then v else Shifts(Shift(v), count - 1)
  }

  lemma ShiftIs(v: bv32)
    ensures Shift(v) == if Odd(v) then Xor(POLYNOMIAL, Half(v)) else Half(v)
  {
  }

  lemma ShiftLinear(a: bv32, b: bv32)
    ensures Shift(Xor(a, b)) == Xor(Shift(a), Shift(b))
  {
    hide *;
    ShiftIs(a);
    ShiftIs(b);
    ShiftIs(Xor(a, b));
    OddXor(a, b);
    HalfXor(a, b);
    var p, x, y := POLYNOMIAL, Half(a), Half(b);
    XorAssociative(p, x, y);
    XorAssociative(x, p, y);
    XorCommutative(x, p);
    XorCancel(p, x, y);
  }

  /** Shifting is linear over exclusive or. */
  lemma {:induction false} ShiftsLinear(a: bv32, b: bv32, count: nat)
    ensures Shifts(Xor(a, b), count) == Xor(Shifts(a, count), Shifts(b, count))
    decreases count
  {
    if count > 0 {
      ShiftLinear(a, b);
      ShiftsLinear(Shift(a), Shift(b), count - 1);
    }
  }

  lemma ShiftInjective(a: bv32, b: bv32)
    requires Shift(a) == Shift(b)
    ensures a == b
  {
  }

  lemma {:induction false} ShiftsInjective(a: bv32, b: bv32, count: nat)
    requires Shifts(a, count) == Shifts(b, count)
    ensures a == b
    decreases count
  {
    if count > 0 {
      ShiftsInjective(Shift(a), Shift(b), count - 1);
      ShiftInjective(a, b);
    }
  }

  lemma {:induction false} ShiftsCompose(v: bv32, m: nat, n: nat)
    ensures Shifts(Shifts(v, m), n) == Shifts(v, m + n)
    decreases m
  {
    if m > 0 {
      ShiftsCompose(Shift(v), m - 1, n);
    }
  }

  // ----- Eight message bits at once

  lemma DivideBitIs(reg: bv32, bit: bv32)
    ensures DivideBit(reg, bit) == if Odd(Xor(reg, bit)) then Xor(POLYNOMIAL, Half(reg)) else Half(reg)
  {
  }

  lemma LowBitOdd(v: bv32)
    ensures Odd(v & 1) == Odd(v)
  {
  }

  lemma DivideStep(reg: bv32, byte: bv32)
    ensures Shift(Xor(reg, byte)) == Xor(DivideBit(reg, byte & 1), Half(byte))
  {
    hide *;
    DivideBitIs(reg, byte & 1);
    ShiftIs(Xor(reg, byte));
    OddXor(reg, byte);
    OddXor(reg, byte & 1);
    LowBitOdd(byte);
    HalfXor(reg, byte);
    XorAssociative(POLYNOMIAL, Half(reg), Half(byte));
  }

  function Remaining(byte: bv32, count: nat): bv32
    decreases count
  {
    if count == 0 then byte else Remaining(Half(byte), count - 1)
  }

  lemma {:induction false} DivideBitsIsShifts(reg: bv32, byte: bv32, count: nat)
    ensures Shifts(Xor(reg, byte), count) == Xor(DivideBits(reg, byte, count), Remaining(byte, count))
    decreases count
  {
    if count > 0 {
      DivideStep(reg, byte);
      DivideBitsIsShifts(DivideBit(reg, byte & 1), Half(byte), count - 1);
    }
  }

  lemma {:induction false} RemainingCompose(v: bv32, m: nat, n: nat)
    ensures Remaining(Remaining(v, m), n) == Remaining(v, m + n)
    decreases m
  {
    if m > 0 {
      RemainingCompose(Half(v), m - 1, n);
    }
  }

  lemma HalfChain(v: bv32)
    ensures Half(v) == v >> 1 && Half(v >> 1) == v >> 2 && Half(v >> 2) == v >> 3
    ensures Half(v >> 3) == v >> 4 && Half(v >> 4) == v >> 5 && Half(v >> 5) == v >> 6
    ensures Half(v >> 6) == v >> 7 && Half(v >> 7) == v >> 8
  {
  }

  lemma RemainingFour(v: bv32)
    ensures Remaining(v, 4) == Half(Half(Half(Half(v))))
  {
    RemainingCompose(v, 2, 2);
  }

  lemma RemainingEight(v: bv32)
    ensures Remaining(v, 8) == v >> 8
  {
    hide *;
    HalfChain(v);
    RemainingFour(v);
    RemainingFour(v >> 4);
    RemainingCompose(v, 4, 4);
  }

  lemma ByteIsShort(b: bv8)
    ensures (b as bv32) >> 8 == 0
  {
  }

  /** One whole byte is divided by adding it to the register and shifting eight times. */
  lemma ByteStep(reg: bv32, b: bv8)
    ensures DivideBits(reg, b as bv32, 8) == Shifts(Xor(reg, b as bv32), 8)
  {
    DivideBitsIsShifts(reg, b as bv32, 8);
    RemainingEight(b as bv32);
    ByteIsShort(b);
    XorZero(DivideBits(reg, b as bv32, 8));
  }

  lemma LowByteClear(v: bv32)
    requires v & 0xff == 0
    ensures !Odd(v) && !Odd(v >> 1) && !Odd(v >> 2) && !Odd(v >> 3)
    ensures !Odd(v >> 4) && !Odd(v >> 5) && !Odd(v >> 6) && !Odd(v >> 7)
  {
  }

  lemma ShiftsFour(v: bv32)
    ensures Shifts(v, 4) == Shift(Shift(Shift(Shift(v))))
  {
    ShiftsCompose(v, 2, 2);
  }

  /** While the register holds a clear low byte, nothing is subtracted. */
  lemma ShiftsOfClearByte(v: bv32)
    requires v & 0xff == 0
    ensures Shifts(v, 8) == v >> 8
  {
    hide *;
    LowByteClear(v);
    HalfChain(v);
    ShiftIs(v);
    ShiftIs(v >> 1);
    ShiftIs(v >> 2);
    ShiftIs(v >> 3);
    ShiftIs(v >> 4);
    ShiftIs(v >> 5);
    ShiftIs(v >> 6);
    ShiftIs(v >> 7);
    ShiftsFour(v);
    ShiftsFour(v >> 4);
    ShiftsCompose(v, 4, 4);
  }

  lemma SplitLowByte(v: bv32)
    ensures v == Xor(v & 0xff, v & 0xffff_ff00)
    ensures (v & 0xffff_ff00) & 0xff == 0
    ensures (v & 0xffff_ff00) >> 8 == v >> 8
  {
  }

  /** The lookup identity: eight shifts act on the low byte alone, and the rest moves down. */
  lemma Lookup(v: bv32)
    ensures Shifts(v, 8) == Xor(Shifts(v & 0xff, 8), v >> 8)
  {
    hide *;
    SplitLowByte(v);
    ShiftsOfClearByte(v & 0xffff_ff00);
    ShiftsLinear(v & 0xff, v & 0xffff_ff00, 8);
  }

  // ----- The program

  /** What the table holds at index `i`. */
  function Entry(i: nat): bv32
    requires i < 256
  {
    Shifts(i as bv32, 8)
  }

  ghost predicate IsTable(table: seq<bv32>) {
    |table| == 256 && forall i :: 0 <= i < 256 ==> table[i] == Entry(i)
  }

  lemma EntryOfLowByte(v: bv32)
    ensures 0 <= (v & 0xff) as int < 256
    ensures Entry((v & 0xff) as int) == Shifts(v & 0xff, 8)
  {
    hide *;
    IndexRange(v);
    EntryIs((v & 0xff) as int);
    IndexRoundTrip(v & 0xff);
  }

  lemma IndexRange(v: bv32)
    ensures 0 <= (v & 0xff) as int < 256
  {
  }

  lemma IndexRoundTrip(v: bv32)
    requires v as int < 256
    ensures (v as int) as bv32 == v
  {
  }

  lemma EntryIs(i: nat)
    requires i < 256
    ensures Entry(i) == Shifts(i as bv32, 8)
  {
  }

  lemma ShiftIsConditional(v: bv32)
    ensures Shift(v) == if v & 1 != 0 then 0xedb8_8320 ^ (v >> 1) else v >> 1
  {
    assert v & 1 == 0 || v & 1 == 1;
  }

  method TableEntry(i: nat) returns (value: bv32)
    requires i < 256
    ensures value == Entry(i)
  {
    hide Shift, Shifts;
    value := i as bv32;
    var bit := 0;
    while bit < 8
      invariant 0 <= bit <= 8
      invariant Shifts(value, 8 - bit) == Entry(i)
    {
      ShiftIsConditional(value);
      ShiftsStep(value, 8 - bit);
      value := if value & 1 != 0 then 0xedb8_8320 ^ (value >> 1) else value >> 1;
      bit := bit + 1;
    }
    ShiftsNone(value);
  }

  lemma ShiftsStep(v: bv32, count: nat)
    requires count > 0
    ensures Shifts(v, count) == Shifts(Shift(v), count - 1)
  {
  }

  lemma ShiftsNone(v: bv32)
    ensures Shifts(v, 0) == v
  {
  }

  method BuildTable() returns (table: array<bv32>)
    ensures fresh(table) && IsTable(table[..])
  {
    hide Entry;
    table := new bv32[256];
    var i := 0;
    while i < 256
      invariant 0 <= i <= 256
      invariant forall k :: 0 <= k < i ==> table[k] == Entry(k)
    {
      var value := TableEntry(i);
      table[i] := value;
      i := i + 1;
    }
  }

  lemma DivideByTable(reg: bv32, b: bv8, entry: bv32)
    requires entry == Shifts(Xor(reg, b as bv32) & 0xff, 8)
    ensures Xor(entry, reg >> 8) == DivideBits(reg, b as bv32, 8)
  {
    hide *;
    ByteStep(reg, b);
    Lookup(Xor(reg, b as bv32));
    UpperPart(reg, b);
  }

  lemma UpperPart(reg: bv32, b: bv8)
    ensures Xor(reg, b as bv32) >> 8 == reg >> 8
  {
  }

  lemma {:induction false} DivideAppend(reg: bv32, a: Bytes, b: Bytes)
    ensures Divide(reg, a + b) == Divide(Divide(reg, a), b)
    decreases |a|
  {
    if a == [] {
      assert a + b == b;
    } else {
      assert (a + b)[1..] == a[1..] + b;
      DivideAppend(DivideBits(reg, a[0] as bv32, 8), a[1..], b);
    }
  }

  lemma DivideNone(reg: bv32)
    ensures Divide(reg, []) == reg
  {
  }

  lemma DivideOne(reg: bv32, b: bv8)
    ensures Divide(reg, [b]) == DivideBits(reg, b as bv32, 8)
  {
    assert [b][1..] == [];
  }

  /** One round of the checksum loop. */
  lemma TableRound(data: Bytes, i: nat, reg: bv32, entry: bv32)
    requires i < |data| && reg == Divide(INITIAL, data[..i])
    requires entry == Shifts(Xor(reg, data[i] as bv32) & 0xff, 8)
    ensures Xor(entry, reg >> 8) == Divide(INITIAL, data[..i + 1])
  {
    hide *;
    DivideByTable(reg, data[i], entry);
    DivideAppend(INITIAL, data[..i], [data[i]]);
    DivideOne(reg, data[i]);
    assert data[..i + 1] == data[..i] + [data[i]];
  }

  /** The table-driven checksum of the source equals bit-serial division on every input. */
  method Compute(data: Bytes) returns (crc: bv32)
    ensures crc == Crc(data)
  {
    hide Entry, Xor, Divide, DivideBits, Shifts;
    var table := BuildTable();
    assert forall k :: 0 <= k < 256 ==> table[k] == table[..][k];
    var value := INITIAL;
    DivideNone(INITIAL);
    var i := 0;
    while i < |data|
      invariant 0 <= i <= |data|
      invariant value == Divide(INITIAL, data[..i])
      invariant forall k :: 0 <= k < 256 ==> table[k] == Entry(k)
    {
      var slot := Xor(value, data[i] as bv32) & 0xff;
      EntryOfLowByte(Xor(value, data[i] as bv32));
      TableRound(data, i, value, table[slot as int]);
      value := Xor(table[slot as int], value >> 8);
      i := i + 1;
    }
    assert data[..i] == data;
    crc := Xor(value, INITIAL);
  }

  // ----- Four-byte bursts

  /** Up to four bytes as one register value, first byte lowest. */
  function Pack(d: Bytes): bv32
    decreases |d|
  {
    if d == [] then 0 else Xor(d[0] as bv32, Up(Pack(d[1..])))
  }

  function Up(v: bv32): bv32 { v << 8 }

  lemma PackBound(b: bv8, v: bv32)
    ensures Xor(b as bv32, Up(0)) <= 0xff
    ensures v <= 0xff ==> Xor(b as bv32, Up(v)) <= 0xffff
    ensures v <= 0xffff ==> Xor(b as bv32, Up(v)) <= 0xff_ffff
  {
  }

  lemma PackShort(d: Bytes)
    requires |d| <= 3
    ensures Pack(d) <= 0xff_ffff
    ensures |d| <= 2 ==> Pack(d) <= 0xffff
    ensures |d| <= 1 ==> Pack(d) <= 0xff
    decreases |d|
  {
    hide Xor, Up;
    if d != [] {
      PackShort(d[1..]);
      PackBound(d[0], Pack(d[1..]));
    }
  }

  lemma UpDown(v: bv32)
    requires v <= 0xff_ffff
    ensures Up(v) & 0xff == 0 && Up(v) >> 8 == v
  {
  }

  lemma PackApart(b: bv8, v: bv32, c: bv8, w: bv32)
    requires v <= 0xff_ffff && w <= 0xff_ffff
    requires Xor(b as bv32, Up(v)) == Xor(c as bv32, Up(w))
    ensures b == c && v == w
  {
  }

  lemma {:induction false} PackInjective(d: Bytes, e: Bytes)
    requires |d| == |e| <= 4 && Pack(d) == Pack(e)
    ensures d == e
    decreases |d|
  {
    hide Xor, Up;
    if d != [] {
      PackShort(d[1..]);
      PackShort(e[1..]);
      PackApart(d[0], Pack(d[1..]), e[0], Pack(e[1..]));
      PackInjective(d[1..], e[1..]);
    }
  }

  lemma PackStep(reg: bv32, d: Bytes)
    requires d != [] && |d| <= 4
    ensures Shifts(Xor(reg, Pack(d)), 8) == Xor(DivideBits(reg, d[0] as bv32, 8), Pack(d[1..]))
  {
    hide *;
    var b, rest := d[0] as bv32, Pack(d[1..]);
    PackOf(d);
    PackShort(d[1..]);
    ByteStep(reg, d[0]);
    XorAssociative(reg, b, Up(rest));
    ShiftsLinear(Xor(reg, b), Up(rest), 8);
    UpDown(rest);
    ShiftsOfClearByte(Up(rest));
  }

  lemma PackOf(d: Bytes)
    requires d != []
    ensures Pack(d) == Xor(d[0] as bv32, Up(Pack(d[1..])))
  {
  }

  /** A run of at most four bytes acts on the register as one addition and a bijection. */
  lemma {:induction false} DivideIsPack(reg: bv32, d: Bytes)
    requires |d| <= 4
    ensures Divide(reg, d) == Shifts(Xor(reg, Pack(d)), 8 * |d|)
    decreases |d|
  {
    hide Xor, Up, Shift, DivideBit, DivideBits, Shifts;
    if d == [] {
      XorZero(reg);
      ShiftsNone(Xor(reg, 0));
    } else {
      PackStep(reg, d);
      ShiftsCompose(Xor(reg, Pack(d)), 8, 8 * |d[1..]|);
      DivideIsPack(DivideBits(reg, d[0] as bv32, 8), d[1..]);
    }
  }

  lemma XorInjective(r: bv32, a: bv32, b: bv32)
    requires Xor(r, a) == Xor(r, b)
    ensures a == b
  {
  }

  lemma XorInjectiveLeft(a: bv32, b: bv32, c: bv32)
    requires Xor(a, c) == Xor(b, c)
    ensures a == b
  {
  }

  lemma {:induction false} DivideInjective(r: bv32, s: bv32, d: Bytes)
    requires Divide(r, d) == Divide(s, d)
    ensures r == s
    decreases |d|
  {
    hide Xor, Shift, DivideBit;
    if d != [] {
      var b := d[0] as bv32;
      DivideInjective(DivideBits(r, b, 8), DivideBits(s, b, 8), d[1..]);
      ByteStep(r, d[0]);
      ByteStep(s, d[0]);
      ShiftsInjective(Xor(r, b), Xor(s, b), 8);
      XorInjectiveLeft(r, s, b);
    }
  }

  /** Payloads that differ, and only inside one window of at most four bytes, have different
      checksums: every burst error of up to 32 bits is detected. */
  lemma BurstDetected(head: Bytes, d: Bytes, e: Bytes, tail: Bytes)
    requires |d| == |e| <= 4 && d != e
    ensures Crc(head + d + tail) != Crc(head + e + tail)
  {
    if Crc(head + d + tail) == Crc(head + e + tail) {
      hide Xor, Divide;
      var r := Divide(INITIAL, head);
      XorInjectiveLeft(Divide(INITIAL, head + d + tail), Divide(INITIAL, head + e + tail), INITIAL);
      DivideAppend(INITIAL, head + d, tail);
      DivideAppend(INITIAL, head + e, tail);
      DivideInjective(Divide(INITIAL, head + d), Divide(INITIAL, head + e), tail);
      DivideAppend(INITIAL, head, d);
      DivideAppend(INITIAL, head, e);
      DivideIsPack(r, d);
      DivideIsPack(r, e);
      ShiftsInjective(Xor(r, Pack(d)), Xor(r, Pack(e)), 8 * |d|);
      XorInjective(r, Pack(d), Pack(e));
      PackInjective(d, e);
    }
  }

  /** The same by positions. */
  lemma WindowDetected(a: Bytes, b: Bytes, from: nat)
    requires |a| == |b| && from <= |a| && a != b
    requires forall i :: 0 <= i < |a| && !(from <= i < from + 4) ==> a[i] == b[i]
    ensures Crc(a) != Crc(b)
  {
    var to := if from + 4 <= |a| then from + 4 else |a|;
    assert a == a[..from] + a[from..to] + a[to..];
    assert b == a[..from] + b[from..to] + a[to..];
    BurstDetected(a[..from], a[from..to], b[from..to], a[to..]);
  }

  /** Inverting the last payload byte, as the proxy's fault injection does, is always detected. */
  lemma LastByteInversionDetected(a: Bytes)
    requires a != []
    ensures Crc(a[|a| - 1 := a[|a| - 1] ^ 0xff]) != Crc(a)
  {
    var b := a[|a| - 1 := a[|a| - 1] ^ 0xff];
    assert b[|a| - 1] != a[|a| - 1] by {
      InvertedDiffers(a[|a| - 1]);
    }
    WindowDetected(b, a, |a| - 1);
  }

  lemma InvertedDiffers(v: bv8)
    ensures v ^ 0xff != v
  {
  }
}
