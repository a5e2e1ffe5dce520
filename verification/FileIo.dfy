/** Block reads and writes on a file's bytes (include/file_io.hpp), and why the rest of the model may
    treat a file as a sequence of blocks. */
module FileIo {
  import opened Common
  import opened Sections
  import opened Messages

  // ----- Loops over pread and pwrite

  /** An open file. */
  class DataFile {
    var bytes: Bytes

    constructor (bytes: Bytes)
      ensures this.bytes == bytes
    {
      this.bytes := bytes;
    }

    /** One `pwrite`. */
    method Overwrite(offset: nat, data: Bytes)
      modifies this
      ensures bytes == Spliced(old(bytes), offset, data)
    {
      if data != [] {
        var base := Padded(bytes, offset);
        var end := Min(offset + |data|, |base|);
        bytes := base[..offset] + data + base[end..];
      }
    }

    /** `write_all_at`; `calls` are the results of successive `pwrite` calls, and running out of results
        stands for a call that never returns. */
    method WriteAllAt(data: Bytes, offset: nat, calls: seq<Call>) returns (ok: bool, written: nat, used: nat)
      modifies this
      ensures written <= |data| && used <= |calls| && (ok <==> written == |data|)
      ensures bytes == Spliced(old(bytes), offset, data[..written])
      ensures ok || used == |calls| || (used > 0 && Fatal(calls[used - 1]))
    {
      hide Spliced;
      written, used := 0, 0;
      SpliceNone(bytes, offset);
      while written < |data|
        invariant written <= |data| && used <= |calls|
        invariant bytes == Spliced(old(bytes), offset, data[..written])
        decreases |calls| - used
      {
        if used == |calls| {
          return false, written, used;
        }
        var call := calls[used];
        used := used + 1;
        match call
        case Interrupted =>
        case Error => return false, written, used;
        case Moved(count) =>
          if count == 0 {
            return false, written, used;
          }
          var moved := Min(count, |data| - written);
          SpliceMore(old(bytes), offset, data, written, written + moved);
          Overwrite(offset + written, data[written..written + moved]);
          written := written + moved;
      }
      return true, written, used;
    }

    /** `read_block`: the block's bytes and its offset; an exception at an early end of file. */
    method ReadBlock(fileSize: uint64, block: uint32, calls: seq<Call>)
      returns (payload: Result<Bytes>, offset: nat, used: nat)
      requires BlockOffset(block) <= fileSize
      ensures offset == BlockOffset(block) && used <= |calls|
      ensures payload.Ok? ==>
                |payload.value| == BlockSize(fileSize, block)
                && (payload.value == [] || offset + |payload.value| <= |bytes|)
                && forall i :: 0 <= i < |payload.value| ==> payload.value[i] == bytes[offset + i]
      ensures payload.Ok? || |bytes| < offset + BlockSize(fileSize, block) || used == |calls|
              || (used > 0 && Fatal(calls[used - 1]))
    {
      offset := BlockOffset(block);
      var wanted := BlockSize(fileSize, block);
      var buffer := new bv8[wanted];
      var received := 0;
      used := 0;
      while received < wanted
        invariant received <= wanted && used <= |calls|
        invariant received == 0 || offset + received <= |bytes|
        invariant forall i :: 0 <= i < received ==> buffer[i] == bytes[offset + i]
        decreases |calls| - used
      {
        if used == |calls| {
          return Thrown, offset, used;
        }
        var call := calls[used];
        used := used + 1;
        match call
        case Interrupted =>
        case Error => return Thrown, offset, used;
        case Moved(count) =>
          var moved := Min(count, Min(wanted - received, |bytes| - offset - received));
          if moved <= 0 {
            return Thrown, offset, used;
          }
          forall i | received <= i < received + moved {
            buffer[i] := bytes[offset + i];
          }
          received := received + moved;
      }
      return Ok(buffer[..]), offset, used;
    }
  }

  /** The bytes, with zeros up to `n` when they are fewer. */
  function Padded(bytes: Bytes, n: nat): (r: Bytes)
    ensures |r| == if |bytes| < n then n else |bytes|
  {
    if |bytes| < n then bytes + seq(n - |bytes|, _ => 0) else bytes
  }

  /** `data` written from `offset` on: over what is there, and past the end, where a hole reads as zeros. */
  function Spliced(bytes: Bytes, offset: nat, data: Bytes): (r: Bytes)
    ensures offset + |data| <= |bytes| ==> |r| == |bytes|
  {
    if data == [] then bytes
    else
      var base := Padded(bytes, offset);
      base[..offset] + data + base[Min(offset + |data|, |base|)..]
  }

  lemma SpliceMore(bytes: Bytes, offset: nat, data: Bytes, n: nat, m: nat)
    requires n < m <= |data|
    ensures Spliced(Spliced(bytes, offset, data[..n]), offset + n, data[n..m]) == Spliced(bytes, offset, data[..m])
  {
    assert data[..m] == data[..n] + data[n..m];
    if n > 0 {
      var first := Spliced(bytes, offset, data[..n]);
      assert Padded(first, offset + n) == first;
    }
  }

  lemma SpliceNone(bytes: Bytes, offset: nat)
    ensures Spliced(bytes, offset, []) == bytes
  {
  }

  /** Every byte of the written range comes from the data, every other one was there or is a zero. */
  lemma SplicedAt(bytes: Bytes, offset: nat, data: Bytes, i: nat)
    requires data != []
    ensures |Spliced(bytes, offset, data)| == if |bytes| < offset + |data| then offset + |data| else |bytes|
    ensures i < |Spliced(bytes, offset, data)| ==>
              Spliced(bytes, offset, data)[i]
              == if offset <= i < offset + |data| then data[i - offset] else if i < |bytes| then bytes[i] else 0
  {
  }

  // ----- A file is its blocks

  /** The blocks of a file of the announced size. */
  function ContentOf(bytes: Bytes, g: Geometry): (c: Content)
    requires Valid(g) && |bytes| == g.fileSize
    ensures FullSize(c, g)
  {
    seq(g.totalBlocks, b requires 0 <= b < g.totalBlocks =>
      BlocksTileFile(g, b);
      bytes[BlockOffset(b)..BlockOffset(b) + BlockSizeOf(g, b)])
  }

  /** The block of a byte. */
  lemma ByteInBlock(g: Geometry, i: nat)
    requires Valid(g) && i < g.fileSize
    ensures var b := i / PAYLOAD_SIZE;
      b < g.totalBlocks && BlockOffset(b) <= i < BlockOffset(b) + BlockSizeOf(g, b)
  {
  }

  /** Nothing is lost: two files of the announced size are equal exactly when their blocks are. */
  lemma SameBlocksSameFile(a: Bytes, b: Bytes, g: Geometry)
    requires Valid(g) && |a| == |b| == g.fileSize
    ensures ContentOf(a, g) == ContentOf(b, g) <==> a == b
  {
    if ContentOf(a, g) == ContentOf(b, g) {
      forall i | 0 <= i < |a| ensures a[i] == b[i] {
        ByteInBlock(g, i);
        var k := i / PAYLOAD_SIZE;
        assert ContentOf(a, g)[k] == ContentOf(b, g)[k];
        assert ContentOf(a, g)[k][i - BlockOffset(k)] == a[i];
        assert ContentOf(b, g)[k][i - BlockOffset(k)] == b[i];
      }
    }
  }

  /** Writing a block at its offset replaces exactly that block. */
  lemma WriteReplacesBlock(bytes: Bytes, g: Geometry, block: uint32, payload: Payload)
    requires Valid(g) && |bytes| == g.fileSize && block < g.totalBlocks && |payload| == BlockSizeOf(g, block)
    ensures BlockOffset(block) + |payload| <= |bytes|
    ensures ContentOf(Spliced(bytes, BlockOffset(block), payload), g) == ContentOf(bytes, g)[block := payload]
  {
    BlocksTileFile(g, block);
    var after := Spliced(bytes, BlockOffset(block), payload);
    forall b | 0 <= b < g.totalBlocks
      ensures ContentOf(after, g)[b] == ContentOf(bytes, g)[block := payload][b]
    {
      BlocksTileFile(g, b);
      BlocksApart(g, b, block);
      SpliceSlice(bytes, BlockOffset(block), payload, BlockOffset(b), BlockSizeOf(g, b));
    }
  }

  lemma SpliceSlice(bytes: Bytes, offset: nat, data: Bytes, from: nat, size: nat)
    requires offset + |data| <= |bytes| && from + size <= |bytes|
    ensures Spliced(bytes, offset, data)[offset..offset + |data|] == data
    ensures from + size <= offset || offset + |data| <= from ==>
              Spliced(bytes, offset, data)[from..from + size] == bytes[from..from + size]
  {
  }

  lemma BlocksApart(g: Geometry, a: nat, b: nat)
    requires Valid(g) && a < g.totalBlocks && b < g.totalBlocks
    ensures a < b ==> BlockOffset(a) + BlockSizeOf(g, a) <= BlockOffset(b)
    ensures b < a ==> BlockOffset(b) + BlockSizeOf(g, b) <= BlockOffset(a)
  {
  }

  /** A write cut short tears only its own block. */
  lemma CutWriteTearsBlock(bytes: Bytes, g: Geometry, block: uint32, payload: Payload, written: nat)
    requires Valid(g) && |bytes| == g.fileSize && block < g.totalBlocks && |payload| == BlockSizeOf(g, block)
    requires written <= |payload|
    ensures BlockOffset(block) + |payload| <= |bytes|
    ensures var before := ContentOf(bytes, g);
      ContentOf(Spliced(bytes, BlockOffset(block), payload[..written]), g)
      == before[block := payload[..written] + before[block][written..]]
  {
    var before := ContentOf(bytes, g);
    BlocksTileFile(g, block);
    var torn := payload[..written] + before[block][written..];
    WriteReplacesBlock(bytes, g, block, torn);
    assert Spliced(bytes, BlockOffset(block), payload[..written]) == Spliced(bytes, BlockOffset(block), torn);
  }
}
