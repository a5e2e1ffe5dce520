/** Length-prefixed control frames over TCP: the blocking calls of include/control_io.hpp under any
    short reads and writes, and the receiver's incremental ControlStreamReader (src/receiver.cpp). */
module Stream {
  import opened Common
  import opened Wire

  // ----- The byte stream of a list of frames

  predicate FrameOk(frame: Bytes) {
    1 <= |frame| <= MAX_CONTROL_FRAME
  }

  function OnWire(frame: Bytes): Bytes {
    BigEndian(4, |frame|) + frame
  }

  function StreamOf(frames: seq<Bytes>): Bytes {
    if frames == [] then [] else OnWire(frames[0]) + StreamOf(frames[1..])
  }

  ghost predicate FramesOk(frames: seq<Bytes>) {
    forall i :: 0 <= i < |frames| ==> FrameOk(frames[i])
  }

  // ----- Cutting a buffer into frames

  datatype Cut = Invalid | NeedMore | Frame(size: nat)

  /** What stands at the front of a buffer. */
  function FrontOf(buffer: Bytes): Cut {
    if |buffer| < 4 then NeedMore
    else
      var size := Value(buffer[..4]);
      if size == 0 || size > MAX_CONTROL_FRAME then Invalid
      else if |buffer| - 4 < size then NeedMore
      else Frame(size)
  }

  /** All complete frames and the rest; an exception when a length is invalid. */
  function Split(buffer: Bytes): Result<(seq<Bytes>, Bytes)>
    decreases |buffer|
  {
    match FrontOf(buffer)
    case Invalid => Thrown
    case NeedMore => Ok(([], buffer))
    case Frame(size) =>
      match Split(buffer[4 + size..])
      case Thrown => Thrown
      case Ok((frames, rest)) => Ok(([buffer[4..4 + size]] + frames, rest))
  }

  /** A proper prefix of one frame: the kept buffer of a reader. */
  predicate Partial(buffer: Bytes) {
    FrontOf(buffer) == NeedMore
  }

  lemma FrontOfFrame(frame: Bytes, tail: Bytes)
    requires FrameOk(frame)
    ensures var buffer := OnWire(frame) + tail;
      FrontOf(buffer) == Frame(|frame|) && buffer[4..4 + |frame|] == frame && buffer[4 + |frame|..] == tail
  {
    hide Value, BigEndian;
    Widths();
    ValueOfBigEndian(4, |frame|);
    var buffer := OnWire(frame) + tail;
    assert buffer[..4] == BigEndian(4, |frame|);
  }

  lemma FrameAtFront(buffer: Bytes, size: nat)
    requires FrontOf(buffer) == Frame(size)
    ensures FrameOk(buffer[4..4 + size]) && buffer == OnWire(buffer[4..4 + size]) + buffer[4 + size..]
  {
    hide Value, BigEndian;
    BigEndianOfValue(buffer[..4]);
  }

  /** Splitting is exact: it yields a list of frames and a rest when the buffer is the stream of these
      frames followed by this proper prefix of a frame, and in no other case. */
  lemma SplitIff(buffer: Bytes, frames: seq<Bytes>, rest: Bytes)
    ensures Split(buffer) == Ok((frames, rest))
       <==> FramesOk(frames) && Partial(rest) && buffer == StreamOf(frames) + rest
  {
    hide Split, StreamOf, FrontOf;
    if FramesOk(frames) && Partial(rest) && buffer == StreamOf(frames) + rest {
      SplitOfStream(frames, rest);
    }
    if Split(buffer) == Ok((frames, rest)) {
      StreamOfSplit(buffer);
    }
  }

  lemma {:induction false} SplitOfStream(frames: seq<Bytes>, rest: Bytes)
    requires FramesOk(frames) && Partial(rest)
    ensures Split(StreamOf(frames) + rest) == Ok((frames, rest))
    decreases |frames|
  {
    hide FrontOf, OnWire, FrameOk;
    if frames == [] {
      assert StreamOf(frames) + rest == rest;
    } else {
      var tail := StreamOf(frames[1..]) + rest;
      assert StreamOf(frames) + rest == OnWire(frames[0]) + tail;
      FrontOfFrame(frames[0], tail);
      SplitOfStream(frames[1..], rest);
      assert frames == [frames[0]] + frames[1..];
    }
  }

  lemma {:induction false} StreamOfSplit(buffer: Bytes)
    ensures Split(buffer).Ok? ==>
              var (frames, rest) := Split(buffer).value;
              FramesOk(frames) && Partial(rest) && buffer == StreamOf(frames) + rest
    decreases |buffer|
  {
    hide OnWire, FrameOk;
    match FrontOf(buffer)
    case Invalid =>
    case NeedMore => assert StreamOf([]) + buffer == buffer;
    case Frame(size) =>
      var frame, tail := buffer[4..4 + size], buffer[4 + size..];
      FrameAtFront(buffer, size);
      StreamOfSplit(tail);
      if Split(tail).Ok? {
        var (frames, rest) := Split(tail).value;
        assert ([frame] + frames)[1..] == frames;
        assert OnWire(frame) + (StreamOf(frames) + rest) == (OnWire(frame) + StreamOf(frames)) + rest;
      }
  }

  // ----- The incremental reader

  function Joined(chunks: seq<Bytes>): Bytes
    decreases |chunks|
  {
    if chunks == [] then [] else Joined(chunks[..|chunks| - 1]) + chunks[|chunks| - 1]
  }

  class ControlStreamReader {
    var buffer: Bytes
    var peerClosed: bool

    constructor ()
      ensures buffer == [] && !peerClosed
    {
      buffer, peerClosed := [], false;
    }

    /** `read_frames`: `chunks` are the results of `recv` until it would block or the peer closes. */
    method ReadFrames(chunks: seq<Bytes>, closed: bool) returns (frames: Result<seq<Bytes>>)
      modifies this
      ensures peerClosed == (old(peerClosed) || closed)
      ensures match Split(old(buffer) + Joined(chunks))
              case Thrown => frames == Thrown && buffer == old(buffer) + Joined(chunks)
              case Ok((all, rest)) => frames == Ok(all) && buffer == rest
    {
      hide Value, Split;
      for i := 0 to |chunks|
        invariant buffer == old(buffer) + Joined(chunks[..i]) && peerClosed == old(peerClosed)
      {
        assert chunks[..i + 1][..i] == chunks[..i];
        buffer := buffer + chunks[i];
      }
      assert chunks[..|chunks|] == chunks;
      if closed {
        peerClosed := true;
      }
      var cut: seq<Bytes> := [];
      var consumed := 0;
      SplitStart(buffer);
      while |buffer| - consumed >= 4
        invariant 0 <= consumed <= |buffer| && buffer == old(buffer) + Joined(chunks)
        invariant peerClosed == (old(peerClosed) || closed)
        invariant Split(buffer) == Prepend(cut, Split(buffer[consumed..]))
        decreases |buffer| - consumed
      {
        FrontStep(buffer, consumed);
        SplitStep(buffer, consumed, cut);
        var size := Value(buffer[consumed..consumed + 4]);
        if size == 0 || size > MAX_CONTROL_FRAME {
          return Thrown;
        }
        if |buffer| - consumed < 4 + size {
          break;
        }
        cut := cut + [buffer[consumed + 4..consumed + 4 + size]];
        consumed := consumed + 4 + size;
      }
      SplitEnd(buffer, consumed, cut);
      buffer := buffer[consumed..];
      return Ok(cut);
    }
  }

  function Prepend(frames: seq<Bytes>, more: Result<(seq<Bytes>, Bytes)>): Result<(seq<Bytes>, Bytes)> {
    match more
    case Thrown => Thrown
    case Ok((rest, tail)) => Ok((frames + rest, tail))
  }

  lemma SplitStart(buffer: Bytes)
    ensures Split(buffer) == Prepend([], Split(buffer[0..]))
  {
    hide FrontOf;
    assert buffer[0..] == buffer;
    if Split(buffer).Ok? {
      assert [] + Split(buffer).value.0 == Split(buffer).value.0;
    }
  }

  lemma FrontStep(buffer: Bytes, consumed: nat)
    requires consumed + 4 <= |buffer|
    ensures var size := Value(buffer[consumed..consumed + 4]);
      FrontOf(buffer[consumed..])
      == if size == 0 || size > MAX_CONTROL_FRAME then Invalid
         else if |buffer| - consumed < 4 + size then NeedMore
         else Frame(size)
  {
    hide Value;
    assert buffer[consumed..][..4] == buffer[consumed..consumed + 4];
  }

  lemma SplitStep(buffer: Bytes, consumed: nat, cut: seq<Bytes>)
    requires consumed + 4 <= |buffer| && Split(buffer) == Prepend(cut, Split(buffer[consumed..]))
    ensures FrontOf(buffer[consumed..]) == Invalid ==> Split(buffer) == Thrown
    ensures FrontOf(buffer[consumed..]).Frame? ==>
      var next := consumed + 4 + FrontOf(buffer[consumed..]).size;
      next <= |buffer| && Split(buffer) == Prepend(cut + [buffer[consumed + 4..next]], Split(buffer[next..]))
  {
    hide Value;
    var front := buffer[consumed..];
    if FrontOf(front).Frame? {
      var size := FrontOf(front).size;
      var next := consumed + 4 + size;
      assert front[4..4 + size] == buffer[consumed + 4..next] && front[4 + size..] == buffer[next..];
      PrependPrepend(cut, buffer[consumed + 4..next], Split(buffer[next..]));
    }
  }

  lemma PrependPrepend(cut: seq<Bytes>, frame: Bytes, more: Result<(seq<Bytes>, Bytes)>)
    ensures Prepend(cut, Prepend([frame], more)) == Prepend(cut + [frame], more)
  {
    if more.Ok? {
      assert cut + ([frame] + more.value.0) == (cut + [frame]) + more.value.0;
    }
  }

  lemma SplitEnd(buffer: Bytes, consumed: nat, cut: seq<Bytes>)
    requires consumed <= |buffer| && Split(buffer) == Prepend(cut, Split(buffer[consumed..]))
    ensures FrontOf(buffer[consumed..]) == NeedMore ==> Split(buffer) == Ok((cut, buffer[consumed..]))
    ensures |buffer| - consumed < 4 ==> FrontOf(buffer[consumed..]) == NeedMore
  {
    assert cut + [] == cut;
  }

  // ----- Independence of chunking

  /** A sequence of `read_frames` calls that each get some bytes; None once a call has thrown. */
  function ReadCalls(buffer: Bytes, arrivals: seq<Bytes>): Option<(seq<Bytes>, Bytes)>
    decreases |arrivals|
  {
    if arrivals == [] then Some(([], buffer))
    else
      match ReadCalls(buffer, arrivals[..|arrivals| - 1])
      case None => None
      case Some((frames, kept)) =>
        match Split(kept + arrivals[|arrivals| - 1])
        case Thrown => None
        case Ok((more, rest)) => Some((frames + more, rest))
  }

  lemma StreamAppend(a: seq<Bytes>, b: seq<Bytes>)
    ensures StreamOf(a + b) == StreamOf(a) + StreamOf(b)
  {
    hide OnWire;
    if a == [] {
      assert a + b == b;
    } else {
      assert (a + b)[1..] == a[1..] + b;
      StreamAppend(a[1..], b);
    }
  }

  /** Whatever the calls return without throwing accounts for every byte received: the frames returned
      so far, in order, and a kept buffer that is a proper prefix of at most one frame. */
  lemma {:induction false} ReturnedAndKept(arrivals: seq<Bytes>)
    ensures ReadCalls([], arrivals).Some? ==>
              var (frames, kept) := ReadCalls([], arrivals).value;
              FramesOk(frames) && Partial(kept) && Joined(arrivals) == StreamOf(frames) + kept
    decreases |arrivals|
  {
    hide Split, StreamOf, FrontOf, FrameOk;
    if arrivals == [] {
      NothingRead();
    } else {
      var init, last := arrivals[..|arrivals| - 1], arrivals[|arrivals| - 1];
      ReturnedAndKept(init);
      if ReadCalls([], arrivals).Some? {
        var (frames, kept) := ReadCalls([], init).value;
        var (more, rest) := Split(kept + last).value;
        SplitIff(kept + last, more, rest);
        StreamAppend(frames, more);
        assert (StreamOf(frames) + kept) + last == StreamOf(frames) + (kept + last);
        assert StreamOf(frames) + (StreamOf(more) + rest) == (StreamOf(frames) + StreamOf(more)) + rest;
      }
    }
  }

  lemma NothingRead()
    ensures StreamOf([]) == [] && Partial([]) && FramesOk([])
  {
  }

  /** A buffer that is cut short of a valid stream never shows an invalid length. */
  lemma {:induction false} PrefixNeverThrows(buffer: Bytes, more: Bytes)
    requires Split(buffer + more).Ok?
    ensures Split(buffer).Ok?
    decreases |buffer|
  {
    hide Value;
    var whole := buffer + more;
    assert |buffer| >= 4 ==> whole[..4] == buffer[..4];
    match FrontOf(buffer)
    case NeedMore =>
    case Invalid =>
    case Frame(size) =>
      assert whole[4 + size..] == buffer[4 + size..] + more;
      PrefixNeverThrows(buffer[4 + size..], more);
  }

  /** Reassembly does not depend on chunking: however the stream of valid frames, followed by a proper
      prefix of another, is cut into arrivals, the calls together return exactly these frames in order
      and keep exactly that prefix. */
  lemma {:induction false} ChunkingDoesNotMatter(arrivals: seq<Bytes>, frames: seq<Bytes>, rest: Bytes)
    requires FramesOk(frames) && Partial(rest) && Joined(arrivals) == StreamOf(frames) + rest
    ensures ReadCalls([], arrivals) == Some((frames, rest))
  {
    hide Split, StreamOf, FrontOf, FrameOk;
    SplitIff(Joined(arrivals), frames, rest);
    AllCallsReturn(arrivals);
    ReturnedAndKept(arrivals);
    var (got, kept) := ReadCalls([], arrivals).value;
    SplitIff(Joined(arrivals), got, kept);
  }

  lemma {:induction false} AllCallsReturn(arrivals: seq<Bytes>)
    requires Split(Joined(arrivals)).Ok?
    ensures ReadCalls([], arrivals).Some?
    decreases |arrivals|
  {
    hide Split, StreamOf, FrontOf, FrameOk;
    if arrivals != [] {
      var init, last := arrivals[..|arrivals| - 1], arrivals[|arrivals| - 1];
      PrefixNeverThrows(Joined(init), last);
      AllCallsReturn(init);
      ReturnedAndKept(init);
      var (frames, kept) := ReadCalls([], init).value;
      assert Joined(arrivals) == StreamOf(frames) + (kept + last);
      SuffixNeverThrows(frames, kept + last);
    }
  }

  /** Frames already taken off do not change how the rest is read. */
  lemma {:induction false} SuffixNeverThrows(frames: seq<Bytes>, tail: Bytes)
    requires FramesOk(frames) && Split(StreamOf(frames) + tail).Ok?
    ensures Split(tail).Ok?
    decreases |frames|
  {
    hide FrontOf, OnWire, FrameOk;
    if frames == [] {
      assert StreamOf(frames) + tail == tail;
    } else {
      var rest := StreamOf(frames[1..]) + tail;
      assert StreamOf(frames) + tail == OnWire(frames[0]) + rest;
      FrontOfFrame(frames[0], rest);
      SuffixNeverThrows(frames[1..], tail);
    }
  }

  // ----- Blocking reads and writes

  /** `write_all`: `calls` are the results of successive `send` calls; `written` is what reached the
      connection. Running out of results stands for a call that never returns. */
  method WriteAll(data: Bytes, calls: seq<Call>) returns (ok: bool, written: Bytes, used: nat)
    ensures used <= |calls| && written <= data
    ensures ok <==> written == data
    ensures ok || used == |calls| || (used > 0 && Fatal(calls[used - 1]))
  {
    var progress := 0;
    used := 0;
    while progress < |data|
      invariant 0 <= progress <= |data| && used <= |calls|
      decreases |calls| - used
    {
      if used == |calls| {
        return false, data[..progress], used;
      }
      var call := calls[used];
      used := used + 1;
      match call
      case Interrupted =>
      case Error => return false, data[..progress], used;
      case Moved(count) =>
        if count == 0 {
          return false, data[..progress], used;
        }
        progress := Min(progress + count, |data|);
    }
    return true, data, used;
  }

  /** `read_all` of `size` bytes from a stream. */
  method ReadAll(stream: Bytes, size: nat, calls: seq<Call>) returns (data: Result<Bytes>, rest: Bytes, used: nat)
    ensures used <= |calls| && |rest| <= |stream| && rest == stream[|stream| - |rest|..]
    ensures data.Ok? ==> size <= |stream| && data.value == stream[..size] && rest == stream[size..]
    ensures data.Ok? || size > |stream| || used == |calls| || (used > 0 && Fatal(calls[used - 1]))
  {
    var progress := 0;
    used := 0;
    while progress < size
      invariant 0 <= progress <= size && progress <= |stream| && used <= |calls|
      decreases |calls| - used
    {
      if used == |calls| {
        return Thrown, stream[progress..], used;
      }
      var call := calls[used];
      used := used + 1;
      match call
      case Interrupted =>
      case Error => return Thrown, stream[progress..], used;
      case Moved(count) =>
        var moved := Min(count, Min(size - progress, |stream| - progress));
        if moved == 0 {
          return Thrown, stream[progress..], used;
        }
        progress := progress + moved;
    }
    return Ok(stream[..size]), stream[size..], used;
  }

  /** `send_control_frame`. */
  method SendControlFrame(frame: Bytes, calls: seq<Call>) returns (ok: bool, written: Bytes)
    ensures written <= OnWire(frame)
    ensures ok <==> FrameOk(frame) && written == OnWire(frame)
    ensures !FrameOk(frame) ==> written == []
  {
    hide BigEndian;
    if frame == [] || |frame| > MAX_CONTROL_FRAME {
      return false, [];
    }
    var prefix := BigEndian(4, |frame|);
    var sent, head, used := WriteAll(prefix, calls);
    if !sent {
      return false, head;
    }
    var body: Bytes;
    ok, body, used := WriteAll(frame, calls[used..]);
    written := prefix + body;
    assert body == frame[..|body|];
    assert written == OnWire(frame)[..|written|];
  }

  /** `receive_control_frame`: on success it took exactly one frame off the stream. */
  method ReceiveControlFrame(stream: Bytes, calls: seq<Call>) returns (frame: Result<Bytes>, rest: Bytes)
    ensures frame.Ok? ==> FrameOk(frame.value) && stream == OnWire(frame.value) + rest
  {
    hide BigEndian, Value;
    var head, tail, used := ReadAll(stream, 4, calls);
    if head.Thrown? {
      return Thrown, tail;
    }
    var size := Value(head.value);
    if size == 0 || size > MAX_CONTROL_FRAME {
      return Thrown, tail;
    }
    var body, remaining, more := ReadAll(tail, size, calls[used..]);
    if body.Thrown? {
      return Thrown, remaining;
    }
    BigEndianOfValue(head.value);
    assert tail == body.value + remaining;
    assert stream == head.value + tail;
    return body, remaining;
  }

  /** The blocking reader and the incremental reader agree: a frame taken off by one is the first frame
      the other returns. */
  lemma ReadersAgree(stream: Bytes, frame: Bytes, rest: Bytes)
    requires FrameOk(frame) && stream == OnWire(frame) + rest
    ensures Split(stream) == Prepend([frame], Split(rest))
  {
    hide OnWire, FrameOk;
    FrontOfFrame(frame, rest);
  }
}
