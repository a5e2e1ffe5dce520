/** Central's side of one transfer (`send_file` in src/central_sender.cpp), and what it means for the
    proxy's cache: success means a committed source file, and an undamaged section is always accepted. */
module CentralSender {
  import opened Common
  import opened Sections
  import opened Messages
  import opened Crc32
  import opened Receiver
  import opened ReceiverSafety
  import opened CentralCache
  import opened CentralDialogue
  import Dispatch

  // ----- What central sends

  datatype Frame =
    | CentralFileMeta(meta: FileMeta)
    | CentralData(packet: DataPacket)
    | CentralFileEnd(endId: uint64, section: nat, total: uint32)

  function DataFrame(meta: FileMeta, source: Content, section: nat, block: nat): Frame
    requires block < |source| && section < U32 && block < U32 && BlockOffset(block) < U64
  {
    CentralData(DataPacket(meta.transferId, section, block, BlockOffset(block), Crc(source[block]), source[block]))
  }

  /** The source matches its announced geometry, inside the 32-bit bounds. */
  ghost predicate Sendable(meta: FileMeta, source: Content) {
    Valid(meta.geometry) && FullSize(source, meta.geometry)
  }

  lemma SendableBlock(meta: FileMeta, source: Content, section: nat, block: nat)
    requires Sendable(meta, source) && section < Count(meta.geometry) && InSection(meta.geometry, section, block)
    ensures block < |source| && section < U32 && block < U32 && BlockOffset(block) < U64
  {
    InRangeIsExact(meta.geometry, section);
    BlocksTileFile(meta.geometry, block);
  }

  /** The first `n` data frames of a section. */
  ghost function DataFrames(meta: FileMeta, source: Content, section: nat, n: nat): (frames: seq<Frame>)
    requires Sendable(meta, source) && section < Count(meta.geometry)
    requires First(meta.geometry, section) + n <= End(meta.geometry, section)
    ensures |frames| == n
    decreases n
  {
    if n == 0 then []
    else
      var block := First(meta.geometry, section) + n - 1;
      SendableBlock(meta, source, section, block);
      DataFrames(meta, source, section, n - 1) + [DataFrame(meta, source, section, block)]
  }

  /** All data frames of a section. */
  ghost function SectionData(meta: FileMeta, source: Content, section: nat): seq<Frame>
    requires Sendable(meta, source) && section < Count(meta.geometry)
  {
    InRangeIsExact(meta.geometry, section);
    DataFrames(meta, source, section, End(meta.geometry, section) - First(meta.geometry, section))
  }

  ghost function SectionFrames(meta: FileMeta, source: Content, section: nat): seq<Frame>
    requires Sendable(meta, source) && section < Count(meta.geometry)
  {
    SectionData(meta, source, section) + [CentralFileEnd(meta.transferId, section, meta.geometry.totalBlocks)]
  }

  /** Sections from..end-1, in order. */
  ghost function FramesOf(meta: FileMeta, source: Content, from: nat, end: nat): seq<Frame>
    requires Sendable(meta, source) && from <= end <= Count(meta.geometry)
    decreases end
  {
    if from == end then [] else FramesOf(meta, source, from, end - 1) + SectionFrames(meta, source, end - 1)
  }

  // ----- What central accepts

  predicate ResumeAccepted(meta: FileMeta, reply: Reply)
    requires meta.geometry.sectionBlocks != 0
  {
    && reply.Resume? && reply.transferId == meta.transferId && reply.fileSize == meta.geometry.fileSize
    && reply.totalSections == Count(meta.geometry) && reply.nextSection <= Count(meta.geometry)
  }

  predicate StatusAccepted(meta: FileMeta, section: nat, reply: Reply)
    requires meta.geometry.sectionBlocks != 0
  {
    && reply.Cached? && reply.transferId == meta.transferId && reply.fileSize == meta.geometry.fileSize
    && (section + 1 == Count(meta.geometry) ==> reply.sha256 == meta.sha256)
  }

  /** A reply that tells central the whole file is cached. */
  predicate WholeFileCached(meta: FileMeta, reply: Reply)
    requires meta.geometry.sectionBlocks != 0
  {
    (reply.Resume? && reply.nextSection == Count(meta.geometry)) || (reply.Cached? && reply.sha256 == meta.sha256)
  }

  /** Every reply `send_file` waits for arrives and is accepted. */
  ghost predicate Confirmed(meta: FileMeta, replies: seq<Reply>)
    requires meta.geometry.sectionBlocks != 0
  {
    && replies != [] && ResumeAccepted(meta, replies[0])
    && var resume := replies[0].nextSection;
       if resume == Count(meta.geometry) then replies[0].sha256 == meta.sha256
       else
         && |replies| > Count(meta.geometry) - resume
         && forall i :: 1 <= i <= Count(meta.geometry) - resume ==> StatusAccepted(meta, resume + i - 1, replies[i])
  }

  /** What was sent: the metadata, then whole sections in order from where the proxy resumes. */
  ghost predicate SentInOrder(meta: FileMeta, source: Content, replies: seq<Reply>, sent: seq<Frame>, done: bool)
    requires Sendable(meta, source)
  {
    && sent != [] && sent[0] == CentralFileMeta(meta)
    && (sent[1..] != [] || done ==>
          && replies != [] && ResumeAccepted(meta, replies[0])
          && exists end :: replies[0].nextSection <= end <= Count(meta.geometry)
               && sent[1..] == FramesOf(meta, source, replies[0].nextSection, end)
               && (done ==> end == Count(meta.geometry)))
  }

  /** The replies that central asks for, wherever the proxy resumes. */
  lemma OrdinaryIsConfirmed(meta: FileMeta, k: nat)
    requires meta.geometry.sectionBlocks != 0 && k <= Count(meta.geometry)
    ensures Confirmed(meta, OrdinaryReplies(meta, k))
  {
    hide Count;
    var n, replies := Count(meta.geometry), OrdinaryReplies(meta, k);
    if k < n {
      forall i | 1 <= i <= n - k ensures StatusAccepted(meta, k + i - 1, replies[i]) {
        assert replies[i] == if i == n - k then Cached(meta.transferId, meta.geometry.fileSize, meta.sha256)
                             else Confirmations(meta, n - 1 - k)[i - 1];
      }
    }
  }

  method SendSection(meta: FileMeta, source: Content, section: nat) returns (frames: seq<Frame>)
    requires Sendable(meta, source) && section < Count(meta.geometry)
    ensures frames == SectionFrames(meta, source, section)
  {
    hide FullSize, Crc;
    var g := meta.geometry;
    InRangeIsExact(g, section);
    frames := [];
    for local := 0 to End(g, section) - First(g, section)
      invariant frames == DataFrames(meta, source, section, local)
    {
      var block := First(g, section) + local;
      SendableBlock(meta, source, section, block);
      var crc := Compute(source[block]);
      frames := frames + [CentralData(DataPacket(meta.transferId, section, block, BlockOffset(block), crc,
                                                 source[block]))];
    }
    frames := frames + [CentralFileEnd(meta.transferId, section, g.totalBlocks)];
  }

  /** The body of `send_file`. */
  method SendAll(meta: FileMeta, source: Content, replies: seq<Reply>) returns (result: Result<bool>, sent: seq<Frame>)
    requires Sendable(meta, source)
    ensures result == Ok(true) <==> Confirmed(meta, replies)
    ensures SentInOrder(meta, source, replies, sent, result == Ok(true))
  {
    hide SectionFrames, StatusAccepted, FullSize, FramesOf, Count;
    var g := meta.geometry;
    var count := Count(g);
    sent := [CentralFileMeta(meta)];
    Tail(CentralFileMeta(meta), []);
    if replies == [] || !ResumeAccepted(meta, replies[0]) {
      return Thrown, sent;
    }
    var resume := replies[0].nextSection;
    NoFrames(meta, source, resume);
    if resume == count {
      if replies[0].sha256 != meta.sha256 {
        return Thrown, sent;
      }
      return Ok(true), sent;
    }
    var frames := [];
    var section := resume;
    while section < count
      invariant resume <= section <= count && |replies| > section - resume
      invariant frames == FramesOf(meta, source, resume, section)
      invariant forall i :: 1 <= i <= section - resume ==> StatusAccepted(meta, resume + i - 1, replies[i])
    {
      var more := SendSection(meta, source, section);
      NextFrames(meta, source, resume, section);
      frames := frames + more;
      var answer := 1 + section - resume;
      if answer >= |replies| || !StatusAccepted(meta, section, replies[answer]) {
        sent := [CentralFileMeta(meta)] + frames;
        Tail(CentralFileMeta(meta), frames);
        return Thrown, sent;
      }
      section := section + 1;
    }
    sent := [CentralFileMeta(meta)] + frames;
    Tail(CentralFileMeta(meta), frames);
    return Ok(true), sent;
  }

  /** `send_file`; a missing reply is a lost connection. On the ordinary replies of a proxy that resumes
      at any section, or that holds the file already, it returns true. */
  method SendFile(meta: FileMeta, source: Content, replies: seq<Reply>) returns (result: Result<bool>, sent: seq<Frame>)
    requires Sendable(meta, source)
    ensures result == Ok(true) <==> Confirmed(meta, replies)
    ensures SentInOrder(meta, source, replies, sent, result == Ok(true))
    ensures forall k :: 0 <= k <= Count(meta.geometry) && replies == OrdinaryReplies(meta, k) ==> result == Ok(true)
  {
    forall k: nat | k <= Count(meta.geometry) && replies == OrdinaryReplies(meta, k) ensures Confirmed(meta, replies) {
      OrdinaryIsConfirmed(meta, k);
    }
    result, sent := SendAll(meta, source, replies);
  }

  lemma NextFrames(meta: FileMeta, source: Content, from: nat, section: nat)
    requires Sendable(meta, source) && from <= section < Count(meta.geometry)
    ensures FramesOf(meta, source, from, section + 1)
         == FramesOf(meta, source, from, section) + SectionFrames(meta, source, section)
  {
  }

  lemma NoFrames(meta: FileMeta, source: Content, from: nat)
    requires Sendable(meta, source) && from <= Count(meta.geometry)
    ensures FramesOf(meta, source, from, from) == []
  {
  }

  lemma Tail(head: Frame, frames: seq<Frame>)
    ensures ([head] + frames)[0] == head && ([head] + frames)[1..] == frames
  {
  }

  // ----- Success means a committed source file

  /** Some reply of a confirmed transfer says that the whole file is cached. */
  lemma ConfirmedSaysCached(meta: FileMeta, source: Content, replies: seq<Reply>)
    requires Sendable(meta, source) && Confirmed(meta, replies)
    ensures exists i :: 0 <= i < |replies| && WholeFileCached(meta, replies[i])
  {
    hide Count;
    var resume, count := replies[0].nextSection, Count(meta.geometry);
    if resume == count {
      assert WholeFileCached(meta, replies[0]);
    } else {
      assert StatusAccepted(meta, resume + (count - resume) - 1, replies[count - resume]);
      assert WholeFileCached(meta, replies[count - resume]);
    }
  }

  /** When `send_file` returns true on replies that came from the proxy, the proxy's final cache file
      is the source file, whatever disconnects and kills came before. */
  lemma SuccessMeansCommitted(w: World, id: uint64, run: CentralCache.Run, k: nat, replies: seq<Reply>)
    requires SoundFile(w, id) && CentralCache.IsRun(w, id, run) && k <= |run.events|
    requires w.meta(id).sha256 != NO_DIGEST
    requires forall i :: 0 <= i < |replies| ==> replies[i] in run.states[k].replies
    requires Confirmed(w.meta(id), replies)
    ensures run.states[k].disk.committed == Some(w.source(id))
  {
    hide CentralCache.IsRun, Confirmed;
    ConfirmedSaysCached(w.meta(id), w.source(id), replies);
    var i :| 0 <= i < |replies| && WholeFileCached(w.meta(id), replies[i]);
    CachedMeansSource(w, id, run, k, replies[i]);
  }

  /** `send_file` returns true on the replies of any undisturbed session of any run of the proxy. */
  lemma UndisturbedIsConfirmed(w: World, id: uint64, run: CentralCache.Run, a: nat, b: nat)
    requires SoundFile(w, id) && CentralCache.IsRun(w, id, run) && |run.states| == |run.events| + 1
    requires Undisturbed(run, a, b)
    ensures Confirmed(w.meta(id), RepliesAlong(w, id, run, a, b))
  {
    hide CentralCache.IsRun, RepliesAlong, OrdinaryReplies, Confirmed, Count;
    UndisturbedReplies(w, id, run, a, b);
    var k :| 0 <= k <= Count(w.meta(id).geometry)
             && RepliesAlong(w, id, run, a, b) == OrdinaryReplies(w.meta(id), k);
    OrdinaryIsConfirmed(w.meta(id), k);
  }

  // ----- An undamaged section is accepted

  /** The proxy's state after frames of data. */
  ghost function Feed(disk: CacheDisk, s: Session, frames: seq<Frame>): (CacheDisk, Session)
    decreases |frames|
  {
    if frames == [] then (disk, s)
    else
      var (disk', s') := Feed(disk, s, frames[..|frames| - 1]);
      var last := frames[|frames| - 1];
      if last.CentralData? then OnCentralData(disk', s', last.packet) else (disk', s')
  }

  /** A session ready for section `section`, with the first `n` blocks of it stored. */
  ghost predicate Fed(w: World, id: uint64, section: nat, n: nat, disk: CacheDisk, s: Session)
    requires w.meta(id).geometry.sectionBlocks != 0
  {
    var first := First(w.meta(id).geometry, section);
    && SessionOk(w, id, disk, s) && s.nextSection == section && s.rejected == 0
    && forall b :: first <= b < first + n && b < |s.received| ==> s.received[b]
  }

  lemma UndamagedIsHonest(w: World, packet: DataPacket)
    requires packet.blockId < |w.source(packet.transferId)|
    requires packet.payload == w.source(packet.transferId)[packet.blockId] && packet.crc == Crc(packet.payload)
    ensures Honest(w, packet)
  {
    assert EqualOutside(packet.payload, packet.payload, 0);
  }

  lemma FrameFits(w: World, id: uint64, section: nat, block: nat, disk: CacheDisk, s: Session, confirmed: nat)
    requires SoundFile(w, id) && CacheOk(w, id, disk, confirmed) && SessionOk(w, id, disk, s)
    requires s.nextSection == section < Count(w.meta(id).geometry) && InSection(w.meta(id).geometry, section, block)
    requires block < |w.source(id)| && section < U32 && block < U32 && BlockOffset(block) < U64
    ensures var packet := DataFrame(w.meta(id), w.source(id), section, block).packet;
      var (disk', t) := OnCentralData(disk, s, packet);
      && CacheOk(w, id, disk', confirmed) && SessionOk(w, id, disk', t) && t.nextSection == section
      && t.rejected == s.rejected && block < |t.received| == |s.received|
      && t.received == s.received[block := true]
  {
    hide Dispatch.Inv, Crc, Count, Honest, CacheOk, SessionOk;
    var packet := DataFrame(w.meta(id), w.source(id), section, block).packet;
    UndamagedIsHonest(w, packet);
    CentralDataKeeps(w, id, disk, s, packet, confirmed);
    InsideIsDivided(w.meta(id).geometry, block, section);
    BlocksTileFile(w.meta(id).geometry, block);
    SessionShape(w, id, disk, s);
  }

  lemma SessionShape(w: World, id: uint64, disk: CacheDisk, s: Session)
    requires SoundFile(w, id) && SessionOk(w, id, disk, s)
    ensures s.meta == w.meta(id) && disk.part.Some?
    ensures |s.received| == |disk.part.value| == |w.source(id)| == w.meta(id).geometry.totalBlocks
  {
    hide Dispatch.Inv, PhaseOk;
  }

  lemma {:induction false} FeedStores(w: World, id: uint64, section: nat, n: nat, disk: CacheDisk, s: Session,
                                      confirmed: nat)
    requires SoundFile(w, id) && section < Count(w.meta(id).geometry)
    requires First(w.meta(id).geometry, section) + n <= End(w.meta(id).geometry, section)
    requires CacheOk(w, id, disk, confirmed) && Fed(w, id, section, 0, disk, s)
    ensures var (disk', t) := Feed(disk, s, DataFrames(w.meta(id), w.source(id), section, n));
      CacheOk(w, id, disk', confirmed) && Fed(w, id, section, n, disk', t)
    decreases n
  {
    hide Dispatch.Inv, SessionOk, CacheOk, Crc, Count, OnCentralData, First, End;
    if n > 0 {
      FeedStores(w, id, section, n - 1, disk, s, confirmed);
      var meta, source := w.meta(id), w.source(id);
      var block := First(meta.geometry, section) + n - 1;
      SendableBlock(meta, source, section, block);
      var init := DataFrames(meta, source, section, n - 1);
      var (disk', t) := Feed(disk, s, init);
      FrameFits(w, id, section, block, disk', t, confirmed);
      FeedSnoc(disk, s, init, DataFrame(meta, source, section, block));
    }
  }

  lemma FeedSnoc(disk: CacheDisk, s: Session, init: seq<Frame>, last: Frame)
    requires last.CentralData?
    ensures Feed(disk, s, init + [last])
         == (var (disk', s') := Feed(disk, s, init); OnCentralData(disk', s', last.packet))
  {
    assert (init + [last])[..|init|] == init;
  }

  /** An undamaged section, as central sends it, is stored without a rejection and its end is accepted,
      whatever part of it the proxy already held. */
  lemma SectionIsAccepted(w: World, id: uint64, section: nat, disk: CacheDisk, s: Session, confirmed: nat)
    requires SoundFile(w, id) && section < Count(w.meta(id).geometry)
    requires CacheOk(w, id, disk, confirmed) && SessionOk(w, id, disk, s) && s.nextSection == section && s.rejected == 0
    ensures var meta := w.meta(id);
      var t := Feed(disk, s, SectionData(meta, w.source(id), section)).1;
      t.meta == meta && t.rejected == 0 && EndAccepted(t, id, section, meta.geometry.totalBlocks)
  {
    hide Dispatch.Inv, CacheOk, Crc, Feed, DataFrames, PhaseOk, Faithful, FullSize, Count, First;
    var g := w.meta(id).geometry;
    InRangeIsExact(g, section);
    FeedStores(w, id, section, End(g, section) - First(g, section), disk, s, confirmed);
    var (disk', t) := Feed(disk, s, SectionData(w.meta(id), w.source(id), section));
    SessionShape(w, id, disk', t);
  }
}
