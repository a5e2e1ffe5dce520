/** The proxy's cache of one central transfer (`receive_cached_file_from_central` and the checkpoint
    functions of src/sender.cpp) together with the dispatch pipeline that reads from it, across
    disconnects and process kills. The files of different transfer ids have different names, so one
    id is enough. */
module CentralCache {
  import opened Common
  import opened Sections
  import opened Messages
  import opened Crc32
  import opened Receiver
  import opened ReceiverSafety
  import Dispatch

  // ----- State

  /** The `.state` checkpoint file. */
  datatype Checkpoint = Checkpoint(meta: FileMeta, next: nat)

  /** The `.part` file (by blocks), the checkpoint and the final cache file. */
  datatype CacheDisk = CacheDisk(part: Option<Content>, checkpoint: Option<Checkpoint>, committed: Option<Content>)

  datatype Phase =
    | Resending     // enqueueing the sections below the checkpoint
    | Receiving     // the frame loop
    | Confirming    // the section `nextSection` is checked and being enqueued
    | Finishing     // the same for the last section, up to the commit

  /** The local variables of `receive_cached_file_from_central`. */
  datatype Session = Session(
    meta: FileMeta, received: seq<bool>, receivedCount: nat, duplicates: nat, rejected: nat,
    resume: nat, nextSection: nat, phase: Phase, pipeline: Dispatch.State)

  /** Proxy to central. */
  datatype Reply =
    | Resume(transferId: uint64, nextSection: nat, totalSections: nat, fileSize: uint64, sha256: Digest)
    | Cached(transferId: uint64, fileSize: uint64, sha256: Digest)

  /** 32 zero bytes. */
  const NO_DIGEST: Digest := [0, 0, 0, 0, 0, 0, 0, 0, 0, 0, 0, 0, 0, 0, 0, 0,
                              0, 0, 0, 0, 0, 0, 0, 0, 0, 0, 0, 0, 0, 0, 0, 0]

  // ----- Checkpoints and opening

  /** `load_central_checkpoint`. */
  function LoadCheckpoint(disk: CacheDisk, meta: FileMeta): nat
    requires meta.geometry.sectionBlocks != 0
  {
    if disk.checkpoint.Some? && disk.part.Some? && FullSize(disk.part.value, meta.geometry)
       && disk.checkpoint.value.meta == meta && disk.checkpoint.value.next < Count(meta.geometry)
    then disk.checkpoint.value.next else 0
  }

  /** The first `n` blocks are marked. */
  function MarkedBelow(total: nat, n: nat): seq<bool> {
    seq(total, b => b < n)
  }

  /** Truncates unless a checkpoint was loaded. */
  function OpenDisk(disk: CacheDisk, meta: FileMeta): CacheDisk
    requires meta.geometry.sectionBlocks != 0
  {
    if LoadCheckpoint(disk, meta) == 0 then disk.(part := Some(Zeros(meta.geometry))) else disk
  }

  function OpenSession(disk: CacheDisk, meta: FileMeta): Session
    requires meta.geometry.sectionBlocks != 0
  {
    var resume := LoadCheckpoint(disk, meta);
    var below := Min(meta.geometry.totalBlocks, First(meta.geometry, resume));
    Session(meta, MarkedBelow(meta.geometry.totalBlocks, below), below, 0, 0, resume, resume, Resending, Dispatch.START)
  }

  predicate AlreadyCached(disk: CacheDisk, meta: FileMeta, sha: Sha) {
    disk.committed.Some? && sha(disk.committed.value) == meta.sha256
  }

  // ----- Frames from central

  predicate Expected(s: Session, packet: DataPacket) {
    && packet.transferId == s.meta.transferId && packet.blockId < s.meta.geometry.totalBlocks
    && packet.sectionId == s.nextSection
    && SectionIdForBlock(packet.blockId, s.meta.geometry.sectionBlocks) == Ok(packet.sectionId)
  }

  /** CENTRAL_DATA. */
  function OnCentralData(disk: CacheDisk, s: Session, packet: DataPacket): (CacheDisk, Session) {
    if !Expected(s, packet) || !Placed(s.meta.geometry, packet) || !Intact(packet)
       || packet.blockId >= |s.received| || disk.part.None? || packet.blockId >= |disk.part.value|
    then (disk, s.(rejected := s.rejected + 1))
    else if s.received[packet.blockId] then (disk, s.(duplicates := s.duplicates + 1))
    else
      (disk.(part := Some(disk.part.value[packet.blockId := packet.payload])),
       s.(received := s.received[packet.blockId := true], receivedCount := s.receivedCount + 1))
  }

  predicate SectionHeld(g: Geometry, received: seq<bool>, section: nat) {
    End(g, section) <= |received| && forall b :: First(g, section) <= b < End(g, section) ==> received[b]
  }

  lemma HeldIs(g: Geometry, received: seq<bool>, section: nat)
    ensures SectionHeld(g, received, section)
       <==> End(g, section) <= |received| && forall b :: First(g, section) <= b < End(g, section) ==> received[b]
  {
  }

  /** CENTRAL_FILE_END passes its checks. */
  predicate EndAccepted(s: Session, id: uint64, section: nat, total: uint32)
    requires s.meta.geometry.sectionBlocks != 0
  {
    && id == s.meta.transferId && total == s.meta.geometry.totalBlocks
    && section == s.nextSection && section < Count(s.meta.geometry) && s.rejected == 0
    && SectionHeld(s.meta.geometry, s.received, section)
  }

  predicate LastSection(s: Session)
    requires s.meta.geometry.sectionBlocks != 0
  {
    s.nextSection + 1 == Count(s.meta.geometry)
  }

  /** An accepted end: a section that is not the last one is checkpointed first. */
  function AfterEnd(disk: CacheDisk, s: Session): (CacheDisk, Session)
    requires s.meta.geometry.sectionBlocks != 0
  {
    if LastSection(s) then (disk, s.(phase := Finishing))
    else (disk.(checkpoint := Some(Checkpoint(s.meta, s.nextSection + 1))), s.(phase := Confirming))
  }

  /** The final digest check passes. */
  predicate Complete(disk: CacheDisk, s: Session, sha: Sha) {
    s.receivedCount == s.meta.geometry.totalBlocks && disk.part.Some? && sha(disk.part.value) == s.meta.sha256
  }

  /** Renames the part file to the final cache file. */
  function Commit(disk: CacheDisk): CacheDisk {
    disk.(part := None, committed := disk.part)
  }

  // ----- The functions as the source's code

  class ProxyCache {
    var disk: CacheDisk
    var session: Session

    constructor (disk: CacheDisk, meta: FileMeta)
      requires meta.geometry.sectionBlocks != 0
      ensures this.disk == OpenDisk(disk, meta) && session == OpenSession(disk, meta)
    {
      hide FullSize;
      var resume := 0;
      if disk.checkpoint.Some? && disk.part.Some? {
        var checkpoint := disk.checkpoint.value;
        if FullSize(disk.part.value, meta.geometry) && checkpoint.meta == meta
           && checkpoint.next < Count(meta.geometry) {
          resume := checkpoint.next;
        }
      }
      this.disk := if resume == 0 then disk.(part := Some(Zeros(meta.geometry))) else disk;
      var below := Min(meta.geometry.totalBlocks, First(meta.geometry, resume));
      session := Session(meta, MarkedBelow(meta.geometry.totalBlocks, below), below, 0, 0, resume, resume,
                         Resending, Dispatch.START);
    }

    method HandleCentralData(packet: DataPacket)
      modifies this
      ensures (disk, session) == OnCentralData(old(disk), old(session), packet)
    {
      hide Crc;
      var g := session.meta.geometry;
      if packet.transferId != session.meta.transferId || packet.blockId >= g.totalBlocks
         || packet.sectionId != session.nextSection
         || SectionIdForBlock(packet.blockId, g.sectionBlocks) != Ok(packet.sectionId) {
        session := session.(rejected := session.rejected + 1);
        return;
      }
      var crc := Compute(packet.payload);
      if !Placed(g, packet) || crc != packet.crc || packet.blockId >= |session.received|
         || disk.part.None? || packet.blockId >= |disk.part.value| {
        session := session.(rejected := session.rejected + 1);
        return;
      }
      if session.received[packet.blockId] {
        session := session.(duplicates := session.duplicates + 1);
        return;
      }
      disk := disk.(part := Some(disk.part.value[packet.blockId := packet.payload]));
      session := session.(received := session.received[packet.blockId := true],
                          receivedCount := session.receivedCount + 1);
    }

    method HoldsSection(section: nat) returns (held: bool)
      ensures held == SectionHeld(session.meta.geometry, session.received, section)
    {
      var first, end := First(session.meta.geometry, section), End(session.meta.geometry, section);
      if end > |session.received| {
        return false;
      }
      var block := first;
      while block < end
        invariant first <= block
        invariant forall b :: first <= b < block ==> b < |session.received| && session.received[b]
      {
        if !session.received[block] {
          return false;
        }
        block := block + 1;
      }
      return true;
    }

    method HandleCentralEnd(id: uint64, section: uint32, total: uint32) returns (accepted: bool)
      requires session.meta.geometry.sectionBlocks != 0
      modifies this
      ensures accepted == EndAccepted(old(session), id, section, total)
      ensures accepted ==> old(session).rejected == 0 && section == old(session).nextSection
      ensures accepted ==>
                var g, received := old(session).meta.geometry, old(session).received;
                End(g, section) <= |received| && forall b :: First(g, section) <= b < End(g, section) ==> received[b]
      ensures (disk, session) == if accepted then AfterEnd(old(disk), old(session)) else (old(disk), old(session))
    {
      hide Count, SectionHeld;
      var g := session.meta.geometry;
      if id != session.meta.transferId || total != g.totalBlocks || section != session.nextSection
         || section >= Count(g) || session.rejected != 0 {
        return false;
      }
      accepted := HoldsSection(section);
      HeldIs(g, session.received, section);
      if !accepted {
        return;
      }
      if section + 1 != Count(g) {
        disk := disk.(checkpoint := Some(Checkpoint(session.meta, section + 1)));
        session := session.(phase := Confirming);
      } else {
        session := session.(phase := Finishing);
      }
    }

    method CommitCache(sha: Sha) returns (committed: bool)
      modifies this`disk
      ensures committed == Complete(old(disk), session, sha)
      ensures disk == if committed then Commit(old(disk)).(checkpoint := None) else old(disk)
      ensures committed ==> disk == CacheDisk(None, None, old(disk).part)
    {
      if session.receivedCount != session.meta.geometry.totalBlocks || disk.part.None?
         || sha(disk.part.value) != session.meta.sha256 {
        return false;
      }
      disk := Commit(disk);
      disk := disk.(checkpoint := None);
      return true;
    }
  }

  // ----- The proxy as a transition system

  /** `confirmed` is the highest section count ever confirmed to central; `replies` is everything ever
      sent to central. */
  datatype Proxy = Proxy(disk: CacheDisk, session: Option<Session>, confirmed: nat, replies: set<Reply>)

  datatype Event =
    | Open                                       // CENTRAL_FILE_META
    | Data(packet: DataPacket)
    | SectionEnd(id: uint64, section: uint32, total: uint32)
    | EnqueueStored                              // one of the sections below the checkpoint
    | StartReceiving
    | Enqueue                                    // the section just checked
    | Confirm
    | Conclude                                   // `complete_dispatch`
    | CommitFile
    | Thread(step: Dispatch.Step)                // any other step of the two threads
    | Close                                      // disconnect, failure or kill between operations
    | KillAfterTruncate
    | KillInWrite(packet: DataPacket, written: nat)  // a block is only partly in the file
    | KillAfterRename                            // committed, checkpoint not removed

  ghost predicate HonestFrame(w: World, id: uint64, e: Event) {
    e.Data? && e.packet.transferId == id ==> Honest(w, e.packet)
  }

  function ResumeReply(w: World, id: uint64, next: nat, digest: Digest): Reply
    requires w.meta(id).geometry.sectionBlocks != 0
  {
    Resume(id, next, Count(w.meta(id).geometry), w.meta(id).geometry.fileSize, digest)
  }

  function Answer(p: Proxy, reply: Reply): Proxy {
    p.(replies := p.replies + {reply})
  }

  /** The producer thread takes one of the steps it takes inside this function. */
  ghost predicate Advances(g: Geometry, n: nat, s: Session, step: Dispatch.Step, t: Session) {
    Dispatch.Enabled(g, n, s.pipeline, step) && t == s.(pipeline := Dispatch.Next(g, s.pipeline, step))
  }

  /** `complete_dispatch` has returned; a failure anywhere would have cancelled the dispatch. */
  predicate Dispatched(s: Session) {
    s.pipeline.producer.ProducerGone? && !s.pipeline.shared.cancelled
  }

  predicate Idle(s: Session) {
    s.pipeline.producer.Feeding?
  }

  ghost predicate Step(w: World, id: uint64, p: Proxy, e: Event, q: Proxy)
    requires w.meta(id).geometry.sectionBlocks != 0
  {
    var meta := w.meta(id);
    var n := Count(meta.geometry);
    match e
    case Open =>
      && p.session.None?
      && if AlreadyCached(p.disk, meta, w.sha) then q == Answer(p, ResumeReply(w, id, n, meta.sha256))
         else
           var s := OpenSession(p.disk, meta);
           q == Answer(p.(disk := OpenDisk(p.disk, meta), session := Some(s)), ResumeReply(w, id, s.resume, NO_DIGEST))
    case KillAfterTruncate =>
      && p.session.None? && !AlreadyCached(p.disk, meta, w.sha) && LoadCheckpoint(p.disk, meta) == 0
      && q == p.(disk := p.disk.(part := Some([])))
    case Close => q == p.(session := None)
    case _ => p.session.Some? && SessionStep(w, id, p, p.session.value, e, q)
  }

  function TornPart(disk: CacheDisk, packet: DataPacket, written: nat): CacheDisk
    requires disk.part.Some? && packet.blockId < |disk.part.value|
  {
    var torn := Torn(packet.payload, disk.part.value[packet.blockId], written);
    disk.(part := Some(disk.part.value[packet.blockId := torn]))
  }

  ghost predicate SessionStep(w: World, id: uint64, p: Proxy, s: Session, e: Event, q: Proxy)
    requires w.meta(id).geometry.sectionBlocks != 0
  {
    var meta := w.meta(id);
    var g, n := meta.geometry, Count(meta.geometry);
    match e
    case EnqueueStored =>
      && s.phase.Resending? && s.pipeline.next < s.resume && q.session.Some?
      && Advances(g, n, s, Dispatch.ProducerOffers, q.session.value) && q == p.(session := q.session)
    case StartReceiving =>
      && s.phase.Resending? && s.pipeline.next == s.resume && Idle(s)
      && q == p.(session := Some(s.(phase := Phase.Receiving)))
    case Data(packet) =>
      && s.phase.Receiving? && Idle(s)
      && var (disk, t) := OnCentralData(p.disk, s, packet); q == p.(disk := disk, session := Some(t))
    case SectionEnd(from, section, total) =>
      && s.phase.Receiving? && Idle(s) && s.meta == meta && EndAccepted(s, from, section, total)
      && var (disk, t) := AfterEnd(p.disk, s); q == p.(disk := disk, session := Some(t))
    case Enqueue =>
      && (s.phase.Confirming? || s.phase.Finishing?) && s.pipeline.next == s.nextSection && q.session.Some?
      && Advances(g, n, s, Dispatch.ProducerOffers, q.session.value) && q == p.(session := q.session)
    case Confirm =>
      && s.phase.Confirming? && s.pipeline.next == s.nextSection + 1 && Idle(s)
      && q == Answer(p.(session := Some(s.(phase := Phase.Receiving, nextSection := s.nextSection + 1)),
                        confirmed := if p.confirmed < s.nextSection + 1 then s.nextSection + 1 else p.confirmed),
                     Cached(id, g.fileSize, NO_DIGEST))
    case Conclude =>
      && s.phase.Finishing? && s.pipeline.next == n && q.session.Some?
      && Advances(g, n, s, Dispatch.ProducerFinishes, q.session.value) && q == p.(session := q.session)
    case CommitFile =>
      && s.phase.Finishing? && Dispatched(s)
      && Complete(p.disk, s, w.sha)
      && q == Answer(p.(disk := Commit(p.disk).(checkpoint := None), session := None),
                     Cached(id, g.fileSize, w.sha(p.disk.part.value)))
    case KillInWrite(packet, written) =>
      && s.phase.Receiving? && Idle(s) && Expected(s, packet) && Placed(s.meta.geometry, packet)
      && packet.blockId < |s.received| && !s.received[packet.blockId]
      && p.disk.part.Some? && packet.blockId < |p.disk.part.value|
      && q == p.(disk := TornPart(p.disk, packet, written), session := None)
    case KillAfterRename =>
      && s.phase.Finishing? && Dispatched(s)
      && Complete(p.disk, s, w.sha) && q == p.(disk := Commit(p.disk), session := None)
    case Thread(step) =>
      && !step.ProducerOffers? && !step.ProducerFinishes? && q.session.Some?
      && Advances(g, n, s, step, q.session.value) && q == p.(session := q.session)
    case _ => false
  }

  const NEW_PROXY := Proxy(CacheDisk(None, None, None), None, 0, {})

  // ----- The invariant

  /** Blocks below `n` are in the part file with source content. */
  ghost predicate AuthenticBelow(source: Content, part: Content, n: nat) {
    |part| == |source| && forall b :: 0 <= b < |part| && b < n ==> part[b] == source[b]
  }

  ghost predicate CacheOk(w: World, id: uint64, disk: CacheDisk, confirmed: nat)
    requires w.meta(id).geometry.sectionBlocks != 0
  {
    var g := w.meta(id).geometry;
    && (disk.committed.Some? ==> disk.committed.value == w.source(id) && disk.part.None?)
    && (disk.committed.None? && disk.checkpoint.Some? ==>
          var c := disk.checkpoint.value;
          && c.meta == w.meta(id) && 1 <= c.next < Count(g)
          && disk.part.Some? && FullSize(disk.part.value, g)
          && AuthenticBelow(w.source(id), disk.part.value, First(g, c.next)))
    && (disk.committed.None? && confirmed > 0 ==> disk.checkpoint.Some? && confirmed <= disk.checkpoint.value.next)
  }

  /** Sections whose data is complete and synced. */
  function Ready(s: Session): nat {
    match s.phase
    case Resending => s.resume
    case Receiving => s.nextSection
    case _ => s.nextSection + 1
  }

  ghost predicate PhaseOk(n: nat, s: Session) {
    var d := s.pipeline;
    && s.resume <= s.nextSection && Ready(s) <= n && d.next <= Ready(s)
    && (d.producer.Pushing? || d.producer.ProducerAsleep? || d.producer.Retrying? ==> d.next < Ready(s))
    && (s.phase.Resending? ==> s.nextSection == s.resume < n)
    && (s.phase.Receiving? ==> d.next == s.nextSection < n)
    && (s.phase.Confirming? ==> s.nextSection + 1 < n)
    && (s.phase.Finishing? ==> s.nextSection + 1 == n)
  }

  ghost predicate SessionOk(w: World, id: uint64, disk: CacheDisk, s: Session)
    requires w.meta(id).geometry.sectionBlocks != 0
  {
    var g := w.meta(id).geometry;
    && s.meta == w.meta(id) && disk.committed.None?
    && disk.part.Some? && FullSize(disk.part.value, g) && Faithful(w.source(id), s.received, disk.part.value)
    && s.receivedCount == CountTrue(s.received)
    && (forall b :: 0 <= b < |s.received| && b < First(g, Ready(s)) ==> s.received[b])
    && PhaseOk(Count(g), s) && Dispatch.Inv(g, Count(g), s.pipeline)
    && (disk.checkpoint.Some? ==> disk.checkpoint.value.next <= Ready(s))
    && (s.phase.Confirming? ==> disk.checkpoint.Some? && disk.checkpoint.value.next == s.nextSection + 1)
  }

  /** A reply that names the digest of the file is sent only when the cache is committed. */
  ghost predicate RepliesOk(w: World, id: uint64, p: Proxy)
    requires w.meta(id).geometry.sectionBlocks != 0
  {
    forall r :: r in p.replies ==>
      (r.Resume? && r.nextSection == Count(w.meta(id).geometry)) || (r.Cached? && r.sha256 != NO_DIGEST)
      ==> p.disk.committed.Some?
  }

  ghost predicate Inv(w: World, id: uint64, p: Proxy)
    requires w.meta(id).geometry.sectionBlocks != 0
  {
    && CacheOk(w, id, p.disk, p.confirmed) && RepliesOk(w, id, p)
    && (p.session.Some? ==> SessionOk(w, id, p.disk, p.session.value))
  }

  // ----- Opening

  lemma LoadedIsAuthentic(w: World, id: uint64, disk: CacheDisk, confirmed: nat)
    requires SoundFile(w, id) && CacheOk(w, id, disk, confirmed)
    ensures var n := LoadCheckpoint(disk, w.meta(id));
      n < Count(w.meta(id).geometry)
      && (n > 0 ==> disk.committed.None? && disk.part.Some? && FullSize(disk.part.value, w.meta(id).geometry)
                    && AuthenticBelow(w.source(id), disk.part.value, First(w.meta(id).geometry, n)))
      && (disk.committed.None? ==> confirmed <= n && (disk.checkpoint.Some? ==> disk.checkpoint.value.next == n))
  {
    hide AuthenticBelow;
    CountIsCeiling(w.meta(id).geometry);
  }

  lemma {:induction false} CountMarkedBelow(total: nat, n: nat)
    requires n <= total
    ensures CountTrue(MarkedBelow(total, n)) == n
    decreases total
  {
    if total > 0 {
      var marks := MarkedBelow(total, n);
      if n == total {
        assert marks[..total - 1] == MarkedBelow(total - 1, total - 1);
        CountMarkedBelow(total - 1, total - 1);
      } else {
        assert marks[..total - 1] == MarkedBelow(total - 1, n);
        CountMarkedBelow(total - 1, n);
      }
    }
  }

  lemma OpenKeeps(w: World, id: uint64, disk: CacheDisk, confirmed: nat)
    requires SoundFile(w, id) && CacheOk(w, id, disk, confirmed) && !AlreadyCached(disk, w.meta(id), w.sha)
    ensures CacheOk(w, id, OpenDisk(disk, w.meta(id)), confirmed)
    ensures SessionOk(w, id, OpenDisk(disk, w.meta(id)), OpenSession(disk, w.meta(id)))
  {
    hide FullSize, Dispatch.Inv, LoadCheckpoint;
    var g := w.meta(id).geometry;
    LoadedIsAuthentic(w, id, disk, confirmed);
    SourceLength(w, id);
    var n := LoadCheckpoint(disk, w.meta(id));
    InRangeIsExact(g, n);
    CountMarkedBelow(g.totalBlocks, Min(g.totalBlocks, First(g, n)));
    Dispatch.StartHolds(g, Count(g));
    ZeroLength(g);
    FullLength(w, id, disk);
  }

  lemma ZeroLength(g: Geometry)
    ensures |Zeros(g)| == g.totalBlocks
  {
  }

  lemma FullLength(w: World, id: uint64, disk: CacheDisk)
    ensures disk.part.Some? && FullSize(disk.part.value, w.meta(id).geometry) ==>
              |disk.part.value| == w.meta(id).geometry.totalBlocks
  {
  }

  // ----- Frames

  lemma StoreKeeps(w: World, id: uint64, part: Content, received: seq<bool>, block: nat)
    requires SoundFile(w, id) && FullSize(part, w.meta(id).geometry) && Faithful(w.source(id), received, part)
    requires block < |part|
    ensures var part' := part[block := w.source(id)[block]];
      FullSize(part', w.meta(id).geometry) && Faithful(w.source(id), received[block := true], part')
    ensures forall n :: AuthenticBelow(w.source(id), part, n) ==>
              AuthenticBelow(w.source(id), part[block := w.source(id)[block]], n)
  {
  }

  lemma CentralDataKeeps(w: World, id: uint64, disk: CacheDisk, s: Session, packet: DataPacket, confirmed: nat)
    requires SoundFile(w, id) && CacheOk(w, id, disk, confirmed) && SessionOk(w, id, disk, s)
    requires packet.transferId == id ==> Honest(w, packet)
    ensures var (disk', t) := OnCentralData(disk, s, packet);
      CacheOk(w, id, disk', confirmed) && SessionOk(w, id, disk', t) && disk'.committed.None?
  {
    hide Dispatch.Inv, Crc, Count, First, Honest, SoundFile, FullSize, AuthenticBelow, Placed;
    MetaId(w, id);
    if Expected(s, packet) && Placed(s.meta.geometry, packet) && Intact(packet) {
      AcceptedIsAuthentic(w, packet);
      if packet.blockId < |s.received| && !s.received[packet.blockId] {
        CountTrueUpdate(s.received, packet.blockId);
        StoreKeeps(w, id, disk.part.value, s.received, packet.blockId);
      }
    }
  }

  lemma MetaId(w: World, id: uint64)
    requires SoundFile(w, id)
    ensures w.meta(id).transferId == id && FullSize(w.source(id), w.meta(id).geometry)
  {
  }

  /** A torn block lies in a section that no checkpoint covers yet. */
  lemma TornKeeps(w: World, id: uint64, disk: CacheDisk, s: Session, packet: DataPacket, written: nat, confirmed: nat)
    requires SoundFile(w, id) && CacheOk(w, id, disk, confirmed) && SessionOk(w, id, disk, s) && s.phase.Receiving?
    requires Expected(s, packet) && Placed(s.meta.geometry, packet)
    requires disk.part.Some? && packet.blockId < |disk.part.value|
    ensures CacheOk(w, id, TornPart(disk, packet, written), confirmed)
  {
    hide Dispatch.Inv, Count, First;
    var g := s.meta.geometry;
    DividedBounds(g, packet.blockId);
    if disk.checkpoint.Some? {
      FirstMonotone(g, disk.checkpoint.value.next, s.nextSection);
    }
  }

  /** A section that passed its end check leaves no gap below the next section. */
  lemma NoGap(g: Geometry, received: seq<bool>, section: nat)
    requires SectionHeld(g, received, section) && |received| == g.totalBlocks
    requires forall b :: 0 <= b < |received| && b < First(g, section) ==> received[b]
    ensures forall b :: 0 <= b < |received| && b < First(g, section + 1) ==> received[b]
  {
    NextFirst(g, section);
  }

  lemma EndKeeps(w: World, id: uint64, disk: CacheDisk, s: Session, from: uint64, section: nat, total: uint32,
                 confirmed: nat)
    requires SoundFile(w, id) && CacheOk(w, id, disk, confirmed) && SessionOk(w, id, disk, s) && s.phase.Receiving?
    requires EndAccepted(s, from, section, total)
    ensures var (disk', t) := AfterEnd(disk, s);
      CacheOk(w, id, disk', confirmed) && SessionOk(w, id, disk', t) && disk'.committed.None?
  {
    hide Dispatch.Inv, Count, First, FullSize, SectionHeld;
    SourceLength(w, id);
    NoGap(s.meta.geometry, s.received, s.nextSection);
  }

  // ----- Pipeline steps inside a session

  predicate Offering(p: Dispatch.ProducerAt) {
    p.Pushing? || p.ProducerAsleep? || p.Retrying?
  }

  /** The count of enqueued sections grows by one, and only out of `enqueue_section`. */
  lemma NextGrows(g: Geometry, n: nat, d: Dispatch.State, step: Dispatch.Step)
    requires Dispatch.Enabled(g, n, d, step)
    ensures var e := Dispatch.Next(g, d, step);
      && (e.next == d.next || (e.next == d.next + 1 && Offering(d.producer) && !Offering(e.producer)))
      && (!step.ProducerOffers? && Offering(e.producer) ==> Offering(d.producer) && e.next == d.next)
      && (step.ProducerOffers? ==> e.next == d.next)
  {
    hide Dispatch.PushOutcome, Dispatch.TakeOutcome, Dispatch.AfterPush;
  }

  lemma AdvanceKeeps(w: World, id: uint64, disk: CacheDisk, s: Session, step: Dispatch.Step, t: Session)
    requires SoundFile(w, id) && SessionOk(w, id, disk, s)
    requires var g := w.meta(id).geometry; Advances(g, Count(g), s, step, t)
    requires step.ProducerOffers? ==> s.pipeline.next < Ready(s) && !s.phase.Receiving?
    ensures SessionOk(w, id, disk, t)
  {
    hide Dispatch.Inv, Dispatch.Enabled, Dispatch.Next, Count, First, FullSize, Faithful;
    var g := w.meta(id).geometry;
    NextGrows(g, Count(g), s.pipeline, step);
    Dispatch.StepKeeps(g, Count(g), s.pipeline, step);
  }

  // ----- Committing

  lemma CompleteIsSource(w: World, id: uint64, disk: CacheDisk, s: Session)
    requires SoundFile(w, id) && SessionOk(w, id, disk, s) && s.receivedCount == s.meta.geometry.totalBlocks
    ensures disk.part.Some? && disk.part.value == w.source(id)
  {
    hide Dispatch.Inv, Count, First, PhaseOk;
    SourceLength(w, id);
    CountTrueFull(s.received);
  }

  lemma SessionStepKeeps(w: World, id: uint64, p: Proxy, s: Session, e: Event, q: Proxy)
    requires SoundFile(w, id) && Inv(w, id, p) && HonestFrame(w, id, e) && p.session == Some(s)
    requires SessionStep(w, id, p, s, e, q)
    ensures Inv(w, id, q)
  {
    hide Dispatch.Inv, Dispatch.Enabled, Dispatch.Next, FullSize, Faithful, Count, First, Honest, OnCentralData,
      AfterEnd, EndAccepted, SoundFile, AuthenticBelow;
    var g := w.meta(id).geometry;
    match e
    case Data(packet) => CentralDataKeeps(w, id, p.disk, s, packet, p.confirmed);
    case SectionEnd(from, section, total) => EndKeeps(w, id, p.disk, s, from, section, total, p.confirmed);
    case EnqueueStored => AdvanceKeeps(w, id, p.disk, s, Dispatch.ProducerOffers, q.session.value);
    case Enqueue => AdvanceKeeps(w, id, p.disk, s, Dispatch.ProducerOffers, q.session.value);
    case Conclude => AdvanceKeeps(w, id, p.disk, s, Dispatch.ProducerFinishes, q.session.value);
    case Thread(step) => AdvanceKeeps(w, id, p.disk, s, step, q.session.value);
    case KillInWrite(packet, written) => TornKeeps(w, id, p.disk, s, packet, written, p.confirmed);
    case CommitFile => CompleteIsSource(w, id, p.disk, s);
    case KillAfterRename => CompleteIsSource(w, id, p.disk, s);
    case _ =>
  }

  lemma StepKeeps(w: World, id: uint64, p: Proxy, e: Event, q: Proxy)
    requires SoundFile(w, id) && Inv(w, id, p) && HonestFrame(w, id, e) && Step(w, id, p, e, q)
    ensures Inv(w, id, q)
  {
    hide SessionOk, FullSize, AuthenticBelow, LoadCheckpoint, OpenSession, Count, First, SessionStep;
    match e
    case Open =>
      if !AlreadyCached(p.disk, w.meta(id), w.sha) {
        OpenKeeps(w, id, p.disk, p.confirmed);
        LoadedIsAuthentic(w, id, p.disk, p.confirmed);
        ResumesAtLoaded(p.disk, w.meta(id));
      }
    case KillAfterTruncate => LoadedIsAuthentic(w, id, p.disk, p.confirmed);
    case Close =>
    case _ => SessionStepKeeps(w, id, p, p.session.value, e, q);
  }

  lemma ResumesAtLoaded(disk: CacheDisk, meta: FileMeta)
    requires meta.geometry.sectionBlocks != 0
    ensures OpenSession(disk, meta).resume == LoadCheckpoint(disk, meta)
  {
  }

  // ----- Every run

  datatype Run = Run(states: seq<Proxy>, events: seq<Event>)

  ghost predicate IsRun(w: World, id: uint64, run: Run)
    requires w.meta(id).geometry.sectionBlocks != 0
  {
    && |run.states| == |run.events| + 1 && run.states[0] == NEW_PROXY
    && forall i :: 0 <= i < |run.events| ==> RunStep(w, id, run, i)
  }

  ghost predicate RunStep(w: World, id: uint64, run: Run, i: nat)
    requires i < |run.events| && |run.states| == |run.events| + 1 && w.meta(id).geometry.sectionBlocks != 0
  {
    HonestFrame(w, id, run.events[i]) && Step(w, id, run.states[i], run.events[i], run.states[i + 1])
  }

  lemma {:induction false} RunKeeps(w: World, id: uint64, run: Run, k: nat)
    requires SoundFile(w, id) && IsRun(w, id, run) && k <= |run.events|
    ensures Inv(w, id, run.states[k])
    decreases k
  {
    hide Inv, HonestFrame, Step;
    if k == 0 {
      StartHolds(w, id);
    } else {
      RunKeeps(w, id, run, k - 1);
      assert RunStep(w, id, run, k - 1);
      StepKeeps(w, id, run.states[k - 1], run.events[k - 1], run.states[k]);
    }
  }

  lemma StartHolds(w: World, id: uint64)
    requires SoundFile(w, id)
    ensures Inv(w, id, NEW_PROXY)
  {
  }

  /** Crash-safe resume: whatever checkpoint n is loaded after any sequence of disconnects and kills,
      every block of the sections below n is in the part file with source content, and n is at least
      the number of sections ever confirmed to central, unless the file is already committed. */
  lemma ResumeIsSafe(w: World, id: uint64, run: Run, k: nat)
    requires SoundFile(w, id) && IsRun(w, id, run) && k <= |run.events|
    ensures var disk, g := run.states[k].disk, w.meta(id).geometry;
      var n := LoadCheckpoint(disk, w.meta(id));
      && (n > 0 ==> disk.part.Some? && AuthenticBelow(w.source(id), disk.part.value, First(g, n)))
      && (disk.committed.Some? || run.states[k].confirmed <= n)
  {
    hide Step, HonestFrame, RepliesOk, SessionOk, AuthenticBelow;
    RunKeeps(w, id, run, k);
    LoadedIsAuthentic(w, id, run.states[k].disk, run.states[k].confirmed);
  }

  /** When central has been told that the whole file is cached, the committed cache is the source. */
  lemma CachedMeansSource(w: World, id: uint64, run: Run, k: nat, reply: Reply)
    requires SoundFile(w, id) && IsRun(w, id, run) && k <= |run.events| && reply in run.states[k].replies
    requires (reply.Resume? && reply.nextSection == Count(w.meta(id).geometry))
             || (reply.Cached? && reply.sha256 != NO_DIGEST)
    ensures run.states[k].disk.committed == Some(w.source(id))
  {
    hide Step, HonestFrame, SessionOk, AuthenticBelow;
    RunKeeps(w, id, run, k);
  }

  /** A commit in a reachable state leaves the source as the final cache file and nothing else behind. */
  lemma CommitLeavesOnlySource(w: World, id: uint64, run: Run, k: nat)
    requires SoundFile(w, id) && IsRun(w, id, run) && k < |run.events| && run.events[k].CommitFile?
    ensures run.states[k + 1].disk == CacheDisk(None, None, Some(w.source(id))) && run.states[k + 1].session.None?
  {
    hide CacheOk, RepliesOk, AuthenticBelow, FullSize, Dispatch.Inv, PhaseOk;
    RunKeeps(w, id, run, k);
    assert RunStep(w, id, run, k);
    CompleteIsSource(w, id, run.states[k].disk, run.states[k].session.value);
  }

  /** Central is told that the whole file is there, and no session opens, exactly when the final cache file
      has the announced digest. */
  lemma OpensUnlessCached(w: World, id: uint64, p: Proxy, q: Proxy)
    requires SoundFile(w, id) && Step(w, id, p, Open, q)
    ensures q.session.None? <==> p.disk.committed.Some? && w.sha(p.disk.committed.value) == w.meta(id).sha256
    ensures q.disk.committed == p.disk.committed && q.confirmed == p.confirmed
    ensures q.session.None? ==>
              Resume(id, Count(w.meta(id).geometry), Count(w.meta(id).geometry), w.meta(id).geometry.fileSize,
                     w.meta(id).sha256) in q.replies
  {
    hide OpenSession, LoadCheckpoint, Count;
  }

  /** The committed cache, once there, is never touched again. */
  lemma CommittedOnlyOnce(w: World, id: uint64, run: Run, k: nat)
    requires SoundFile(w, id) && IsRun(w, id, run) && k < |run.events|
    requires run.states[k].disk.committed.Some?
    ensures run.states[k + 1].disk == run.states[k].disk
  {
    hide CacheOk, RepliesOk, AuthenticBelow, FullSize;
    RunKeeps(w, id, run, k);
    assert RunStep(w, id, run, k);
    CommittedIsCached(w, id, run.states[k]);
  }

  lemma CommittedIsCached(w: World, id: uint64, p: Proxy)
    requires SoundFile(w, id) && CacheOk(w, id, p.disk, p.confirmed) && p.disk.committed.Some?
    ensures AlreadyCached(p.disk, w.meta(id), w.sha)
  {
  }

  // ----- The worker reads what no one writes

  /** Every block of a section below `Ready` is marked and has source content. */
  lemma ReadyIsAuthentic(w: World, id: uint64, disk: CacheDisk, s: Session, section: nat, block: nat)
    requires SoundFile(w, id) && SessionOk(w, id, disk, s)
    requires section < Ready(s) && InSection(w.meta(id).geometry, section, block)
    ensures disk.part.Some? && block < |disk.part.value| == |s.received| == |w.source(id)|
    ensures s.received[block] && disk.part.value[block] == w.source(id)[block]
  {
    hide Dispatch.Inv, PhaseOk, FullSize;
    NextFirst(w.meta(id).geometry, section);
    FirstMonotone(w.meta(id).geometry, section + 1, Ready(s));
    SourceLength(w, id);
  }

  /** In every reachable state, each block of the section in the worker's hands was checked, stored
      and synced, and holds source content. */
  lemma WorkerReadsCommitted(w: World, id: uint64, run: Run, k: nat, block: nat)
    requires SoundFile(w, id) && IsRun(w, id, run) && k <= |run.events|
    requires run.states[k].session.Some? && run.states[k].session.value.pipeline.worker.Distributing?
    requires InSection(w.meta(id).geometry, run.states[k].session.value.pipeline.worker.task.section, block)
    ensures var disk, s := run.states[k].disk, run.states[k].session.value;
      && s.pipeline.worker.task.section < s.pipeline.next <= Ready(s)
      && disk.part.Some? && block < |disk.part.value| == |s.received| == |w.source(id)|
      && s.received[block] && disk.part.value[block] == w.source(id)[block]
  {
    hide Step, HonestFrame, CacheOk, RepliesOk, FullSize, SoundFile, First;
    RunKeeps(w, id, run, k);
    var p, s := run.states[k], run.states[k].session.value;
    WorkerSection(w.meta(id).geometry, s);
    ReadyIsAuthentic(w, id, p.disk, s, s.pipeline.worker.task.section, block);
  }

  lemma DataAvoids(disk: CacheDisk, s: Session, packet: DataPacket, section: nat, block: nat)
    requires section < s.nextSection && InSection(s.meta.geometry, section, block)
    requires s.meta.geometry.sectionBlocks != 0 && disk.part.Some? && block < |disk.part.value|
    ensures var after := OnCentralData(disk, s, packet).0.part;
      after.Some? && |after.value| == |disk.part.value| && after.value[block] == disk.part.value[block]
  {
    hide First, Placed, Crc;
    InsideIsDivided(s.meta.geometry, block, section);
  }

  /** No step of either thread, and no frame from central, changes a block of a section that has been
      enqueued: the producer's writes and the worker's reads touch disjoint blocks. */
  lemma WritesAvoidReads(w: World, id: uint64, run: Run, k: nat, section: nat, block: nat)
    requires SoundFile(w, id) && IsRun(w, id, run) && k < |run.events|
    requires run.states[k].session.Some? && run.states[k + 1].session.Some?
    requires section < run.states[k].session.value.pipeline.next && InSection(w.meta(id).geometry, section, block)
    ensures var before, after := run.states[k].disk.part, run.states[k + 1].disk.part;
      && before.Some? && after.Some?
      && block < |before.value| == |after.value| && after.value[block] == before.value[block]
  {
    hide CacheOk, RepliesOk, FullSize, Dispatch.Inv, Dispatch.Next, OnCentralData, AfterEnd, EndAccepted, First,
      Honest, Count;
    RunKeeps(w, id, run, k);
    assert RunStep(w, id, run, k);
    var disk, s := run.states[k].disk, run.states[k].session.value;
    ReadyIsAuthentic(w, id, disk, s, section, block);
    EndLeavesPart(disk, s);
    if run.events[k].Data? {
      DataAvoids(disk, s, run.events[k].packet, section, block);
    }
  }

  lemma EndLeavesPart(disk: CacheDisk, s: Session)
    requires s.meta.geometry.sectionBlocks != 0
    ensures AfterEnd(disk, s).0.part == disk.part
  {
  }

  lemma WorkerSection(g: Geometry, s: Session)
    requires g.sectionBlocks != 0 && Dispatch.Inv(g, Count(g), s.pipeline) && s.pipeline.worker.Distributing?
    ensures s.pipeline.worker.task.section < s.pipeline.next
  {
    hide Count, Dispatch.BytesOk, Dispatch.ProducerOk, Dispatch.WakeupsOk, SectionBytes;
  }

  // ----- A checkpoint left behind

  /** The transfer id does not depend on the section size, which central takes from its command line. */
  function Resized(meta: FileMeta, sectionBlocks: uint32): FileMeta {
    meta.(geometry := meta.geometry.(sectionBlocks := sectionBlocks))
  }

  /** A session opened with another section size truncates the part file but leaves the checkpoint. If
      it is killed at once, a later session with the first section size resumes from that checkpoint,
      and its resume point is authentic exactly when the section size did not change or the source
      begins with zero bytes up to it. */
  lemma StaleCheckpointIff(w: World, id: uint64, disk: CacheDisk, confirmed: nat, sectionBlocks: uint32)
    requires SoundFile(w, id) && CacheOk(w, id, disk, confirmed) && disk.committed.None? && disk.checkpoint.Some?
    requires sectionBlocks != 0
    ensures var meta := w.meta(id);
      var after := OpenDisk(disk, Resized(meta, sectionBlocks));
      var n := LoadCheckpoint(after, meta);
      && n == disk.checkpoint.value.next > 0 && after.part.Some?
      && (AuthenticBelow(w.source(id), after.part.value, First(meta.geometry, n))
          <==> sectionBlocks == meta.geometry.sectionBlocks
               || AuthenticBelow(Zeros(meta.geometry), w.source(id), First(meta.geometry, n)))
  {
    hide First, Count;
    var meta := w.meta(id);
    assert Zeros(Resized(meta, sectionBlocks).geometry) == Zeros(meta.geometry);
    SourceLength(w, id);
  }
}
