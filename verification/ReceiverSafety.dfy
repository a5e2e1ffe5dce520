/** What every run of a receiver keeps, across message loss, corruption, reconnects and process
    kills at any point: marked blocks are on disk with source content, and what was reported
    complete stays complete. */
module ReceiverSafety {
  import opened Common
  import opened Reports
  import opened Sections
  import opened Messages
  import opened Crc32
  import opened Receiver

  // ----- The world: one fixed file per transfer id

  datatype World = World(meta: uint64 -> FileMeta, source: uint64 -> Content, sha: Sha)

  ghost predicate Sound(w: World) {
    forall id: uint64 :: SoundFile(w, id)
  }

  ghost predicate SoundFile(w: World, id: uint64) {
    && w.meta(id).transferId == id && Valid(w.meta(id).geometry)
    && FullSize(w.source(id), w.meta(id).geometry)
    && w.sha(w.source(id)) == w.meta(id).sha256
  }

  /** There are such worlds: one-byte files, say. */
  lemma SoundWorldExists()
    ensures exists w :: Sound(w)
  {
    var digest: Digest := [];
    var w := World((id: uint64) => FileMeta(id, Geometry(1, 1, 1), "f", digest), (id: uint64) => [[0]],
                   (c: Content) => digest);
    forall id: uint64 ensures SoundFile(w, id) {
    }
    assert Sound(w);
  }

  /** Equal length, and equal outside one window of four consecutive bytes. */
  ghost predicate BurstApart(a: Payload, b: Payload) {
    |a| == |b| && exists from: nat :: from <= |a| && EqualOutside(a, b, from)
  }

  ghost predicate EqualOutside(a: Payload, b: Payload, from: nat)
    requires |a| == |b|
  {
    forall i :: 0 <= i < |a| && !(from <= i < from + 4) ==> a[i] == b[i]
  }

  /** A packet made from the source file whose payload the network may have damaged within four
      consecutive bytes. Section and offset may be anything; the checksum is the one made for the named
      block, so damage that renames a block and leaves its payload and checksum alone is not among the
      faults (HeaderIsNotChecked says what it would do). */
  ghost predicate Honest(w: World, packet: DataPacket) {
    var source := w.source(packet.transferId);
    packet.blockId < |source| ==>
      && packet.crc == Crc(source[packet.blockId])
      && (|packet.payload| == |source[packet.blockId]| ==> BurstApart(packet.payload, source[packet.blockId]))
  }

  /** The CRC check lets only source content through. */
  lemma AcceptedIsAuthentic(w: World, packet: DataPacket)
    requires SoundFile(w, packet.transferId) && Honest(w, packet)
    requires Placed(w.meta(packet.transferId).geometry, packet) && Intact(packet)
    ensures packet.payload == w.source(packet.transferId)[packet.blockId]
  {
    var original := w.source(packet.transferId)[packet.blockId];
    if packet.payload != original {
      var from: nat :| from <= |packet.payload| && EqualOutside(packet.payload, original, from);
      WindowDetected(packet.payload, original, from);
    }
  }

  /** The checksum does not cover the header. A packet whose block number has been changed to that of an
      equally long block, and the offset with it, passes every check, and carries the right content if
      and only if the two blocks have the same content. */
  lemma HeaderIsNotChecked(w: World, id: uint64, a: uint32, b: uint32)
    requires SoundFile(w, id) && a < |w.source(id)| && b < |w.source(id)| && |w.source(id)[a]| == |w.source(id)[b]|
    ensures BlockOffset(b) < U64
    ensures var g, payload := w.meta(id).geometry, w.source(id)[a];
      var packet := DataPacket(id, SectionIdForBlock(b, g.sectionBlocks).value, b, BlockOffset(b), Crc(payload),
                               payload);
      Placed(g, packet) && Intact(packet) && (packet.payload == w.source(id)[b] <==> w.source(id)[a] == w.source(id)[b])
  {
    hide Crc;
    BlocksTileFile(w.meta(id).geometry, b);
  }

  // ----- Events

  datatype Event =
    | Data(packet: DataPacket)
    | UdpEnd(id: uint64, section: uint32, round: uint32, total: uint32)
    | Timer
    | Control(command: Command)
    | Disconnect
    | Kill                                   // between operations
    | KillAfterTruncate(meta: FileMeta)      // inside FILE_META: truncated, not yet resized
    | KillAfterSave                          // inside a drain report: state saved, nothing renamed
    | KillInWrite(packet: DataPacket, written: nat)  // inside a block write, or after it before the state is saved
    | KillAfterRename(saved: bool)           // inside publication: renamed, state file not removed

  ghost predicate HonestEvent(w: World, e: Event) {
    match e
    case Data(packet) => Honest(w, packet)
    case Control(FileMetaFrame(meta)) => meta == w.meta(meta.transferId)
    case Control(BackfillData(packet)) => Honest(w, packet)
    case KillInWrite(packet, _) => Honest(w, packet)
    case KillAfterTruncate(meta) => meta == w.meta(meta.transferId)
    case _ => true
  }

  function Restarted(disk: Disk): Outcome {
    Outcome(Rx(None, false, 0, disk), [Register(Idle, 0)])
  }

  /** The transfer whose drain or backfill is about to publish. */
  ghost predicate Publishing(w: World, rx: Rx) {
    rx.transfer.Some? && !rx.transfer.value.awaitingAck && Matches(rx.disk, rx.transfer.value, w.sha)
  }

  /** A block of which only the first `written` bytes have reached the file. */
  function Torn(payload: Payload, before: Payload, written: nat): Payload {
    if written <= |payload| && written <= |before| then payload[..written] + before[written..] else payload
  }

  function TornDisk(disk: Disk, packet: DataPacket, written: nat): Disk {
    var files := FilesOf(disk, packet.transferId);
    if files.part.Some? && packet.blockId < |files.part.value| then
      WithFiles(disk, packet.transferId,
                WritePart(files, packet.blockId, Torn(packet.payload, files.part.value[packet.blockId], written)))
    else disk
  }

  ghost predicate Step(w: World, rx: Rx, e: Event, result: Outcome) {
    match e
    case Data(packet) => result == Outcome(OnData(rx, packet), [])
    case UdpEnd(id, section, round, total) => result == Outcome(OnUdpEnd(rx, id, section, round, total), [])
    case Timer => OnTimer(rx, w.sha, result)
    case Control(command) => result == OnCommand(rx, command, w.sha)
    case Disconnect => result == Reconnect(rx)
    case Kill => result == Restarted(rx.disk)
    case KillAfterTruncate(meta) =>
      && rx.transfer.None? && !Loadable(FilesOf(rx.disk, meta.transferId), meta)
      && result == Restarted(WithFiles(rx.disk, meta.transferId, FilesOf(rx.disk, meta.transferId).(part := Some([]))))
    case KillAfterSave =>
      && rx.transfer.Some? && !rx.transfer.value.awaitingAck
      && result == Restarted(SaveState(rx.disk, rx.transfer.value))
    case KillInWrite(packet, written) =>
      && Listening(rx, packet.transferId) && packet.blockId < |rx.transfer.value.received|
      && Placed(rx.transfer.value.meta.geometry, packet) && Intact(packet)
      && !rx.transfer.value.received[packet.blockId]
      && result == Restarted(TornDisk(rx.disk, packet, written))
    case KillAfterRename(saved) =>
      && Publishing(w, rx)
      && result == Restarted(Publish(if saved then SaveState(rx.disk, rx.transfer.value) else rx.disk,
                                     rx.transfer.value))
  }

  /** Transfer ids whose publication this event cuts between the rename and the state removal. */
  function OrphanedBy(rx: Rx, e: Event): set<uint64> {
    if e.KillAfterRename? && rx.transfer.Some? then {rx.transfer.value.meta.transferId} else {}
  }

  // ----- The invariant

  /** Every marked block is in `part` with source content. */
  ghost predicate Faithful(source: Content, received: seq<bool>, part: Content) {
    |received| == |part| == |source| && forall b :: 0 <= b < |part| && received[b] ==> part[b] == source[b]
  }

  ghost predicate FilesOk(w: World, id: uint64, files: Files) {
    files.saved.Some? ==>
      && Loadable(files, w.meta(id))
      && Faithful(w.source(id), files.saved.value.received, files.part.value)
  }

  ghost predicate Within(a: seq<bool>, b: seq<bool>) {
    |a| == |b| && forall i :: 0 <= i < |a| && a[i] ==> b[i]
  }

  /** All blocks are marked, and the digest is not the transfer's. */
  ghost predicate Mismatched(w: World, t: Transfer, files: Files) {
    !t.awaitingAck && t.receivedCount == t.meta.geometry.totalBlocks
    && files.part.Some? && w.sha(files.part.value) != t.meta.sha256
  }

  ghost predicate TransferShape(w: World, t: Transfer, files: Files) {
    var meta := w.meta(t.meta.transferId);
    && t.meta == meta
    && |t.received| == meta.geometry.totalBlocks
    && t.receivedCount == CountTrue(t.received)
    && (!t.awaitingAck ==> files.part.Some? && FullSize(files.part.value, meta.geometry))
    && (t.shaFailed ==> Mismatched(w, t, files))
    && (t.activeSection.Some? ==> Window(meta.geometry, t.activeSection.value).Some?)
  }

  ghost predicate TransferFaithful(w: World, t: Transfer, files: Files) {
    && (!t.awaitingAck ==> files.part.Some? && Faithful(w.source(t.meta.transferId), t.received, files.part.value))
    && (files.saved.Some? ==> Within(files.saved.value.received, t.received))
    && !t.shaFailed
  }

  ghost predicate DiskOk(w: World, disk: Disk, orphaned: set<uint64>) {
    && (forall id :: id in orphaned ==> id in disk.published)
    && (forall id :: id in disk.files && id !in orphaned ==> FilesOk(w, id, disk.files[id]))
    && (forall id :: id in disk.published ==> w.sha(disk.published[id]) == w.meta(id).sha256)
    && (forall id :: id in disk.published && id !in orphaned ==> disk.published[id] == w.source(id))
  }

  ghost predicate ActiveOk(w: World, rx: Rx, orphaned: set<uint64>) {
    rx.transfer.Some? ==>
      var t := rx.transfer.value;
      var id := t.meta.transferId;
      && TransferShape(w, t, FilesOf(rx.disk, id))
      && (t.awaitingAck ==> id in rx.disk.published)
      && (id !in orphaned ==> TransferFaithful(w, t, FilesOf(rx.disk, id)))
  }

  ghost predicate Inv(w: World, rx: Rx, orphaned: set<uint64>) {
    && DiskOk(w, rx.disk, orphaned)
    && ActiveOk(w, rx, orphaned)
    && (rx.draining ==> rx.transfer.Some? && rx.transfer.value.activeSection.Some?)
  }

  // ----- Counting

  lemma {:induction false} CountTrueUpdate(s: seq<bool>, i: nat)
    requires i < |s| && !s[i]
    ensures CountTrue(s[i := true]) == CountTrue(s) + 1
    decreases |s|
  {
    var last := |s| - 1;
    if i == last {
      assert s[i := true][..last] == s[..last];
    } else {
      assert s[i := true][..last] == s[..last][i := true];
      CountTrueUpdate(s[..last], i);
    }
  }

  lemma {:induction false} CountTrueFull(s: seq<bool>)
    ensures CountTrue(s) == |s| <==> forall i :: 0 <= i < |s| ==> s[i]
    decreases |s|
  {
    if s != [] {
      CountTrueFull(s[..|s| - 1]);
      assert forall i :: 0 <= i < |s| - 1 ==> s[..|s| - 1][i] == s[i];
    }
  }

  lemma {:induction false} CountTrueNone(n: nat)
    ensures CountTrue(seq(n, _ => false)) == 0
    decreases n
  {
    if n > 0 {
      assert seq(n, _ => false)[..n - 1] == seq(n - 1, _ => false);
      CountTrueNone(n - 1);
    }
  }

  // ----- Storing a block

  lemma StoreFiles(w: World, id: uint64, files: Files, received: seq<bool>, block: nat, payload: Payload)
    requires SoundFile(w, id) && files.part.Some? && FullSize(files.part.value, w.meta(id).geometry)
    requires block < |w.source(id)| && payload == w.source(id)[block]
    ensures var after := WritePart(files, block, payload);
      && after.part.Some? && after.saved == files.saved && FullSize(after.part.value, w.meta(id).geometry)
      && (FilesOk(w, id, files) ==> FilesOk(w, id, after))
      && (Faithful(w.source(id), received, files.part.value) && block < |received| ==>
            Faithful(w.source(id), received[block := true], after.part.value))
  {
  }

  lemma StoreKeeps(w: World, rx: Rx, packet: DataPacket, orphaned: set<uint64>)
    requires Sound(w) && Inv(w, rx, orphaned) && Honest(w, packet) && Listening(rx, packet.transferId)
    requires Placed(rx.transfer.value.meta.geometry, packet) && Intact(packet)
    requires packet.blockId < |rx.transfer.value.received| && !rx.transfer.value.received[packet.blockId]
    ensures Inv(w, Store(rx, rx.transfer.value, packet), orphaned)
  {
    hide Loadable, Faithful, FullSize, Crc;
    var t, id := rx.transfer.value, packet.transferId;
    assert SoundFile(w, id);
    AcceptedIsAuthentic(w, packet);
    SourceLength(w, id);
    StoreFiles(w, id, FilesOf(rx.disk, id), t.received, packet.blockId, packet.payload);
    CountTrueUpdate(t.received, packet.blockId);
  }

  lemma SourceLength(w: World, id: uint64)
    requires SoundFile(w, id)
    ensures |w.source(id)| == w.meta(id).geometry.totalBlocks
  {
  }

  /** Updating counters and round numbers keeps the invariant. */
  lemma NoteKeeps(w: World, rx: Rx, u: Transfer, draining: bool, round: uint32, orphaned: set<uint64>)
    requires Inv(w, rx, orphaned) && rx.transfer.Some?
    requires var t := rx.transfer.value;
             u.meta == t.meta && u.received == t.received && u.receivedCount == t.receivedCount
             && u.awaitingAck == t.awaitingAck
             && (u.shaFailed && !t.shaFailed ==>
                   t.meta.transferId in orphaned && Mismatched(w, u, FilesOf(rx.disk, t.meta.transferId)))
    requires u.activeSection.Some? ==> Window(u.meta.geometry, u.activeSection.value).Some?
    requires draining ==> u.activeSection.Some?
    ensures Inv(w, rx.(transfer := Some(u), draining := draining, drainRound := round), orphaned)
  {
    hide DiskOk, Faithful, FullSize, Window;
  }

  lemma DataKeeps(w: World, rx: Rx, packet: DataPacket, orphaned: set<uint64>)
    requires Sound(w) && Inv(w, rx, orphaned) && Honest(w, packet)
    ensures Inv(w, OnData(rx, packet), orphaned)
  {
    hide DiskOk, Crc, Placed, Store, Faithful, FullSize, Honest;
    if Listening(rx, packet.transferId) {
      var t := rx.transfer.value;
      if Placed(t.meta.geometry, packet) && Intact(packet) && packet.blockId < |t.received|
         && !t.received[packet.blockId] {
        StoreKeeps(w, rx, packet, orphaned);
      }
      NoteKeeps(w, rx, t.(rejected := t.rejected + 1), rx.draining, rx.drainRound, orphaned);
      NoteKeeps(w, rx, t.(duplicates := t.duplicates + 1), rx.draining, rx.drainRound, orphaned);
    }
  }

  lemma BackfillDataKeeps(w: World, rx: Rx, packet: DataPacket, orphaned: set<uint64>)
    requires Sound(w) && Inv(w, rx, orphaned) && Honest(w, packet)
    ensures Inv(w, OnBackfillData(rx, packet), orphaned)
  {
    hide DiskOk, Crc, Placed, Faithful, FullSize, Honest;
    if Listening(rx, packet.transferId) {
      var t := rx.transfer.value;
      if packet.blockId < |t.received| && Placed(t.meta.geometry, packet) && Intact(packet)
         && !t.received[packet.blockId] {
        StoreKeeps(w, rx, packet, orphaned);
        SaveKeeps(w, Store(rx, t, packet), orphaned);
      }
      NoteKeeps(w, rx, t.(rejected := t.rejected + 1), rx.draining, rx.drainRound, orphaned);
    }
  }

  lemma BeginDrainKeeps(w: World, rx: Rx, section: uint32, round: uint32, total: uint32, orphaned: set<uint64>)
    requires Inv(w, rx, orphaned) && rx.transfer.Some?
    ensures Inv(w, BeginDrain(rx, rx.transfer.value, section, round, total), orphaned)
  {
    hide DiskOk, Faithful, FullSize, TransferFaithful;
    var t := rx.transfer.value;
    NoteKeeps(w, rx, t.(rejected := t.rejected + 1), rx.draining, rx.drainRound, orphaned);
    if Window(t.meta.geometry, section).Some? {
      var u := if t.activeSection == Some(section) then t
               else t.(activeSection := Some(section), lastEndRound := None, lastReported := None);
      NoteKeeps(w, rx, u, rx.draining, rx.drainRound, orphaned);
      NoteKeeps(w, rx, u.(lastEndRound := Some(round)), true, round, orphaned);
    }
  }

  // ----- Saving and publishing

  lemma SaveKeeps(w: World, rx: Rx, orphaned: set<uint64>)
    requires Sound(w) && Inv(w, rx, orphaned) && rx.transfer.Some? && !rx.transfer.value.awaitingAck
    ensures Inv(w, rx.(disk := SaveState(rx.disk, rx.transfer.value)), orphaned)
  {
    hide FullSize;
    assert SoundFile(w, rx.transfer.value.meta.transferId);
  }

  /** A full file with the right digest is the source file, unless its id was orphaned before. */
  lemma MatchedIsSource(w: World, rx: Rx, orphaned: set<uint64>)
    requires Sound(w) && Inv(w, rx, orphaned) && Publishing(w, rx)
    ensures var id := rx.transfer.value.meta.transferId;
      && FilesOf(rx.disk, id).part.Some?
      && w.sha(FilesOf(rx.disk, id).part.value) == w.meta(id).sha256
      && (id !in orphaned ==> FilesOf(rx.disk, id).part.value == w.source(id))
  {
    hide FullSize;
    var t := rx.transfer.value;
    CountTrueFull(t.received);
    SourceLength(w, t.meta.transferId);
  }

  lemma PublishDisk(w: World, rx: Rx, orphaned: set<uint64>)
    requires Sound(w) && Inv(w, rx, orphaned) && Publishing(w, rx)
    ensures DiskOk(w, DropState(Publish(rx.disk, rx.transfer.value), rx.transfer.value), orphaned)
  {
    hide FullSize, Loadable, Faithful, TransferFaithful, TransferShape;
    MatchedIsSource(w, rx, orphaned);
  }

  /** A full file has the right digest, unless its id was orphaned before. */
  lemma FullMatches(w: World, rx: Rx, orphaned: set<uint64>)
    requires Sound(w) && Inv(w, rx, orphaned) && rx.transfer.Some? && !rx.transfer.value.awaitingAck
    requires rx.transfer.value.receivedCount == rx.transfer.value.meta.geometry.totalBlocks
    ensures rx.transfer.value.meta.transferId in orphaned || Matches(rx.disk, rx.transfer.value, w.sha)
  {
    hide FullSize;
    var t := rx.transfer.value;
    var id := t.meta.transferId;
    CountTrueFull(t.received);
    SourceLength(w, id);
    assert SoundFile(w, id);
    if id !in orphaned {
      assert FilesOf(rx.disk, id).part.value == w.source(id);
    }
  }

  /** Publication in one piece keeps the invariant. */
  lemma FinalizeKeeps(w: World, rx: Rx, t: Transfer, orphaned: set<uint64>)
    requires Sound(w) && Inv(w, rx, orphaned) && rx.transfer == Some(t) && !t.awaitingAck
    requires t.activeSection.Some? ==> Window(t.meta.geometry, t.activeSection.value).Some?
    ensures var (done, after) := Finalize(rx, t, w.sha);
      && (done ==> t.meta.transferId in after.disk.published)
      && (done ==> Inv(w, after.(transfer := Some(after.transfer.value.(awaitingAck := true))), orphaned))
      && (!done ==> Inv(w, after, orphaned))
  {
    hide DiskOk, Faithful, FullSize;
    if Matches(rx.disk, t, w.sha) {
      PublishDisk(w, rx, orphaned);
    } else {
      NoteKeeps(w, rx, t, rx.draining, rx.drainRound, orphaned);
      if t.receivedCount == t.meta.geometry.totalBlocks {
        FullMatches(w, rx, orphaned);
        NoteKeeps(w, rx, t.(shaFailed := true), rx.draining, rx.drainRound, orphaned);
      }
    }
  }

  lemma ReportReceivedKeeps(w: World, rx: Rx, t: Transfer, section: uint32, orphaned: set<uint64>)
    requires Sound(w) && Inv(w, rx, orphaned) && rx.transfer == Some(t) && !t.awaitingAck
    ensures Inv(w, ReportReceived(rx, t, section, w.sha).rx, orphaned)
  {
    hide DiskOk, Faithful, FullSize, TransferFaithful, Finalize, SaveState;
    SaveKeeps(w, rx, orphaned);
    var saved := rx.(disk := SaveState(rx.disk, t));
    var u := t.(lastReported := Some(rx.drainRound));
    NoteKeeps(w, saved, u, false, rx.drainRound, orphaned);
    FinalizeIgnoresTransfer(saved.(draining := false), u, w.sha);
    FinalizeKeeps(w, saved.(transfer := Some(u), draining := false), u, orphaned);
  }

  lemma FinalizeIgnoresTransfer(rx: Rx, t: Transfer, sha: Sha)
    ensures Finalize(rx, t, sha) == Finalize(rx.(transfer := Some(t)), t, sha)
  {
  }

  lemma TimerKeeps(w: World, rx: Rx, result: Outcome, orphaned: set<uint64>)
    requires Sound(w) && Inv(w, rx, orphaned) && OnTimer(rx, w.sha, result)
    ensures Inv(w, result.rx, orphaned)
  {
    hide DiskOk, Faithful, FullSize, TransferFaithful, ReportReceived, Window, SectionReceived;
    if rx.draining && rx.transfer.Some? {
      var t := rx.transfer.value;
      var u := t.(lastReported := Some(rx.drainRound));
      ReconnectKeeps(w, rx, orphaned);
      NoteKeeps(w, rx, u, false, rx.drainRound, orphaned);
      if !t.awaitingAck {
        ReportReceivedKeeps(w, rx, t, t.activeSection.value, orphaned);
      }
    }
  }

  lemma ReconnectKeeps(w: World, rx: Rx, orphaned: set<uint64>)
    requires Inv(w, rx, orphaned)
    ensures Inv(w, Reconnect(rx).rx, orphaned)
  {
    hide DiskOk, Faithful, FullSize, TransferFaithful;
    if rx.transfer.Some? {
      var t := rx.transfer.value;
      NoteKeeps(w, rx, t, false, rx.drainRound, orphaned);
      NoteKeeps(w, rx, t.(activeSection := None, lastEndRound := None, lastReported := None), false, rx.drainRound,
                orphaned);
    }
  }

  lemma BackfillEndKeeps(w: World, rx: Rx, meta: FileMeta, orphaned: set<uint64>)
    requires Sound(w) && Inv(w, rx, orphaned)
    ensures Inv(w, OnBackfillEnd(rx, meta, w.sha).rx, orphaned)
  {
    hide DiskOk, Faithful, FullSize, TransferFaithful, Finalize, Window;
    if Listening(rx, meta.transferId) {
      var t := rx.transfer.value;
      FinalizeKeeps(w, rx, t, orphaned);
      var (done, after) := Finalize(rx, t, w.sha);
      if !done {
        FinalizeSameTransfer(rx, t, w.sha);
        var round := if t.lastReported.Some? then t.lastReported.value else 0;
        NoteKeeps(w, after, after.transfer.value.(lastReported := Some(round)), after.draining, after.drainRound,
                  orphaned);
      }
    }
  }

  lemma FinalizeSameTransfer(rx: Rx, t: Transfer, sha: Sha)
    ensures var (done, after) := Finalize(rx, t, sha);
      after.transfer == Some(if done then t else t.(shaFailed := after.transfer.value.shaFailed))
      && after.draining == rx.draining && after.drainRound == rx.drainRound && (!done ==> after.disk == rx.disk)
  {
  }

  lemma InitializeKeeps(w: World, rx: Rx, meta: FileMeta, orphaned: set<uint64>)
    requires Sound(w) && Inv(w, rx, orphaned) && rx.transfer.None? && meta == w.meta(meta.transferId)
    ensures Inv(w, Initialize(rx, meta), orphaned)
  {
    hide FullSize;
    assert SoundFile(w, meta.transferId);
    CountTrueNone(meta.geometry.totalBlocks);
    SourceLength(w, meta.transferId);
  }

  lemma ForgetKeeps(w: World, rx: Rx, orphaned: set<uint64>)
    requires Inv(w, rx, orphaned)
    ensures Inv(w, Forget(rx), orphaned) && Inv(w, Restarted(rx.disk).rx, orphaned)
  {
    hide DiskOk;
  }

  lemma CommandKeeps(w: World, rx: Rx, command: Command, orphaned: set<uint64>)
    requires Sound(w) && Inv(w, rx, orphaned) && HonestEvent(w, Control(command))
    ensures Inv(w, OnCommand(rx, command, w.sha).rx, orphaned)
  {
    hide Inv, OnBackfillData, OnBackfillEnd, BeginDrain, Initialize, Honest;
    match command
    case FileMetaFrame(meta) =>
      ReconnectKeeps(w, rx, orphaned);
      if rx.transfer.None? {
        InitializeKeeps(w, rx, meta, orphaned);
      }
    case SectionEnd(id, section, round, total) =>
      if rx.transfer.Some? {
        BeginDrainKeeps(w, rx, section, round, total, orphaned);
      }
    case BackfillData(packet) => BackfillDataKeeps(w, rx, packet, orphaned);
    case BackfillEnd(meta) => BackfillEndKeeps(w, rx, meta, orphaned);
    case CompleteAck(id) => ForgetKeeps(w, rx, orphaned);
    case TransferFailed(id) => ForgetKeeps(w, rx, orphaned);
    case _ =>
  }

  lemma TruncateKeeps(w: World, rx: Rx, meta: FileMeta, orphaned: set<uint64>)
    requires Inv(w, rx, orphaned) && rx.transfer.None? && meta == w.meta(meta.transferId)
    requires !Loadable(FilesOf(rx.disk, meta.transferId), meta)
    ensures var disk := WithFiles(rx.disk, meta.transferId, FilesOf(rx.disk, meta.transferId).(part := Some([])));
            Inv(w, Restarted(disk).rx, orphaned)
  {
    hide Loadable, Faithful;
  }

  /** A torn block is one that neither the memory nor the saved state marks. */
  lemma TornFiles(w: World, id: uint64, files: Files, received: seq<bool>, block: nat, payload: Payload)
    requires FilesOk(w, id, files) && files.part.Some? && FullSize(files.part.value, w.meta(id).geometry)
    requires files.saved.Some? ==> Within(files.saved.value.received, received)
    requires block < |received| && !received[block] && block < |files.part.value|
    requires |payload| == |files.part.value[block]|
    ensures FilesOk(w, id, WritePart(files, block, payload))
  {
  }

  lemma TornKeeps(w: World, rx: Rx, packet: DataPacket, written: nat, result: Outcome, orphaned: set<uint64>)
    requires Inv(w, rx, orphaned) && Step(w, rx, KillInWrite(packet, written), result)
    ensures Inv(w, result.rx, orphaned)
  {
    hide Loadable, Faithful, Crc, FilesOk;
    var t, id := rx.transfer.value, packet.transferId;
    var files := FilesOf(rx.disk, id);
    if id !in orphaned && id in rx.disk.files {
      var torn := Torn(packet.payload, files.part.value[packet.blockId], written);
      TornFiles(w, id, files, t.received, packet.blockId, torn);
    }
  }

  /** Every step, and every kill inside a step, keeps the invariant; only a kill between the rename
      and the state removal adds an id to the orphaned ones. */
  lemma StepKeeps(w: World, rx: Rx, e: Event, result: Outcome, orphaned: set<uint64>)
    requires Sound(w) && Inv(w, rx, orphaned) && HonestEvent(w, e) && Step(w, rx, e, result)
    ensures Inv(w, result.rx, orphaned + OrphanedBy(rx, e))
  {
    hide DiskOk, ActiveOk, Loadable, OnData, Honest, Store, OnTimer, BeginDrain, OnCommand, Matches;
    assert orphaned + {} == orphaned;
    match e
    case Data(packet) => DataKeeps(w, rx, packet, orphaned);
    case UdpEnd(id, section, round, total) =>
      if rx.transfer.Some? {
        BeginDrainKeeps(w, rx, section, round, total, orphaned);
      }
    case Timer => TimerKeeps(w, rx, result, orphaned);
    case Control(command) => CommandKeeps(w, rx, command, orphaned);
    case Disconnect => ReconnectKeeps(w, rx, orphaned);
    case Kill => ForgetKeeps(w, rx, orphaned);
    case KillAfterTruncate(meta) => TruncateKeeps(w, rx, meta, orphaned);
    case KillAfterSave =>
      SaveKeeps(w, rx, orphaned);
      ForgetKeeps(w, rx.(disk := SaveState(rx.disk, rx.transfer.value)), orphaned);
    case KillInWrite(packet, written) => TornKeeps(w, rx, packet, written, result, orphaned);
    case KillAfterRename(saved) =>
      var ready := if saved then rx.(disk := SaveState(rx.disk, rx.transfer.value)) else rx;
      if saved {
        SaveKeeps(w, rx, orphaned);
        SaveMatches(rx.disk, rx.transfer.value, w.sha);
      }
      RenameKeeps(w, ready, orphaned);
  }

  lemma SaveMatches(disk: Disk, t: Transfer, sha: Sha)
    ensures Matches(SaveState(disk, t), t, sha) == Matches(disk, t, sha)
  {
  }

  lemma RenameKeeps(w: World, rx: Rx, orphaned: set<uint64>)
    requires Sound(w) && Inv(w, rx, orphaned) && Publishing(w, rx)
    ensures Inv(w, Restarted(Publish(rx.disk, rx.transfer.value)).rx,
                orphaned + {rx.transfer.value.meta.transferId})
  {
    hide Loadable, Faithful, TransferFaithful, TransferShape, Matches;
    var id := rx.transfer.value.meta.transferId;
    var more := orphaned + {id};
    MatchedIsSource(w, rx, orphaned);
    forall i | i in more ensures i in Publish(rx.disk, rx.transfer.value).published {
    }
  }

  // ----- Reports are lasting facts

  /** The transfer is published, or the saved state marks every block of the section. */
  ghost predicate Covered(w: World, disk: Disk, id: uint64, section: uint32) {
    id in disk.published
    || (FilesOf(disk, id).saved.Some? && Window(w.meta(id).geometry, section).Some?
        && SectionReceived(FilesOf(disk, id).saved.value.received, Window(w.meta(id).geometry, section).value))
  }

  /** What a report claims. */
  ghost predicate Truthful(w: World, disk: Disk, report: Report) {
    match report
    case Status(status) => status.code == Complete ==> Covered(w, disk, status.transferId, status.sectionId)
    case ReceiverComplete(id, _, sha256) => id in disk.published && sha256 == w.meta(id).sha256
    case Register(state, id) => state == Completed ==> id in disk.published
    case _ => true
  }

  /** Nothing published is forgotten, and no saved mark of an unpublished transfer is lost. */
  ghost predicate Progress(before: Disk, after: Disk) {
    && (forall id :: id in before.published ==> id in after.published)
    && (forall id: uint64 :: id !in after.published && FilesOf(before, id).saved.Some? ==>
          FilesOf(after, id).saved.Some?
          && Within(FilesOf(before, id).saved.value.received, FilesOf(after, id).saved.value.received))
  }

  lemma ProgressKeepsTruth(w: World, before: Disk, after: Disk, report: Report)
    requires Progress(before, after) && Truthful(w, before, report)
    ensures Truthful(w, after, report)
  {
    if report.Status? && report.status.code == Complete {
      ProgressKeepsCover(w, before, after, report.status.transferId, report.status.sectionId);
    }
  }

  lemma ProgressKeepsCover(w: World, before: Disk, after: Disk, id: uint64, section: uint32)
    requires Progress(before, after) && Covered(w, before, id, section)
    ensures Covered(w, after, id, section)
  {
    hide Window;
    if id !in after.published {
      var prior, now := FilesOf(before, id).saved.value.received, FilesOf(after, id).saved.value.received;
      assert Within(prior, now);
      var window := Window(w.meta(id).geometry, section).value;
      assert SectionReceived(prior, window);
      assert SectionReceived(now, window);
    }
  }

  lemma ProgressTransitive(a: Disk, b: Disk, c: Disk)
    requires Progress(a, b) && Progress(b, c)
    ensures Progress(a, c)
  {
  }

  lemma SaveProgress(w: World, rx: Rx, orphaned: set<uint64>)
    requires Inv(w, rx, orphaned) && rx.transfer.Some?
    ensures Progress(rx.disk, SaveState(rx.disk, rx.transfer.value))
    ensures rx.transfer.value.activeSection.Some? ==>
              var t := rx.transfer.value;
              var section := t.activeSection.value;
              SectionReceived(t.received, Window(t.meta.geometry, section).value)
              ==> Covered(w, SaveState(rx.disk, t), t.meta.transferId, section)
  {
    hide Faithful, FullSize, Window;
  }

  lemma StoreProgress(rx: Rx, t: Transfer, packet: DataPacket)
    requires packet.blockId < |t.received|
    ensures Progress(rx.disk, Store(rx, t, packet).disk)
  {
  }

  lemma TornProgress(disk: Disk, packet: DataPacket, written: nat)
    ensures Progress(disk, TornDisk(disk, packet, written))
  {
  }

  lemma PublishProgress(disk: Disk, t: Transfer)
    requires FilesOf(disk, t.meta.transferId).part.Some?
    ensures Progress(disk, Publish(disk, t)) && Progress(disk, DropState(Publish(disk, t), t))
  {
  }

  lemma FinalizeProgress(rx: Rx, t: Transfer, sha: Sha)
    ensures Progress(rx.disk, Finalize(rx, t, sha).1.disk)
  {
    hide Publish;
    if Matches(rx.disk, t, sha) {
      PublishProgress(rx.disk, t);
    }
  }

  lemma InitializeProgress(rx: Rx, meta: FileMeta)
    ensures Progress(rx.disk, Initialize(rx, meta).disk)
  {
  }

  ghost predicate AllTruthful(w: World, disk: Disk, sent: seq<Report>) {
    forall i :: 0 <= i < |sent| ==> Truthful(w, disk, sent[i])
  }

  lemma ReportReceivedTruth(w: World, rx: Rx, t: Transfer, section: uint32, orphaned: set<uint64>)
    requires Inv(w, rx, orphaned) && rx.transfer == Some(t) && t.activeSection == Some(section)
    requires SectionReceived(t.received, Window(t.meta.geometry, section).value)
    ensures var result := ReportReceived(rx, t, section, w.sha);
            Progress(rx.disk, result.rx.disk) && AllTruthful(w, result.rx.disk, result.sent)
  {
    hide Window, Matches, FullSize, Faithful, Progress, Covered, Publish, DropState, SectionReceived;
    SaveProgress(w, rx, orphaned);
    var saved := rx.(disk := SaveState(rx.disk, t), draining := false);
    var u := t.(lastReported := Some(rx.drainRound));
    FinalizeProgress(saved, u, w.sha);
    FinalizePublishes(saved, u, w.sha);
    var (done, after) := Finalize(saved, u, w.sha);
    ProgressTransitive(rx.disk, saved.disk, after.disk);
    ProgressKeepsCover(w, saved.disk, after.disk, t.meta.transferId, section);
  }

  lemma FinalizePublishes(rx: Rx, t: Transfer, sha: Sha)
    ensures var (done, after) := Finalize(rx, t, sha); done ==> t.meta.transferId in after.disk.published
    ensures Finalize(rx, t, sha).1.transfer.Some?
  {
  }

  lemma TimerTruth(w: World, rx: Rx, result: Outcome, orphaned: set<uint64>)
    requires Inv(w, rx, orphaned) && OnTimer(rx, w.sha, result)
    ensures Progress(rx.disk, result.rx.disk) && AllTruthful(w, result.rx.disk, result.sent)
  {
    hide Window, DiskOk, Faithful, FullSize, ReportReceived, SectionReceived;
    ProgressSame(rx.disk);
    ReconnectTruth(w, rx, orphaned);
    if rx.draining && rx.transfer.Some? {
      var t := rx.transfer.value;
      var section := t.activeSection.value;
      if SectionReceived(t.received, Window(t.meta.geometry, section).value) && !t.awaitingAck {
        ReportReceivedTruth(w, rx, t, section, orphaned);
      }
    }
  }

  lemma ProgressSame(disk: Disk)
    ensures Progress(disk, disk)
  {
  }

  lemma ReconnectTruth(w: World, rx: Rx, orphaned: set<uint64>)
    requires Inv(w, rx, orphaned)
    ensures var result := Reconnect(rx); result.rx.disk == rx.disk && AllTruthful(w, rx.disk, result.sent)
  {
    hide DiskOk, TransferShape, TransferFaithful;
  }

  lemma CommandTruth(w: World, rx: Rx, command: Command, orphaned: set<uint64>)
    requires Inv(w, rx, orphaned)
    ensures var result := OnCommand(rx, command, w.sha);
            Progress(rx.disk, result.rx.disk) && AllTruthful(w, result.rx.disk, result.sent)
  {
    hide DiskOk, TransferFaithful, Progress, Finalize, Window, FullSize, Store, Initialize, Loadable, BeginDrain,
      SaveState;
    ProgressSame(rx.disk);
    match command
    case FileMetaFrame(meta) =>
      InitializeProgress(rx, meta);
      ReconnectTruth(w, rx, orphaned);
    case SectionEnd(id, section, round, total) => DrainKeepsDisk(rx, section, round, total);
    case BackfillData(packet) => BackfillDataProgress(w, rx, packet, orphaned);
    case BackfillEnd(meta) =>
      if rx.transfer.Some? {
        FinalizeProgress(rx, rx.transfer.value, w.sha);
        FinalizePublishes(rx, rx.transfer.value, w.sha);
      }
    case _ =>
  }

  lemma DrainKeepsDisk(rx: Rx, section: uint32, round: uint32, total: uint32)
    ensures rx.transfer.Some? ==> BeginDrain(rx, rx.transfer.value, section, round, total).disk == rx.disk
  {
  }

  lemma BackfillDataProgress(w: World, rx: Rx, packet: DataPacket, orphaned: set<uint64>)
    requires Inv(w, rx, orphaned)
    ensures Progress(rx.disk, OnBackfillData(rx, packet).disk)
  {
    hide Crc, Placed;
    ProgressSame(rx.disk);
    if Listening(rx, packet.transferId) && packet.blockId < |rx.transfer.value.received| {
      var t := rx.transfer.value;
      SaveAfterStoreProgress(w, rx, t, packet, orphaned);
    }
  }

  lemma SaveAfterStoreProgress(w: World, rx: Rx, t: Transfer, packet: DataPacket, orphaned: set<uint64>)
    requires Inv(w, rx, orphaned) && rx.transfer == Some(t) && packet.blockId < |t.received|
    ensures var stored := Store(rx, t, packet);
            Progress(rx.disk, SaveState(stored.disk, stored.transfer.value))
  {
    hide Faithful, FullSize, Window;
  }

  lemma StepTruth(w: World, rx: Rx, e: Event, result: Outcome, orphaned: set<uint64>)
    requires Inv(w, rx, orphaned) && Step(w, rx, e, result)
    ensures Progress(rx.disk, result.rx.disk) && AllTruthful(w, result.rx.disk, result.sent)
  {
    hide DiskOk, ActiveOk, Progress, Loadable, OnTimer, OnCommand, Matches, BeginDrain, Publish, SaveState, Placed,
      Crc;
    ProgressSame(rx.disk);
    match e
    case Data(packet) =>
      if rx.transfer.Some? && packet.blockId < |rx.transfer.value.received| {
        StoreProgress(rx, rx.transfer.value, packet);
      }
    case UdpEnd(id, section, round, total) => DrainKeepsDisk(rx, section, round, total);
    case Timer => TimerTruth(w, rx, result, orphaned);
    case Control(command) => CommandTruth(w, rx, command, orphaned);
    case Disconnect => ReconnectTruth(w, rx, orphaned);
    case Kill =>
    case KillAfterTruncate(meta) => TruncateProgress(rx.disk, meta.transferId);
    case KillAfterSave => SaveProgress(w, rx, orphaned);
    case KillInWrite(packet, written) => TornProgress(rx.disk, packet, written);
    case KillAfterRename(saved) =>
      var t := rx.transfer.value;
      SaveMatches(rx.disk, t, w.sha);
      MatchedHasPart(rx.disk, t, w.sha);
      MatchedHasPart(SaveState(rx.disk, t), t, w.sha);
      SaveProgress(w, rx, orphaned);
      PublishProgress(rx.disk, t);
      PublishProgress(SaveState(rx.disk, t), t);
      ProgressTransitive(rx.disk, SaveState(rx.disk, t), Publish(SaveState(rx.disk, t), t));
  }

  lemma TruncateProgress(disk: Disk, id: uint64)
    ensures Progress(disk, WithFiles(disk, id, FilesOf(disk, id).(part := Some([]))))
  {
  }

  lemma MatchedHasPart(disk: Disk, t: Transfer, sha: Sha)
    ensures Matches(disk, t, sha) ==> FilesOf(disk, t.meta.transferId).part.Some?
  {
  }

  // ----- Whole runs

  datatype Run = Run(states: seq<Rx>, events: seq<Event>, sent: seq<seq<Report>>)

  const INITIAL := Rx(None, false, 0, Disk(map[], map[]))

  ghost predicate IsRun(w: World, run: Run) {
    && |run.states| == |run.events| + 1 && |run.sent| == |run.events|
    && run.states[0] == INITIAL
    && forall i :: 0 <= i < |run.events| ==> RunStep(w, run, i)
  }

  ghost predicate RunStep(w: World, run: Run, i: nat)
    requires i < |run.events| && |run.states| == |run.events| + 1 && |run.sent| == |run.events|
  {
    HonestEvent(w, run.events[i]) && Step(w, run.states[i], run.events[i], Outcome(run.states[i + 1], run.sent[i]))
  }

  /** Ids whose publication was cut short by a kill in the first `n` events. */
  ghost function Orphaned(run: Run, n: nat): set<uint64>
    requires n <= |run.events| && |run.states| == |run.events| + 1
    decreases n
  {
    if n == 0 then {} else Orphaned(run, n - 1) + OrphanedBy(run.states[n - 1], run.events[n - 1])
  }

  lemma {:induction false} RunKeeps(w: World, run: Run, n: nat)
    requires Sound(w) && IsRun(w, run) && n <= |run.events|
    ensures Inv(w, run.states[n], Orphaned(run, n))
    decreases n
  {
    hide Inv, HonestEvent, Step;
    if n == 0 {
      InitialInv(w);
    } else {
      RunKeeps(w, run, n - 1);
      assert RunStep(w, run, n - 1);
      StepKeeps(w, run.states[n - 1], run.events[n - 1], Outcome(run.states[n], run.sent[n - 1]), Orphaned(run, n - 1));
    }
  }

  lemma InitialInv(w: World)
    ensures Inv(w, INITIAL, {})
  {
  }

  lemma {:induction false} RunProgress(w: World, run: Run, i: nat, n: nat)
    requires Sound(w) && IsRun(w, run) && i <= n <= |run.events|
    ensures Progress(run.states[i].disk, run.states[n].disk)
    decreases n
  {
    hide Inv, Step, HonestEvent, Progress;
    if i == n {
      ProgressSame(run.states[i].disk);
    } else {
      RunProgress(w, run, i, n - 1);
      RunKeeps(w, run, n - 1);
      assert RunStep(w, run, n - 1);
      StepTruth(w, run.states[n - 1], run.events[n - 1], Outcome(run.states[n], run.sent[n - 1]), Orphaned(run, n - 1));
      ProgressTransitive(run.states[i].disk, run.states[n - 1].disk, run.states[n].disk);
    }
  }

  /** Whatever a receiver has ever reported is still true at every later point of the run. */
  lemma ReportsStayTrue(w: World, run: Run, i: nat, n: nat)
    requires Sound(w) && IsRun(w, run) && i < n <= |run.events|
    ensures AllTruthful(w, run.states[n].disk, run.sent[i])
  {
    hide Inv, Step, HonestEvent, Progress;
    RunKeeps(w, run, i);
    assert RunStep(w, run, i);
    StepTruth(w, run.states[i], run.events[i], Outcome(run.states[i + 1], run.sent[i]), Orphaned(run, i));
    RunProgress(w, run, i + 1, n);
    forall j | 0 <= j < |run.sent[i]| ensures Truthful(w, run.states[n].disk, run.sent[i][j]) {
      ProgressKeepsTruth(w, run.states[i + 1].disk, run.states[n].disk, run.sent[i][j]);
    }
  }

  /** The blocks of a section are in the part file with source content, the saved state marks them,
      and so does the memory of a running transfer. */
  ghost predicate SectionDurable(w: World, rx: Rx, id: uint64, section: uint32) {
    var files := FilesOf(rx.disk, id);
    var window := Window(w.meta(id).geometry, section);
    && window.Some? && files.saved.Some? && files.part.Some?
    && SectionReceived(files.saved.value.received, window.value)
    && window.value.0 + window.value.1 <= |files.part.value| == |w.source(id)|
    && (forall b :: window.value.0 <= b < window.value.0 + window.value.1 ==> files.part.value[b] == w.source(id)[b])
    && (rx.transfer.Some? && rx.transfer.value.meta.transferId == id ==>
          SectionReceived(rx.transfer.value.received, window.value))
  }

  lemma CoveredIsDurable(w: World, rx: Rx, orphaned: set<uint64>, id: uint64, section: uint32)
    requires Sound(w) && Inv(w, rx, orphaned) && Covered(w, rx.disk, id, section) && id !in rx.disk.published
    ensures SectionDurable(w, rx, id, section)
  {
    hide Window, FullSize, TransferShape;
    assert id in rx.disk.files && FilesOk(w, id, rx.disk.files[id]);
    SourceLength(w, id);
  }

  /** A section once reported complete stays complete, in memory and on disk, through any number of
      kills and reloads, until the transfer is published. */
  lemma CompleteStaysComplete(w: World, run: Run, i: nat, n: nat, j: nat)
    requires Sound(w) && IsRun(w, run) && i < n <= |run.events| && j < |run.sent[i]|
    requires run.sent[i][j].Status? && run.sent[i][j].status.code == Complete
    ensures var status := run.sent[i][j].status;
            status.transferId in run.states[n].disk.published
            || SectionDurable(w, run.states[n], status.transferId, status.sectionId)
  {
    hide Inv, Step, HonestEvent, SectionDurable;
    RunKeeps(w, run, n);
    ReportsStayTrue(w, run, i, n);
    var status := run.sent[i][j].status;
    assert Truthful(w, run.states[n].disk, run.sent[i][j]);
    if status.transferId !in run.states[n].disk.published {
      CoveredIsDurable(w, run.states[n], Orphaned(run, n), status.transferId, status.sectionId);
    }
  }

  /** In every run, a running transfer whose publication was never cut short marks only blocks that
      are in its part file with source content. */
  lemma MarksAreFaithful(w: World, run: Run, n: nat)
    requires Sound(w) && IsRun(w, run) && n <= |run.events|
    ensures var rx := run.states[n];
      rx.transfer.Some? && !rx.transfer.value.awaitingAck
      && rx.transfer.value.meta.transferId !in Orphaned(run, n) ==>
        var id := rx.transfer.value.meta.transferId;
        FilesOf(rx.disk, id).part.Some?
        && Faithful(w.source(id), rx.transfer.value.received, FilesOf(rx.disk, id).part.value)
  {
    RunKeeps(w, run, n);
  }

  /** Every published file has the digest of its transfer; it is the source file itself unless an
      earlier publication under the same id was cut short. */
  lemma PublishedIsRight(w: World, run: Run, n: nat, id: uint64)
    requires Sound(w) && IsRun(w, run) && n <= |run.events| && id in run.states[n].disk.published
    ensures w.sha(run.states[n].disk.published[id]) == w.meta(id).sha256
    ensures id !in Orphaned(run, n) ==> run.states[n].disk.published[id] == w.source(id)
  {
    RunKeeps(w, run, n);
  }

  /** A receiver notes a digest mismatch only for a transfer whose publication was cut short before. */
  lemma MismatchNeedsCut(w: World, run: Run, n: nat)
    requires Sound(w) && IsRun(w, run) && n <= |run.events| && run.states[n].transfer.Some?
    ensures run.states[n].transfer.value.shaFailed ==> run.states[n].transfer.value.meta.transferId in Orphaned(run, n)
  {
    RunKeeps(w, run, n);
  }

  // ----- The stale state file

  /** What a kill between the rename and the removal of the state file leaves behind. */
  ghost predicate Stale(files: Files) {
    files.saved.Some? && files.part.None?
  }

  ghost predicate SavedShape(w: World, id: uint64, files: Files) {
    files.saved.Some? ==>
      && files.saved.value.meta == w.meta(id)
      && |files.saved.value.received| == w.meta(id).geometry.totalBlocks
      && CountTrue(files.saved.value.received) == files.saved.value.receivedCount
  }

  /** FILE_META, a kill, and FILE_META again. */
  function ReloadTwice(rx: Rx, meta: FileMeta): Rx {
    Initialize(Restarted(Initialize(rx, meta).disk).rx, meta)
  }

  ghost predicate MarksFaithful(w: World, rx: Rx) {
    rx.transfer.Some? ==>
      var id := rx.transfer.value.meta.transferId;
      FilesOf(rx.disk, id).part.Some?
      && Faithful(w.source(id), rx.transfer.value.received, FilesOf(rx.disk, id).part.value)
  }

  /** The marks loaded by the second FILE_META are faithful exactly when the first one did not find a
      state file without its part file, or all blocks that the stale state marks are zero bytes in
      the source anyway. */
  lemma ReloadFaithfulIff(w: World, rx: Rx, id: uint64)
    requires Sound(w) && rx.transfer.None?
    requires var files := FilesOf(rx.disk, id); SavedShape(w, id, files) && (FilesOk(w, id, files) || Stale(files))
    ensures var files := FilesOf(rx.disk, id);
      MarksFaithful(w, ReloadTwice(rx, w.meta(id)))
      <==> (!Stale(files) || Faithful(w.source(id), files.saved.value.received, Zeros(w.meta(id).geometry)))
  {
    assert SoundFile(w, id);
    CountTrueNone(w.meta(id).geometry.totalBlocks);
    SourceLength(w, id);
  }

  /** A kill between the rename and the removal of the state file leaves a stale state that marks
      everything: unless the source is all zeros, the second reload after it trusts blocks that were
      never received. */
  lemma CutPublicationIsUnfaithful(w: World, rx: Rx, result: Outcome, orphaned: set<uint64>)
    requires Sound(w) && Inv(w, rx, orphaned) && rx.transfer.Some?
    requires Step(w, rx, KillAfterRename(true), result)
    ensures var id := rx.transfer.value.meta.transferId;
      Stale(FilesOf(result.rx.disk, id))
      && (w.source(id) != Zeros(w.meta(id).geometry) ==> !MarksFaithful(w, ReloadTwice(result.rx, w.meta(id))))
  {
    hide FullSize, DiskOk;
    var t := rx.transfer.value;
    var id := t.meta.transferId;
    CountTrueFull(t.received);
    ReloadFaithfulIff(w, result.rx, id);
    if Faithful(w.source(id), t.received, Zeros(w.meta(id).geometry)) {
      assert w.source(id) == Zeros(w.meta(id).geometry);
    }
  }
}
