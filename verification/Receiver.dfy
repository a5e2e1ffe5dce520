/** The receiver's state machine of src/receiver.cpp: block storage, drain rounds and reports,
    publication, and reload from disk. */
module Receiver {
  import opened Common
  import opened Reports
  import opened Sections
  import opened Messages
  import opened Crc32

  // ----- State

  /** `TransferState`, without its paths and file handle. */
  datatype Transfer = Transfer(
    meta: FileMeta, received: seq<bool>, receivedCount: nat, duplicates: nat, rejected: nat,
    activeSection: Option<uint32>, lastEndRound: Option<uint32>, lastReported: Option<uint32>,
    awaitingAck: bool, shaFailed: bool)

  /** The `.state` file. */
  datatype SavedState = SavedState(meta: FileMeta, receivedCount: nat, received: seq<bool>)

  /** The `.part-<id>` file (by blocks) and the `.state` file of one transfer id. */
  datatype Files = Files(part: Option<Content>, saved: Option<SavedState>)

  /** Files on disk by transfer id, and the files renamed into place so far, by transfer id. */
  datatype Disk = Disk(files: map<uint64, Files>, published: map<uint64, Content>)

  datatype Rx = Rx(transfer: Option<Transfer>, draining: bool, drainRound: uint32, disk: Disk)

  type Sha = Content -> Digest

  function FilesOf(disk: Disk, id: uint64): Files {
    if id in disk.files then disk.files[id] else Files(None, None)
  }

  function WithFiles(disk: Disk, id: uint64, files: Files): Disk {
    disk.(files := disk.files[id := files])
  }

  // ----- Geometry

  /** The blocks of a section as the receiver computes them, wrap-around included. */
  function Window(g: Geometry, section: uint32): Option<(nat, nat)> {
    match SectionBlockCount(g.totalBlocks, section, g.sectionBlocks)
    case Thrown => None
    case Ok(n) => Some((SectionFirstBlock(section, g.sectionBlocks).value, n))
  }

  lemma WindowInside(g: Geometry, section: uint32)
    ensures Window(g, section).Some? ==>
              Window(g, section).value.0 + Window(g, section).value.1 <= g.totalBlocks
  {
  }

  function CountTrue(s: seq<bool>): (n: nat)
    ensures n <= |s|
    decreases |s|
  {
    if s == [] then 0 else CountTrue(s[..|s| - 1]) + if s[|s| - 1] then 1 else 0
  }

  // ----- Blocks

  predicate Placed(g: Geometry, packet: DataPacket) {
    && packet.blockId < g.totalBlocks
    && packet.offset == BlockOffset(packet.blockId)
    && |packet.payload| == BlockSizeOf(g, packet.blockId)
    && packet.offset + |packet.payload| <= g.fileSize
  }

  predicate Intact(packet: DataPacket) {
    Crc(packet.payload) == packet.crc
  }

  function WritePart(files: Files, block: nat, payload: Payload): Files {
    if files.part.Some? && block < |files.part.value|
    then files.(part := Some(files.part.value[block := payload])) else files
  }

  /** Writes a new block to the part file and marks it in memory. */
  function Store(rx: Rx, t: Transfer, packet: DataPacket): Rx
    requires packet.blockId < |t.received|
  {
    var id := t.meta.transferId;
    rx.(transfer := Some(t.(received := t.received[packet.blockId := true], receivedCount := t.receivedCount + 1)),
        disk := WithFiles(rx.disk, id, WritePart(FilesOf(rx.disk, id), packet.blockId, packet.payload)))
  }

  predicate Listening(rx: Rx, id: uint64) {
    rx.transfer.Some? && rx.transfer.value.meta.transferId == id
    && !rx.transfer.value.awaitingAck && !rx.transfer.value.shaFailed
  }

  /** UDP DATA, from the multicast group or from a peer. */
  function OnData(rx: Rx, packet: DataPacket): Rx {
    if !Listening(rx, packet.transferId) then rx
    else
      var t := rx.transfer.value;
      if !Placed(t.meta.geometry, packet)
         || SectionIdForBlock(packet.blockId, t.meta.geometry.sectionBlocks) != Ok(packet.sectionId)
         || !Intact(packet) || packet.blockId >= |t.received|
      then rx.(transfer := Some(t.(rejected := t.rejected + 1)))
      else if t.received[packet.blockId] then rx.(transfer := Some(t.(duplicates := t.duplicates + 1)))
      else Store(rx, t, packet)
  }

  function SaveState(disk: Disk, t: Transfer): Disk {
    var id := t.meta.transferId;
    WithFiles(disk, id, FilesOf(disk, id).(saved := Some(SavedState(t.meta, t.receivedCount, t.received))))
  }

  /** `BACKFILL_DATA`: the same checks without the section field, and the state is saved per block. */
  function OnBackfillData(rx: Rx, packet: DataPacket): Rx {
    if !Listening(rx, packet.transferId) then rx
    else
      var t := rx.transfer.value;
      if packet.blockId >= t.meta.geometry.totalBlocks || packet.blockId >= |t.received| then rx
      else if !Placed(t.meta.geometry, packet) || !Intact(packet)
      then rx.(transfer := Some(t.(rejected := t.rejected + 1)))
      else if t.received[packet.blockId] then rx
      else
        var stored := Store(rx, t, packet);
        stored.(disk := SaveState(stored.disk, stored.transfer.value))
  }

  // ----- Drain rounds

  /** `begin_drain_for_round`. */
  function BeginDrain(rx: Rx, t: Transfer, section: uint32, round: uint32, total: uint32): Rx {
    if t.awaitingAck || t.shaFailed || total != t.meta.geometry.totalBlocks
       || Window(t.meta.geometry, section).None?
    then rx.(transfer := Some(t.(rejected := t.rejected + 1)))
    else if t.activeSection.Some? && section < t.activeSection.value then rx
    else
      var u := if t.activeSection == Some(section) then t
               else t.(activeSection := Some(section), lastEndRound := None, lastReported := None);
      if (u.lastReported.Some? && round <= u.lastReported.value)
         || (u.lastEndRound.Some? && round < u.lastEndRound.value)
         || (u.lastEndRound == Some(round) && rx.draining)
      then rx.(transfer := Some(u))
      else rx.(transfer := Some(u.(lastEndRound := Some(round))), draining := true, drainRound := round)
  }

  function OnSectionEnd(rx: Rx, id: uint64, section: uint32, round: uint32, total: uint32): Rx {
    if rx.transfer.None? || rx.transfer.value.meta.transferId != id then rx
    else BeginDrain(rx, rx.transfer.value, section, round, total)
  }

  function OnUdpEnd(rx: Rx, id: uint64, section: uint32, round: uint32, total: uint32): Rx {
    if !Listening(rx, id) then rx else BeginDrain(rx, rx.transfer.value, section, round, total)
  }

  // ----- Reports and publication

  datatype Outcome = Outcome(rx: Rx, sent: seq<Report>)

  function StatusReport(t: Transfer, section: uint32, round: uint32, code: StatusCode): Report {
    Status(SectionStatus(t.meta.transferId, section, round, code, 0, []))
  }

  function CompleteReport(t: Transfer): Report {
    ReceiverComplete(t.meta.transferId, t.meta.geometry.fileSize, t.meta.sha256)
  }

  predicate Matches(disk: Disk, t: Transfer, sha: Sha) {
    var part := FilesOf(disk, t.meta.transferId).part;
    t.receivedCount == t.meta.geometry.totalBlocks && part.Some? && sha(part.value) == t.meta.sha256
  }

  /** Renames the part file into place. */
  function Publish(disk: Disk, t: Transfer): Disk
    requires FilesOf(disk, t.meta.transferId).part.Some?
  {
    var id := t.meta.transferId;
    WithFiles(disk, id, FilesOf(disk, id).(part := None))
      .(published := disk.published[id := FilesOf(disk, id).part.value])
  }

  /** Removes the state file. */
  function DropState(disk: Disk, t: Transfer): Disk {
    var id := t.meta.transferId;
    WithFiles(disk, id, FilesOf(disk, id).(saved := None))
  }

  /** `finalize_transfer`: publishes, or notes a digest mismatch of a full file. */
  function Finalize(rx: Rx, t: Transfer, sha: Sha): (bool, Rx) {
    if Matches(rx.disk, t, sha) then
      (true, rx.(transfer := Some(t), disk := DropState(Publish(rx.disk, t), t)))
    else if t.receivedCount != t.meta.geometry.totalBlocks then (false, rx.(transfer := Some(t)))
    else (false, rx.(transfer := Some(t.(shaFailed := true))))
  }

  predicate SectionReceived(received: seq<bool>, window: (nat, nat)) {
    window.0 + window.1 <= |received| && forall b :: window.0 <= b < window.0 + window.1 ==> received[b]
  }

  /** `finish_drain_and_report` for an incomplete section: `bitmap` lists what is missing. */
  function ReportMissing(rx: Rx, t: Transfer, section: uint32, bitmap: Bytes, count: uint32): Outcome {
    Outcome(rx.(transfer := Some(t.(lastReported := Some(rx.drainRound))), draining := false),
            [Status(SectionStatus(t.meta.transferId, section, rx.drainRound, Missing, count, bitmap))])
  }

  /** `finish_drain_and_report` for a complete section: save, try to publish, report. */
  function ReportReceived(rx: Rx, t: Transfer, section: uint32, sha: Sha): Outcome {
    var saved := rx.(disk := SaveState(rx.disk, t), draining := false);
    var (done, after) := Finalize(saved, t.(lastReported := Some(rx.drainRound)), sha);
    var u := after.transfer.value;
    if done then
      Outcome(after.(transfer := Some(u.(awaitingAck := true))),
              [StatusReport(t, section, rx.drainRound, Complete), CompleteReport(t)])
    else Outcome(after, [StatusReport(t, section, rx.drainRound, if u.shaFailed then Failed else Complete)])
  }

  /** `BACKFILL_END`. */
  function OnBackfillEnd(rx: Rx, meta: FileMeta, sha: Sha): Outcome {
    if !Listening(rx, meta.transferId) then Outcome(rx, [])
    else
      var t := rx.transfer.value;
      if meta.geometry.fileSize != t.meta.geometry.fileSize || meta.geometry.totalBlocks != t.meta.geometry.totalBlocks
         || meta.sha256 != t.meta.sha256
      then Outcome(rx, [])
      else
        var (done, after) := Finalize(rx, t, sha);
        var u := after.transfer.value;
        if done then Outcome(after.(transfer := Some(u.(awaitingAck := true))), [CompleteReport(t)])
        else
          var round := if t.lastReported.Some? then t.lastReported.value else 0;
          var section := if t.activeSection.Some? then t.activeSection.value else 0;
          Outcome(after.(transfer := Some(u.(lastReported := Some(round)))), [StatusReport(t, section, round, Failed)])
  }

  // ----- Reload

  /** `load_receiver_state`. */
  predicate Loadable(files: Files, meta: FileMeta) {
    && files.saved.Some? && files.part.Some? && FullSize(files.part.value, meta.geometry)
    && files.saved.value.meta == meta
    && |files.saved.value.received| == meta.geometry.totalBlocks
    && CountTrue(files.saved.value.received) == files.saved.value.receivedCount
  }

  function FreshTransfer(meta: FileMeta, received: seq<bool>, count: nat): Transfer {
    Transfer(meta, received, count, 0, 0, None, None, None, false, false)
  }

  /** `initialize_transfer`: a failed load truncates the part file and leaves the state file alone. */
  function Initialize(rx: Rx, meta: FileMeta): Rx {
    var files := FilesOf(rx.disk, meta.transferId);
    if Loadable(files, meta) then
      rx.(transfer := Some(FreshTransfer(meta, files.saved.value.received, files.saved.value.receivedCount)),
          draining := false)
    else
      rx.(transfer := Some(FreshTransfer(meta, seq(meta.geometry.totalBlocks, _ => false), 0)),
          draining := false,
          disk := WithFiles(rx.disk, meta.transferId, files.(part := Some(Zeros(meta.geometry)))))
  }

  function Registration(rx: Rx): Report {
    if rx.transfer.None? then Register(Idle, 0)
    else Register(if rx.transfer.value.awaitingAck then Completed else Receiving, rx.transfer.value.meta.transferId)
  }

  /** `reconnect_proxy`. */
  function Reconnect(rx: Rx): Outcome {
    var after := rx.(draining := false,
                     transfer := if rx.transfer.Some? && !rx.transfer.value.awaitingAck
                                 then Some(rx.transfer.value.(activeSection := None, lastEndRound := None,
                                                              lastReported := None))
                                 else rx.transfer);
    Outcome(after, [Registration(after)])
  }

  /** `FILE_META`; a refused frame is an exception, after which the receiver reconnects. */
  function OnFileMeta(rx: Rx, meta: FileMeta): Outcome {
    if ExpectedBlocks(meta.geometry.fileSize) != meta.geometry.totalBlocks then Reconnect(rx)
    else if rx.transfer.Some? then
      var t := rx.transfer.value;
      if t.meta.transferId != meta.transferId || t.meta.fileName != meta.fileName then Reconnect(rx)
      else Outcome(rx, [if t.awaitingAck then CompleteReport(t) else MetaReady(meta.transferId)])
    else if !Admitted(meta.geometry) then Reconnect(rx)
    else Outcome(Initialize(rx, meta), [MetaReady(meta.transferId)])
  }

  function Forget(rx: Rx): Rx {
    rx.(transfer := None, draining := false)
  }

  function OnCommand(rx: Rx, command: Command, sha: Sha): Outcome {
    match command
    case FileMetaFrame(meta) => OnFileMeta(rx, meta)
    case SectionEnd(id, section, round, total) => Outcome(OnSectionEnd(rx, id, section, round, total), [])
    case BackfillData(packet) => Outcome(OnBackfillData(rx, packet), [])
    case BackfillEnd(meta) => OnBackfillEnd(rx, meta, sha)
    case CompleteAck(id) =>
      if rx.transfer.Some? && rx.transfer.value.meta.transferId == id && rx.transfer.value.awaitingAck
      then Outcome(Forget(rx), [ReceiverReady(id)]) else Outcome(rx, [])
    case TransferFailed(id) =>
      if rx.transfer.None? then Outcome(rx, [ReceiverReady(id)])
      else if rx.transfer.value.meta.transferId == id then Outcome(Forget(rx), [ReceiverReady(id)])
      else Outcome(rx, [])
    case RepairBegin(_, _, _) => Outcome(rx, [])
    case PeerRepairTask(_, _, _, _, _, _) => Outcome(rx, [])
  }

  /** The drain timer fires. The bitmap of an incomplete section is the one of `make_missing_bitmap`. */
  ghost predicate OnTimer(rx: Rx, sha: Sha, result: Outcome) {
    if !rx.draining || rx.transfer.None? then result == Outcome(rx, [])
    else
      var t := rx.transfer.value;
      if t.activeSection.None? || Window(t.meta.geometry, t.activeSection.value).None?
         || |t.received| != t.meta.geometry.totalBlocks
      then result == Reconnect(rx)
      else
        var section := t.activeSection.value;
        var window := Window(t.meta.geometry, section).value;
        if SectionReceived(t.received, window) then
          // After publication the file handle is closed and the data sync fails.
          if t.awaitingAck then result == Reconnect(rx) else result == ReportReceived(rx, t, section, sha)
        else
          && window.0 + window.1 <= |t.received|
          && exists bitmap: Bytes ::
               && Reports.Reports(bitmap, t.received, window.0, window.1)
               && result == ReportMissing(rx, t, section, bitmap, CountUnreceived(t.received, window.0, window.1))
  }

  // ----- Peer repair

  /** `execute_peer_repair_task`: blocks the source holds, of the named section, are read and sent to the
      target's port. */
  function PeerPackets(rx: Rx, id: uint64, section: uint32, port: uint16, blocks: seq<uint32>): seq<DataPacket>
    decreases |blocks|
  {
    if blocks == [] || !Listening(rx, id) || port == 0 then []
    else
      var t, part := rx.transfer.value, FilesOf(rx.disk, id).part;
      var init, block := PeerPackets(rx, id, section, port, blocks[..|blocks| - 1]), blocks[|blocks| - 1];
      if Window(t.meta.geometry, section).Some? && Servable(t, section, block)
         && part.Some? && block < |part.value| && BlockOffset(block) < U64
      then
        var payload := part.value[block];
        init + [DataPacket(id, section, block, BlockOffset(block), Crc(payload), payload)]
      else init
  }

  predicate Servable(t: Transfer, section: uint32, block: uint32) {
    && block < t.meta.geometry.totalBlocks && block < |t.received| && t.received[block]
    && SectionIdForBlock(block, t.meta.geometry.sectionBlocks) == Ok(section)
  }

  // ----- The receiver as the source's object

  class ReceiverAgent {
    var transfer: Option<Transfer>
    var draining: bool
    var drainRound: uint32
    var disk: Disk

    function View(): Rx
      reads this
    {
      Rx(transfer, draining, drainRound, disk)
    }

    method HandleData(packet: DataPacket)
      modifies this
      ensures View() == OnData(old(View()), packet)
    {
      if !Listening(View(), packet.transferId) {
        return;
      }
      var t := transfer.value;
      var g := t.meta.geometry;
      if packet.blockId >= g.totalBlocks || packet.blockId >= |t.received|
         || SectionIdForBlock(packet.blockId, g.sectionBlocks) != Ok(packet.sectionId)
         || !Placed(g, packet) {
        transfer := Some(t.(rejected := t.rejected + 1));
        return;
      }
      var crc := Compute(packet.payload);
      if crc != packet.crc {
        transfer := Some(t.(rejected := t.rejected + 1));
        return;
      }
      if t.received[packet.blockId] {
        transfer := Some(t.(duplicates := t.duplicates + 1));
        return;
      }
      StoreBlock(packet);
    }

    method StoreBlock(packet: DataPacket)
      requires transfer.Some? && packet.blockId < |transfer.value.received|
      modifies this`transfer, this`disk
      ensures View() == Store(old(View()), old(transfer.value), packet)
    {
      var t := transfer.value;
      var id := t.meta.transferId;
      disk := WithFiles(disk, id, WritePart(FilesOf(disk, id), packet.blockId, packet.payload));
      transfer := Some(t.(received := t.received[packet.blockId := true], receivedCount := t.receivedCount + 1));
    }

    method HandleBackfillData(packet: DataPacket)
      modifies this
      ensures View() == OnBackfillData(old(View()), packet)
    {
      hide Crc, Store, SaveState;
      if !Listening(View(), packet.transferId) {
        return;
      }
      var t := transfer.value;
      if packet.blockId >= t.meta.geometry.totalBlocks || packet.blockId >= |t.received| {
        return;
      }
      var crc := Compute(packet.payload);
      if !Placed(t.meta.geometry, packet) || crc != packet.crc {
        transfer := Some(t.(rejected := t.rejected + 1));
        return;
      }
      if !t.received[packet.blockId] {
        StoreAndSave(packet);
      }
    }

    method StoreAndSave(packet: DataPacket)
      requires transfer.Some? && packet.blockId < |transfer.value.received|
      modifies this`transfer, this`disk
      ensures var stored := Store(old(View()), old(transfer.value), packet);
              View() == stored.(disk := SaveState(stored.disk, stored.transfer.value))
    {
      StoreBlock(packet);
      disk := SaveState(disk, transfer.value);
    }

    method HandleSectionEnd(id: uint64, section: uint32, round: uint32, total: uint32)
      modifies this
      ensures View() == OnSectionEnd(old(View()), id, section, round, total)
    {
      if transfer.None? || transfer.value.meta.transferId != id {
        return;
      }
      var t := transfer.value;
      if t.awaitingAck || t.shaFailed || total != t.meta.geometry.totalBlocks
         || Window(t.meta.geometry, section).None? {
        transfer := Some(t.(rejected := t.rejected + 1));
        return;
      }
      if t.activeSection != Some(section) {
        if t.activeSection.Some? && section < t.activeSection.value {
          return;
        }
        t := t.(activeSection := Some(section), lastEndRound := None, lastReported := None);
        transfer := Some(t);
      }
      if t.lastReported.Some? && round <= t.lastReported.value {
        return;
      }
      if t.lastEndRound.Some? && round < t.lastEndRound.value {
        return;
      }
      if t.lastEndRound == Some(round) && draining {
        return;
      }
      transfer := Some(t.(lastEndRound := Some(round)));
      drainRound := round;
      draining := true;
    }

    method FinalizeTransfer(sha: Sha) returns (done: bool)
      requires transfer.Some?
      modifies this`transfer, this`disk
      ensures (done, View()) == Finalize(old(View()), old(transfer.value), sha)
    {
      var t := transfer.value;
      if t.receivedCount != t.meta.geometry.totalBlocks {
        return false;
      }
      if !Matches(disk, t, sha) {
        transfer := Some(t.(shaFailed := true));
        return false;
      }
      disk := Publish(disk, t);
      disk := DropState(disk, t);
      return true;
    }

    method TimerFired(sha: Sha) returns (sent: seq<Report>)
      modifies this
      ensures OnTimer(old(View()), sha, Outcome(View(), sent))
    {
      if !draining || transfer.None? {
        return [];
      }
      var t := transfer.value;
      if t.activeSection.None? || Window(t.meta.geometry, t.activeSection.value).None?
         || |t.received| != t.meta.geometry.totalBlocks {
        sent := ReconnectProxy();
        return;
      }
      var section := t.activeSection.value;
      var (first, n) := Window(t.meta.geometry, section).value;
      WindowInside(t.meta.geometry, section);
      var bitmap, count := MakeMissingBitmap(t.received, first, n);
      NoneUnreceived(t.received, first, n);
      if count != 0 {
        draining := false;
        transfer := Some(t.(lastReported := Some(drainRound)));
        sent := [Status(SectionStatus(t.meta.transferId, section, drainRound, Missing, count, bitmap))];
        assert Reports.Reports(bitmap, t.received, first, n);
        assert Outcome(View(), sent) == ReportMissing(old(View()), t, section, bitmap, count);
        return;
      }
      if t.awaitingAck {
        sent := ReconnectProxy();
        return;
      }
      sent := ReportComplete(t, section, sha);
    }

    method ReportComplete(t: Transfer, section: uint32, sha: Sha) returns (sent: seq<Report>)
      requires transfer == Some(t)
      modifies this
      ensures Outcome(View(), sent) == ReportReceived(old(View()), t, section, sha)
    {
      draining := false;
      disk := SaveState(disk, t);
      transfer := Some(t.(lastReported := Some(drainRound)));
      var done := FinalizeTransfer(sha);
      var u := transfer.value;
      if done {
        transfer := Some(u.(awaitingAck := true));
        return [StatusReport(t, section, drainRound, Complete), CompleteReport(t)];
      }
      return [StatusReport(t, section, drainRound, if u.shaFailed then Failed else Complete)];
    }

    method ExecutePeerTask(id: uint64, section: uint32, port: uint16, blocks: seq<uint32>)
      returns (sent: seq<DataPacket>)
      ensures sent == PeerPackets(View(), id, section, port, blocks)
    {
      hide Crc, Servable, Window;
      sent := [];
      if !Listening(View(), id) || port == 0 {
        return;
      }
      for i := 0 to |blocks|
        invariant sent == PeerPackets(View(), id, section, port, blocks[..i])
      {
        var t := transfer.value;
        var part := FilesOf(disk, id).part;
        assert blocks[..i + 1][..i] == blocks[..i] && blocks[..i + 1][i] == blocks[i];
        var block := blocks[i];
        if Window(t.meta.geometry, section).Some? && Servable(t, section, block)
           && part.Some? && block < |part.value| && BlockOffset(block) < U64 {
          var payload := part.value[block];
          var crc := Compute(payload);
          sent := sent + [DataPacket(id, section, block, BlockOffset(block), crc, payload)];
        }
      }
      assert blocks[..|blocks|] == blocks;
    }

    method ReconnectProxy() returns (sent: seq<Report>)
      modifies this`draining, this`transfer
      ensures Outcome(View(), sent) == Reconnect(old(View()))
    {
      draining := false;
      if transfer.Some? && !transfer.value.awaitingAck {
        transfer := Some(transfer.value.(activeSection := None, lastEndRound := None, lastReported := None));
      }
      sent := [Registration(View())];
    }

    method LoadState(meta: FileMeta) returns (loaded: bool)
      ensures loaded == Loadable(FilesOf(disk, meta.transferId), meta)
    {
      var files := FilesOf(disk, meta.transferId);
      if files.saved.None? || files.part.None? || !FullSize(files.part.value, meta.geometry) {
        return false;
      }
      var saved := files.saved.value;
      if saved.meta != meta || |saved.received| != meta.geometry.totalBlocks {
        return false;
      }
      var counted := 0;
      for i := 0 to |saved.received|
        invariant counted == CountTrue(saved.received[..i])
      {
        assert saved.received[..i + 1][..i] == saved.received[..i];
        if saved.received[i] {
          counted := counted + 1;
        }
      }
      assert saved.received[..|saved.received|] == saved.received;
      return counted == saved.receivedCount;
    }

    method HandleFileMeta(meta: FileMeta) returns (sent: seq<Report>)
      modifies this
      ensures Outcome(View(), sent) == OnFileMeta(old(View()), meta)
    {
      if ExpectedBlocks(meta.geometry.fileSize) != meta.geometry.totalBlocks {
        sent := ReconnectProxy();
        return;
      }
      if transfer.Some? {
        var t := transfer.value;
        if t.meta.transferId != meta.transferId || t.meta.fileName != meta.fileName {
          sent := ReconnectProxy();
          return;
        }
        return [if t.awaitingAck then CompleteReport(t) else MetaReady(meta.transferId)];
      }
      if !Admitted(meta.geometry) {
        sent := ReconnectProxy();
        return;
      }
      var files := FilesOf(disk, meta.transferId);
      var loaded := LoadState(meta);
      if loaded {
        transfer := Some(FreshTransfer(meta, files.saved.value.received, files.saved.value.receivedCount));
      } else {
        transfer := Some(FreshTransfer(meta, seq(meta.geometry.totalBlocks, _ => false), 0));
        disk := WithFiles(disk, meta.transferId, files.(part := Some(Zeros(meta.geometry))));
      }
      draining := false;
      return [MetaReady(meta.transferId)];
    }
  }
}
