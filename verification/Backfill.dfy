/** TCP backfill of an isolated receiver (`backfill_one_receiver` in src/sender.cpp) and exactly when
    it completes the receiver. */
module Backfill {
  import opened Common
  import opened Reports
  import opened Sections
  import opened Messages
  import opened Crc32
  import opened Connections
  import opened Receiver
  import opened ReceiverSafety
  import opened ReceiverOrder
  import ReportPath

  // ----- The proxy's side

  predicate Waiting(c: Conn) {
    c.isolated && !c.completed && !c.abandoned
  }

  /** A frame that ends the wait loop: a failure report, or the completion of this transfer. */
  predicate Ends(meta: FileMeta, report: Report) {
    match report
    case Status(status) => status.transferId == meta.transferId && status.code == Failed
    case ReceiverComplete(id, fileSize, sha256) =>
      id == meta.transferId && fileSize == meta.geometry.fileSize && sha256 == meta.sha256
    case _ => false
  }

  /** The wait loop; no more frames means a timeout or a lost connection. */
  function AwaitResult(c: Conn, meta: FileMeta, replies: seq<Report>, delivers: bool): Conn {
    if replies == [] then Abandon(c)
    else if Ends(meta, replies[0]) then BackfillPhase(c, meta, replies[0], delivers)
    else AwaitResult(c, meta, replies[1..], delivers)
  }

  /** RECEIVER_COMPLETE of this transfer. */
  function Completion(meta: FileMeta): Report {
    ReceiverComplete(meta.transferId, meta.geometry.fileSize, meta.sha256)
  }

  /** No frame reports a failure of this transfer. */
  ghost predicate NoFailure(meta: FileMeta, replies: seq<Report>) {
    forall j :: 0 <= j < |replies| ==>
      !(replies[j].Status? && replies[j].status.transferId == meta.transferId && replies[j].status.code == Failed)
  }

  lemma EndIsRecorded(c: Conn, meta: FileMeta, report: Report, delivers: bool)
    requires Ends(meta, report)
    ensures var d := BackfillPhase(c, meta, report, delivers);
      if report == Completion(meta)
      then d.completed && d.completeReceived && !d.isolated && d.abandoned == c.abandoned
           && d.recoveryState == ReceiverState.Completed && d.recoveryId == meta.transferId
      else d.completed == c.completed && d.status.Some? && d.status.value.code == Failed
           && d.status.value.transferId == meta.transferId
  {
  }

  /** The record counts as completed after the wait exactly when the completion of this transfer came
      before any failure of it; then every field that says so is set. */
  lemma {:induction false} CompletedIff(c: Conn, meta: FileMeta, replies: seq<Report>, delivers: bool)
    ensures var d := AwaitResult(c, meta, replies, delivers);
      && (!c.completed ==>
            (d.completed
             <==> exists k :: 0 <= k < |replies| && replies[k] == Completion(meta) && NoFailure(meta, replies[..k])))
      && (!c.completed && d.completed ==>
            d.completeReceived && !d.isolated && d.abandoned == c.abandoned
            && d.recoveryState == ReceiverState.Completed && d.recoveryId == meta.transferId)
      && (!c.completed && !d.completed ==>
            (d.abandoned && !d.connected)
            || (d.status.Some? && d.status.value.code == Failed && d.status.value.transferId == meta.transferId))
    decreases |replies|
  {
    hide BackfillPhase;
    if replies == [] {
    } else if Ends(meta, replies[0]) {
      EndIsRecorded(c, meta, replies[0], delivers);
      if replies[0] == Completion(meta) {
        assert NoFailure(meta, replies[..0]);
      } else {
        assert replies[0].Status?;
        forall k | 0 <= k < |replies| && replies[k] == Completion(meta) ensures !NoFailure(meta, replies[..k]) {
          assert replies[..k][0] == replies[0];
        }
      }
    } else {
      CompletedIff(c, meta, replies[1..], delivers);
      CompletionLater(meta, replies);
    }
  }

  lemma CompletionLater(meta: FileMeta, replies: seq<Report>)
    requires replies != [] && !Ends(meta, replies[0])
    ensures (exists k :: 0 <= k < |replies| && replies[k] == Completion(meta) && NoFailure(meta, replies[..k]))
       <==> (exists k :: 0 <= k < |replies[1..]| && replies[1..][k] == Completion(meta)
                         && NoFailure(meta, replies[1..][..k]))
  {
    if exists k :: 0 <= k < |replies| && replies[k] == Completion(meta) && NoFailure(meta, replies[..k]) {
      var k :| 0 <= k < |replies| && replies[k] == Completion(meta) && NoFailure(meta, replies[..k]);
      assert replies[1..][k - 1] == Completion(meta) && replies[1..][..k - 1] == replies[..k][1..];
    }
    var rest := replies[1..];
    if exists k :: 0 <= k < |rest| && rest[k] == Completion(meta) && NoFailure(meta, rest[..k]) {
      var k :| 0 <= k < |rest| && rest[k] == Completion(meta) && NoFailure(meta, rest[..k]);
      assert replies[k + 1] == Completion(meta) && replies[..k + 1] == [replies[0]] + rest[..k];
    }
  }

  /** `backfill_one_receiver`: `blocks` lists the receiver's backfill set; `network(k)` answers the k-th
      send, of BACKFILL_BEGIN, the blocks, and BACKFILL_END. */
  method BackfillOneReceiver(receiver: ReceiverConnection, meta: FileMeta, blocks: seq<nat>,
                             network: nat -> bool, replies: seq<Report>, delivers: bool)
    returns (sent: seq<nat>)
    modifies receiver
    ensures !Waiting(old(receiver.View())) ==> receiver.View() == old(receiver.View()) && sent == []
    ensures Waiting(old(receiver.View())) ==>
              if old(receiver.connected) && (forall k :: 0 <= k < |blocks| + 2 ==> network(k))
              then sent == blocks && receiver.View() == AwaitResult(old(receiver.View()), meta, replies, delivers)
              else sent <= blocks && receiver.View() == Abandon(old(receiver.View()))
    ensures Waiting(old(receiver.View())) && old(receiver.connected)
            && (forall k :: 0 <= k < |blocks| + 2 ==> network(k)) ==>
              (receiver.completed
               <==> exists k :: 0 <= k < |replies| && replies[k] == Completion(meta) && NoFailure(meta, replies[..k]))
    ensures Waiting(old(receiver.View())) && receiver.completed ==>
              && receiver.completeReceived && !receiver.isolated && !receiver.abandoned
              && receiver.recoveryState == ReceiverState.Completed && receiver.recoveryId == meta.transferId
    ensures Waiting(old(receiver.View())) && !receiver.completed ==>
              || (receiver.abandoned && !receiver.connected)
              || (receiver.status.Some? && receiver.status.value.code == Failed
                  && receiver.status.value.transferId == meta.transferId)
  {
    CompletedIff(receiver.View(), meta, replies, delivers);
    sent := [];
    if !receiver.isolated || receiver.completed || receiver.abandoned {
      return;
    }
    ghost var before := receiver.View();
    var accepted := receiver.SendFrame(network(0));
    if !accepted {
      GiveUp(receiver);
      return;
    }
    for i := 0 to |blocks|
      invariant receiver.View() == before && receiver.connected && sent == blocks[..i]
      invariant forall k :: 0 <= k < i + 1 ==> network(k)
    {
      accepted := receiver.SendFrame(network(i + 1));
      if !accepted {
        GiveUp(receiver);
        return;
      }
      sent := sent + [blocks[i]];
    }
    accepted := receiver.SendFrame(network(|blocks| + 1));
    if !accepted {
      GiveUp(receiver);
      return;
    }
    assert blocks[..|blocks|] == blocks;
    WaitForResult(receiver, meta, replies, delivers);
  }

  method GiveUp(receiver: ReceiverConnection)
    modifies receiver
    ensures receiver.View() == Abandon(old(receiver.View()))
  {
    receiver.abandoned := true;
    receiver.connected := false;
  }

  method WaitForResult(receiver: ReceiverConnection, meta: FileMeta, replies: seq<Report>, delivers: bool)
    modifies receiver
    ensures receiver.View() == AwaitResult(old(receiver.View()), meta, replies, delivers)
  {
    ghost var before := receiver.View();
    for i := 0 to |replies|
      invariant receiver.View() == before
      invariant AwaitResult(before, meta, replies, delivers) == AwaitResult(before, meta, replies[i..], delivers)
    {
      var report := replies[i];
      assert replies[i..][0] == report && replies[i..][1..] == replies[i + 1..];
      if !Ends(meta, report) {
        continue;
      }
      match report
      case Status(status) =>
        receiver.status := Some(status);
        receiver.statusReceived := true;
        return;
      case ReceiverComplete(id, _, _) =>
        receiver.AcceptCompletion(id);
        receiver.isolated := false;
        var sent := receiver.SendFrame(delivers);
        return;
      case _ => return;
    }
    GiveUp(receiver);
  }

  // ----- What is on the list

  /** Isolating a receiver right after its report puts exactly the blocks it lacks of that section on
      its backfill list. */
  lemma ListedExactly(rx: Rx, sha: Sha, result: Outcome, status: SectionStatus, r: Round, c: Conn,
                      delivers: bool, backfillAfter: uint32, block: nat)
    requires ReportPath.Sent(rx, sha, result, status, r) && Active(c) && c.backfill == {}
    requires BlocksOf(r.meta.geometry, r.section) <= ReportPath.MAX_REPORTED_BLOCKS
    requires status.code == Missing && r.round >= backfillAfter
    ensures var g := r.meta.geometry;
      var first, n := First(g, r.section), BlocksOf(g, r.section);
      var d := Isolate(HandleReport(c, r, Status(status), delivers), first, n, r.round, backfillAfter);
      d.isolated
      && (block in d.backfill
          <==> first <= block < first + n && block < |rx.transfer.value.received| && !rx.transfer.value.received[block])
  {
    hide OnTimer, WellFormed, HasBit, First, BlocksOf, Count, Isolate, HandleReport, MissingIds, BitmapTest, Valid;
    ReportPath.SentIsWellFormed(rx, sha, result, status, r);
    ReportStored(rx, sha, result, status, r, c, delivers);
    var g, received := r.meta.geometry, rx.transfer.value.received;
    var first, n := First(g, r.section), BlocksOf(g, r.section);
    var d := HandleReport(c, r, Status(status), delivers);
    ReportKeepsList(c, r, status, delivers);
    IsolatedList(d, first, n, r.round, backfillAfter, block);
    if first <= block < first + n {
      assert received[first + (block - first)] <==> !ReportPath.SaysMissing(status, block - first);
    }
  }

  lemma ReportStored(rx: Rx, sha: Sha, result: Outcome, status: SectionStatus, r: Round, c: Conn, delivers: bool)
    requires ReportPath.Sent(rx, sha, result, status, r) && Active(c)
    requires BlocksOf(r.meta.geometry, r.section) <= ReportPath.MAX_REPORTED_BLOCKS
    ensures HandleReport(c, r, Status(status), delivers).status == Some(status)
  {
    hide *;
    ReportPath.ReportReachesPlanner(rx, sha, result, status, r, c, delivers);
  }

  lemma ReportKeepsList(c: Conn, r: Round, status: SectionStatus, delivers: bool)
    ensures var d := HandleReport(c, r, Status(status), delivers);
            d.backfill == c.backfill && (Active(c) ==> Active(d))
  {
    hide WellFormed;
  }

  lemma IsolatedList(d: Conn, first: nat, n: nat, round: uint32, backfillAfter: uint32, block: nat)
    requires NeedsIsolation(d, round, backfillAfter) && d.backfill == {}
    ensures var e := Isolate(d, first, n, round, backfillAfter);
      && e.isolated
      && (block in e.backfill <==> first <= block < first + n && Marked(d.status.value.bitmap, block - first))
  {
    hide Marked;
    var bitmap := d.status.value.bitmap;
    if first <= block < first + n {
      assert block == first + (block - first);
    }
  }

  // ----- The receiver's side

  /** The frames of a backfill: each block as the proxy reads it. */
  function Frames(w: World, id: uint64, blocks: seq<uint32>): seq<Arrival>
    requires forall i :: 0 <= i < |blocks| ==> blocks[i] < |w.source(id)| && BlockOffset(blocks[i]) < U64
  {
    seq(|blocks|, i requires 0 <= i < |blocks| =>
      Tcp(DataPacket(id, 0, blocks[i], BlockOffset(blocks[i]), Crc(w.source(id)[blocks[i]]), w.source(id)[blocks[i]])))
  }

  ghost predicate InFile(w: World, id: uint64, blocks: seq<uint32>) {
    forall i :: 0 <= i < |blocks| ==> blocks[i] < |w.source(id)| && BlockOffset(blocks[i]) < U64
  }

  lemma FrameIsAcceptable(w: World, id: uint64, blocks: seq<uint32>, i: nat)
    requires SoundFile(w, id) && InFile(w, id, blocks) && i < |blocks|
    ensures var a := Frames(w, id, blocks)[i]; Acceptable(w.meta(id), a) && Honest(w, a.packet)
  {
    var packet := Frames(w, id, blocks)[i].packet;
    BlocksTileFile(w.meta(id).geometry, blocks[i]);
    assert EqualOutside(packet.payload, packet.payload, 0);
  }

  lemma FramesOffer(w: World, id: uint64, blocks: seq<uint32>, block: nat)
    requires SoundFile(w, id) && InFile(w, id, blocks)
    ensures block in Offered(w.meta(id), Frames(w, id, blocks)) <==> exists i :: 0 <= i < |blocks| && blocks[i] == block
    ensures AllHonest(w, Frames(w, id, blocks))
  {
    hide Acceptable, Honest;
    var frames := Frames(w, id, blocks);
    forall i | 0 <= i < |frames| ensures Acceptable(w.meta(id), frames[i]) && Honest(w, frames[i].packet) {
      FrameIsAcceptable(w, id, blocks, i);
    }
    if exists i :: 0 <= i < |blocks| && blocks[i] == block {
      var i :| 0 <= i < |blocks| && blocks[i] == block;
      assert frames[i] in frames && frames[i].packet.blockId == block;
    }
  }

  /** A block taken by backfill survives a kill at once: reloaded with the same metadata, the receiver holds
      what it held before and this block, in its marks and in its part file. */
  lemma BackfilledSurvives(w: World, rx: Rx, packet: DataPacket, orphaned: set<uint64>)
    requires Sound(w) && Inv(w, rx, orphaned) && Listening(rx, packet.transferId)
    requires Acceptable(rx.transfer.value.meta, Tcp(packet))
    requires packet.blockId < |rx.transfer.value.received| && !rx.transfer.value.received[packet.blockId]
    ensures FilesOf(rx.disk, packet.transferId).part.Some?
            && packet.blockId < |FilesOf(rx.disk, packet.transferId).part.value|
    ensures var t, part := rx.transfer.value, FilesOf(rx.disk, packet.transferId).part.value;
      var again := OnFileMeta(ReceiverSafety.Restarted(OnBackfillData(rx, packet).disk).rx, t.meta).rx;
      && again.transfer.Some? && again.transfer.value.meta == t.meta
      && again.transfer.value.received == t.received[packet.blockId := true]
      && again.transfer.value.receivedCount == t.receivedCount + 1
      && FilesOf(again.disk, packet.transferId).part == Some(part[packet.blockId := packet.payload])
  {
    hide DiskOk, Crc, TransferFaithful;
    var t, files := rx.transfer.value, FilesOf(rx.disk, packet.transferId);
    assert SoundFile(w, packet.transferId);
    CountTrueUpdate(t.received, packet.blockId);
    StillFull(files.part.value, t.meta.geometry, packet.blockId, packet.payload);
  }

  lemma StillFull(part: Content, g: Geometry, block: nat, payload: Payload)
    requires FullSize(part, g) && block < |part| && |payload| == BlockSizeOf(g, block)
    ensures FullSize(part[block := payload], g)
  {
  }

  /** Every block is marked or listed. */
  ghost predicate ListCovers(received: seq<bool>, blocks: seq<uint32>) {
    forall b :: 0 <= b < |received| ==> received[b] || Listed(blocks, b)
  }

  ghost predicate Listed(blocks: seq<uint32>, block: nat) {
    exists i :: 0 <= i < |blocks| && blocks[i] == block
  }

  lemma AllStoredIff(w: World, rx: Rx, blocks: seq<uint32>, orphaned: set<uint64>)
    requires Sound(w) && Inv(w, rx, orphaned) && rx.transfer.Some?
    requires var id := rx.transfer.value.meta.transferId; Listening(rx, id) && InFile(w, id, blocks)
    ensures var id := rx.transfer.value.meta.transferId;
      var after := ArriveAll(rx, Frames(w, id, blocks));
      && after.transfer.Some? && after.transfer.value.meta == rx.transfer.value.meta && Listening(after, id)
      && (after.transfer.value.receivedCount == after.transfer.value.meta.geometry.totalBlocks
          <==> ListCovers(rx.transfer.value.received, blocks))
      && FilesOf(after.disk, id).part.Some?
      && (id !in orphaned && ListCovers(rx.transfer.value.received, blocks) ==>
            FilesOf(after.disk, id).part.value == w.source(id))
  {
    hide Offered, Frames, Crc, Listening, DiskOk;
    var t, id := rx.transfer.value, rx.transfer.value.meta.transferId;
    assert SoundFile(w, id);
    var frames := Frames(w, id, blocks);
    FramesOffer(w, id, blocks, 0);
    ArrivalsStore(w, rx, frames, orphaned);
    var after := ArriveAll(rx, frames);
    var u := after.transfer.value;
    MarkCount(w, rx, orphaned);
    CountTrueFull(u.received);
    MetaIs(w, rx, orphaned);
    forall b | 0 <= b < |t.received| ensures u.received[b] <==> t.received[b] || Listed(blocks, b) {
      FramesOffer(w, id, blocks, b);
    }
    if id !in orphaned && ListCovers(t.received, blocks) {
      StoredIsSource(w, rx, Offered(t.meta, frames), after, orphaned);
    }
  }

  lemma StoredIsSource(w: World, rx: Rx, offered: set<nat>, after: Rx, orphaned: set<uint64>)
    requires Inv(w, rx, orphaned) && StoredOnTop(w, rx, offered, after)
    requires rx.transfer.value.meta.transferId !in orphaned && Listening(rx, rx.transfer.value.meta.transferId)
    requires forall b :: 0 <= b < |after.transfer.value.received| ==> after.transfer.value.received[b]
    ensures FilesOf(after.disk, rx.transfer.value.meta.transferId).part.value
         == w.source(rx.transfer.value.meta.transferId)
  {
    hide DiskOk, FullSize;
  }

  /** Exactly when backfill completes a receiver: the whole file is received, the receiver publishes the
      source and answers RECEIVER_COMPLETE if and only if every block it lacked was on the list. As the
      list holds one section and later sections pass an isolated receiver by, that is not always so. */
  lemma BackfillCompletesIff(w: World, rx: Rx, blocks: seq<uint32>, orphaned: set<uint64>)
    requires Sound(w) && Inv(w, rx, orphaned) && rx.transfer.Some?
    requires var id := rx.transfer.value.meta.transferId; Listening(rx, id) && InFile(w, id, blocks) && id !in orphaned
    ensures var t, id := rx.transfer.value, rx.transfer.value.meta.transferId;
      var after := ArriveAll(rx, Frames(w, id, blocks));
      var result := OnBackfillEnd(after, t.meta, w.sha);
      if ListCovers(t.received, blocks)
      then result.sent == [CompleteReport(t)]
           && id in result.rx.disk.published && result.rx.disk.published[id] == w.source(id)
      else |result.sent| == 1 && result.sent[0].Status? && result.sent[0].status.code == Failed
  {
    hide Inv, Frames, ListCovers, Crc;
    var t, id := rx.transfer.value, rx.transfer.value.meta.transferId;
    AllStoredIff(w, rx, blocks, orphaned);
    MetaIs(w, rx, orphaned);
    assert SoundFile(w, id);
    var after := ArriveAll(rx, Frames(w, id, blocks));
    EndPublishesIff(after, t.meta, w.sha);
  }

  lemma EndPublishesIff(rx: Rx, meta: FileMeta, sha: Sha)
    requires rx.transfer.Some? && rx.transfer.value.meta == meta && Listening(rx, meta.transferId)
    ensures var result := OnBackfillEnd(rx, meta, sha);
      var part := FilesOf(rx.disk, meta.transferId).part;
      if Matches(rx.disk, rx.transfer.value, sha)
      then result.sent == [CompleteReport(rx.transfer.value)]
           && meta.transferId in result.rx.disk.published
           && part.Some? && result.rx.disk.published[meta.transferId] == part.value
      else |result.sent| == 1 && result.sent[0].Status? && result.sent[0].status.code == Failed
  {
  }

  // ----- Both sides

  lemma FirstOf(meta: FileMeta, stale: seq<Report>, last: Report)
    requires NoFailure(meta, stale) && forall j :: 0 <= j < |stale| ==> stale[j] != Completion(meta)
    ensures (exists k :: 0 <= k < |stale + [last]| && (stale + [last])[k] == Completion(meta)
                         && NoFailure(meta, (stale + [last])[..k]))
       <==> last == Completion(meta)
  {
    var replies := stale + [last];
    assert replies[..|stale|] == stale && replies[|stale|] == last;
    assert forall k :: 0 <= k < |stale| ==> replies[k] == stale[k];
  }

  /** What backfill does for the record: with the receiver's own answer handed over, behind any stale
      frames, the record of a waiting receiver becomes completed if and only if every block the receiver
      lacked was on the list. */
  lemma BackfillRecordedIff(w: World, rx: Rx, blocks: seq<uint32>, orphaned: set<uint64>, c: Conn,
                            stale: seq<Report>, delivers: bool)
    requires Sound(w) && Inv(w, rx, orphaned) && rx.transfer.Some?
    requires var id := rx.transfer.value.meta.transferId; Listening(rx, id) && InFile(w, id, blocks) && id !in orphaned
    requires !c.completed && NoFailure(rx.transfer.value.meta, stale)
    requires forall j :: 0 <= j < |stale| ==> stale[j] != Completion(rx.transfer.value.meta)
    ensures var t := rx.transfer.value;
      var answer := OnBackfillEnd(ArriveAll(rx, Frames(w, t.meta.transferId, blocks)), t.meta, w.sha).sent;
      AwaitResult(c, t.meta, stale + answer, delivers).completed <==> ListCovers(t.received, blocks)
  {
    hide Inv, Frames, ListCovers, OnBackfillEnd, ArriveAll, AwaitResult, Listening, NoFailure;
    var t := rx.transfer.value;
    BackfillCompletesIff(w, rx, blocks, orphaned);
    var answer := OnBackfillEnd(ArriveAll(rx, Frames(w, t.meta.transferId, blocks)), t.meta, w.sha).sent;
    assert answer == [answer[0]];
    CompletedIff(c, t.meta, stale + answer, delivers);
    FirstOf(t.meta, stale, answer[0]);
  }
}
