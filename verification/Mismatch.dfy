/** What a digest mismatch does to a receiver. The drain that finds it has just saved a state that marks
    every block beside a part file with another digest, and nothing the receiver does later, kills and
    reloads included, undoes that: it reports the transfer as failed from then on. */
module Mismatch {
  import opened Common
  import opened Reports
  import opened Sections
  import opened Messages
  import opened Receiver
  import opened ReceiverSafety
  import Crc32

  // ----- Failed for good

  function AllMarks(n: nat): (marks: seq<bool>)
    ensures |marks| == n && forall i :: 0 <= i < n ==> marks[i]
  {
    seq(n, _ => true)
  }

  /** State file and part file as a mismatching drain leaves them, and a running transfer like them. */
  ghost predicate Condemned(w: World, rx: Rx, id: uint64) {
    var meta, files := w.meta(id), FilesOf(rx.disk, id);
    var n := meta.geometry.totalBlocks;
    && files.part.Some? && FullSize(files.part.value, meta.geometry) && w.sha(files.part.value) != meta.sha256
    && files.saved == Some(SavedState(meta, n, AllMarks(n)))
    && (rx.transfer.Some? && rx.transfer.value.meta.transferId == id ==> CondemnedTransfer(w, rx.transfer.value, id))
  }

  ghost predicate CondemnedTransfer(w: World, t: Transfer, id: uint64) {
    var meta := w.meta(id);
    t.meta == meta && !t.awaitingAck && t.received == AllMarks(meta.geometry.totalBlocks)
    && t.receivedCount == meta.geometry.totalBlocks
  }

  predicate FailedStatus(report: Report, id: uint64) {
    report.Status? && report.status.transferId == id && report.status.code == StatusCode.Failed
  }

  /** A report that does not let the proxy count the transfer as held or the receiver as waiting for blocks. */
  predicate Harmless(report: Report, id: uint64) {
    match report
    case Status(status) => status.transferId == id ==> status.code == StatusCode.Failed
    case ReceiverComplete(completeId, _, _) => completeId != id
    case Register(state, currentId) => !(state == Completed && currentId == id)
    case _ => true
  }

  ghost predicate AllHarmless(sent: seq<Report>, id: uint64) {
    forall k :: 0 <= k < |sent| ==> Harmless(sent[k], id)
  }

  /** A drain report of a mismatch condemns the transfer. */
  lemma DrainCondemns(w: World, rx: Rx, result: Outcome, orphaned: set<uint64>, id: uint64, k: nat)
    requires Sound(w) && Inv(w, rx, orphaned) && OnTimer(rx, w.sha, result)
    requires k < |result.sent| && FailedStatus(result.sent[k], id)
    ensures Condemned(w, result.rx, id) && k == |result.sent| - 1
  {
    hide DiskOk, Window, TransferFaithful, Reports.Reports, CountUnreceived;
    var t := rx.transfer.value;
    assert t.meta.transferId == id && SoundFile(w, id);
    CountTrueFull(t.received);
    assert t.received == AllMarks(|t.received|);
  }

  // ----- Whatever happens next

  /** The outcome of a step of a condemned receiver. */
  ghost predicate StillCondemned(w: World, result: Outcome, id: uint64) {
    Condemned(w, result.rx, id) && AllHarmless(result.sent, id)
  }

  lemma CountAllMarks(n: nat)
    ensures CountTrue(AllMarks(n)) == n
  {
    CountTrueFull(AllMarks(n));
  }

  lemma DataStays(w: World, rx: Rx, packet: DataPacket, id: uint64)
    requires Condemned(w, rx, id)
    ensures Condemned(w, OnData(rx, packet), id) && Condemned(w, OnBackfillData(rx, packet), id)
  {
    hide Crc32.Crc, Placed, FullSize;
  }

  lemma DrainStays(w: World, rx: Rx, section: uint32, round: uint32, total: uint32, id: uint64)
    requires Condemned(w, rx, id) && rx.transfer.Some?
    ensures Condemned(w, BeginDrain(rx, rx.transfer.value, section, round, total), id)
  {
    hide FullSize, Window;
  }

  lemma ReconnectStays(w: World, rx: Rx, id: uint64)
    requires Condemned(w, rx, id)
    ensures StillCondemned(w, Reconnect(rx), id)
  {
    hide FullSize;
  }

  lemma FinalizeStays(w: World, rx: Rx, t: Transfer, id: uint64)
    requires Condemned(w, rx, id) && rx.transfer.Some? && t.meta == rx.transfer.value.meta
    requires t.meta.transferId == id ==> CondemnedTransfer(w, t, id)
    ensures var (done, after) := Finalize(rx, t, w.sha);
      && Condemned(w, after, id) && after.transfer.Some? && after.transfer.value.meta == t.meta
      && (t.meta.transferId == id ==> !done && after.transfer.value.shaFailed)
      && (done ==> Condemned(w, after.(transfer := Some(after.transfer.value.(awaitingAck := true))), id))
      && (!done ==> forall round: uint32 ::
            Condemned(w, after.(transfer := Some(after.transfer.value.(lastReported := Some(round)))), id))
  {
    hide FullSize;
  }

  lemma ReceivedStays(w: World, rx: Rx, t: Transfer, section: uint32, id: uint64)
    requires Condemned(w, rx, id) && rx.transfer == Some(t)
    ensures StillCondemned(w, ReportReceived(rx, t, section, w.sha), id)
  {
    hide FullSize, Finalize;
    var saved := rx.(disk := SaveState(rx.disk, t), draining := false);
    assert Condemned(w, saved, id);
    FinalizeStays(w, saved, t.(lastReported := Some(rx.drainRound)), id);
  }

  lemma TimerStays(w: World, rx: Rx, result: Outcome, id: uint64)
    requires SoundFile(w, id) && Condemned(w, rx, id) && OnTimer(rx, w.sha, result)
    ensures StillCondemned(w, result, id)
  {
    hide FullSize, Window, ReportReceived, Reports.Reports, CountUnreceived, Reconnect;
    if rx.draining && rx.transfer.Some? {
      var t := rx.transfer.value;
      ReconnectStays(w, rx, id);
      if t.activeSection.Some? && Window(t.meta.geometry, t.activeSection.value).Some? {
        WindowInside(t.meta.geometry, t.activeSection.value);
        ReceivedStays(w, rx, t, t.activeSection.value, id);
      }
    }
  }

  lemma BackfillEndStays(w: World, rx: Rx, meta: FileMeta, id: uint64)
    requires Condemned(w, rx, id)
    ensures StillCondemned(w, OnBackfillEnd(rx, meta, w.sha), id)
  {
    hide FullSize, Finalize;
    if rx.transfer.Some? {
      FinalizeStays(w, rx, rx.transfer.value, id);
    }
  }

  lemma MetaStays(w: World, rx: Rx, meta: FileMeta, id: uint64)
    requires Sound(w) && Condemned(w, rx, id) && meta == w.meta(meta.transferId)
    ensures StillCondemned(w, OnFileMeta(rx, meta), id)
  {
    hide FullSize, Admitted, Reconnect;
    assert SoundFile(w, id);
    CountAllMarks(w.meta(id).geometry.totalBlocks);
    ReconnectStays(w, rx, id);
  }

  lemma CommandStays(w: World, rx: Rx, command: Command, id: uint64)
    requires Sound(w) && Condemned(w, rx, id) && HonestEvent(w, Control(command))
    ensures StillCondemned(w, OnCommand(rx, command, w.sha), id)
  {
    hide OnBackfillData, OnBackfillEnd, OnFileMeta, BeginDrain, FullSize, Honest;
    match command
    case FileMetaFrame(meta) => MetaStays(w, rx, meta, id);
    case SectionEnd(_, section, round, total) =>
      if rx.transfer.Some? {
        DrainStays(w, rx, section, round, total, id);
      }
    case BackfillData(packet) => DataStays(w, rx, packet, id);
    case BackfillEnd(meta) => BackfillEndStays(w, rx, meta, id);
    case _ =>
  }

  /** Every step of a condemned receiver, kills included, leaves it condemned, and what it sends neither
      completes the transfer nor holds nor asks for a section of it. */
  lemma StaysCondemned(w: World, rx: Rx, e: Event, result: Outcome, id: uint64)
    requires Sound(w) && Condemned(w, rx, id) && HonestEvent(w, e) && Step(w, rx, e, result)
    ensures Condemned(w, result.rx, id) && AllHarmless(result.sent, id)
  {
    hide OnData, OnCommand, OnTimer, BeginDrain, FullSize, Honest, Reconnect, Placed, Crc32.Crc;
    assert SoundFile(w, id);
    match e
    case Data(packet) => DataStays(w, rx, packet, id);
    case UdpEnd(_, section, round, total) =>
      if rx.transfer.Some? {
        DrainStays(w, rx, section, round, total, id);
      }
    case Timer => TimerStays(w, rx, result, id);
    case Control(command) => CommandStays(w, rx, command, id);
    case Disconnect => ReconnectStays(w, rx, id);
    case KillAfterTruncate(meta) =>
      CountAllMarks(w.meta(id).geometry.totalBlocks);
    case _ =>
  }

  /** Backfill apart, only a drain reports a transfer as failed. */
  lemma OnlyDrainsFail(w: World, rx: Rx, e: Event, result: Outcome, id: uint64, k: nat)
    requires Step(w, rx, e, result) && k < |result.sent| && FailedStatus(result.sent[k], id)
    requires !(e.Control? && e.command.BackfillEnd?)
    ensures e.Timer?
  {
    hide OnData, OnTimer, BeginDrain, Initialize, Forget, OnBackfillData, Placed, Crc32.Crc, Matches, SaveState,
      TornDisk;
  }

  // ----- A receiver that has registered as completed

  /** It waits for its acknowledgement, and no drain is going on. */
  predicate AwaitsAck(rx: Rx, id: uint64) {
    rx.transfer.Some? && rx.transfer.value.meta.transferId == id && rx.transfer.value.awaitingAck && !rx.draining
  }

  /** The first report after a registration as completed is no drain report. */
  ghost predicate AckFollows(sent: seq<Report>, rx: Rx) {
    forall q: nat :: q < |sent| ==> AckAt(sent, rx, q)
  }

  ghost predicate AckAt(sent: seq<Report>, rx: Rx, q: nat)
    requires q < |sent|
  {
    sent[q].Register? && sent[q].state == Completed ==>
      if q == |sent| - 1 then AwaitsAck(rx, sent[q].currentId) else !sent[q + 1].Status?
  }

  lemma AckIsAwaited(w: World, rx: Rx, e: Event, result: Outcome, id: uint64, k: nat)
    requires Step(w, rx, e, result) && k < |result.sent| && result.sent[k] == Register(Completed, id)
    ensures |result.sent| == 1 && AwaitsAck(result.rx, id)
  {
    hide OnData, BeginDrain, Initialize, Forget, OnBackfillData, Finalize, Placed, Crc32.Crc, SaveState, TornDisk,
      Window, Reports.Reports, CountUnreceived, SectionReceived;
  }

  lemma AwaitsOn(w: World, rx: Rx, e: Event, result: Outcome, id: uint64)
    requires Step(w, rx, e, result) && AwaitsAck(rx, id)
    ensures if result.sent == [] then AwaitsAck(result.rx, id) else !result.sent[0].Status?
  {
    hide Initialize, Finalize, Placed, Crc32.Crc, SaveState, TornDisk, Window, Store;
  }

  lemma AckFollowsOn(w: World, rx: Rx, e: Event, result: Outcome, sent: seq<Report>)
    requires Step(w, rx, e, result) && AckFollows(sent, rx)
    ensures AckFollows(sent + result.sent, result.rx)
  {
    hide Step, AwaitsAck;
    var all := sent + result.sent;
    forall q: nat | q < |all| ensures AckAt(all, result.rx, q) {
      if q < |sent| {
        assert AckAt(sent, rx, q);
        if all[q].Register? && all[q].state == Completed && q == |sent| - 1 {
          AwaitsOn(w, rx, e, result, all[q].currentId);
        }
      } else if all[q].Register? && all[q].state == Completed {
        AckIsAwaited(w, rx, e, result, all[q].currentId, q - |sent|);
      }
    }
  }
}
