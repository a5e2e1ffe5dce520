/** What the frames and events of a transfer leave in the proxy's record of a receiver, field by field:
    the record of an undisturbed transfer from its start to the next one, and what a reconnect, a late
    report and a stale frame make of it. */
module RecordLaws {
  import opened Common
  import opened Reports
  import opened Sections
  import opened Messages
  import opened Connections

  // ----- Reconnects

  /** A receiver that comes back in the middle of the transfer and was not given up is active again: it
      is no longer isolated, has to answer the metadata, owes a report, and keeps its backfill list. */
  lemma ComesBackActive(c: Conn, state: ReceiverState, id: uint64, delivers: bool)
    requires c.activeMeta.Some? && !c.abandoned
    requires state == Completed ==> id != c.activeMeta.value.transferId
    requires state == Idle ==> !c.completed
    ensures var d := Install(c, state, id, delivers);
      && !d.completed && !d.isolated && !d.abandoned
      && !d.metaReady && !d.statusReceived && !d.completeReceived && !d.readyForNext && d.status.None?
      && d.recoveryState == Receiving && d.recoveryId == c.activeMeta.value.transferId
      && d.connected == delivers && d.backfill == c.backfill && d.activeMeta == c.activeMeta
  {
  }

  /** A receiver that comes back having published the transfer counts as completed, even if it had been
      given up. */
  lemma ComesBackCompleted(c: Conn, id: uint64, delivers: bool)
    requires c.activeMeta.Some? && id == c.activeMeta.value.transferId
    ensures var d := Install(c, Completed, id, delivers);
      && d.completed && !d.abandoned && d.metaReady && d.statusReceived && d.completeReceived
      && d.recoveryState == Completed && d.recoveryId == id && d.connected == delivers
  {
  }

  /** A receiver that was given up stays out of the transfer; it is ready for the next one if it comes back
      idle. */
  lemma GivenUpStaysOut(c: Conn, state: ReceiverState, id: uint64, delivers: bool)
    requires c.activeMeta.Some? && c.abandoned && (state == Completed ==> id != c.activeMeta.value.transferId)
    ensures var d := Install(c, state, id, delivers);
      && d.abandoned && d.completed == c.completed && d.isolated == c.isolated
      && (state == Idle ==> d.readyForNext && d.connected)
      && (state != Idle ==> d.readyForNext == c.readyForNext && d.connected == delivers)
  {
    hide Recovered, Restarted;
    var back := c.(connected := true, recoveryState := state, recoveryId := id);
    assert Install(c, state, id, delivers)
        == if state == Idle then back.(readyForNext := true) else Send(back, delivers);
  }

  /** So is one that finished and comes back idle. */
  lemma FinishedComesBackReady(c: Conn, id: uint64, delivers: bool)
    requires c.activeMeta.Some? && c.completed
    ensures var d := Install(c, Idle, id, delivers);
      d.completed && d.readyForNext && d.connected && d.recoveryState == Idle && d.abandoned == c.abandoned
  {
    hide Recovered, Restarted;
  }

  // ----- Late reports

  /** A receiver is set aside exactly when it takes part, reported blocks missing and the round is not below
      the limit; its backfill list then grows by exactly the blocks of that report. */
  lemma LateReportIsolates(c: Conn, first: nat, n: nat, round: uint32, backfillAfter: uint32, block: nat)
    ensures var d := Isolate(c, first, n, round, backfillAfter);
      var late := !c.completed && !c.isolated && !c.abandoned && c.status.Some?
                  && c.status.value.code == Missing && backfillAfter <= round;
      && (d.isolated <==> c.isolated || late)
      && (block in d.backfill
          <==> block in c.backfill || (late && first <= block < first + n
                                       && Marked(c.status.value.bitmap, block - first)))
      && d.completed == c.completed && d.abandoned == c.abandoned && d.status == c.status
      && d.connected == c.connected
  {
    hide Marked;
    if NeedsIsolation(c, round, backfillAfter) && first <= block < first + n {
      assert block == first + (block - first);
    }
  }

  // ----- Frames out of turn

  /** A completion counts exactly when it is this transfer's and a report of the whole section came before it
      in the round; any other leaves the record alone. */
  lemma CompletionNeedsReport(c: Conn, r: Round, id: uint64, fileSize: uint64, sha256: Digest, delivers: bool)
    ensures var d := HandleReport(c, r, ReceiverComplete(id, fileSize, sha256), delivers);
      if c.statusReceived && c.status.Some? && c.status.value.code == StatusCode.Complete
         && id == r.meta.transferId && fileSize == r.meta.geometry.fileSize && sha256 == r.meta.sha256
      then d.completed && d.completeReceived
      else d == c
  {
  }

  /** A report of another transfer, section or round, or with a bitmap that fails the check, leaves the
      record alone; no report finishes a receiver or takes that back. */
  lemma ForeignReportIsIgnored(c: Conn, r: Round, report: SectionStatus, delivers: bool)
    ensures var d := HandleReport(c, r, Status(report), delivers);
      && d.completed == c.completed && d.completeReceived == c.completeReceived
      && (d != c ==>
            report.transferId == r.meta.transferId && report.sectionId == r.section && report.roundId == r.round
            && WellFormed(report, BlocksOf(r.meta.geometry, r.section)))
  {
    hide WellFormed, BlocksOf;
  }

  /** In the metadata phase the same frame completes a receiver only with the announced size and digest. */
  lemma EarlyCompletionIff(c: Conn, meta: FileMeta, id: uint64, fileSize: uint64, sha256: Digest, delivers: bool)
    requires c.activeMeta == Some(meta) && !c.completed
    ensures var d := MetaPhase(c, meta, ReceiverComplete(id, fileSize, sha256), delivers);
      && (d.completed <==> id == meta.transferId && fileSize == meta.geometry.fileSize && sha256 == meta.sha256)
      && (if d.completed then d.completeReceived && d.metaReady && d.recoveryState == Completed else d == c)
  {
  }

  // ----- One transfer

  /** The transfer begins for a receiver that has not registered it as completed, and the receiver
      acknowledges the metadata. */
  ghost function Admit(c: Conn, meta: FileMeta): Conn {
    MetaPhase(Begin(c, meta, true), meta, MetaReady(meta.transferId), true)
  }

  lemma AdmitIs(c: Conn, meta: FileMeta)
    requires !(c.recoveryState == Completed && c.recoveryId == meta.transferId)
    ensures var d := Admit(c, meta);
      && d.metaReady && !d.statusReceived && !d.completeReceived && !d.completed && !d.readyForNext
      && !d.isolated && !d.abandoned && d.backfill == {} && d.status.None? && d.activeMeta == Some(meta)
      && d.recoveryState == Receiving && d.recoveryId == meta.transferId && d.connected == c.connected
  {
  }

  /** A receiver that registered the transfer as completed takes no part in it. */
  lemma BeginsCompleted(c: Conn, meta: FileMeta, delivers: bool)
    requires c.recoveryState == Completed && c.recoveryId == meta.transferId
    ensures var d := Begin(c, meta, delivers);
      && d.completed && d.completeReceived && d.metaReady && d.statusReceived && !d.isolated && !d.abandoned
      && d.activeMeta == Some(meta) && d.connected == (c.connected && delivers)
    ensures var d := AdoptCached(c, meta, delivers);
      && d.completed && d.completeReceived && d.metaReady
      && d.activeMeta == Some(meta) && d.connected == (c.connected && delivers)
  {
  }

  /** The last round: its opening, the receiver's report of the whole section, its completion. */
  ghost function LastRound(c: Conn, r: Round, report: SectionStatus): Conn {
    HandleReport(HandleReport(ResetRound(c), r, Status(report), true), r,
                 ReceiverComplete(r.meta.transferId, r.meta.geometry.fileSize, r.meta.sha256), true)
  }

  lemma OpenedRound(c: Conn)
    ensures var d := ResetRound(c);
      && !d.statusReceived && !d.completeReceived && !d.readyForNext && d.status.None?
      && d.completed == c.completed && d.isolated == c.isolated && d.abandoned == c.abandoned
      && d.connected == c.connected && d.activeMeta == c.activeMeta && d.backfill == c.backfill
  {
  }

  lemma ReportIsKept(c: Conn, r: Round, report: SectionStatus, delivers: bool)
    requires report.transferId == r.meta.transferId && report.sectionId == r.section && report.roundId == r.round
    requires WellFormed(report, BlocksOf(r.meta.geometry, r.section))
    ensures var d := HandleReport(c, r, Status(report), delivers);
      && d.statusReceived && d.status == Some(report)
      && d.completed == c.completed && d.completeReceived == c.completeReceived
      && d.connected == c.connected && d.activeMeta == c.activeMeta
  {
    hide WellFormed, BlocksOf;
  }

  lemma CompletionIsKept(c: Conn, r: Round, delivers: bool)
    requires c.statusReceived && c.status.Some? && c.status.value.code == StatusCode.Complete
    ensures var d := HandleReport(c, r, ReceiverComplete(r.meta.transferId, r.meta.geometry.fileSize, r.meta.sha256),
                                  delivers);
      && d.completed && d.completeReceived && d.recoveryState == Completed && d.recoveryId == r.meta.transferId
      && d.connected == (c.connected && delivers) && d.activeMeta == c.activeMeta
  {
  }

  /** The record of an undisturbed transfer: admitted, reported complete, completed, ready, and at the
      beginning of the next transfer as blank as at the beginning of this one. */
  lemma OrdinaryTransfer(c: Conn, r: Round, report: SectionStatus, next: FileMeta)
    requires !(c.recoveryState == Completed && c.recoveryId == r.meta.transferId)
    requires report.transferId == r.meta.transferId && report.sectionId == r.section && report.roundId == r.round
    requires WellFormed(report, BlocksOf(r.meta.geometry, r.section)) && report.code == StatusCode.Complete
    ensures var done := LastRound(Admit(c, r.meta), r, report);
      var ready := ReadyPhase(done, r.meta.transferId, ReceiverReady(r.meta.transferId));
      && done.completed && done.completeReceived && done.connected == c.connected
      && done.recoveryState == Completed && done.recoveryId == r.meta.transferId
      && ready.readyForNext && ready.activeMeta.None? && ready.recoveryState == Idle && ready.completed
    ensures var again := Admit(ReadyPhase(LastRound(Admit(c, r.meta), r, report), r.meta.transferId,
                                          ReceiverReady(r.meta.transferId)), next);
      && again.metaReady && !again.statusReceived && !again.completeReceived && !again.completed
      && !again.readyForNext && !again.isolated && !again.abandoned && again.backfill == {} && again.status.None?
      && again.activeMeta == Some(next) && again.recoveryState == Receiving && again.recoveryId == next.transferId
  {
    hide WellFormed, BlocksOf, ResetRound, Begin, MetaPhase, HandleReport;
    AdmitIs(c, r.meta);
    var d := Admit(c, r.meta);
    OpenedRound(d);
    ReportIsKept(ResetRound(d), r, report, true);
    CompletionIsKept(HandleReport(ResetRound(d), r, Status(report), true), r, true);
    var ready := ReadyPhase(LastRound(d, r, report), r.meta.transferId, ReceiverReady(r.meta.transferId));
    AdmitIs(ready, next);
  }
}
