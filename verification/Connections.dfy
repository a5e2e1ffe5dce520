/** The proxy's record of one receiver (`ReceiverConnection` in src/sender.cpp) and the functions
    that update it in place, each proved equal to a transition on values. */
module Connections {
  import opened Common
  import opened Reports
  import opened Messages
  import opened Sections

  // ----- The record as a value

  datatype Conn = Conn(
    connected: bool, metaReady: bool, statusReceived: bool, completeReceived: bool, completed: bool,
    readyForNext: bool, isolated: bool, abandoned: bool,
    recoveryState: ReceiverState, recoveryId: uint64,
    backfill: set<nat>, status: Option<SectionStatus>, activeMeta: Option<FileMeta>)

  /** Neither finished nor set aside. */
  predicate Active(c: Conn) {
    !c.completed && !c.isolated && !c.abandoned
  }

  predicate Reported(c: Conn, code: StatusCode) {
    c.status.Some? && c.status.value.code == code
  }

  /** The section under distribution and the round being collected. */
  datatype Round = Round(meta: FileMeta, section: uint32, round: uint32)

  /** Number of blocks of a section whose id the caller has taken from the section loop. */
  function BlocksOf(g: Geometry, section: nat): nat {
    var n := End(g, section) - First(g, section);
    if n < 0 then 0 else n
  }

  /** Every kept status report passed the bitmap check for a section of `n` blocks. */
  ghost predicate StatusChecked(c: Conn, n: nat) {
    c.status.Some? ==> WellFormed(c.status.value, n)
  }

  /** A send on the control connection: it arrives only on a live connection, and a failure closes it. */
  function Send(c: Conn, delivers: bool): Conn {
    c.(connected := c.connected && delivers)
  }

  // ----- Transitions

  function ResetTransfer(c: Conn): Conn {
    c.(metaReady := false, statusReceived := false, completeReceived := false, completed := false,
       readyForNext := false, isolated := false, abandoned := false, backfill := {}, status := None)
  }

  lemma ResetKeepsRecovery(c: Conn)
    ensures ResetTransfer(c).recoveryState == c.recoveryState && ResetTransfer(c).recoveryId == c.recoveryId
    ensures !ResetTransfer(c).abandoned
  {
  }

  function ResetRound(c: Conn): Conn {
    c.(statusReceived := false, completeReceived := false, readyForNext := false, status := None)
  }

  function MarkCompleted(c: Conn, id: uint64): Conn {
    c.(completeReceived := true, completed := true, recoveryState := Completed, recoveryId := id)
  }

  /** `handle_control_frame`. */
  ghost function HandleReport(c: Conn, r: Round, report: Report, delivers: bool): Conn {
    match report
    case Status(status) =>
      if status.transferId != r.meta.transferId || status.sectionId != r.section || status.roundId != r.round then c
      else if !WellFormed(status, BlocksOf(r.meta.geometry, r.section)) then c
      else c.(status := Some(status), statusReceived := true)
    case ReceiverComplete(id, fileSize, sha256) =>
      if !c.statusReceived || !Reported(c, Complete) || id != r.meta.transferId
         || fileSize != r.meta.geometry.fileSize || sha256 != r.meta.sha256
      then c
      else Send(MarkCompleted(c, id), delivers)
    case _ => c
  }

  /** A receiver that comes back having published the transfer. */
  function Recovered(c: Conn): Conn {
    c.(abandoned := false, metaReady := true, statusReceived := true, completeReceived := true, completed := true)
  }

  /** A receiver that comes back in the middle of the transfer. */
  function Restarted(c: Conn, id: uint64): Conn {
    c.(metaReady := false, statusReceived := false, completeReceived := false, completed := false,
       readyForNext := false, isolated := false, status := None, recoveryState := Receiving, recoveryId := id)
  }

  /** `install_receiver_connection`; the old connection is replaced by a live one. */
  function Install(c: Conn, state: ReceiverState, currentId: uint64, delivers: bool): Conn {
    var d := c.(connected := true, recoveryState := state, recoveryId := currentId);
    if c.activeMeta.None? then d
    else
      var id := c.activeMeta.value.transferId;
      if state == Completed && currentId == id then
        Send(Recovered(d), delivers)
      else if state == Idle && c.completed then d.(readyForNext := true)
      else if c.abandoned then
        if state == Idle then d.(readyForNext := true) else Send(d, delivers)
      else
        Send(Restarted(d, id), delivers)
  }

  /** One receiver's part of `begin_receiver_transfer`. */
  function Begin(c: Conn, meta: FileMeta, delivers: bool): Conn {
    var d := ResetTransfer(c).(activeMeta := Some(meta));
    if c.recoveryState == Completed && c.recoveryId == meta.transferId then
      Send(d.(metaReady := true, statusReceived := true, completeReceived := true, completed := true), delivers)
    else Send(d.(recoveryState := Receiving, recoveryId := meta.transferId), delivers)
  }

  /** One frame of `wait_for_meta_ready`. */
  function MetaPhase(c: Conn, meta: FileMeta, report: Report, delivers: bool): Conn {
    match report
    case ReceiverComplete(id, fileSize, sha256) =>
      if id == meta.transferId && c.activeMeta.Some? && fileSize == c.activeMeta.value.geometry.fileSize
         && sha256 == c.activeMeta.value.sha256
      then Send(MarkCompleted(c, id).(metaReady := true), delivers)
      else c
    case MetaReady(id) =>
      if id == meta.transferId then c.(metaReady := true, recoveryState := Receiving, recoveryId := id) else c
    case _ => c
  }

  /** One receiver's part of the cached-file path: the metadata is replaced, a receiver registered with
      this transfer as completed is marked, and nothing is reset. */
  function AdoptCached(c: Conn, meta: FileMeta, delivers: bool): Conn {
    var d := c.(activeMeta := Some(meta));
    if RegisteredCompleted(c, meta.transferId)
    then Send(d.(metaReady := true, completeReceived := true, completed := true), delivers)
    else d
  }

  predicate RegisteredCompleted(c: Conn, id: uint64) {
    c.recoveryState == Completed && c.recoveryId == id
  }

  /** A META_READY of another transfer is an exception. */
  predicate MetaThrows(meta: FileMeta, report: Report) {
    report.MetaReady? && report.readyId != meta.transferId
  }

  /** One frame of `backfill_one_receiver`'s wait loop. */
  function BackfillPhase(c: Conn, meta: FileMeta, report: Report, delivers: bool): Conn {
    match report
    case Status(status) =>
      if status.transferId == meta.transferId && status.code == Failed
      then c.(status := Some(status), statusReceived := true)
      else c
    case ReceiverComplete(id, fileSize, sha256) =>
      if id == meta.transferId && fileSize == meta.geometry.fileSize && sha256 == meta.sha256
      then Send(MarkCompleted(c, id).(isolated := false), delivers)
      else c
    case _ => c
  }

  function Abandon(c: Conn): Conn {
    c.(abandoned := true, connected := false)
  }

  /** One frame of `wait_for_receivers_ready`. */
  function ReadyPhase(c: Conn, id: uint64, report: Report): Conn {
    match report
    case ReceiverReady(previous) =>
      if previous == id
      then c.(readyForNext := true, recoveryState := Idle, recoveryId := 0, activeMeta := None)
      else c
    case _ => c
  }

  /** Block ids a report marks missing. */
  function MissingIds(bitmap: Bytes, first: nat, n: nat): set<nat> {
    set k | 0 <= k < n && Marked(bitmap, k) :: first + k
  }

  predicate NeedsIsolation(c: Conn, round: uint32, backfillAfter: uint32) {
    Active(c) && Reported(c, Missing) && round >= backfillAfter
  }

  /** `isolate_slow_receivers` on one receiver. */
  function Isolate(c: Conn, first: nat, n: nat, round: uint32, backfillAfter: uint32): Conn {
    if NeedsIsolation(c, round, backfillAfter)
    then c.(backfill := c.backfill + MissingIds(c.status.value.bitmap, first, n), isolated := true)
    else c
  }

  /** The receiver no longer holds its section back. */
  predicate Settled(c: Conn) {
    c.completed || c.isolated || c.abandoned || Reported(c, Complete)
  }

  predicate RoundDone(c: Conn, finalSection: bool) {
    !Active(c) || (c.statusReceived && (finalSection && Reported(c, Complete) ==> c.completeReceived))
  }

  // ----- The record as the source's object

  class ReceiverConnection {
    var connected: bool
    var metaReady: bool
    var statusReceived: bool
    var completeReceived: bool
    var completed: bool
    var readyForNext: bool
    var isolated: bool
    var abandoned: bool
    var recoveryState: ReceiverState
    var recoveryId: uint64
    var backfill: set<nat>
    var status: Option<SectionStatus>
    var activeMeta: Option<FileMeta>

    function View(): Conn
      reads this
    {
      Conn(connected, metaReady, statusReceived, completeReceived, completed, readyForNext, isolated,
           abandoned, recoveryState, recoveryId, backfill, status, activeMeta)
    }

    /** `send_receiver_frame`: `accepted` is the network's answer while the connection is open. */
    method SendFrame(accepted: bool) returns (sent: bool)
      modifies this`connected
      ensures View() == Send(old(View()), accepted)
      ensures sent == (old(connected) && accepted)
    {
      if !connected {
        return false;
      }
      if !accepted {
        connected := false;
        return false;
      }
      return true;
    }

    method HandleControlFrame(r: Round, report: Report, accepted: bool)
      requires Valid(r.meta.geometry) && r.section < Count(r.meta.geometry)
      modifies this
      ensures View() == HandleReport(old(View()), r, report, accepted)
    {
      var n := BlocksOf(r.meta.geometry, r.section);
      match report
      case Status(report') =>
        var valid := ValidateMissingBitmap(report', n);
        if report'.transferId == r.meta.transferId && report'.sectionId == r.section
           && report'.roundId == r.round && valid {
          status := Some(report');
          statusReceived := true;
        }
      case ReceiverComplete(id, fileSize, sha256) =>
        if statusReceived && status.Some? && status.value.code == Complete && id == r.meta.transferId
           && fileSize == r.meta.geometry.fileSize && sha256 == r.meta.sha256 {
          AcceptCompletion(id);
          var sent := SendFrame(accepted);
        }
      case _ =>
    }

    method AcceptCompletion(id: uint64)
      modifies this
      ensures View() == MarkCompleted(old(View()), id)
    {
      completeReceived, completed := true, true;
      recoveryState, recoveryId := Completed, id;
    }

    method InstallConnection(state: ReceiverState, currentId: uint64, accepted: bool)
      modifies this
      ensures View() == Install(old(View()), state, currentId, accepted)
    {
      var wasCompleted, wasAbandoned := completed, abandoned;
      connected := true;
      recoveryState := state;
      recoveryId := currentId;
      if activeMeta.None? {
        return;
      }
      var meta := activeMeta.value;
      if recoveryState == Completed && recoveryId == meta.transferId {
        RecoverCompleted();
        var sent := SendFrame(accepted);
        return;
      }
      if recoveryState == Idle && wasCompleted {
        readyForNext := true;
        return;
      }
      if wasAbandoned {
        if recoveryState == Idle {
          readyForNext := true;
        } else {
          var sent := SendFrame(accepted);
        }
        return;
      }
      RestartTransfer(meta.transferId);
      var sent := SendFrame(accepted);
    }

    method RecoverCompleted()
      modifies this
      ensures View() == Recovered(old(View()))
    {
      abandoned := false;
      metaReady, statusReceived, completeReceived, completed := true, true, true, true;
    }

    method RestartTransfer(id: uint64)
      modifies this
      ensures View() == Restarted(old(View()), id)
    {
      metaReady, statusReceived, completeReceived, completed := false, false, false, false;
      readyForNext, isolated := false, false;
      status := None;
      recoveryState, recoveryId := Receiving, id;
    }

    /** One receiver's part of `begin_receiver_transfer`. */
    method BeginTransfer(meta: FileMeta, accepted: bool)
      modifies this
      ensures View() == Begin(old(View()), meta, accepted)
    {
      hide ResetTransfer;
      ghost var c := View();
      ForgetTransfer();
      ResetKeepsRecovery(c);
      activeMeta := Some(meta);
      if recoveryState == Completed && recoveryId == meta.transferId {
        RecoverCompleted();
      } else {
        recoveryState, recoveryId := Receiving, meta.transferId;
      }
      var sent := SendFrame(accepted);
    }

    /** One receiver's part of the cached-file path. */
    method AdoptCachedTransfer(meta: FileMeta, accepted: bool)
      modifies this
      ensures View() == AdoptCached(old(View()), meta, accepted)
    {
      activeMeta := Some(meta);
      if recoveryState != Completed || recoveryId != meta.transferId {
        return;
      }
      metaReady, completeReceived, completed := true, true, true;
      var sent := SendFrame(accepted);
    }

    /** `reset_transfer_state` on one receiver. */
    method ForgetTransfer()
      modifies this
      ensures View() == ResetTransfer(old(View()))
    {
      metaReady, statusReceived, completeReceived, completed := false, false, false, false;
      readyForNext, isolated, abandoned := false, false, false;
      backfill, status := {}, None;
    }

    /** One frame of `wait_for_meta_ready`; an exception ends the whole transfer. */
    method HandleMetaFrame(meta: FileMeta, report: Report, accepted: bool) returns (thrown: bool)
      modifies this
      ensures thrown == MetaThrows(meta, report)
      ensures View() == if thrown then old(View()) else MetaPhase(old(View()), meta, report, accepted)
    {
      thrown := false;
      match report
      case ReceiverComplete(id, fileSize, sha256) =>
        if id == meta.transferId && activeMeta.Some? && fileSize == activeMeta.value.geometry.fileSize
           && sha256 == activeMeta.value.sha256 {
          AcceptCompletion(id);
          metaReady := true;
          var sent := SendFrame(accepted);
        }
      case MetaReady(id) =>
        if id != meta.transferId {
          return true;
        }
        metaReady := true;
        recoveryState, recoveryId := Receiving, id;
      case _ =>
    }

    /** One frame of `wait_for_receivers_ready`. */
    method HandleReadyFrame(id: uint64, report: Report)
      modifies this
      ensures View() == ReadyPhase(old(View()), id, report)
    {
      match report
      case ReceiverReady(previous) =>
        if previous == id {
          readyForNext := true;
          recoveryState, recoveryId := Idle, 0;
          activeMeta := None;
        }
      case _ =>
    }
  }

  // ----- Operations over the fixed receiver set

  type Receivers = seq<ReceiverConnection>

  ghost predicate Distinct(receivers: Receivers) {
    forall i, j :: 0 <= i < j < |receivers| ==> receivers[i] != receivers[j]
  }

  function Views(receivers: Receivers): seq<Conn>
    reads receivers
  {
    seq(|receivers|, i requires 0 <= i < |receivers| reads receivers => receivers[i].View())
  }

  method ResetRoundState(receivers: Receivers)
    requires Distinct(receivers)
    modifies receivers
    ensures forall i :: 0 <= i < |receivers| ==> receivers[i].View() == ResetRound(old(receivers[i].View()))
  {
    for i := 0 to |receivers|
      invariant forall j :: 0 <= j < i ==> receivers[j].View() == ResetRound(old(receivers[j].View()))
      invariant forall j :: i <= j < |receivers| ==> receivers[j].View() == old(receivers[j].View())
    {
      var receiver := receivers[i];
      receiver.statusReceived := false;
      receiver.completeReceived := false;
      receiver.readyForNext := false;
      receiver.status := None;
    }
  }

  method IsolateSlowReceivers(receivers: Receivers, g: Geometry, section: nat, round: uint32, backfillAfter: uint32)
    requires Distinct(receivers) && Valid(g) && section < Count(g)
    requires forall c :: c in receivers ==> StatusChecked(c.View(), BlocksOf(g, section))
    modifies receivers
    ensures forall i :: 0 <= i < |receivers| ==>
              receivers[i].View()
              == Isolate(old(receivers[i].View()), First(g, section), BlocksOf(g, section), round, backfillAfter)
  {
    var first, n := First(g, section), BlocksOf(g, section);
    for i := 0 to |receivers|
      invariant forall j :: 0 <= j < i ==>
                  receivers[j].View() == Isolate(old(receivers[j].View()), first, n, round, backfillAfter)
      invariant forall j :: i <= j < |receivers| ==> receivers[j].View() == old(receivers[j].View())
    {
      var receiver := receivers[i];
      if NeedsIsolation(receiver.View(), round, backfillAfter) {
        var missing := CollectMissing(receiver.status.value.bitmap, first, n);
        receiver.backfill := receiver.backfill + missing;
        receiver.isolated := true;
      }
    }
  }

  method CollectMissing(bitmap: Bytes, first: nat, n: nat) returns (missing: set<nat>)
    requires |bitmap| == BitmapSize(n)
    ensures missing == MissingIds(bitmap, first, n)
  {
    missing := {};
    for local := 0 to n
      invariant missing == MissingIds(bitmap, first, local)
    {
      if HasBit(bitmap[local / 8], local % 8) {
        missing := missing + {first + local};
      }
      assert Marked(bitmap, local) <==> HasBit(bitmap[local / 8], local % 8);
      assert MissingIds(bitmap, first, local + 1)
          == MissingIds(bitmap, first, local) + if Marked(bitmap, local) then {first + local} else {};
    }
  }

  method AllSettled(receivers: Receivers) returns (done: bool)
    ensures done <==> forall i :: 0 <= i < |receivers| ==> Settled(receivers[i].View())
    ensures done <==> forall c :: c in receivers ==>
              c.completed || c.isolated || c.abandoned || (c.status.Some? && c.status.value.code == Complete)
  {
    for i := 0 to |receivers|
      invariant forall j :: 0 <= j < i ==> Settled(receivers[j].View())
    {
      if !Settled(receivers[i].View()) {
        return false;
      }
    }
    return true;
  }

  /** In the last section a receiver that reported the whole file still owes its completion; in every
      other section its report is enough. */
  method RoundResponsesComplete(receivers: Receivers, finalSection: bool) returns (done: bool)
    ensures done <==> forall i :: 0 <= i < |receivers| ==> RoundDone(receivers[i].View(), finalSection)
    ensures !finalSection ==>
      (done <==> forall c :: c in receivers ==> c.completed || c.isolated || c.abandoned || c.statusReceived)
    ensures finalSection ==>
      (done <==> forall c :: c in receivers ==>
         c.completed || c.isolated || c.abandoned
         || (c.statusReceived && (c.status.Some? && c.status.value.code == Complete ==> c.completeReceived)))
  {
    for i := 0 to |receivers|
      invariant forall j :: 0 <= j < i ==> RoundDone(receivers[j].View(), finalSection)
    {
      var receiver := receivers[i];
      if receiver.completed || receiver.isolated || receiver.abandoned {
        continue;
      }
      if !receiver.statusReceived {
        return false;
      }
      if finalSection && receiver.status.Some? && receiver.status.value.code == Complete && !receiver.completeReceived {
        return false;
      }
    }
    return true;
  }
}
