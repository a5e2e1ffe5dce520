/** A drain report on its whole way: built by the receiver, encoded, framed, decoded, checked and
    stored by the proxy, and read back by the repair planner. */
module ReportPath {
  import opened Common
  import opened Reports
  import opened Sections
  import opened Messages
  import opened Connections
  import opened Receiver
  import RepairPlan
  import Wire
  import Stream

  const MAX_REPORTED_BLOCKS := 8_388_320

  /** The receiver's drain timer sent `status` about a transfer and section the proxy is collecting. */
  ghost predicate Sent(rx: Rx, sha: Sha, result: Outcome, status: SectionStatus, r: Round) {
    && OnTimer(rx, sha, result) && result.sent != [] && result.sent[0] == Status(status) && status.code != Failed
    && rx.transfer.Some? && rx.transfer.value.meta == r.meta && Valid(r.meta.geometry)
    && status.transferId == r.meta.transferId && status.sectionId == r.section && status.roundId == r.round
    && r.section < Count(r.meta.geometry)
  }

  /** The window a receiver reports about is the window the proxy reads. */
  lemma SameWindow(g: Geometry, section: uint32)
    requires Valid(g) && section < Count(g)
    ensures Window(g, section) == Some((First(g, section), BlocksOf(g, section)))
    ensures First(g, section) + BlocksOf(g, section) <= g.totalBlocks
  {
    InRangeIsExact(g, section);
  }

  predicate SaysMissing(status: SectionStatus, k: nat) {
    status.code == Missing && BitmapTest(status.bitmap, k) == Ok(true)
  }

  /** What a drain report says, and that it passes the proxy's check. */
  lemma SentIsWellFormed(rx: Rx, sha: Sha, result: Outcome, status: SectionStatus, r: Round)
    requires Sent(rx, sha, result, status, r)
    ensures var g, received := r.meta.geometry, rx.transfer.value.received;
      var first, n := First(g, r.section), BlocksOf(g, r.section);
      && |received| == g.totalBlocks && first + n <= |received| && WellFormed(status, n)
      && forall k :: 0 <= k < n ==> (received[first + k] <==> !SaysMissing(status, k))
  {
    hide Window, Finalize, HasBit, SaveState, First, BlocksOf, Count;
    var g, t := r.meta.geometry, rx.transfer.value;
    SameWindow(g, r.section);
    var first, n := First(g, r.section), BlocksOf(g, r.section);
    NoneUnreceived(t.received, first, n);
    if status.code == Missing {
      ReportAccepted(status, t.received, first, n);
    }
  }

  lemma EmptyOrSized(status: SectionStatus, n: nat)
    requires WellFormed(status, n) && n <= MAX_REPORTED_BLOCKS
    ensures |Wire.StatusFrame(status, 0)| <= Wire.MAX_CONTROL_FRAME && |status.bitmap| < U32
    ensures Stream.FrameOk(Wire.StatusFrame(status, 0))
  {
    hide Wire.Pack;
    Wire.PackLength(Wire.STATUS_WIDTHS, Wire.StatusValues(status, 0));
  }

  /** End to end: the report of a section of at most 8,388,320 blocks fits a control frame, decodes to
      itself, is always accepted, and makes the planner see exactly the blocks the receiver lacks. */
  lemma ReportReachesPlanner(rx: Rx, sha: Sha, result: Outcome, status: SectionStatus, r: Round, c: Conn,
                             delivers: bool)
    requires Sent(rx, sha, result, status, r) && Active(c)
    requires BlocksOf(r.meta.geometry, r.section) <= MAX_REPORTED_BLOCKS
    ensures var frame := Wire.StatusFrame(status, 0);
      Stream.FrameOk(frame) && Wire.DecodeStatus(frame) == Ok(status)
    ensures var g := r.meta.geometry;
      var d := HandleReport(c, r, Status(status), delivers);
      && d.statusReceived && d.status == Some(status)
      && forall k :: 0 <= k < BlocksOf(g, r.section) && First(g, r.section) + k < |rx.transfer.value.received| ==>
           (RepairPlan.Lacks(d, k) <==> !rx.transfer.value.received[First(g, r.section) + k])
  {
    hide OnTimer, WellFormed, HasBit, First, BlocksOf, Count, Wire.DecodeStatus, Wire.StatusFrame;
    SentIsWellFormed(rx, sha, result, status, r);
    EmptyOrSized(status, BlocksOf(r.meta.geometry, r.section));
    Wire.StatusRoundTrip(status);
    var g, received := r.meta.geometry, rx.transfer.value.received;
    var first, n := First(g, r.section), BlocksOf(g, r.section);
    var d := HandleReport(c, r, Status(status), delivers);
    assert d.status == Some(status) && d.statusReceived;
    assert Active(d);
    forall k | 0 <= k < n && first + k < |received|
      ensures RepairPlan.Lacks(d, k) <==> !received[first + k]
    {
      assert RepairPlan.Lacks(d, k) <==> SaysMissing(status, k);
    }
  }

  /** The target list of a block contains a receiver that has just reported exactly when it lacks the
      block, whatever the other receivers reported. */
  lemma TargetsAreExact(rx: Rx, sha: Sha, result: Outcome, status: SectionStatus, r: Round,
                        conns: seq<Conn>, i: nat, delivers: bool, k: nat)
    requires Sent(rx, sha, result, status, r) && i < |conns| && Active(conns[i])
    requires k < BlocksOf(r.meta.geometry, r.section) <= MAX_REPORTED_BLOCKS
    ensures var after := conns[i := HandleReport(conns[i], r, Status(status), delivers)];
      First(r.meta.geometry, r.section) + k < |rx.transfer.value.received|
      && (i in RepairPlan.AllTargets(after, k)
          <==> !rx.transfer.value.received[First(r.meta.geometry, r.section) + k])
  {
    hide OnTimer, WellFormed, HasBit, First, BlocksOf, Count, Wire.DecodeStatus, HandleReport, RepairPlan.Lacks;
    SentIsWellFormed(rx, sha, result, status, r);
    ReportReachesPlanner(rx, sha, result, status, r, conns[i], delivers);
  }

  /** A receiver that publishes when its drain ends sends two frames, and the proxy that reads them in
      order marks it completed. */
  lemma PublicationIsRecorded(rx: Rx, sha: Sha, result: Outcome, status: SectionStatus, r: Round, c: Conn,
                              first: bool, second: bool)
    requires Sent(rx, sha, result, status, r) && Active(c) && |result.sent| == 2
    ensures status.code == Complete && result.sent[1].ReceiverComplete?
    ensures var d := HandleReport(HandleReport(c, r, Status(status), first), r, result.sent[1], second);
      d.completed && d.completeReceived && d.recoveryState == ReceiverState.Completed
      && d.recoveryId == r.meta.transferId
  {
    hide Window, Matches, Publish, DropState, SaveState, HasBit, Count, Valid;
  }
}
