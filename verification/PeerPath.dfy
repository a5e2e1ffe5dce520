/** Peer repair from the source's report to the packets it sends: a task that the planner issues on
    the strength of a report is served completely. */
module PeerPath {
  import opened Common
  import opened Reports
  import opened Sections
  import opened Messages
  import opened Connections
  import opened Receiver
  import opened ReceiverSafety
  import opened ReceiverOrder
  import opened ReportPath
  import RepairPlan
  import RepairRound
  import RepairGuarantees

  /** Event `a` of the source's run sent the report that the proxy holds for it. */
  ghost predicate Vouched(w: World, run: Run, a: nat, status: SectionStatus, r: Round)
    requires |run.states| == |run.events| + 1 == |run.sent| + 1 && a < |run.events|
  {
    && run.events[a].Timer? && r.meta == w.meta(r.meta.transferId)
    && Sent(run.states[a], w.sha, Outcome(run.states[a + 1], run.sent[a]), status, r)
  }

  /** The planner's view of the round in which that report is used. */
  predicate SameSection(s: RepairPlan.Section, r: Round) {
    && s.transferId == r.meta.transferId && s.sectionId == r.section
    && s.first == First(r.meta.geometry, r.section) && s.n == BlocksOf(r.meta.geometry, r.section)
  }

  /** A block the planner believes a source holds was marked in its memory when it reported. */
  lemma HeldWhenReported(rx: Rx, sha: Sha, result: Outcome, status: SectionStatus, r: Round,
                         c: Conn, s: RepairPlan.Section, id: nat)
    requires Sent(rx, sha, result, status, r) && SameSection(s, r) && c.status == Some(status)
    requires s.first <= id < s.first + s.n && RepairPlan.Holds(c, s, id - s.first)
    ensures id < |rx.transfer.value.received| && rx.transfer.value.received[id]
  {
    hide OnTimer, WellFormed, HasBit, First, BlocksOf, Count, Valid;
    SentIsWellFormed(rx, sha, result, status, r);
    var k := id - s.first;
    assert !SaysMissing(status, k);
    assert rx.transfer.value.received[s.first + k];
  }

  /** In the round after its report, a connected receiver that is neither finished nor set aside is
      eligible as a source of a block if and only if it had the block marked when it reported. */
  lemma EligibleIffMarked(rx: Rx, sha: Sha, result: Outcome, status: SectionStatus, r: Round,
                          c: Conn, s: RepairPlan.Section, id: nat)
    requires Sent(rx, sha, result, status, r) && SameSection(s, r) && c.status == Some(status)
    requires s.round == (r.round + 1) % 0x1_0000_0000 && s.first <= id < s.first + s.n
    requires !c.completed && !c.isolated && !c.abandoned && c.connected && c.statusReceived
    ensures id < |rx.transfer.value.received|
    ensures RepairPlan.Holds(c, s, id - s.first) <==> rx.transfer.value.received[id]
  {
    hide OnTimer, WellFormed, HasBit, First, BlocksOf, Count, Valid;
    SentIsWellFormed(rx, sha, result, status, r);
    var k := id - s.first;
    assert rx.transfer.value.received[s.first + k] <==> !SaysMissing(status, k);
    assert status.code == Missing || status.code == Complete;
  }

  /** The section of a block between the section's bounds. */
  lemma SectionOfBlock(g: Geometry, section: uint32, id: uint32)
    requires Valid(g) && section < Count(g)
    requires First(g, section) <= id < First(g, section) + BlocksOf(g, section)
    ensures SectionIdForBlock(id, g.sectionBlocks) == Ok(section)
  {
    hide First;
    InRangeIsExact(g, section);
    InsideIsDivided(g, id, section);
  }

  lemma BlockStillServable(rx: Rx, later: Rx, sha: Sha, result: Outcome, status: SectionStatus, r: Round,
                           c: Conn, s: RepairPlan.Section, id: uint32)
    requires Sent(rx, sha, result, status, r) && SameSection(s, r) && c.status == Some(status)
    requires later.transfer.Some? && Grows(rx, later)
    requires |rx.transfer.value.received| == r.meta.geometry.totalBlocks
    requires s.first <= id < s.first + s.n && RepairPlan.Holds(c, s, id - s.first)
    ensures Servable(later.transfer.value, r.section, id)
  {
    hide OnTimer, RepairPlan.Holds, Count, First, BlocksOf, Valid;
    HeldWhenReported(rx, sha, result, status, r, c, s, id);
    SectionOfBlock(r.meta.geometry, r.section, id);
  }

  /** A peer task issued to a source that has neither reconnected nor published since its report makes
      it send every block of the task, with source content, in packets its target accepts. */
  lemma IssuedTaskIsServed(w: World, run: Run, a: nat, n: nat, status: SectionStatus, r: Round,
                           conns: seq<Conn>, s: RepairPlan.Section, log: RepairRound.RoundLog, i: nat,
                           blocks: seq<uint32>, port: uint16)
    requires port != 0 && ReceiverSafety.Sound(w) && IsRun(w, run) && a < n <= |run.events| && Uninterrupted(run, a, n)
    requires Vouched(w, run, a, status, r) && SameSection(s, r)
    requires Listening(run.states[n], r.meta.transferId) && r.meta.transferId !in Orphaned(run, n)
    requires RepairRound.PeerRound(conns, s, r.meta.geometry, log) && i < |log.tasks| && blocks == log.tasks[i].blocks
    requires log.tasks[i].source < |conns| && conns[log.tasks[i].source].status == Some(status)
    ensures var sent := PeerPackets(run.states[n], r.meta.transferId, r.section, port, blocks);
      && |sent| == |blocks|
      && forall j :: 0 <= j < |blocks| ==> Genuine(w, r.meta.transferId, r.section, blocks[j], sent[j])
  {
    hide Step, HonestEvent, Genuine, Inv, OnTimer, RepairRound.PeerRound, RepairPlan.Holds, RepairPlan.AllTargets,
      Servable, Count, First, BlocksOf, Valid, Window, PeerPackets;
    RunGrows(w, run, a, n);
    RunKeeps(w, run, a);
    RunKeeps(w, run, n);
    MarkCount(w, run.states[a], Orphaned(run, a));
    var rx, later := run.states[a], run.states[n];
    var result := Outcome(run.states[a + 1], run.sent[a]);
    SameWindow(r.meta.geometry, r.section);
    RepairGuarantees.TasksServable(conns, s, r.meta.geometry, log, i);
    forall j | 0 <= j < |blocks| ensures Servable(later.transfer.value, r.section, blocks[j]) {
      assert blocks[j] in log.tasks[i].blocks;
      BlockStillServable(rx, later, w.sha, result, status, r, conns[log.tasks[i].source], s, blocks[j]);
    }
    PeerSendsAll(w, later, r.section, port, blocks, Orphaned(run, n));
  }

  // ----- A lossless round

  /** A repair round in either mode. */
  ghost predicate RoundRan(conns: seq<Conn>, s: RepairPlan.Section, g: Geometry, log: RepairRound.RoundLog) {
    RepairRound.PeerRound(conns, s, g, log) || RepairRound.BaselineRound(conns, s, g, log)
  }

  /** Every block the round serves to receiver `t` arrives there. */
  ghost predicate AllArrive(meta: FileMeta, log: RepairRound.RoundLog, t: nat, arrivals: seq<Arrival>) {
    forall id: nat :: RepairGuarantees.Served(log, t, id) > 0 ==> id in Offered(meta, arrivals)
  }

  lemma LackedIsServed(conns: seq<Conn>, s: RepairPlan.Section, g: Geometry, log: RepairRound.RoundLog, t: nat,
                       block: nat)
    requires RoundRan(conns, s, g, log) && t < |conns| && block < s.n && RepairPlan.Lacks(conns[t], block)
    ensures RepairGuarantees.Served(log, t, s.first + block) == 1
  {
    hide RepairRound.PeerRound, RepairRound.BaselineRound, RepairPlan.Lacks;
    if RepairRound.PeerRound(conns, s, g, log) {
      RepairGuarantees.ServedExactlyOnce(conns, s, g, log, t, block);
    } else {
      RepairGuarantees.BaselineServesOnce(conns, s, g, log, t, block);
    }
  }

  lemma ReportedIsLacked(rx: Rx, sha: Sha, result: Outcome, status: SectionStatus, r: Round, c: Conn, block: nat)
    requires Sent(rx, sha, result, status, r) && Active(c) && c.status == Some(status)
    requires var g, first := r.meta.geometry, First(r.meta.geometry, r.section);
             first <= block < first + BlocksOf(g, r.section)
    ensures block < |rx.transfer.value.received|
    ensures rx.transfer.value.received[block] || RepairPlan.Lacks(c, block - First(r.meta.geometry, r.section))
  {
    hide OnTimer, WellFormed, HasBit, First, BlocksOf, Count, Valid;
    SentIsWellFormed(rx, sha, result, status, r);
    var k := block - First(r.meta.geometry, r.section);
    assert rx.transfer.value.received[First(r.meta.geometry, r.section) + k] <==> !SaysMissing(status, k);
  }

  /** One repair round without loss is enough, in either mode: when everything the round serves to a
      receiver arrives, in any order and however often, the section it reported is complete. */
  lemma LosslessRoundCompletes(w: World, rx: Rx, result: Outcome, status: SectionStatus, r: Round,
                               conns: seq<Conn>, s: RepairPlan.Section, log: RepairRound.RoundLog, t: nat,
                               before: Rx, arrivals: seq<Arrival>, orphaned: set<uint64>)
    requires ReceiverSafety.Sound(w) && Sent(rx, w.sha, result, status, r) && SameSection(s, r)
    requires t < |conns| && Active(conns[t]) && conns[t].status == Some(status)
    requires RoundRan(conns, s, r.meta.geometry, log) && AllArrive(r.meta, log, t, arrivals)
    requires Inv(w, before, orphaned) && Grows(rx, before) && Listening(before, r.meta.transferId)
    requires AllHonest(w, arrivals)
    ensures var after := ArriveAll(before, arrivals);
      after.transfer.Some? && Window(r.meta.geometry, r.section).Some?
      && SectionReceived(after.transfer.value.received, Window(r.meta.geometry, r.section).value)
  {
    hide OnTimer, Inv, RoundRan, First, BlocksOf, Count, Valid, Window, RepairPlan.Lacks, Offered, AllHonest,
      RepairGuarantees.Served, ArriveAll;
    SameWindow(r.meta.geometry, r.section);
    ArrivalsStore(w, before, arrivals, orphaned);
    var first, n := First(r.meta.geometry, r.section), BlocksOf(r.meta.geometry, r.section);
    var after := ArriveAll(before, arrivals);
    SentIsWellFormed(rx, w.sha, result, status, r);
    forall b | first <= b < first + n ensures b < |after.transfer.value.received| && after.transfer.value.received[b] {
      ReportedIsLacked(rx, w.sha, result, status, r, conns[t], b);
      if !rx.transfer.value.received[b] {
        LackedIsServed(conns, s, r.meta.geometry, log, t, b - first);
        assert RepairGuarantees.Served(log, t, b) > 0;
      }
    }
  }
}
