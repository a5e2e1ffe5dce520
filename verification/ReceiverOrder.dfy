/** Order in the receiver: stored blocks do not depend on the order or repetition of arrivals, drain
    reports only move forward, and a peer source sends everything it was asked for. */
module ReceiverOrder {
  import opened Common
  import opened Reports
  import opened Sections
  import opened Messages
  import opened Crc32
  import opened Receiver
  import opened ReceiverSafety

  // ----- Arrivals commute and are idempotent

  datatype Arrival = Udp(packet: DataPacket) | Tcp(packet: DataPacket)

  function Arrive(rx: Rx, a: Arrival): Rx {
    match a
    case Udp(packet) => OnData(rx, packet)
    case Tcp(packet) => OnBackfillData(rx, packet)
  }

  function ArriveAll(rx: Rx, arrivals: seq<Arrival>): Rx
    decreases |arrivals|
  {
    if arrivals == [] then rx
    else Arrive(ArriveAll(rx, arrivals[..|arrivals| - 1]), arrivals[|arrivals| - 1])
  }

  /** The packet passes every check of its path; this does not depend on what is stored already. */
  predicate Acceptable(meta: FileMeta, a: Arrival) {
    && a.packet.transferId == meta.transferId && Placed(meta.geometry, a.packet) && Intact(a.packet)
    && (a.Udp? ==> SectionIdForBlock(a.packet.blockId, meta.geometry.sectionBlocks) == Ok(a.packet.sectionId))
  }

  /** The blocks offered by acceptable packets. */
  function Offered(meta: FileMeta, arrivals: seq<Arrival>): set<nat> {
    set a | a in arrivals && Acceptable(meta, a) :: a.packet.blockId as nat
  }

  /** The state after blocks `offered` of the source file have been stored on top of `before`. */
  ghost predicate StoredOnTop(w: World, before: Rx, offered: set<nat>, after: Rx) {
    && before.transfer.Some? && after.transfer.Some?
    && var t, u := before.transfer.value, after.transfer.value;
       var id := t.meta.transferId;
       var old', new' := FilesOf(before.disk, id).part, FilesOf(after.disk, id).part;
       && u.meta == t.meta && |u.received| == |t.received| && Listening(after, id)
       && old'.Some? && new'.Some? && |new'.value| == |old'.value| == |t.received| == |w.source(id)|
       && (forall b :: 0 <= b < |u.received| ==> u.received[b] == (t.received[b] || b in offered))
       && (forall b :: 0 <= b < |new'.value| ==>
             new'.value[b] == if !t.received[b] && b in offered then w.source(id)[b] else old'.value[b])
       && u.receivedCount == CountTrue(u.received)
  }

  lemma RejectedKeeps(w: World, before: Rx, offered: set<nat>, rx: Rx, u: Transfer)
    requires StoredOnTop(w, before, offered, rx)
    requires var t := rx.transfer.value;
             u.meta == t.meta && u.received == t.received && u.receivedCount == t.receivedCount
             && u.awaitingAck == t.awaitingAck && u.shaFailed == t.shaFailed
    ensures StoredOnTop(w, before, offered, rx.(transfer := Some(u)))
  {
  }

  lemma StoredKeeps(w: World, before: Rx, offered: set<nat>, rx: Rx, packet: DataPacket)
    requires StoredOnTop(w, before, offered, rx) && packet.blockId < |rx.transfer.value.received|
    requires packet.transferId == rx.transfer.value.meta.transferId && !rx.transfer.value.received[packet.blockId]
    requires packet.payload == w.source(packet.transferId)[packet.blockId]
    ensures var stored := Store(rx, rx.transfer.value, packet);
      StoredOnTop(w, before, offered + {packet.blockId as nat}, stored)
      && StoredOnTop(w, before, offered + {packet.blockId as nat},
                     stored.(disk := SaveState(stored.disk, stored.transfer.value)))
  {
    CountTrueUpdate(rx.transfer.value.received, packet.blockId);
  }

  lemma DuplicateKeeps(w: World, before: Rx, offered: set<nat>, rx: Rx, block: nat)
    requires StoredOnTop(w, before, offered, rx) && block < |rx.transfer.value.received|
    requires rx.transfer.value.received[block]
    ensures StoredOnTop(w, before, offered + {block}, rx)
  {
  }

  lemma ArriveKeeps(w: World, before: Rx, offered: set<nat>, rx: Rx, a: Arrival)
    requires StoredOnTop(w, before, offered, rx) && Honest(w, a.packet)
    requires var meta := rx.transfer.value.meta; meta == w.meta(meta.transferId) && SoundFile(w, meta.transferId)
    ensures var meta := rx.transfer.value.meta;
      StoredOnTop(w, before, offered + if Acceptable(meta, a) then {a.packet.blockId as nat} else {}, Arrive(rx, a))
      && Arrive(rx, a).transfer.value.meta == meta
  {
    hide StoredOnTop, Crc, Placed, Honest, Store, SaveState, SoundFile;
    Listens(w, before, offered, rx);
    var t, packet := rx.transfer.value, a.packet;
    assert offered + {} == offered;
    RejectedKeeps(w, before, offered, rx, t.(rejected := t.rejected + 1));
    if Acceptable(t.meta, a) {
      AcceptedIsAuthentic(w, packet);
      if t.received[packet.blockId] {
        DuplicateKeeps(w, before, offered, rx, packet.blockId);
        RejectedKeeps(w, before, offered + {packet.blockId as nat}, rx, t.(duplicates := t.duplicates + 1));
      } else {
        StoredKeeps(w, before, offered, rx, packet);
        StoreShape(rx, packet);
      }
    }
  }

  lemma Listens(w: World, before: Rx, offered: set<nat>, rx: Rx)
    requires StoredOnTop(w, before, offered, rx)
    ensures rx.transfer.Some? && before.transfer.Some?
    ensures var t := rx.transfer.value;
      t.meta == before.transfer.value.meta && Listening(rx, t.meta.transferId)
      && |t.received| == |w.source(t.meta.transferId)|
      && (SoundFile(w, t.meta.transferId) && t.meta == w.meta(t.meta.transferId) ==>
            |t.received| == t.meta.geometry.totalBlocks
            && forall packet: DataPacket :: Placed(t.meta.geometry, packet) ==> packet.blockId < |t.received|)
  {
  }

  lemma StoreShape(rx: Rx, packet: DataPacket)
    requires rx.transfer.Some? && packet.blockId < |rx.transfer.value.received|
    ensures var stored := Store(rx, rx.transfer.value, packet);
            stored.transfer.Some? && stored.transfer.value.meta == rx.transfer.value.meta
  {
  }

  ghost predicate AllHonest(w: World, arrivals: seq<Arrival>) {
    forall a :: a in arrivals ==> Honest(w, a.packet)
  }

  lemma OfferedSnoc(meta: FileMeta, arrivals: seq<Arrival>, a: Arrival)
    ensures Offered(meta, arrivals + [a])
         == Offered(meta, arrivals) + if Acceptable(meta, a) then {a.packet.blockId as nat} else {}
  {
    hide Acceptable;
  }

  /** What a sequence of arrivals stores is a function of the set of blocks offered. */
  lemma {:induction false} ArrivalsStore(w: World, before: Rx, arrivals: seq<Arrival>, orphaned: set<uint64>)
    requires Sound(w) && Inv(w, before, orphaned) && AllHonest(w, arrivals)
    requires before.transfer.Some? && Listening(before, before.transfer.value.meta.transferId)
    ensures var meta := before.transfer.value.meta;
      StoredOnTop(w, before, Offered(meta, arrivals), ArriveAll(before, arrivals))
      && ArriveAll(before, arrivals).transfer.value.meta == meta
    decreases |arrivals|
  {
    hide Inv, StoredOnTop, Honest, Acceptable, Arrive, Offered, Listening;
    var meta := before.transfer.value.meta;
    assert SoundFile(w, meta.transferId);
    if arrivals == [] {
      NothingStored(w, before, orphaned);
    } else {
      var init, last := arrivals[..|arrivals| - 1], arrivals[|arrivals| - 1];
      assert arrivals == init + [last];
      assert last in arrivals;
      ArrivalsStore(w, before, init, orphaned);
      OfferedSnoc(meta, init, last);
      MetaIs(w, before, orphaned);
      ArriveKeeps(w, before, Offered(meta, init), ArriveAll(before, init), last);
    }
  }

  lemma NothingStored(w: World, before: Rx, orphaned: set<uint64>)
    requires Sound(w) && Inv(w, before, orphaned)
    requires before.transfer.Some? && Listening(before, before.transfer.value.meta.transferId)
    ensures StoredOnTop(w, before, Offered(before.transfer.value.meta, []), before)
  {
    SourceLength(w, before.transfer.value.meta.transferId);
  }

  lemma MetaIs(w: World, rx: Rx, orphaned: set<uint64>)
    requires Inv(w, rx, orphaned) && rx.transfer.Some?
    ensures rx.transfer.value.meta == w.meta(rx.transfer.value.meta.transferId)
  {
  }

  /** What a transfer holds: marks, counter and file content. */
  function Held(rx: Rx): Option<(seq<bool>, nat, Option<Content>)> {
    if rx.transfer.None? then None
    else
      var t := rx.transfer.value;
      Some((t.received, t.receivedCount, FilesOf(rx.disk, t.meta.transferId).part))
  }

  lemma SameStored(w: World, before: Rx, offered: set<nat>, x: Rx, y: Rx)
    requires StoredOnTop(w, before, offered, x) && StoredOnTop(w, before, offered, y)
    ensures Held(x) == Held(y)
  {
    var t := x.transfer.value;
    assert t.received == y.transfer.value.received;
    assert FilesOf(x.disk, t.meta.transferId).part.value == FilesOf(y.disk, t.meta.transferId).part.value;
  }

  /** Any two sequences of UDP and backfill arrivals that offer the same blocks, in any order and with
      any repetition, leave the same marks, the same counter and the same file; the counter is the
      number of marks, and exactly the offered blocks were added to the marks. */
  lemma OrderDoesNotMatter(w: World, before: Rx, a: seq<Arrival>, b: seq<Arrival>, orphaned: set<uint64>)
    requires Sound(w) && Inv(w, before, orphaned) && AllHonest(w, a) && AllHonest(w, b)
    requires before.transfer.Some? && Listening(before, before.transfer.value.meta.transferId)
    requires Offered(before.transfer.value.meta, a) == Offered(before.transfer.value.meta, b)
    ensures Held(ArriveAll(before, a)) == Held(ArriveAll(before, b))
    ensures var held := Held(ArriveAll(before, a));
      held.Some? && held.value.1 == CountTrue(held.value.0)
      && |held.value.0| == |before.transfer.value.received|
      && forall i :: 0 <= i < |held.value.0| ==>
           held.value.0[i] == (before.transfer.value.received[i] || i in Offered(before.transfer.value.meta, a))
  {
    hide Inv, Offered, Listening, AllHonest;
    ArrivalsStore(w, before, a, orphaned);
    ArrivalsStore(w, before, b, orphaned);
    SameStored(w, before, Offered(before.transfer.value.meta, a), ArriveAll(before, a), ArriveAll(before, b));
  }

  /** The corruption the proxy can inject for a trial, the last payload byte inverted, is always
      rejected: the block stays missing and nothing is written. */
  lemma InvertedIsRejected(rx: Rx, packet: DataPacket, original: Payload)
    requires Listening(rx, packet.transferId) && original != []
    requires packet.crc == Crc(original)
    requires packet.payload == original[|original| - 1 := original[|original| - 1] ^ 0xff]
    ensures var t := rx.transfer.value;
            OnData(rx, packet) == rx.(transfer := Some(t.(rejected := t.rejected + 1)))
  {
    hide Crc, Placed;
    LastByteInversionDetected(original);
  }

  // ----- The received set only grows

  /** Same transfer, no mark lost. */
  ghost predicate Grows(rx: Rx, after: Rx) {
    rx.transfer.Some? && after.transfer.Some? ==>
      after.transfer.value.meta == rx.transfer.value.meta
      && Within(rx.transfer.value.received, after.transfer.value.received)
  }

  lemma CommandGrows(rx: Rx, command: Command, sha: Sha)
    ensures Grows(rx, OnCommand(rx, command, sha).rx)
  {
    hide Matches, Publish, DropState, Placed, Crc, Window, FilesOf, WithFiles, Loadable, SaveState;
  }

  lemma TimerGrows(rx: Rx, sha: Sha, result: Outcome)
    requires OnTimer(rx, sha, result)
    ensures Grows(rx, result.rx)
  {
    hide Matches, Publish, DropState, Window, SectionReceived, SaveState;
  }

  /** As long as a transfer lives in memory, every step keeps its identity and all its marks. */
  lemma StepGrows(w: World, rx: Rx, e: Event, result: Outcome)
    requires Step(w, rx, e, result)
    ensures Grows(rx, result.rx)
  {
    hide OnCommand, OnTimer, Matches, Publish, Placed, Crc, Window, SaveState, Store, Loadable;
    match e
    case Data(packet) => DataGrows(rx, packet);
    case Timer => TimerGrows(rx, w.sha, result);
    case Control(command) => CommandGrows(rx, command, w.sha);
    case _ =>
  }

  lemma DataGrows(rx: Rx, packet: DataPacket)
    ensures Grows(rx, OnData(rx, packet))
  {
    hide Placed, Crc;
  }

  /** The transfer stays in memory, and the receiver does not reconnect, through events a..n-1. */
  ghost predicate Uninterrupted(run: Run, a: nat, n: nat)
    requires |run.states| == |run.events| + 1 == |run.sent| + 1 && a <= n <= |run.events|
  {
    run.states[a].transfer.Some? && forall k :: a <= k < n ==> Quiet(run, k)
  }

  ghost predicate Quiet(run: Run, k: nat)
    requires |run.states| == |run.events| + 1 == |run.sent| + 1 && k < |run.events|
  {
    run.states[k + 1].transfer.Some? && forall report :: report in run.sent[k] ==> !report.Register?
  }

  lemma {:induction false} RunGrows(w: World, run: Run, a: nat, n: nat)
    requires IsRun(w, run) && a <= n <= |run.events| && Uninterrupted(run, a, n)
    ensures run.states[n].transfer.Some? && Grows(run.states[a], run.states[n])
    decreases n
  {
    hide Step, HonestEvent;
    if a < n {
      RunGrows(w, run, a, n - 1);
      assert Quiet(run, n - 1);
      assert RunStep(w, run, n - 1);
      StepGrows(w, run.states[n - 1], run.events[n - 1], Outcome(run.states[n], run.sent[n - 1]));
    }
  }

  // ----- Drain reports only move forward

  /** Section and round of a report. */
  datatype Position = Position(section: uint32, round: uint32)

  predicate Before(a: Position, b: Position) {
    a.section < b.section || (a.section == b.section && a.round < b.round)
  }

  /** Event k sent a drain report, for this section and round. */
  function DrainReport(run: Run, k: nat): Option<Position>
    requires k < |run.events| == |run.sent|
  {
    if run.events[k].Timer? && run.sent[k] != [] && run.sent[k][0].Status?
    then Some(Position(run.sent[k][0].status.sectionId, run.sent[k][0].status.roundId)) else None
  }

  /** Everything the receiver may still report comes after `p`. */
  ghost predicate Behind(p: Position, rx: Rx) {
    && rx.transfer.Some? && rx.transfer.value.activeSection.Some?
    && var t, section := rx.transfer.value, rx.transfer.value.activeSection.value;
       && (p.section < section
           || (p.section == section && t.lastReported.Some? && p.round <= t.lastReported.value))
       && (rx.draining ==> Before(p, Position(section, rx.drainRound)))
  }

  lemma FinalizeKeepsRounds(rx: Rx, t: Transfer, sha: Sha)
    ensures var after := Finalize(rx, t, sha).1;
      after.draining == rx.draining && after.drainRound == rx.drainRound && after.transfer.Some?
      && after.transfer.value.activeSection == t.activeSection && after.transfer.value.lastReported == t.lastReported
  {
    hide Matches, Publish, DropState;
  }

  lemma TimerMoves(rx: Rx, sha: Sha, result: Outcome, p: Position)
    requires OnTimer(rx, sha, result) && result.sent != [] && result.sent[0].Status?
    ensures var status := result.sent[0].status;
      var position := Position(status.sectionId, status.roundId);
      Behind(position, result.rx) && (Behind(p, rx) ==> Before(p, position) && Behind(p, result.rx))
  {
    hide Finalize, Window, SectionReceived, SaveState;
    var t := rx.transfer.value;
    FinalizeKeepsRounds(rx.(disk := SaveState(rx.disk, t), draining := false),
                        t.(lastReported := Some(rx.drainRound)), sha);
  }

  lemma DrainMoves(rx: Rx, section: uint32, round: uint32, total: uint32, p: Position)
    requires Behind(p, rx)
    ensures Behind(p, BeginDrain(rx, rx.transfer.value, section, round, total))
  {
    hide Window;
  }

  lemma ReconnectRegisters(rx: Rx)
    ensures exists report :: report in Reconnect(rx).sent && report.Register?
  {
    assert Reconnect(rx).sent[0] in Reconnect(rx).sent;
  }

  lemma CommandMoves(rx: Rx, command: Command, sha: Sha, p: Position)
    requires Behind(p, rx) && OnCommand(rx, command, sha).rx.transfer.Some?
    requires forall report :: report in OnCommand(rx, command, sha).sent ==> !report.Register?
    ensures Behind(p, OnCommand(rx, command, sha).rx)
  {
    hide BeginDrain, Finalize, Placed, Crc, FilesOf, WithFiles, SaveState, Reconnect;
    match command
    case FileMetaFrame(meta) => ReconnectRegisters(rx);
    case SectionEnd(id, section, round, total) => DrainMoves(rx, section, round, total, p);
    case BackfillEnd(meta) => FinalizeKeepsRounds(rx, rx.transfer.value, sha);
    case _ =>
  }

  lemma StepMoves(w: World, rx: Rx, e: Event, result: Outcome, p: Position)
    requires Step(w, rx, e, result) && Behind(p, rx) && result.rx.transfer.Some?
    requires forall report :: report in result.sent ==> !report.Register?
    ensures Behind(p, result.rx)
  {
    hide OnCommand, OnTimer, BeginDrain, Matches, Publish, Placed, Crc, FilesOf, WithFiles, SaveState, Loadable;
    match e
    case UdpEnd(id, section, round, total) => DrainMoves(rx, section, round, total, p);
    case Timer =>
      TimerSends(rx, w.sha, result);
      if result.sent != [] {
        assert result.sent[0] in result.sent;
        TimerMoves(rx, w.sha, result, p);
      }
    case Control(command) => CommandMoves(rx, command, w.sha, p);
    case Disconnect => ReconnectRegisters(rx);
    case _ =>
  }

  lemma TimerSends(rx: Rx, sha: Sha, result: Outcome)
    requires OnTimer(rx, sha, result)
    ensures result.sent == [] ==> result.rx == rx
    ensures result.sent != [] ==> result.sent[0].Status? || result.sent[0].Register?
  {
    hide Finalize, Window, SectionReceived, SaveState;
  }

  lemma {:induction false} RunMoves(w: World, run: Run, p: Position, a: nat, n: nat)
    requires IsRun(w, run) && a <= n <= |run.events| && Uninterrupted(run, a, n) && Behind(p, run.states[a])
    ensures Behind(p, run.states[n])
    decreases n
  {
    hide Step, HonestEvent, Behind;
    if a < n {
      RunMoves(w, run, p, a, n - 1);
      assert Quiet(run, n - 1);
      assert RunStep(w, run, n - 1);
      StepMoves(w, run.states[n - 1], run.events[n - 1], Outcome(run.states[n], run.sent[n - 1]), p);
    }
  }

  /** Between reconnects of one transfer, drain reports strictly increase in (section, round), for any
      interleaving of late, repeated and out-of-order SECTION_END and UDP END events. */
  lemma DrainReportsIncrease(w: World, run: Run, i: nat, j: nat)
    requires IsRun(w, run) && i < j < |run.events| && Uninterrupted(run, i, j)
    requires DrainReport(run, i).Some? && DrainReport(run, j).Some?
    ensures Before(DrainReport(run, i).value, DrainReport(run, j).value)
  {
    hide HonestEvent, Behind, OnTimer;
    var p := DrainReport(run, i).value;
    assert RunStep(w, run, i) && RunStep(w, run, j);
    TimerMoves(run.states[i], w.sha, Outcome(run.states[i + 1], run.sent[i]), p);
    assert Quiet(run, i);
    RunMoves(w, run, p, i + 1, j);
    TimerMoves(run.states[j], w.sha, Outcome(run.states[j + 1], run.sent[j]), p);
  }

  /** A section end for a running transfer, with a section that exists. */
  ghost predicate Asked(t: Transfer, id: uint64, section: uint32, total: uint32) {
    t.meta.transferId == id && !t.awaitingAck && !t.shaFailed && total == t.meta.geometry.totalBlocks
    && Window(t.meta.geometry, section).Some?
  }

  /** An idle receiver starts a drain for every section end that is not late: a later section, or the same
      one with a round above the last reported and not below the last announced. */
  lemma DrainStartsIff(rx: Rx, id: uint64, section: uint32, round: uint32, total: uint32)
    requires rx.transfer.Some? && Asked(rx.transfer.value, id, section, total) && !rx.draining
    ensures var t, after := rx.transfer.value, OnSectionEnd(rx, id, section, round, total);
      && (after.draining
          <==> t.activeSection.None? || t.activeSection.value < section
               || (t.activeSection == Some(section)
                   && (t.lastReported.Some? ==> t.lastReported.value < round)
                   && (t.lastEndRound.Some? ==> t.lastEndRound.value <= round)))
      && (after.draining ==> after.drainRound == round && after.transfer.Some?
                             && after.transfer.value.activeSection == Some(section)
                             && after.transfer.value.lastEndRound == Some(round))
  {
    hide Window;
  }

  /** A reconnect forgets which section and rounds were reported: afterwards every section end starts a
      drain, also one of a section or round already reported. The received blocks stay. */
  lemma ReconnectAsksAgain(rx: Rx, id: uint64, section: uint32, round: uint32, total: uint32)
    requires rx.transfer.Some? && Asked(rx.transfer.value, id, section, total)
    ensures var back := Reconnect(rx).rx;
      && !back.draining && back.transfer.Some? && back.transfer.value.received == rx.transfer.value.received
      && Reconnect(rx).sent == [Register(ReceiverState.Receiving, id)]
      && OnSectionEnd(back, id, section, round, total).draining
      && OnSectionEnd(back, id, section, round, total).drainRound == round
  {
    hide Window;
    DrainStartsIff(Reconnect(rx).rx, id, section, round, total);
  }

  /** A UDP end notice works as one on the control connection, for a receiver still in the transfer only. */
  lemma UdpEndIsSectionEnd(rx: Rx, id: uint64, section: uint32, round: uint32, total: uint32)
    ensures OnUdpEnd(rx, id, section, round, total)
         == if rx.transfer.Some? && rx.transfer.value.meta.transferId == id && !rx.transfer.value.awaitingAck
               && !rx.transfer.value.shaFailed
            then OnSectionEnd(rx, id, section, round, total) else rx
  {
    hide BeginDrain;
  }

  // ----- Letting a transfer go

  /** A receiver forgets its transfer when it is told that it failed, and otherwise only by an acknowledgement
      of its own completion; it answers that it is ready, and its disk stays. */
  lemma LetsGoIff(rx: Rx, id: uint64, sha: Sha)
    ensures var failed := OnCommand(rx, TransferFailed(id), sha);
      && (failed.rx.transfer.None? <==> rx.transfer.None? || rx.transfer.value.meta.transferId == id)
      && failed.sent == (if failed.rx.transfer.None? then [ReceiverReady(id)] else [])
      && failed.rx.disk == rx.disk && (failed.rx.transfer.Some? ==> failed.rx == rx)
    ensures var acked := OnCommand(rx, CompleteAck(id), sha);
      var done := rx.transfer.Some? && rx.transfer.value.meta.transferId == id && rx.transfer.value.awaitingAck;
      && (acked.rx.transfer.None? <==> rx.transfer.None? || done)
      && acked.sent == (if done then [ReceiverReady(id)] else [])
      && acked.rx.disk == rx.disk && (!done ==> acked.rx == rx)
  {
  }

  // ----- Peer tasks

  /** Every requested block is in the named section and marked in memory. */
  ghost predicate Prepared(t: Transfer, section: uint32, blocks: seq<uint32>) {
    Window(t.meta.geometry, section).Some? && forall i :: 0 <= i < |blocks| ==> Servable(t, section, blocks[i])
  }

  /** The packet of a block as the proxy itself would send it. */
  ghost predicate Genuine(w: World, id: uint64, section: uint32, block: uint32, packet: DataPacket) {
    && packet.transferId == id && packet.sectionId == section && packet.blockId == block
    && block < |w.source(id)| && packet.payload == w.source(id)[block]
    && Acceptable(w.meta(id), Udp(packet))
  }

  lemma PacketIsGenuine(w: World, rx: Rx, section: uint32, block: uint32, orphaned: set<uint64>)
    requires Sound(w) && Inv(w, rx, orphaned) && rx.transfer.Some?
    requires var id := rx.transfer.value.meta.transferId; Listening(rx, id) && id !in orphaned
    requires Servable(rx.transfer.value, section, block)
    ensures var id := rx.transfer.value.meta.transferId;
      var part := FilesOf(rx.disk, id).part;
      && part.Some? && block < |part.value| && BlockOffset(block) < U64
      && Genuine(w, id, section, block,
                 DataPacket(id, section, block, BlockOffset(block), Crc(part.value[block]), part.value[block]))
  {
    hide Crc, DiskOk;
    var t := rx.transfer.value;
    assert SoundFile(w, t.meta.transferId);
    BlocksTileFile(t.meta.geometry, block);
  }

  /** A source still in the transfer sends every requested block it has marked, with source content
      and fields that any target of the same transfer accepts. A registration with port zero is rejected
      (src/sender.cpp:588-592), so a task names another port. */
  lemma {:induction false} PeerSendsAll(w: World, rx: Rx, section: uint32, port: uint16, blocks: seq<uint32>,
                                        orphaned: set<uint64>)
    requires Sound(w) && Inv(w, rx, orphaned) && rx.transfer.Some? && port != 0
    requires var id := rx.transfer.value.meta.transferId; Listening(rx, id) && id !in orphaned
    requires Prepared(rx.transfer.value, section, blocks)
    ensures var id := rx.transfer.value.meta.transferId;
      var sent := PeerPackets(rx, id, section, port, blocks);
      |sent| == |blocks| && forall i :: 0 <= i < |blocks| ==> Genuine(w, id, section, blocks[i], sent[i])
    decreases |blocks|
  {
    hide Inv, Genuine, Servable, Window, Crc, FilesOf, Listening;
    if blocks != [] {
      var last := |blocks| - 1;
      PeerSendsAll(w, rx, section, port, blocks[..last], orphaned);
      PacketIsGenuine(w, rx, section, blocks[last], orphaned);
    }
  }

  lemma MarkCount(w: World, rx: Rx, orphaned: set<uint64>)
    requires Inv(w, rx, orphaned) && rx.transfer.Some?
    ensures |rx.transfer.value.received| == rx.transfer.value.meta.geometry.totalBlocks
  {
  }
}
