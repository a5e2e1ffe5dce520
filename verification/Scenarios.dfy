/** Runs that show the theorems are about something: a section that is repaired and then delivered, and a
    receiver that backfill cannot complete. */
module Scenarios {
  import opened Common
  import opened Reports
  import opened Sections
  import opened Messages
  import opened Crc32
  import opened Connections
  import opened Receiver
  import opened ReceiverSafety
  import opened SectionBarrier
  import opened SectionScript
  import opened SectionRounds
  import Backfill
  import DirectTransfer
  import Dispatch
  import ReceiverOrder

  // ----- A file of two blocks, one in each section

  const TWO_BLOCKS := Geometry(1201, 2, 1)

  ghost predicate TwoBlocks(w: World, id: uint64) {
    Sound(w) && w.meta(id).geometry == TWO_BLOCKS
  }

  lemma TwoBlocksFit()
    ensures Valid(TWO_BLOCKS) && Count(TWO_BLOCKS) == 2
    ensures Window(TWO_BLOCKS, 0) == Some((0, 1))
    ensures BlocksOf(TWO_BLOCKS, 0) == 1 && First(TWO_BLOCKS, 0) == 0
    ensures BlockSizeOf(TWO_BLOCKS, 0) == 1200 && BlockSizeOf(TWO_BLOCKS, 1) == 1
  {
  }

  /** There is such a world. */
  lemma TwoBlocksExist(id: uint64)
    ensures exists w :: TwoBlocks(w, id)
  {
    TwoBlocksFit();
    var digest: Digest := [];
    var w := World((id: uint64) => FileMeta(id, TWO_BLOCKS, "f", digest), (id: uint64) => Zeros(TWO_BLOCKS),
                   (c: Content) => digest);
    forall id: uint64 ensures SoundFile(w, id) {
    }
    assert TwoBlocks(w, id);
  }

  // ----- The receiver

  /** The transfer: whether block 0 has come, the last SECTION_END of section 0, and the last report. */
  function Partly(w: World, id: uint64, first: bool, ended: Option<uint32>, reported: Option<uint32>): Transfer {
    Transfer(w.meta(id), [first, false], if first then 1 else 0, 0, 0,
             if ended.Some? then Some(0) else None, ended, reported, false, false)
  }

  function ReceiverWith(t: Transfer, files: Files, draining: bool, round: uint32): Rx {
    Rx(Some(t), draining, round, Disk(map[t.meta.transferId := files], map[]))
  }

  function NothingYet(): Files {
    Files(Some(Zeros(TWO_BLOCKS)), None)
  }

  ghost function BlockZero(w: World, id: uint64): Files
    requires TwoBlocks(w, id)
  {
    assert SoundFile(w, id);
    Files(Some(Zeros(TWO_BLOCKS)[0 := w.source(id)[0]]), None)
  }

  function Announced(w: World, id: uint64): Rx {
    ReceiverWith(Partly(w, id, false, None, None), NothingYet(), false, 0)
  }

  function LackingAtEnd(w: World, id: uint64): Rx {
    ReceiverWith(Partly(w, id, false, Some(0), None), NothingYet(), true, 0)
  }

  function LackReported(w: World, id: uint64): Rx {
    ReceiverWith(Partly(w, id, false, Some(0), Some(0)), NothingYet(), false, 0)
  }

  ghost function Repaired(w: World, id: uint64): Rx
    requires TwoBlocks(w, id)
  {
    ReceiverWith(Partly(w, id, true, Some(0), Some(0)), BlockZero(w, id), false, 0)
  }

  ghost function RepairedAtEnd(w: World, id: uint64): Rx
    requires TwoBlocks(w, id)
  {
    ReceiverWith(Partly(w, id, true, Some(1), Some(0)), BlockZero(w, id), true, 1)
  }

  ghost function HeldReported(w: World, id: uint64): Rx
    requires TwoBlocks(w, id)
  {
    var t := Partly(w, id, true, Some(1), Some(1));
    ReceiverWith(t, BlockZero(w, id).(saved := Some(SavedState(t.meta, 1, t.received))), false, 1)
  }

  function LackStatus(id: uint64): SectionStatus {
    SectionStatus(id, 0, 0, Missing, 1, [1])
  }

  function HeldStatus(id: uint64): SectionStatus {
    SectionStatus(id, 0, 1, Complete, 0, [])
  }

  ghost function DataZero(w: World, id: uint64): DataPacket
    requires TwoBlocks(w, id)
  {
    assert SoundFile(w, id);
    DataPacket(id, 0, 0, 0, Crc(w.source(id)[0]), w.source(id)[0])
  }

  function Meta(w: World, id: uint64): Event {
    Control(FileMetaFrame(w.meta(id)))
  }

  function EndOfRound(id: uint64, round: uint32): Event {
    Control(SectionEnd(id, 0, round, 2))
  }

  lemma MetaStep(w: World, id: uint64)
    requires TwoBlocks(w, id)
    ensures Step(w, ReceiverSafety.INITIAL, Meta(w, id), Outcome(Announced(w, id), [MetaReady(id)]))
  {
    TwoBlocksFit();
    assert SoundFile(w, id);
    assert seq(2, _ => false) == [false, false];
  }

  lemma EndSteps(w: World, id: uint64)
    requires TwoBlocks(w, id)
    ensures Step(w, Announced(w, id), EndOfRound(id, 0), Outcome(LackingAtEnd(w, id), []))
    ensures Step(w, Repaired(w, id), EndOfRound(id, 1), Outcome(RepairedAtEnd(w, id), []))
  {
    hide Zeros, First, End, SectionBlockCount;
    TwoBlocksFit();
    assert SoundFile(w, id);
  }

  lemma BitOfOne(bit: nat)
    requires bit < 8
    ensures HasBit(1, bit) <==> bit == 0
  {
  }

  lemma BitmapOfOne()
    ensures Reports.Reports([1], [false, false], 0, 1) && CountUnreceived([false, false], 0, 1) == 1
  {
    hide HasBit;
    var bitmap: Bytes := [1];
    forall k | 0 <= k < 8 ensures Marked(bitmap, k) <==> k == 0 {
      BitOfOne(k);
    }
    assert CountUnreceived([false, false], 0, 0) == 0;
  }

  lemma LackStep(w: World, id: uint64)
    requires TwoBlocks(w, id)
    ensures Step(w, LackingAtEnd(w, id), Timer, Outcome(LackReported(w, id), [Status(LackStatus(id))]))
  {
    hide Zeros, SectionBlockCount, Reports.Reports, CountUnreceived, HasBit, Reconnect, ReportReceived;
    TwoBlocksFit();
    BitmapOfOne();
    assert SoundFile(w, id);
    var rx := LackingAtEnd(w, id);
    assert !rx.transfer.value.received[0];
    assert ReportMissing(rx, rx.transfer.value, 0, [1], 1) == Outcome(LackReported(w, id), [Status(LackStatus(id))]);
  }

  lemma LackIsWellFormed(id: uint64)
    ensures WellFormed(LackStatus(id), 1)
  {
    hide Reports.Reports, CountUnreceived, HasBit, WellFormed;
    BitmapOfOne();
    ReportAccepted(LackStatus(id), [false, false], 0, 1);
  }

  lemma DataStep(w: World, id: uint64)
    requires TwoBlocks(w, id)
    ensures HonestEvent(w, Data(DataZero(w, id)))
    ensures Step(w, LackReported(w, id), Data(DataZero(w, id)), Outcome(Repaired(w, id), []))
  {
    hide Crc, SectionBlockCount;
    TwoBlocksFit();
    assert SoundFile(w, id);
    var payload := w.source(id)[0];
    assert EqualOutside(payload, payload, 0);
    assert [false, false][0 := true] == [true, false];
  }

  lemma HeldStep(w: World, id: uint64)
    requires TwoBlocks(w, id)
    ensures Step(w, RepairedAtEnd(w, id), Timer, Outcome(HeldReported(w, id), [Status(HeldStatus(id))]))
  {
    hide Zeros, SectionBlockCount, Reports.Reports, CountUnreceived;
    TwoBlocksFit();
    assert SoundFile(w, id);
  }

  // ----- One receiver and the proxy

  function Alone(p: Proxy, c: Conn, rx: Rx, sent: seq<Report>): System {
    System(p, [Member(c, SetAside(c), None, rx, {}, sent)])
  }

  function During(w: World, id: uint64, phase: Phase): Proxy {
    Proxy(Some(w.meta(id)), true, phase, {}, {id})
  }

  function Collecting0(w: World, id: uint64, round: uint32): Phase {
    Collecting(Round(w.meta(id), 0, round))
  }

  /** The record of a receiver that was given the transfer. */
  function Record(w: World, id: uint64, ready: bool, status: Option<SectionStatus>): Conn {
    Conn(true, ready, status.Some?, false, false, false, false, false, Receiving, id, {}, status, Some(w.meta(id)))
  }

  function First2(id: uint64): seq<Report> {
    [Register(Idle, 0), MetaReady(id)]
  }

  /** The metadata phase is over. */
  function Begun(w: World, id: uint64): System {
    Alone(During(w, id, Phase.Idling), Record(w, id, true, None), Announced(w, id), First2(id))
  }

  lemma OwnPlays(p: Proxy, c: Conn, rx: Rx, sent: seq<Report>, event: Event, outcome: Outcome)
    requires !event.KillAfterRename?
    ensures forall watched: set<nat> ::
              PlayInput(Alone(p, c, rx, sent), watched, Own(0, event, outcome))
              == Alone(p, c, outcome.rx, sent + outcome.sent)
  {
    assert {} + OrphanedBy(rx, event) == {};
  }

  lemma FramePlays(p: Proxy, c: Conn, rx: Rx, sent: seq<Report>, at: nat, report: Report)
    requires p.phase.Collecting? && Active(c)
    requires Active(HandleReport(c, p.phase.round, report, true))
    ensures PlayInput(Alone(p, c, rx, sent), {0}, Frame(0, at, report, true))
         == Alone(p, HandleReport(c, p.phase.round, report, true), rx, sent)
  {
    hide HandleReport;
  }

  lemma StartPlays(w: World, id: uint64, c: Conn, rx: Rx, sent: seq<Report>)
    requires Active(c)
    ensures Stepped(Alone(During(w, id, Phase.Idling), c, rx, sent), StartSection(0))
         == Alone(During(w, id, Collecting0(w, id, 0)), ResetRound(c), rx, sent)
  {
  }

  /** A status of the round is kept. */
  lemma StatusKept(w: World, id: uint64, round: uint32, status: SectionStatus)
    requires TwoBlocks(w, id)
    requires status.transferId == id && status.sectionId == 0 && status.roundId == round && WellFormed(status, 1)
    ensures HandleReport(Record(w, id, true, None), Round(w.meta(id), 0, round), Status(status), true)
         == Record(w, id, true, Some(status))
  {
    hide WellFormed, First, End;
    TwoBlocksFit();
    assert SoundFile(w, id);
  }

  lemma NotFinal(w: World, id: uint64, round: uint32)
    requires TwoBlocks(w, id)
    ensures !IsFinal(Round(w.meta(id), 0, round))
  {
    TwoBlocksFit();
  }

  /** The drain timer fires, and the proxy reads the report. */
  function SentAndRead(at: nat, after: Rx, report: Report): seq<Input> {
    [Own(0, Timer, Outcome(after, [report])), Frame(0, at, report, true)]
  }

  /** A report of the round, sent and read. */
  lemma ReportPlays(w: World, id: uint64, round: uint32, rx: Rx, sent: seq<Report>, after: Rx, status: SectionStatus)
    requires TwoBlocks(w, id)
    requires status.transferId == id && status.sectionId == 0 && status.roundId == round && WellFormed(status, 1)
    ensures var p := During(w, id, Collecting0(w, id, round));
      Collected(Alone(p, Record(w, id, true, None), rx, sent), [SentAndRead(|sent|, after, Status(status))], false)
      == Alone(p, Record(w, id, true, Some(status)), after, sent + [Status(status)])
  {
    hide WellFormed, HandleReport, PlayInput, PlayWait, Collected, AllAnswered, PlayOwn, WatchList;
    var p := During(w, id, Collecting0(w, id, round));
    var report := Status(status);
    var inputs := SentAndRead(|sent|, after, report);
    var s := Alone(p, Record(w, id, true, None), rx, sent);
    var t := Alone(p, Record(w, id, true, None), after, sent + [report]);
    OwnPlays(p, Record(w, id, true, None), rx, sent, Timer, Outcome(after, [report]));
    StatusKept(w, id, round, status);
    FramePlays(p, Record(w, id, true, None), after, sent + [report], |sent|, report);
    NotAnswered(w, id, p, rx, sent);
    assert WatchList(s) == {0} by {
      WatchesTheOne(p, Record(w, id, true, None), rx, sent);
    }
    WaitOfTwo(s, {0}, inputs[0], inputs[1]);
    OneCollection(s, inputs);
  }

  lemma WaitOfTwo(s: System, watched: set<nat>, a: Input, b: Input)
    requires a.Own?
    ensures PlayWait(s, watched, [a, b]) == PlayInput(PlayInput(s, watched, a), watched, b)
  {
    hide PlayInput;
    assert [a, b][1..] == [b] && [b][1..] == [];
    assert PlayWait(s, watched, [a, b]) == PlayWait(PlayInput(s, watched, a), watched, [b]);
  }

  lemma OneCollection(s: System, inputs: seq<Input>)
    requires !AllAnswered(s, false)
    ensures Collected(s, [inputs], false) == PlayWait(s, WatchList(s), inputs)
  {
    hide PlayWait, WatchList, AllAnswered;
    var waits := [inputs];
    assert waits[1..] == [];
  }

  lemma WatchesTheOne(p: Proxy, c: Conn, rx: Rx, sent: seq<Report>)
    requires Active(c)
    ensures WatchList(Alone(p, c, rx, sent)) == {0}
  {
    var s := Alone(p, c, rx, sent);
    assert |s.members| == 1 && s.members[0].conn == c;
  }

  lemma NotAnswered(w: World, id: uint64, p: Proxy, rx: Rx, sent: seq<Report>)
    ensures !AllAnswered(Alone(p, Record(w, id, true, None), rx, sent), false)
  {
    var s := Alone(p, Record(w, id, true, None), rx, sent);
    assert !RoundDone(s.members[0].conn, false);
  }

  /** The end of a collection that finds no failure and isolates nobody. */
  lemma EndPlays(w: World, id: uint64, round: uint32, rx: Rx, sent: seq<Report>, status: SectionStatus,
                 backfillAfter: uint32)
    requires status.code == Complete || (status.code == Missing && round < backfillAfter)
    ensures var s := Alone(During(w, id, Collecting0(w, id, round)), Record(w, id, true, Some(status)), rx, sent);
      var t := Alone(During(w, id, Deciding(Round(w.meta(id), 0, round))), Record(w, id, true, Some(status)), rx, sent);
      Stepped(s, EndCollection(backfillAfter)) == t && !AnyFailed(t) && (AllSettledNow(t) <==> status.code == Complete)
  {
    hide First, BlocksOf, MissingIds;
    var t := Alone(During(w, id, Deciding(Round(w.meta(id), 0, round))), Record(w, id, true, Some(status)), rx, sent);
    assert Settled(t.members[0].conn) <==> status.code == Complete;
  }

  lemma AgainPlays(w: World, id: uint64, round: uint32, rx: Rx, sent: seq<Report>, status: SectionStatus,
                   maxRounds: uint32)
    requires status.code == Missing && round < maxRounds
    ensures Stepped(Alone(During(w, id, Deciding(Round(w.meta(id), 0, round))), Record(w, id, true, Some(status)), rx,
                          sent),
                    Decide(maxRounds))
         == Alone(During(w, id, Collecting0(w, id, round + 1)), Record(w, id, true, None), rx, sent)
  {
    var s := Alone(During(w, id, Deciding(Round(w.meta(id), 0, round))), Record(w, id, true, Some(status)), rx, sent);
    assert !Settled(s.members[0].conn);
  }

  /** Both multicasts of block 0 are lost in round 0; the repair of round 1 arrives. */
  ghost function RepairScript(w: World, id: uint64): Script
    requires TwoBlocks(w, id)
  {
    Script((round: nat) => (k: nat) => true, (round: nat) => (k: nat) => true, (round: nat) => (k: nat) => true,
           (round: nat) =>
             if round == 0 then [Own(0, EndOfRound(id, 0), Outcome(LackingAtEnd(w, id), []))]
             else if round == 1 then
               [Own(0, Data(DataZero(w, id)), Outcome(Repaired(w, id), [])),
                Own(0, EndOfRound(id, 1), Outcome(RepairedAtEnd(w, id), []))]
             else [],
           (round: nat) =>
             if round == 0 then
               [SentAndRead(2, LackReported(w, id), Status(LackStatus(id)))]
             else if round == 1 then
               [SentAndRead(3, HeldReported(w, id), Status(HeldStatus(id)))]
             else [])
  }

  lemma OnePlays(s: System, input: Input)
    requires input.Own?
    ensures PlayOwn(s, [input]) == PlayInput(s, {}, input)
  {
    hide PlayInput;
    assert [input][1..] == [];
  }

  lemma TwoPlay(s: System, a: Input, b: Input)
    requires a.Own? && b.Own?
    ensures PlayOwn(s, [a, b]) == PlayInput(PlayInput(s, {}, a), {}, b)
  {
    hide PlayInput;
    assert [a, b][1..] == [b];
    OnePlays(PlayInput(s, {}, a), b);
  }

  lemma Quiet(sent: seq<Report>)
    ensures sent + [] == sent
  {
  }

  /** Up to the reports of round 0. */
  lemma FirstRoundPlays(w: World, id: uint64)
    requires TwoBlocks(w, id)
    ensures var s, script := Begun(w, id), RepairScript(w, id);
      var started := Stepped(PlayOwn(s, script.meanwhile(0)), StartSection(0));
      && started.proxy.phase == Collecting0(w, id, 0)
      && Collected(started, script.waits(0), IsFinal(Round(w.meta(id), 0, 0)))
         == Alone(During(w, id, Collecting0(w, id, 0)), Record(w, id, true, Some(LackStatus(id))),
                  LackReported(w, id), First2(id) + [Status(LackStatus(id))])
  {
    hide Collected, Stepped, PlayOwn, PlayInput, IsFinal;
    var s, script, p, c := Begun(w, id), RepairScript(w, id), During(w, id, Phase.Idling), Record(w, id, true, None);
    OnePlays(s, script.meanwhile(0)[0]);
    assert script.meanwhile(0) == [script.meanwhile(0)[0]];
    OwnPlays(p, c, Announced(w, id), First2(id), EndOfRound(id, 0), Outcome(LackingAtEnd(w, id), []));
    Quiet(First2(id));
    StartPlays(w, id, c, LackingAtEnd(w, id), First2(id));
    NotFinal(w, id, 0);
    LackIsWellFormed(id);
    ReportPlays(w, id, 0, LackingAtEnd(w, id), First2(id), LackReported(w, id), LackStatus(id));
  }

  /** From there to the reports of round 1. */
  lemma SecondRoundPlays(w: World, id: uint64)
    requires TwoBlocks(w, id)
    ensures var script, sent := RepairScript(w, id), First2(id) + [Status(LackStatus(id))];
      var u := Alone(During(w, id, Deciding(Round(w.meta(id), 0, 0))), Record(w, id, true, Some(LackStatus(id))),
                     LackReported(w, id), sent);
      && NextOpening(u, script, 1).proxy.phase == Collecting0(w, id, 1)
      && CollectionEnd(NextOpening(u, script, 1), script, 1)
         == Alone(During(w, id, Deciding(Round(w.meta(id), 0, 1))), Record(w, id, true, Some(HeldStatus(id))),
                  HeldReported(w, id), sent + [Status(HeldStatus(id))])
  {
    hide Collected, Stepped, PlayOwn, PlayInput, IsFinal;
    var script, sent := RepairScript(w, id), First2(id) + [Status(LackStatus(id))];
    var p, c := During(w, id, Deciding(Round(w.meta(id), 0, 0))), Record(w, id, true, Some(LackStatus(id)));
    var inputs := script.meanwhile(1);
    assert inputs == [inputs[0], inputs[1]];
    TwoPlay(Alone(p, c, LackReported(w, id), sent), inputs[0], inputs[1]);
    Quiet(sent);
    OwnPlays(p, c, LackReported(w, id), sent, Data(DataZero(w, id)), Outcome(Repaired(w, id), []));
    OwnPlays(p, c, Repaired(w, id), sent, EndOfRound(id, 1), Outcome(RepairedAtEnd(w, id), []));
    AgainPlays(w, id, 0, RepairedAtEnd(w, id), sent, LackStatus(id), 1);
    NotFinal(w, id, 1);
    ReportPlays(w, id, 1, RepairedAtEnd(w, id), sent, HeldReported(w, id), HeldStatus(id));
    EndPlays(w, id, 1, HeldReported(w, id), sent + [Status(HeldStatus(id))], HeldStatus(id), 1);
  }

  // ----- The script can be played

  function Only(rx: Rx, sent: seq<Report>): seq<Peer> {
    [Peer(rx, {}, sent)]
  }

  lemma OwnPossible(w: World, rx: Rx, sent: seq<Report>, event: Event, outcome: Outcome)
    requires HonestEvent(w, event) && Step(w, rx, event, outcome) && !event.KillAfterRename?
    ensures Possible(w, Only(rx, sent), Own(0, event, outcome))
    ensures PlayPeer(Only(rx, sent), Own(0, event, outcome))
         == Only(outcome.rx, sent + outcome.sent)
  {
    hide Step, HonestEvent;
    assert {} + OrphanedBy(rx, event) == {};
  }

  lemma QuietPossible(w: World, rx: Rx, sent: seq<Report>, event: Event, after: Rx)
    requires HonestEvent(w, event) && Step(w, rx, event, Outcome(after, [])) && !event.KillAfterRename?
    ensures Possible(w, Only(rx, sent), Own(0, event, Outcome(after, [])))
    ensures PlayPeer(Only(rx, sent), Own(0, event, Outcome(after, []))) == Only(after, sent)
  {
    hide Step, HonestEvent, Possible, PlayPeer;
    OwnPossible(w, rx, sent, event, Outcome(after, []));
    Quiet(sent);
  }

  lemma OnePossible(w: World, peers: seq<Peer>, input: Input)
    requires Possible(w, peers, input)
    ensures AllPossible(w, peers, [input]) && PlayPeers(peers, [input]) == PlayPeer(peers, input)
  {
    hide Possible, PlayPeer;
    assert [input][1..] == [];
  }

  lemma TwoPossible(w: World, peers: seq<Peer>, a: Input, b: Input)
    requires Possible(w, peers, a) && Possible(w, PlayPeer(peers, a), b)
    ensures AllPossible(w, peers, [a, b]) && PlayPeers(peers, [a, b]) == PlayPeer(PlayPeer(peers, a), b)
  {
    hide Possible, PlayPeer;
    assert [a, b][1..] == [b];
    OnePossible(w, PlayPeer(peers, a), b);
  }

  lemma ReportPossible(w: World, rx: Rx, sent: seq<Report>, after: Rx, report: Report)
    requires Step(w, rx, Timer, Outcome(after, [report]))
    ensures var inputs := Joined([SentAndRead(|sent|, after, report)]);
      AllPossible(w, Only(rx, sent), inputs) && PlayPeers(Only(rx, sent), inputs) == Only(after, sent + [report])
  {
    hide Step;
    var own, frame := Own(0, Timer, Outcome(after, [report])), Frame(0, |sent|, report, true);
    OwnPossible(w, rx, sent, Timer, Outcome(after, [report]));
    TwoPossible(w, Only(rx, sent), own, frame);
    OneWait([own, frame]);
  }

  lemma OneWait(inputs: seq<Input>)
    ensures Joined([inputs]) == inputs
  {
    var waits := [inputs];
    assert waits[1..] == [] && Joined(waits) == inputs + Joined(waits[1..]);
  }

  lemma RepairIsPlayable(w: World, id: uint64)
    requires TwoBlocks(w, id)
    ensures Playable(w, Peers(Begun(w, id)), RepairScript(w, id), 1)
  {
    hide AllPossible, PlayPeers, Possible, PlayPeer, Step;
    var script, sent := RepairScript(w, id), First2(id);
    assert Peers(Begun(w, id)) == Only(Announced(w, id), sent);
    EndSteps(w, id);
    QuietPossible(w, Announced(w, id), sent, EndOfRound(id, 0), LackingAtEnd(w, id));
    OnePossible(w, Only(Announced(w, id), sent), script.meanwhile(0)[0]);
    LackStep(w, id);
    ReportPossible(w, LackingAtEnd(w, id), sent, LackReported(w, id), Status(LackStatus(id)));
    var more := sent + [Status(LackStatus(id))];
    DataStep(w, id);
    QuietPossible(w, LackReported(w, id), more, Data(DataZero(w, id)), Repaired(w, id));
    QuietPossible(w, Repaired(w, id), more, EndOfRound(id, 1), RepairedAtEnd(w, id));
    TwoPossible(w, Only(LackReported(w, id), more), script.meanwhile(1)[0], script.meanwhile(1)[1]);
    HeldStep(w, id);
    ReportPossible(w, RepairedAtEnd(w, id), more, HeldReported(w, id), Status(HeldStatus(id)));
    LastPlayable(w, Only(RepairedAtEnd(w, id), more), script);
    FirstPlayable(w, Only(LackingAtEnd(w, id), sent), script);
  }

  lemma LastPlayable(w: World, peers: seq<Peer>, script: Script)
    requires AllPossible(w, peers, Joined(script.waits(1)))
    ensures PlayableFrom(w, peers, script, 1, 1)
  {
    hide AllPossible;
  }

  lemma FirstPlayable(w: World, peers: seq<Peer>, script: Script)
    requires AllPossible(w, peers, Joined(script.waits(0)))
    requires AllPossible(w, PlayPeers(peers, Joined(script.waits(0))), script.meanwhile(1))
    requires PlayableFrom(w, PlayPeers(PlayPeers(peers, Joined(script.waits(0))), script.meanwhile(1)), script, 1, 1)
    ensures PlayableFrom(w, peers, script, 0, 1)
  {
    hide AllPossible, PlayPeers;
  }

  // ----- A section that is repaired

  /** The state after registration and the metadata phase is one the system reaches. */
  lemma BegunIsReached(w: World, id: uint64) returns (x: Execution)
    requires TwoBlocks(w, id)
    ensures IsExecution(w, x) && InOrder(x) && x.states[|x.actions|] == Begun(w, id)
  {
    hide Initial, SectionBarrier.Next, IsExecution, InOrder;
    var meta := w.meta(id);
    var a := Alone(Proxy(None, false, Phase.Idling, {}, {}), Install(BLANK_CONNECTION, Idle, 0, true),
                   ReceiverSafety.INITIAL,
                   [Register(Idle, 0)]);
    var b := Alone(During(w, id, Phase.Idling), Record(w, id, false, None), ReceiverSafety.INITIAL,
                   [Register(Idle, 0)]);
    var c := Alone(During(w, id, Phase.Idling), Record(w, id, false, None), Announced(w, id), First2(id));
    StartsAlone(w, a);
    x := Execution([a], []);
    assert IsExecution(w, x) && InOrder(x) by {
      NoActions(w, a);
    }
    BeginStep(w, id, a, b);
    x := DirectTransfer.OneStepMore(w, x, OfProxy(BeginTransfer(meta, true)), b);
    TakesMeta(w, id, b, c);
    var told := Outcome(Announced(w, id), [MetaReady(id)]);
    x := DirectTransfer.OneStepMore(w, x, OfMember(0, ReceiverStep(Meta(w, id), told)), c);
    ReadyStep(w, id, c);
    x := DirectTransfer.OneStepMore(w, x, OfMember(0, MetaFrame(MetaReady(id), true)), Begun(w, id));
  }

  lemma NoActions(w: World, s: System)
    requires Initial(w, s)
    ensures IsExecution(w, Execution([s], [])) && InOrder(Execution([s], []))
  {
    hide Initial;
  }

  lemma StartsAlone(w: World, s: System)
    requires s == Alone(Proxy(None, false, Phase.Idling, {}, {}), Install(BLANK_CONNECTION, Idle, 0, true),
                        ReceiverSafety.INITIAL,
                        [Register(Idle, 0)])
    ensures Initial(w, s)
  {
    hide Registered;
    FreshReceiver(w);
  }

  lemma BeginStep(w: World, id: uint64, a: System, b: System)
    requires TwoBlocks(w, id)
    requires a == Alone(Proxy(None, false, Phase.Idling, {}, {}), Install(BLANK_CONNECTION, Idle, 0, true),
                        ReceiverSafety.INITIAL,
                        [Register(Idle, 0)])
    requires b == Alone(During(w, id, Phase.Idling), Record(w, id, false, None), ReceiverSafety.INITIAL,
                        [Register(Idle, 0)])
    ensures PacedNext(w, true, a, OfProxy(BeginTransfer(w.meta(id), true)), b)
  {
    assert SoundFile(w, id);
  }

  lemma TakesMeta(w: World, id: uint64, b: System, c: System)
    requires TwoBlocks(w, id)
    requires b == Alone(During(w, id, Phase.Idling), Record(w, id, false, None), ReceiverSafety.INITIAL,
                        [Register(Idle, 0)])
    requires c == Alone(During(w, id, Phase.Idling), Record(w, id, false, None), Announced(w, id), First2(id))
    ensures PacedNext(w, true, b, OfMember(0, ReceiverStep(Meta(w, id), Outcome(Announced(w, id), [MetaReady(id)]))), c)
  {
    hide Step;
    assert SoundFile(w, id);
    MetaStep(w, id);
    assert {} + OrphanedBy(ReceiverSafety.INITIAL, Meta(w, id)) == {};
  }

  lemma ReadyStep(w: World, id: uint64, c: System)
    requires TwoBlocks(w, id)
    requires c == Alone(During(w, id, Phase.Idling), Record(w, id, false, None), Announced(w, id), First2(id))
    ensures PacedNext(w, true, c, OfMember(0, MetaFrame(MetaReady(id), true)), Begun(w, id))
  {
    assert SoundFile(w, id);
  }

  /** The section has been delivered, and the receiver holds its block. */
  ghost function Delivered(w: World, id: uint64): System
    requires TwoBlocks(w, id)
  {
    Alone(During(w, id, Phase.Idling).(delivered := {0}), Record(w, id, true, Some(HeldStatus(id))),
          HeldReported(w, id),
          First2(id) + [Status(LackStatus(id))] + [Status(HeldStatus(id))])
  }

  /** A section whose only block is lost, is reported missing, is repaired, and is then reported complete
      by a report that did not exist before the section began: `distribute_section` returns Success. */
  lemma RepairedThenDelivered(w: World, id: uint64)
    requires TwoBlocks(w, id)
    ensures Playable(w, Peers(Begun(w, id)), RepairScript(w, id), 1)
    ensures Play(Begun(w, id), 0, RepairScript(w, id), 1, 1) == (Dispatch.Success, Delivered(w, id))
    ensures Status(HeldStatus(id)) !in First2(id)
  {
    RepairIsPlayable(w, id);
    RepairSucceeds(w, id);
  }

  lemma RepairSucceeds(w: World, id: uint64)
    requires TwoBlocks(w, id)
    ensures Play(Begun(w, id), 0, RepairScript(w, id), 1, 1) == (Dispatch.Success, Delivered(w, id))
  {
    hide Collected, Stepped, PlayOwn, PlayInput, IsFinal, NextOpening, Verdict, AllSettledNow, AnyFailed,
      RepairScript, Begun, LackReported, HeldReported, First2, Record;
    var s, script := Begun(w, id), RepairScript(w, id);
    FirstRoundPlays(w, id);
    SecondRoundPlays(w, id);
    var sent := First2(id) + [Status(LackStatus(id))];
    var started := Stepped(PlayOwn(s, script.meanwhile(0)), StartSection(0));
    var u := CollectionEnd(started, script, 1);
    EndPlays(w, id, 0, LackReported(w, id), sent, LackStatus(id), 1);
    var v := CollectionEnd(NextOpening(u, script, 1), script, 1);
    EndPlays(w, id, 1, HeldReported(w, id), sent + [Status(HeldStatus(id))], HeldStatus(id), 1);
    VerdictUnfolds(started, script, 1, 1);
    VerdictUnfolds(NextOpening(u, script, 1), script, 1, 1);
    LastDecision(v, 1);
    assert {} + {0 as uint32} == {0 as uint32};
    assert AllSettledNow(v) && Stepped(v, Decide(1)) == Delivered(w, id);
  }

  // ----- A receiver that backfill cannot complete

  function QuietScript(): Script {
    Script((round: nat) => (k: nat) => true, (round: nat) => (k: nat) => true, (round: nat) => (k: nat) => true,
           (round: nat) => [], (round: nat) => [])
  }

  /** Section 0 as before, but the repair never comes; then section 1, all of it lost. */
  ghost function LossyScripts(w: World, id: uint64): nat -> Script
    requires TwoBlocks(w, id)
  {
    (section: nat) => if section == 0 then RepairScript(w, id) else QuietScript()
  }

  /** The record of the receiver, isolated with block 0 on its list. */
  function IsolatedRecord(w: World, id: uint64, status: Option<SectionStatus>): Conn {
    Record(w, id, true, status).(isolated := true, backfill := {0})
  }

  function LossySent(id: uint64): seq<Report> {
    First2(id) + [Status(LackStatus(id))]
  }

  function SetAsideAfter(w: World, id: uint64, delivered: set<uint32>, status: Option<SectionStatus>): System {
    Alone(During(w, id, Phase.Idling).(delivered := delivered), IsolatedRecord(w, id, status), LackReported(w, id),
          LossySent(id))
  }

  lemma MissingOne()
    ensures MissingIds([1], 0, 1) == {0}
  {
    hide HasBit;
    BitOfOne(0);
    assert Marked([1], 0);
    assert (set k | 0 <= k < 1 && Marked([1], k) :: 0 + k) == {0 + 0};
  }

  lemma IsolatePlays(w: World, id: uint64, rx: Rx, sent: seq<Report>)
    requires TwoBlocks(w, id)
    ensures var s := Alone(During(w, id, Collecting0(w, id, 0)), Record(w, id, true, Some(LackStatus(id))), rx, sent);
      var t := Alone(During(w, id, Deciding(Round(w.meta(id), 0, 0))), IsolatedRecord(w, id, Some(LackStatus(id))), rx,
                     sent);
      Stepped(s, EndCollection(0)) == t && !AnyFailed(t) && AllSettledNow(t)
  {
    hide First, BlocksOf, MissingIds;
    TwoBlocksFit();
    MissingOne();
    var s := Alone(During(w, id, Collecting0(w, id, 0)), Record(w, id, true, Some(LackStatus(id))), rx, sent);
    var c := Isolate(s.members[0].conn, 0, 1, 0, 0);
    assert {} + {0 as nat} == {0 as nat};
    assert c == IsolatedRecord(w, id, Some(LackStatus(id)));
  }

  lemma FirstSectionLossy(w: World, id: uint64)
    requires TwoBlocks(w, id)
    ensures Play(Begun(w, id), 0, RepairScript(w, id), 1, 0)
         == (Dispatch.Success, SetAsideAfter(w, id, {0}, Some(LackStatus(id))))
  {
    hide Collected, Stepped, PlayOwn, PlayInput, IsFinal, NextOpening, Verdict, AllSettledNow, AnyFailed,
      RepairScript, Begun, LackReported, First2, Record;
    var s, script := Begun(w, id), RepairScript(w, id);
    FirstRoundPlays(w, id);
    var started := Stepped(PlayOwn(s, script.meanwhile(0)), StartSection(0));
    var u := CollectionEnd(started, script, 0);
    IsolatePlays(w, id, LackReported(w, id), LossySent(id));
    VerdictUnfolds(started, script, 1, 0);
    LastDecision(u, 1);
    assert {} + {0 as uint32} == {0 as uint32};
    assert Stepped(u, Decide(1)) == SetAsideAfter(w, id, {0}, Some(LackStatus(id)));
  }

  /** A section of which an isolated receiver hears nothing. */
  lemma SecondSectionLossy(w: World, id: uint64)
    requires TwoBlocks(w, id)
    ensures Play(SetAsideAfter(w, id, {0}, Some(LackStatus(id))), 1, QuietScript(), 1, 0)
         == (Dispatch.Success, SetAsideAfter(w, id, {0, 1}, None))
  {
    hide IsFinal, NextOpening, Verdict, RepairScript, LackReported, First2, First, BlocksOf, MissingIds;
    var s, script := SetAsideAfter(w, id, {0}, Some(LackStatus(id))), QuietScript();
    var started := Stepped(s, StartSection(1));
    var p := During(w, id, Collecting(Round(w.meta(id), 1, 0))).(delivered := {0});
    assert started == Alone(p, IsolatedRecord(w, id, None), LackReported(w, id), LossySent(id));
    var u := CollectionEnd(started, script, 0);
    assert u == Alone(p.(phase := Deciding(Round(w.meta(id), 1, 0))), IsolatedRecord(w, id, None), LackReported(w, id),
                      LossySent(id));
    assert AllSettledNow(u) && !AnyFailed(u);
    VerdictUnfolds(started, script, 1, 0);
    LastDecision(u, 1);
    assert {0 as uint32} + {1} == {0, 1};
    assert Stepped(u, Decide(1)) == SetAsideAfter(w, id, {0, 1}, None);
  }

  lemma SectionPlays(w: World, s: System, section: uint32, scripts: nat -> Script, t: System)
    requires DirectTransfer.Transferring(s, TWO_BLOCKS) && section < 2 && !DirectTransfer.AllFinished(s)
    requires Playable(w, Peers(s), scripts(section), 1)
    requires Play(s, section, scripts(section), 1, 0) == (Dispatch.Success, t)
    ensures Count(TWO_BLOCKS) == 2 && DirectTransfer.Transferring(t, TWO_BLOCKS)
    ensures DirectTransfer.PlayFrom(s, TWO_BLOCKS, section, scripts, 1, 0)
         == DirectTransfer.PlayFrom(t, TWO_BLOCKS, section + 1, scripts, 1, 0)
    ensures DirectTransfer.AllPlayable(w, t, TWO_BLOCKS, section + 1, scripts, 1, 0) ==>
              DirectTransfer.AllPlayable(w, s, TWO_BLOCKS, section, scripts, 1, 0)
  {
    hide Play, Playable, Peers, DirectTransfer.AllFinished;
    TwoBlocksFit();
    DirectTransfer.PlayProxy(s, TWO_BLOCKS, section, scripts(section), 1, 0);
  }

  /** Both sections count as delivered, with the receiver set aside. */
  lemma LossyTransferPlays(w: World, id: uint64)
    requires TwoBlocks(w, id)
    ensures DirectTransfer.Transferring(Begun(w, id), TWO_BLOCKS)
    ensures DirectTransfer.AllPlayable(w, Begun(w, id), TWO_BLOCKS, 0, LossyScripts(w, id), 1, 0)
    ensures DirectTransfer.PlayFrom(Begun(w, id), TWO_BLOCKS, 0, LossyScripts(w, id), 1, 0)
         == (Dispatch.Success, SetAsideAfter(w, id, {0, 1}, None))
  {
    hide Play, Playable, RepairScript, LackReported, First2, SectionCount, Peers;
    TwoBlocksFit();
    var s, t, u := Begun(w, id), SetAsideAfter(w, id, {0}, Some(LackStatus(id))), SetAsideAfter(w, id, {0, 1}, None);
    assert !DirectTransfer.Finished(s.members[0].conn) && !DirectTransfer.Finished(t.members[0].conn);
    hide DirectTransfer.PlayFrom, DirectTransfer.AllPlayable, DirectTransfer.AllFinished;
    FirstSectionLossy(w, id);
    SecondSectionLossy(w, id);
    RepairIsPlayable(w, id);
    QuietIsPlayable(w, Peers(t));
    SectionPlays(w, s, 0, LossyScripts(w, id), t);
    SectionPlays(w, t, 1, LossyScripts(w, id), u);
    NoSectionLeft(w, u, LossyScripts(w, id));
  }

  lemma NoSectionLeft(w: World, s: System, scripts: nat -> Script)
    requires DirectTransfer.Transferring(s, TWO_BLOCKS)
    ensures DirectTransfer.PlayFrom(s, TWO_BLOCKS, 2, scripts, 1, 0) == (Dispatch.Success, s)
    ensures DirectTransfer.AllPlayable(w, s, TWO_BLOCKS, 2, scripts, 1, 0)
  {
    TwoBlocksFit();
  }

  lemma QuietIsPlayable(w: World, peers: seq<Peer>)
    ensures Playable(w, peers, QuietScript(), 1)
  {
  }

  lemma StepOn(w: World, rx: Rx, e: Event, result: Outcome)
    requires Sound(w) && Inv(w, rx, {}) && HonestEvent(w, e) && Step(w, rx, e, result) && !e.KillAfterRename?
    ensures Inv(w, result.rx, {})
  {
    hide Inv, Step, HonestEvent;
    assert {} + OrphanedBy(rx, e) == {};
    StepKeeps(w, rx, e, result, {});
  }

  /** The receiver is in a state its own run allows. */
  lemma LackIsReached(w: World, id: uint64)
    requires TwoBlocks(w, id)
    ensures Inv(w, LackReported(w, id), {})
  {
    hide Inv, Step, LackReported, LackingAtEnd, Announced;
    assert SoundFile(w, id);
    InitialInv(w);
    MetaStep(w, id);
    StepOn(w, ReceiverSafety.INITIAL, Meta(w, id), Outcome(Announced(w, id), [MetaReady(id)]));
    EndSteps(w, id);
    StepOn(w, Announced(w, id), EndOfRound(id, 0), Outcome(LackingAtEnd(w, id), []));
    LackStep(w, id);
    StepOn(w, LackingAtEnd(w, id), Timer, Outcome(LackReported(w, id), [Status(LackStatus(id))]));
  }

  /** What backfill of the listed block 0 brings about. */
  ghost function BackfillReply(w: World, id: uint64): Outcome
    requires TwoBlocks(w, id)
  {
    assert SoundFile(w, id);
    OnBackfillEnd(ReceiverOrder.ArriveAll(LackReported(w, id), Backfill.Frames(w, id, [0])), w.meta(id), w.sha)
  }

  lemma BackfillAnswersFailed(w: World, id: uint64)
    requires TwoBlocks(w, id)
    ensures var sent := BackfillReply(w, id).sent; |sent| == 1 && sent[0].Status? && sent[0].status.code == Failed
  {
    hide Inv, Backfill.Frames, ReceiverOrder.ArriveAll, OnBackfillEnd;
    assert SoundFile(w, id);
    LackIsReached(w, id);
    TwoBlocksFit();
    var none := [false, false];
    assert !none[1] && !Backfill.Listed([0], 1);
    Backfill.BackfillCompletesIff(w, LackReported(w, id), [0], {});
  }

  lemma FailureDoesNotComplete(c: Conn, meta: FileMeta, reply: Report)
    requires !c.completed && reply.Status?
    ensures !Backfill.AwaitResult(c, meta, [reply], true).completed
  {
    assert [reply][1..] == [];
  }

  /** A receiver isolated in section 0 that also lacks the block of section 1: `distribute_section`
      succeeds for both sections, the list names block 0 alone, the receiver answers that it failed, and
      the proxy does not complete it. */
  lemma BackfillFallsShort(w: World, id: uint64)
    requires TwoBlocks(w, id)
    ensures DirectTransfer.Transferring(Begun(w, id), TWO_BLOCKS)
    ensures DirectTransfer.PlayFrom(Begun(w, id), TWO_BLOCKS, 0, LossyScripts(w, id), 1, 0)
         == (Dispatch.Success, SetAsideAfter(w, id, {0, 1}, None))
    ensures IsolatedRecord(w, id, None).backfill == {0} && !LackReported(w, id).transfer.value.received[1]
    ensures BackfillReply(w, id).sent != [] && BackfillReply(w, id).sent[0].Status?
    ensures !Backfill.AwaitResult(IsolatedRecord(w, id, None), w.meta(id), BackfillReply(w, id).sent, true).completed
  {
    hide DirectTransfer.PlayFrom, BackfillReply, Backfill.AwaitResult, LossyScripts;
    LossyTransferPlays(w, id);
    BackfillAnswersFailed(w, id);
    var sent := BackfillReply(w, id).sent;
    assert sent == [sent[0]];
    FailureDoesNotComplete(IsolatedRecord(w, id, None), w.meta(id), sent[0]);
  }
}
