/** Two runs with a fault in them, from registration on: a receiver killed inside its publication that
    reports a digest mismatch, and a completion flag left over when the next file is found in the cache. */
module FaultScenarios {
  import opened Common
  import opened Reports
  import opened Sections
  import opened Messages
  import opened Crc32
  import opened Connections
  import opened Receiver
  import opened ReceiverSafety
  import opened SectionBarrier
  import opened SectionScript
  import opened SectionRounds
  import opened ReportOrder
  import opened Scenarios
  import DirectTransfer
  import Dispatch
  import DispatchedTransfer

  // ----- One receiver

  function Lone(p: Proxy, m: Member): System {
    System(p, [m])
  }

  function AfterOwn(m: Member, event: Event, outcome: Outcome): Member {
    m.(rx := outcome.rx, orphaned := m.orphaned + OrphanedBy(m.rx, event), sent := m.sent + outcome.sent)
  }

  /** An execution in which sections come in order, and where it has got to. */
  ghost predicate Reached(w: World, x: Execution, p: Proxy, m: Member) {
    IsExecution(w, x) && InOrder(x) && x.states[|x.actions|] == Lone(p, m)
  }

  /** It goes on by a step of the receiver, ... */
  lemma ByReceiver(w: World, x: Execution, p: Proxy, m: Member, event: Event, outcome: Outcome) returns (y: Execution)
    requires Reached(w, x, p, m) && HonestEvent(w, event) && Step(w, m.rx, event, outcome)
    ensures Reached(w, y, p, AfterOwn(m, event, outcome))
  {
    hide Initial, ExecutionStep, InOrder, HonestEvent, Step, OrphanedBy;
    y := DirectTransfer.OneStepMore(w, x, OfMember(0, ReceiverStep(event, outcome)),
                                    Lone(p, AfterOwn(m, event, outcome)));
  }

  /** ... by a step that changes its record, ... */
  lemma ByRecord(w: World, x: Execution, p: Proxy, m: Member, a: MemberAction, n: Member) returns (y: Execution)
    requires Reached(w, x, p, m) && MemberStep(w, p, m, a, n)
    ensures Reached(w, y, p, n)
  {
    hide Initial, ExecutionStep, InOrder, MemberStep;
    y := DirectTransfer.OneStepMore(w, x, OfMember(0, a), Lone(p, n));
  }

  /** ... or by a step of the proxy. */
  lemma ByProxy(w: World, x: Execution, p: Proxy, m: Member, a: ProxyAction) returns (y: Execution)
    requires Reached(w, x, p, m) && ProxyEnabled(w, Lone(p, m), a)
    requires a.StartSection? ==> AllBelow(p.delivered, a.section)
    ensures Reached(w, y, ProxyAfter(Lone(p, m), a), MemberAfter(Lone(p, m), a, m))
  {
    hide Initial, ExecutionStep, InOrder, ProxyEnabled, ProxyAfter, MemberAfter;
    y := DirectTransfer.OneStepMore(w, x, OfProxy(a), Lone(ProxyAfter(Lone(p, m), a), MemberAfter(Lone(p, m), a, m)));
  }

  // ----- A publication that is cut short

  /** The digest tells the file from an empty one. */
  ghost predicate Telling(w: World, id: uint64) {
    TwoBlocks(w, id) && w.sha(Zeros(TWO_BLOCKS)) != w.meta(id).sha256
  }

  function SomeFile(): (source: Content)
    ensures FullSize(source, TWO_BLOCKS) && source != Zeros(TWO_BLOCKS)
  {
    TwoBlocksFit();
    var source := Zeros(TWO_BLOCKS)[1 := [1]];
    assert Zeros(TWO_BLOCKS)[1][0] == 0 && source[1][0] == 1;
    source
  }

  function DigestOf(c: Content, source: Content): Digest {
    if c == source then [1] else []
  }

  function TellingWorld(source: Content): World {
    World((id: uint64) => FileMeta(id, TWO_BLOCKS, "f", [1]), (id: uint64) => source,
          (c: Content) => DigestOf(c, source))
  }

  lemma TellsApart(source: Content, id: uint64)
    requires FullSize(source, TWO_BLOCKS) && Valid(TWO_BLOCKS)
    ensures SoundFile(TellingWorld(source), id) && TellingWorld(source).meta(id).geometry == TWO_BLOCKS
    ensures forall c: Content :: c != source ==> TellingWorld(source).sha(c) != TellingWorld(source).meta(id).sha256
  {
    hide FullSize, Valid;
  }

  lemma TellingExists(id: uint64)
    ensures exists w :: Telling(w, id)
  {
    hide FullSize, Valid, Zeros, TellingWorld, SoundFile, SomeFile;
    TwoBlocksFit();
    var source := SomeFile();
    forall i: uint64 ensures SoundFile(TellingWorld(source), i) {
      TellsApart(source, i);
    }
    TellsApart(source, id);
    assert Telling(TellingWorld(source), id);
  }

  /** A transfer in which nothing has been announced yet. */
  function Fresh(w: World, id: uint64, received: seq<bool>, count: nat): Transfer {
    FreshTransfer(w.meta(id), received, count)
  }

  function BothMarked(w: World, id: uint64): SavedState {
    SavedState(w.meta(id), 2, [true, true])
  }

  ghost function HoldsFirst(w: World, id: uint64): Rx
    requires TwoBlocks(w, id)
  {
    ReceiverWith(Fresh(w, id, [true, false], 1), BlockZero(w, id), false, 0)
  }

  function HoldsBoth(w: World, id: uint64): Rx {
    ReceiverWith(Fresh(w, id, [true, true], 2), Files(Some(w.source(id)), None), false, 0)
  }

  /** The part file with the state file beside it; the file itself has been published. */
  function Leftovers(w: World, id: uint64, part: Option<Content>): Disk {
    Disk(map[id := Files(part, Some(BothMarked(w, id)))], map[id := w.source(id)])
  }

  function Killed(disk: Disk): Rx {
    Rx(None, false, 0, disk)
  }

  function Reloaded(w: World, id: uint64, received: seq<bool>, count: nat): Rx {
    Rx(Some(Fresh(w, id, received, count)), false, 0, Leftovers(w, id, Some(Zeros(TWO_BLOCKS))))
  }

  ghost function DataOne(w: World, id: uint64): DataPacket
    requires TwoBlocks(w, id)
  {
    assert SoundFile(w, id);
    DataPacket(id, 1, 1, 1200, Crc(w.source(id)[1]), w.source(id)[1])
  }

  lemma FirstComes(w: World, id: uint64)
    requires TwoBlocks(w, id)
    ensures HonestEvent(w, Data(DataZero(w, id)))
    ensures Step(w, Announced(w, id), Data(DataZero(w, id)), Outcome(HoldsFirst(w, id), []))
  {
    hide Crc, SectionBlockCount;
    TwoBlocksFit();
    assert SoundFile(w, id);
    var payload := w.source(id)[0];
    assert EqualOutside(payload, payload, 0);
    assert [false, false][0 := true] == [true, false];
  }

  lemma SecondComes(w: World, id: uint64)
    requires TwoBlocks(w, id)
    ensures HonestEvent(w, Data(DataOne(w, id)))
    ensures Step(w, HoldsFirst(w, id), Data(DataOne(w, id)), Outcome(HoldsBoth(w, id), []))
  {
    hide Crc, SectionBlockCount;
    TwoBlocksFit();
    assert SoundFile(w, id);
    var payload := w.source(id)[1];
    assert EqualOutside(payload, payload, 0);
    assert [true, false][1 := true] == [true, true];
    assert Zeros(TWO_BLOCKS)[0 := w.source(id)[0]][1 := payload] == w.source(id);
  }

  lemma CutShort(w: World, id: uint64)
    requires TwoBlocks(w, id)
    ensures Step(w, HoldsBoth(w, id), KillAfterRename(true),
                 Outcome(Killed(Leftovers(w, id, None)), [Register(Idle, 0)]))
    ensures OrphanedBy(HoldsBoth(w, id), KillAfterRename(true)) == {id}
  {
    TwoBlocksFit();
    assert SoundFile(w, id);
  }

  lemma TruncatedThenLoaded(w: World, id: uint64)
    requires TwoBlocks(w, id)
    ensures Step(w, Killed(Leftovers(w, id, None)), Meta(w, id),
                 Outcome(Reloaded(w, id, [false, false], 0), [MetaReady(id)]))
    ensures Step(w, Reloaded(w, id, [false, false], 0), Kill,
                 Outcome(Killed(Leftovers(w, id, Some(Zeros(TWO_BLOCKS)))), [Register(Idle, 0)]))
    ensures Step(w, Killed(Leftovers(w, id, Some(Zeros(TWO_BLOCKS)))), Meta(w, id),
                 Outcome(Reloaded(w, id, [true, true], 2), [MetaReady(id)]))
  {
    TwoBlocksFit();
    assert SoundFile(w, id);
    assert seq(2, _ => false) == [false, false];
    assert CountTrue([true]) == 1 by {
      assert [true][..0] == [];
    }
    assert [true, true][..1] == [true];
  }

  // ----- A receiver under suspicion

  function Given(w: World, id: uint64, ready: bool, rx: Rx, orphaned: set<uint64>, sent: seq<Report>): Member {
    Member(Record(w, id, ready, None), false, None, rx, orphaned, sent)
  }

  function Log(id: uint64, n: nat): seq<Report>
    requires n <= 6
  {
    [Register(Idle, 0), MetaReady(id), Register(Idle, 0), MetaReady(id), Register(Idle, 0), MetaReady(id)][..n]
  }

  lemma LogGrows(id: uint64)
    ensures First2(id) == Log(id, 2) && Log(id, 2) + [Register(Idle, 0)] == Log(id, 3)
    ensures Log(id, 3) + [MetaReady(id)] == Log(id, 4) && Log(id, 4) + [Register(Idle, 0)] == Log(id, 5)
    ensures Log(id, 5) + [MetaReady(id)] == Log(id, 6)
  {
  }

  /** Killed inside the publication, truncated, killed and reloaded: all blocks are marked and none is there. */
  function Suspect(w: World, id: uint64): System {
    Lone(During(w, id, Phase.Idling), Given(w, id, true, Reloaded(w, id, [true, true], 2), {id}, Log(id, 6)))
  }

  /** Between registration and the first section. */
  ghost predicate Arrived(w: World, id: uint64, x: Execution, ready: bool, rx: Rx, orphaned: set<uint64>,
                          sent: seq<Report>)
  {
    Reached(w, x, During(w, id, Phase.Idling), Given(w, id, ready, rx, orphaned, sent))
  }

  lemma RecordReset(w: World, id: uint64, ready: bool)
    requires SoundFile(w, id)
    ensures Install(Record(w, id, ready, None), Idle, 0, true) == Record(w, id, false, None)
  {
  }

  lemma ComesBack(w: World, id: uint64, ready: bool, rx: Rx, orphaned: set<uint64>, sent: seq<Report>, x: Execution)
    returns (y: Execution)
    requires Arrived(w, id, x, ready, rx, orphaned, sent) && Register(Idle, 0) in sent && SoundFile(w, id)
    ensures Arrived(w, id, y, false, rx, orphaned, sent)
  {
    hide Reached, Install;
    RecordReset(w, id, ready);
    y := ByRecord(w, x, During(w, id, Phase.Idling), Given(w, id, ready, rx, orphaned, sent),
                  ReconnectFrom(Idle, 0, true),
                  Given(w, id, false, rx, orphaned, sent));
  }

  lemma StepsOn(w: World, id: uint64, ready: bool, rx: Rx, orphaned: set<uint64>, sent: seq<Report>, x: Execution,
                event: Event, outcome: Outcome, after: set<uint64>)
    returns (y: Execution)
    requires Arrived(w, id, x, ready, rx, orphaned, sent) && HonestEvent(w, event) && Step(w, rx, event, outcome)
    requires after == orphaned + OrphanedBy(rx, event)
    ensures Arrived(w, id, y, ready, outcome.rx, after, sent + outcome.sent)
  {
    hide Reached, Step, HonestEvent, OrphanedBy;
    y := ByReceiver(w, x, During(w, id, Phase.Idling), Given(w, id, ready, rx, orphaned, sent), event, outcome);
  }

  lemma IsReady(w: World, id: uint64, rx: Rx, orphaned: set<uint64>, sent: seq<Report>, x: Execution)
    returns (y: Execution)
    requires Arrived(w, id, x, false, rx, orphaned, sent) && MetaReady(id) in sent && SoundFile(w, id)
    ensures Arrived(w, id, y, true, rx, orphaned, sent)
  {
    hide Reached;
    y := ByRecord(w, x, During(w, id, Phase.Idling), Given(w, id, false, rx, orphaned, sent),
                  MetaFrame(MetaReady(id), true),
                  Given(w, id, true, rx, orphaned, sent));
  }

  lemma CutIsReached(w: World, id: uint64) returns (x: Execution)
    requires TwoBlocks(w, id)
    ensures Arrived(w, id, x, false, Killed(Leftovers(w, id, None)), {id}, Log(id, 3))
  {
    hide Step, HonestEvent, Arrived, Announced, HoldsFirst, HoldsBoth, Leftovers, Log, First2, OrphanedBy, DataZero,
      DataOne;
    assert SoundFile(w, id);
    MetaIsHonest(w, id);
    LogGrows(id);
    LogHas(id);
    x := BegunArrives(w, id);
    FirstComes(w, id);
    SecondComes(w, id);
    CutShort(w, id);
    NoOrphans(Announced(w, id), Data(DataZero(w, id)));
    NoOrphans(HoldsFirst(w, id), Data(DataOne(w, id)));
    var first, both, cut := Outcome(HoldsFirst(w, id), []), Outcome(HoldsBoth(w, id), []),
                            Outcome(Killed(Leftovers(w, id, None)), [Register(Idle, 0)]);
    x := StepsOn(w, id, true, Announced(w, id), {}, Log(id, 2), x, Data(DataZero(w, id)), first, {});
    x := StepsOn(w, id, true, first.rx, {}, Log(id, 2) + [], x, Data(DataOne(w, id)), both, {});
    x := StepsOn(w, id, true, both.rx, {}, Log(id, 2) + [] + [], x, KillAfterRename(true), cut, {id});
    assert Log(id, 2) + [] + [] + [Register(Idle, 0)] == Log(id, 3);
    x := ComesBack(w, id, true, cut.rx, {id}, Log(id, 3), x);
  }

  lemma NoOrphans(rx: Rx, event: Event)
    requires !event.KillAfterRename?
    ensures OrphanedBy(rx, event) == {} && {} + OrphanedBy(rx, event) == {}
  {
  }

  lemma BegunArrives(w: World, id: uint64) returns (x: Execution)
    requires TwoBlocks(w, id)
    ensures Arrived(w, id, x, true, Announced(w, id), {}, Log(id, 2))
  {
    hide IsExecution, InOrder, Announced, First2, Log;
    LogGrows(id);
    BegunIs(w, id);
    x := BegunIsReached(w, id);
  }

  lemma SuspectIsReached(w: World, id: uint64) returns (x: Execution)
    requires TwoBlocks(w, id)
    ensures Arrived(w, id, x, true, Reloaded(w, id, [true, true], 2), {id}, Log(id, 6))
  {
    hide Step, HonestEvent, Arrived, Leftovers, Reloaded, Log, OrphanedBy;
    assert SoundFile(w, id);
    MetaIsHonest(w, id);
    LogGrows(id);
    LogHas(id);
    x := CutIsReached(w, id);
    TruncatedThenLoaded(w, id);
    var truncated, again := Reloaded(w, id, [false, false], 0), Killed(Leftovers(w, id, Some(Zeros(TWO_BLOCKS))));
    var loaded := Outcome(Reloaded(w, id, [true, true], 2), [MetaReady(id)]);
    NoOrphans(Killed(Leftovers(w, id, None)), Meta(w, id));
    NoOrphans(truncated, Kill);
    NoOrphans(again, Meta(w, id));
    x := StepsOn(w, id, false, Killed(Leftovers(w, id, None)), {id}, Log(id, 3), x, Meta(w, id),
                 Outcome(truncated, [MetaReady(id)]), {id});
    x := StepsOn(w, id, false, truncated, {id}, Log(id, 4), x, Kill, Outcome(again, [Register(Idle, 0)]), {id});
    x := ComesBack(w, id, false, again, {id}, Log(id, 5), x);
    x := StepsOn(w, id, false, again, {id}, Log(id, 5), x, Meta(w, id), loaded, {id});
    x := IsReady(w, id, loaded.rx, {id}, Log(id, 6), x);
  }

  lemma MetaIsHonest(w: World, id: uint64)
    requires SoundFile(w, id)
    ensures HonestEvent(w, Meta(w, id)) && HonestEvent(w, Kill) && HonestEvent(w, KillAfterRename(true))
  {
  }

  lemma LogHas(id: uint64)
    ensures Register(Idle, 0) in Log(id, 3) && Register(Idle, 0) in Log(id, 5) && MetaReady(id) in Log(id, 6)
  {
    assert Log(id, 3)[0] == Log(id, 5)[0] == Register(Idle, 0) && Log(id, 6)[1] == MetaReady(id);
  }

  lemma BegunIs(w: World, id: uint64)
    ensures Begun(w, id) == Lone(During(w, id, Phase.Idling), Given(w, id, true, Announced(w, id), {}, First2(id)))
  {
    hide Announced, First2;
  }

  // ----- The mismatch

  function SuspectAtEnd(w: World, id: uint64): Rx {
    var rx := Reloaded(w, id, [true, true], 2);
    rx.(transfer := Some(rx.transfer.value.(activeSection := Some(0), lastEndRound := Some(0))), draining := true)
  }

  function MismatchFound(w: World, id: uint64): Rx {
    var rx := SuspectAtEnd(w, id);
    rx.(transfer := Some(rx.transfer.value.(lastReported := Some(0), shaFailed := true)), draining := false)
  }

  function MismatchStatus(id: uint64): SectionStatus {
    SectionStatus(id, 0, 0, StatusCode.Failed, 0, [])
  }

  /** SECTION_END of section 0 arrives, and the drain finds everything in place but the digest. */
  function MismatchScript(w: World, id: uint64): Script {
    Script((round: nat) => (k: nat) => true, (round: nat) => (k: nat) => true, (round: nat) => (k: nat) => true,
           (round: nat) => if round == 0 then [Own(0, EndOfRound(id, 0), Outcome(SuspectAtEnd(w, id), []))] else [],
           (round: nat) =>
             if round == 0 then [SentAndRead(6, MismatchFound(w, id), Status(MismatchStatus(id)))] else [])
  }

  lemma SuspectDrains(w: World, id: uint64)
    requires TwoBlocks(w, id)
    ensures Step(w, Reloaded(w, id, [true, true], 2), EndOfRound(id, 0), Outcome(SuspectAtEnd(w, id), []))
  {
    hide Zeros, SectionBlockCount;
    TwoBlocksFit();
    assert SoundFile(w, id);
  }

  lemma SuspectFails(w: World, id: uint64)
    requires Telling(w, id)
    ensures Step(w, SuspectAtEnd(w, id), Timer, Outcome(MismatchFound(w, id), [Status(MismatchStatus(id))]))
  {
    hide Zeros, SectionBlockCount, Reports.Reports, CountUnreceived;
    TwoBlocksFit();
    assert SoundFile(w, id);
    var rx := SuspectAtEnd(w, id);
    assert SectionReceived(rx.transfer.value.received, (0, 1));
  }

  // ----- How it plays

  lemma LonePlays(p: Proxy, m: Member, watched: set<nat>, event: Event, outcome: Outcome)
    ensures PlayInput(Lone(p, m), watched, Own(0, event, outcome)) == Lone(p, AfterOwn(m, event, outcome))
  {
    hide OrphanedBy;
  }

  lemma LoneReads(p: Proxy, m: Member, at: nat, report: Report)
    requires p.phase.Collecting?
    ensures PlayInput(Lone(p, m), {0}, Frame(0, at, report, true))
         == Lone(p, WithConn(p, m, HandleReport(m.conn, p.phase.round, report, true)))
  {
    hide HandleReport, WithConn;
  }

  lemma LoneWatched(p: Proxy, m: Member)
    requires Active(m.conn) && !m.conn.statusReceived
    ensures WatchList(Lone(p, m)) == {0} && !AllAnswered(Lone(p, m), false)
  {
    var s := Lone(p, m);
    assert s.members[0] == m && !RoundDone(s.members[0].conn, false);
  }

  /** One wait in which a report is sent and read. */
  lemma LoneCollects(p: Proxy, m: Member, after: Rx, report: Report)
    requires p.phase.Collecting? && Active(m.conn) && !m.conn.statusReceived
    ensures var n := AfterOwn(m, Timer, Outcome(after, [report]));
      Collected(Lone(p, m), [SentAndRead(|m.sent|, after, report)], false)
      == Lone(p, WithConn(p, n, HandleReport(n.conn, p.phase.round, report, true)))
  {
    hide HandleReport, WithConn, PlayInput, AllAnswered, WatchList, AfterOwn;
    var n := AfterOwn(m, Timer, Outcome(after, [report]));
    var inputs := SentAndRead(|m.sent|, after, report);
    LoneWatched(p, m);
    OneCollection(Lone(p, m), inputs);
    LonePlays(p, m, {0}, Timer, Outcome(after, [report]));
    LoneReads(p, n, |m.sent|, report);
    assert inputs[1..] == [Frame(0, |m.sent|, report, true)] && inputs[1..][1..] == [];
    assert PlayWait(Lone(p, m), {0}, inputs) == PlayWait(Lone(p, n), {0}, inputs[1..]);
  }

  function Failing(w: World, id: uint64, phase: Phase): System {
    Lone(During(w, id, phase),
         Member(Record(w, id, true, Some(MismatchStatus(id))), false, None, MismatchFound(w, id), {id},
                Log(id, 6) + [Status(MismatchStatus(id))]))
  }

  lemma MismatchCollected(w: World, id: uint64)
    requires TwoBlocks(w, id)
    ensures var p := During(w, id, Collecting0(w, id, 0));
      Collected(Lone(p, Given(w, id, true, SuspectAtEnd(w, id), {id}, Log(id, 6))), MismatchScript(w, id).waits(0),
                false)
      == Failing(w, id, Collecting0(w, id, 0))
  {
    hide Collected, HandleReport, SuspectAtEnd, MismatchFound, Log;
    var p := During(w, id, Collecting0(w, id, 0));
    var m := Given(w, id, true, SuspectAtEnd(w, id), {id}, Log(id, 6));
    assert |Log(id, 6)| == 6 by {
      LogLength(id);
    }
    LoneCollects(p, m, MismatchFound(w, id), Status(MismatchStatus(id)));
    StatusKept(w, id, 0, MismatchStatus(id));
    NoOrphans(SuspectAtEnd(w, id), Timer);
    assert {id} + {} == {id};
    assert MismatchScript(w, id).waits(0) == [SentAndRead(6, MismatchFound(w, id), Status(MismatchStatus(id)))];
  }

  lemma LogLength(id: uint64)
    ensures |Log(id, 6)| == 6
  {
  }

  lemma MismatchEnds(w: World, id: uint64)
    ensures Stepped(Failing(w, id, Collecting0(w, id, 0)), EndCollection(1)) == Failing(w, id, Phase.Idling)
    ensures AnyFailed(Failing(w, id, Phase.Idling))
  {
    hide MismatchFound, Log;
    var s := Failing(w, id, Collecting0(w, id, 0));
    assert Reported(s.members[0].conn, StatusCode.Failed);
    assert Reported(Failing(w, id, Phase.Idling).members[0].conn, StatusCode.Failed);
  }

  lemma SuspectStarts(w: World, id: uint64)
    requires TwoBlocks(w, id)
    ensures Stepped(PlayOwn(Suspect(w, id), MismatchScript(w, id).meanwhile(0)), StartSection(0))
         == Lone(During(w, id, Collecting0(w, id, 0)), Given(w, id, true, SuspectAtEnd(w, id), {id}, Log(id, 6)))
  {
    hide PlayInput, SuspectAtEnd, Reloaded, Log;
    var p, m := During(w, id, Phase.Idling), Given(w, id, true, Reloaded(w, id, [true, true], 2), {id}, Log(id, 6));
    var input := Own(0, EndOfRound(id, 0), Outcome(SuspectAtEnd(w, id), []));
    assert MismatchScript(w, id).meanwhile(0) == [input];
    OnePlays(Suspect(w, id), input);
    LonePlays(p, m, {}, EndOfRound(id, 0), Outcome(SuspectAtEnd(w, id), []));
    NoOrphans(Reloaded(w, id, [true, true], 2), EndOfRound(id, 0));
    assert {id} + {} == {id} && Log(id, 6) + [] == Log(id, 6);
    LoneStarts(w, id, Given(w, id, true, SuspectAtEnd(w, id), {id}, Log(id, 6)));
  }

  lemma LoneStarts(w: World, id: uint64, m: Member)
    requires m.conn == Record(w, id, true, None) && !m.skipped && m.claim.None?
    ensures Stepped(Lone(During(w, id, Phase.Idling), m), StartSection(0))
         == Lone(During(w, id, Collecting0(w, id, 0)), m)
  {
  }

  function OneSuspect(rx: Rx, id: uint64, sent: seq<Report>): seq<Peer> {
    [Peer(rx, {id}, sent)]
  }

  lemma SuspectSteps(w: World, id: uint64, rx: Rx, sent: seq<Report>, event: Event, outcome: Outcome)
    requires HonestEvent(w, event) && Step(w, rx, event, outcome) && !event.KillAfterRename?
    ensures Possible(w, OneSuspect(rx, id, sent), Own(0, event, outcome))
    ensures PlayPeer(OneSuspect(rx, id, sent), Own(0, event, outcome))
         == OneSuspect(outcome.rx, id, sent + outcome.sent)
  {
    hide Step, HonestEvent;
    NoOrphans(rx, event);
    assert {id} + {} == {id};
  }

  lemma MismatchIsPlayable(w: World, id: uint64)
    requires Telling(w, id)
    ensures Playable(w, Peers(Suspect(w, id)), MismatchScript(w, id), 1)
  {
    hide Step, SuspectAtEnd, MismatchFound, Log, Reloaded, Possible, PlayPeer, AllPossible, PlayPeers;
    var script, log, report := MismatchScript(w, id), Log(id, 6), Status(MismatchStatus(id));
    LogLength(id);
    SuspectDrains(w, id);
    SuspectFails(w, id);
    var end := Own(0, EndOfRound(id, 0), Outcome(SuspectAtEnd(w, id), []));
    var own, frame := Own(0, Timer, Outcome(MismatchFound(w, id), [report])), Frame(0, 6, report, true);
    var before := OneSuspect(Reloaded(w, id, [true, true], 2), id, log);
    var after := OneSuspect(SuspectAtEnd(w, id), id, log);
    assert Peers(Suspect(w, id)) == before;
    SuspectSteps(w, id, Reloaded(w, id, [true, true], 2), log, EndOfRound(id, 0), Outcome(SuspectAtEnd(w, id), []));
    Quiet(log);
    OnePossible(w, before, end);
    SuspectSteps(w, id, SuspectAtEnd(w, id), log, Timer, Outcome(MismatchFound(w, id), [report]));
    assert Possible(w, OneSuspect(MismatchFound(w, id), id, log + [report]), frame) by {
      LastIsRead(w, MismatchFound(w, id), id, log, report);
    }
    TwoPossible(w, after, own, frame);
    OneWait([own, frame]);
    assert script.meanwhile(0) == [end] && script.waits(0) == [[own, frame]];
    OneWaitPlays(w, after, script);
  }

  lemma LastIsRead(w: World, rx: Rx, id: uint64, log: seq<Report>, report: Report)
    ensures Possible(w, OneSuspect(rx, id, log + [report]), Frame(0, |log|, report, true))
  {
  }

  lemma OneWaitPlays(w: World, peers: seq<Peer>, script: Script)
    requires AllPossible(w, peers, Joined(script.waits(0))) && script.meanwhile(1) == [] && script.waits(1) == []
    ensures PlayableFrom(w, peers, script, 0, 1)
  {
    hide Possible, PlayPeer;
    var after := PlayPeers(peers, Joined(script.waits(0)));
    assert PlayableFrom(w, after, script, 1, 1);
  }

  lemma MismatchIsOrderly(w: World, id: uint64)
    ensures Orderly([6], MismatchScript(w, id), 1)
  {
    hide SuspectAtEnd, MismatchFound;
    var script := MismatchScript(w, id);
    var read := SentAndRead(6, MismatchFound(w, id), Status(MismatchStatus(id)));
    assert read[1..] == [Frame(0, 6, Status(MismatchStatus(id)), true)] && read[1..][1..] == [];
    var own, frame := read[0], read[1];
    assert Passed([6], own) == [6];
    assert WaitInTurn([6], false, [frame]) by {
      assert [frame][1..] == [];
    }
    assert WaitInTurn([6], false, read);
    OneInTurn([6], read);
    assert WaitsInTurn([6], script.waits(0)) && NoBackfill(script.meanwhile(0)) && NoBackfill(script.meanwhile(1));
    var after := PassedAll([6], Joined(script.waits(0)));
    assert OrderlyFrom(after, script, 1, 1);
  }

  lemma OneInTurn(cursors: seq<nat>, inputs: seq<Input>)
    requires WaitInTurn(cursors, false, inputs)
    ensures WaitsInTurn(cursors, [inputs])
  {
    hide WaitInTurn;
    var waits := [inputs];
    assert waits[1..] == [];
  }

  /** From registration on, a receiver killed inside its publication can come to report a digest mismatch:
      the section ends in one, with every report read in TCP order. */
  lemma MismatchHappens(w: World, id: uint64) returns (x: Execution)
    requires Telling(w, id)
    ensures IsExecution(w, x) && InOrder(x) && x.states[|x.actions|] == Suspect(w, id)
    ensures Playable(w, Peers(Suspect(w, id)), MismatchScript(w, id), 1) && Orderly([6], MismatchScript(w, id), 1)
    ensures Play(Suspect(w, id), 0, MismatchScript(w, id), 1, 1)
         == (Dispatch.Sha256Mismatch, Failing(w, id, Phase.Idling))
  {
    hide IsExecution, InOrder, Collected, Stepped, PlayOwn, Verdict, Suspect, Failing, AnyFailed, Playable, Orderly,
      IsFinal;
    x := SuspectIsReached(w, id);
    SuspectIs(w, id, x);
    MismatchIsPlayable(w, id);
    MismatchIsOrderly(w, id);
    SuspectStarts(w, id);
    NotFinal(w, id, 0);
    MismatchCollected(w, id);
    MismatchEnds(w, id);
    VerdictUnfolds(Stepped(PlayOwn(Suspect(w, id), MismatchScript(w, id).meanwhile(0)), StartSection(0)),
                   MismatchScript(w, id), 1, 1);
  }

  lemma SuspectIs(w: World, id: uint64, x: Execution)
    requires Arrived(w, id, x, true, Reloaded(w, id, [true, true], 2), {id}, Log(id, 6))
    ensures IsExecution(w, x) && InOrder(x) && x.states[|x.actions|] == Suspect(w, id)
  {
    hide Initial, ExecutionStep, InOrder, Reloaded, Log;
  }

  /** The dispatch pipeline may start from there, with everything sent so far read. */
  lemma SuspectCanStart(w: World, id: uint64)
    requires TwoBlocks(w, id)
    ensures var start := DispatchedTransfer.Joint(Dispatch.START, Suspect(w, id));
            DispatchedTransfer.OrderedStart(w, w.meta(id), DispatchedTransfer.Ordered(start, [6]))
  {
    hide SysInv, Initial, ExecutionStep, InOrder, Reloaded, Log;
    var x := SuspectIsReached(w, id);
    SuspectIs(w, id, x);
    ExecutionKeeps(w, x, |x.actions|);
    LogLength(id);
  }

  lemma SecondWindow()
    ensures Window(TWO_BLOCKS, 1).Some? && SectionIdForBlock(1, 1) == Ok(1)
  {
  }

  lemma SecondIsPlaced(packet: DataPacket)
    requires packet.blockId == 1 && packet.offset == 1200 && |packet.payload| == 1
    ensures Placed(TWO_BLOCKS, packet)
  {
  }

  lemma SecondIsZero()
    ensures |Zeros(TWO_BLOCKS)| == 2 && Zeros(TWO_BLOCKS)[1] == [0]
  {
    TwoBlocksFit();
  }

  /** Asked as a peer, it sends bytes it never received, in a packet that passes every check. */
  lemma SuspectServes(w: World, id: uint64, port: uint16)
    requires TwoBlocks(w, id) && port != 0
    ensures var sent := PeerPackets(Reloaded(w, id, [true, true], 2), id, 1, port, [1]);
      && |sent| == 1 && sent[0].transferId == id && sent[0].blockId == 1
      && Placed(TWO_BLOCKS, sent[0]) && Intact(sent[0]) && sent[0].payload == [0]
  {
    hide Crc, Zeros, Window, Placed, SectionIdForBlock, Valid;
    SecondWindow();
    SecondIsZero();
    assert SoundFile(w, id);
    var rx, blocks := Reloaded(w, id, [true, true], 2), [1 as uint32];
    assert blocks[..0] == [] && PeerPackets(rx, id, 1, port, []) == [];
    assert rx.transfer.value.received[1] && Servable(rx.transfer.value, 1, 1);
    SecondIsPlaced(DataPacket(id, 1, 1, 1200, Crc([0]), [0]));
    assert PeerPackets(rx, id, 1, port, blocks) == [DataPacket(id, 1, 1, 1200, Crc([0]), [0])];
  }

  // ----- A flag that is left over

  const ONE_BLOCK := Geometry(1200, 1, 1)

  ghost predicate OneBlock(w: World, id: uint64) {
    Sound(w) && w.meta(id).geometry == ONE_BLOCK
  }

  lemma OneBlockIsValid()
    ensures Valid(ONE_BLOCK) && BlockSizeOf(ONE_BLOCK, 0) == 1200
  {
    assert ExpectedBlocks(1200) == 1;
  }

  lemma OneBlockWindow()
    ensures Window(ONE_BLOCK, 0) == Some((0, 1))
  {
  }

  lemma OneBlockSection()
    ensures Count(ONE_BLOCK) == 1
  {
  }

  /** The transfer of a one-block file, its SECTION_END and its report. */
  function Small(w: World, id: uint64, held: bool, ended: Option<uint32>, reported: Option<uint32>): Transfer {
    Transfer(w.meta(id), [held], if held then 1 else 0, 0, 0, if ended.Some? then Some(0) else None, ended, reported,
             reported.Some?, false)
  }

  function Receives(w: World, id: uint64, held: bool, ended: Option<uint32>): Rx {
    ReceiverWith(Small(w, id, held, ended, None), Files(Some(if held then w.source(id) else Zeros(ONE_BLOCK)), None),
                 ended.Some?, 0)
  }

  function PublishedDisk(w: World, id: uint64): Disk {
    Disk(map[id := Files(None, None)], map[id := w.source(id)])
  }

  function Publishes(w: World, id: uint64): Rx {
    Rx(Some(Small(w, id, true, Some(0), Some(0))), false, 0, PublishedDisk(w, id))
  }

  function SmallEnd(id: uint64): Event {
    Control(SectionEnd(id, 0, 0, 1))
  }

  function SmallStatus(id: uint64): SectionStatus {
    SectionStatus(id, 0, 0, Complete, 0, [])
  }

  function SmallComplete(w: World, id: uint64): Report {
    ReceiverComplete(id, 1200, w.meta(id).sha256)
  }

  ghost function SmallData(w: World, id: uint64): DataPacket
    requires OneBlock(w, id)
  {
    assert SoundFile(w, id);
    DataPacket(id, 0, 0, 0, Crc(w.source(id)[0]), w.source(id)[0])
  }

  lemma SmallMeta(w: World, id: uint64)
    requires OneBlock(w, id)
    ensures Step(w, ReceiverSafety.INITIAL, Meta(w, id), Outcome(Receives(w, id, false, None), [MetaReady(id)]))
  {
    hide First, End, SectionBlockCount, BlockSizeOf;
    OneBlockIsValid();
    assert SoundFile(w, id);
    assert seq(1, _ => false) == [false];
  }

  lemma SmallArrives(w: World, id: uint64)
    requires OneBlock(w, id)
    ensures HonestEvent(w, Data(SmallData(w, id)))
    ensures Step(w, Receives(w, id, false, None), Data(SmallData(w, id)), Outcome(Receives(w, id, true, None), []))
  {
    hide Crc, SectionBlockCount, First, End, Valid;
    OneBlockIsValid();
    assert SoundFile(w, id);
    var payload := w.source(id)[0];
    assert EqualOutside(payload, payload, 0);
    assert [false][0 := true] == [true];
    assert Zeros(ONE_BLOCK)[0 := payload] == w.source(id);
  }

  lemma SmallDrains(w: World, id: uint64)
    requires OneBlock(w, id)
    ensures Step(w, Receives(w, id, true, None), SmallEnd(id), Outcome(Receives(w, id, true, Some(0)), []))
  {
    hide SectionBlockCount, First, End, Valid, Zeros, FullSize;
    OneBlockWindow();
    assert SoundFile(w, id);
  }

  lemma SmallPublishes(w: World, id: uint64)
    requires OneBlock(w, id)
    ensures Step(w, Receives(w, id, true, Some(0)), Timer,
                 Outcome(Publishes(w, id), [Status(SmallStatus(id)), SmallComplete(w, id)]))
  {
    hide SectionBlockCount, Reports.Reports, CountUnreceived, First, End, Valid, Zeros, FullSize, Window;
    OneBlockWindow();
    assert SoundFile(w, id);
    var rx := Receives(w, id, true, Some(0));
    assert SectionReceived(rx.transfer.value.received, (0, 1));
  }

  lemma SmallForgets(w: World, id: uint64)
    requires OneBlock(w, id)
    ensures Step(w, Publishes(w, id), Control(CompleteAck(id)),
                 Outcome(Rx(None, false, 0, PublishedDisk(w, id)), [ReceiverReady(id)]))
  {
    assert SoundFile(w, id);
  }

  // ----- The record on the way

  function Completed1(w: World, id: uint64): Conn {
    Record(w, id, true, Some(SmallStatus(id))).(completeReceived := true, completed := true, recoveryState := Completed)
  }

  function Waits(w: World, id: uint64): Conn {
    Completed1(w, id).(readyForNext := true, recoveryState := Idle, recoveryId := 0, activeMeta := None)
  }

  function Holder(w: World, id: uint64, c: Conn, rx: Rx, sent: seq<Report>): Member {
    Member(c, false, if c.completed then Some(id) else None, rx, {}, sent)
  }

  lemma StatusRecord(w: World, id: uint64, rx: Rx, sent: seq<Report>)
    requires OneBlock(w, id) && Status(SmallStatus(id)) in sent
    ensures MemberStep(w, During(w, id, Collecting0(w, id, 0)), Holder(w, id, Record(w, id, true, None), rx, sent),
                       RoundFrame(Status(SmallStatus(id)), true),
                       Holder(w, id, Record(w, id, true, Some(SmallStatus(id))), rx, sent))
  {
    hide BlocksOf;
    assert SoundFile(w, id);
  }

  lemma CompleteRecord(w: World, id: uint64, rx: Rx, sent: seq<Report>)
    requires OneBlock(w, id) && SmallComplete(w, id) in sent
    ensures MemberStep(w, During(w, id, Collecting0(w, id, 0)),
                       Holder(w, id, Record(w, id, true, Some(SmallStatus(id))), rx, sent),
                       RoundFrame(SmallComplete(w, id), true), Holder(w, id, Completed1(w, id), rx, sent))
  {
    hide BlocksOf, WellFormed;
    assert SoundFile(w, id);
  }

  lemma ReadyRecord(w: World, id: uint64, rx: Rx, sent: seq<Report>, delivered: set<uint32>)
    requires ReceiverReady(id) in sent && SoundFile(w, id)
    ensures MemberStep(w, During(w, id, Phase.Idling).(delivered := delivered),
                       Holder(w, id, Completed1(w, id), rx, sent),
                       ReadyFrame(ReceiverReady(id)), Holder(w, id, Waits(w, id), rx, sent))
  {
  }

  lemma SectionRecords(w: World, id: uint64, m: Member)
    requires OneBlock(w, id)
    ensures m.conn == Record(w, id, true, None) && !m.skipped && m.claim.None? ==>
              ProxyEnabled(w, Lone(During(w, id, Phase.Idling), m), StartSection(0))
              && MemberAfter(Lone(During(w, id, Phase.Idling), m), StartSection(0), m) == m
    ensures m.conn == Completed1(w, id) && !m.skipped && m.claim == Some(id) ==>
              var s := Lone(During(w, id, Collecting0(w, id, 0)), m);
              var t := Lone(During(w, id, Deciding(Round(w.meta(id), 0, 0))), m);
              && ProxyAfter(s, EndCollection(1)) == t.proxy && MemberAfter(s, EndCollection(1), m) == m
              && ProxyAfter(t, Decide(1)) == During(w, id, Phase.Idling).(delivered := {0})
              && MemberAfter(t, Decide(1), m) == m
  {
    hide First, BlocksOf, MissingIds;
    OneBlockIsValid();
    OneBlockSection();
    assert SoundFile(w, id);
    assert {} + {0 as uint32} == {0 as uint32};
    assert Lone(During(w, id, Collecting0(w, id, 0)), m).members[0] == m;
  }

  // ----- The run

  function SmallLog(w: World, id: uint64, n: nat): seq<Report>
    requires n <= 5
  {
    [Register(Idle, 0), MetaReady(id), Status(SmallStatus(id)), SmallComplete(w, id), ReceiverReady(id)][..n]
  }

  lemma SmallLogGrows(w: World, id: uint64)
    ensures SmallLog(w, id, 1) == [Register(Idle, 0)] && SmallLog(w, id, 1) + [MetaReady(id)] == SmallLog(w, id, 2)
    ensures SmallLog(w, id, 2) + [Status(SmallStatus(id)), SmallComplete(w, id)] == SmallLog(w, id, 4)
    ensures SmallLog(w, id, 4) + [ReceiverReady(id)] == SmallLog(w, id, 5)
    ensures MetaReady(id) in SmallLog(w, id, 2) && Status(SmallStatus(id)) in SmallLog(w, id, 4)
    ensures SmallComplete(w, id) in SmallLog(w, id, 4) && ReceiverReady(id) in SmallLog(w, id, 5)
  {
    assert SmallLog(w, id, 2)[1] == MetaReady(id) && SmallLog(w, id, 4)[2] == Status(SmallStatus(id));
    assert SmallLog(w, id, 4)[3] == SmallComplete(w, id) && SmallLog(w, id, 5)[4] == ReceiverReady(id);
  }

  lemma SmallBegins(w: World, id: uint64) returns (x: Execution)
    requires OneBlock(w, id)
    ensures Arrived(w, id, x, true, Receives(w, id, false, None), {}, SmallLog(w, id, 2))
  {
    hide Reached, Step, HonestEvent, Receives, OrphanedBy;
    assert SoundFile(w, id);
    SmallLogGrows(w, id);
    x := RegisteredAlone(w, id);
    SmallMeta(w, id);
    MetaIsHonest(w, id);
    NoOrphans(ReceiverSafety.INITIAL, Meta(w, id));
    x := StepsOn(w, id, false, ReceiverSafety.INITIAL, {}, SmallLog(w, id, 1), x, Meta(w, id),
                 Outcome(Receives(w, id, false, None), [MetaReady(id)]), {});
    x := IsReady(w, id, Receives(w, id, false, None), {}, SmallLog(w, id, 2), x);
  }

  /** One receiver has registered, and the transfer has been announced to it. */
  lemma RegisteredAlone(w: World, id: uint64) returns (x: Execution)
    requires SoundFile(w, id)
    ensures Arrived(w, id, x, false, ReceiverSafety.INITIAL, {}, SmallLog(w, id, 1))
  {
    hide Reached;
    var p := Proxy(None, false, Phase.Idling, {}, {});
    var m := Member(Install(BLANK_CONNECTION, Idle, 0, true), false, None, ReceiverSafety.INITIAL, {},
                    [Register(Idle, 0)]);
    x := Execution([Lone(p, m)], []);
    assert Reached(w, x, p, m) by {
      FirstState(w, p, m);
    }
    SmallLogGrows(w, id);
    x := ByProxy(w, x, p, m, BeginTransfer(w.meta(id), true));
    BeginsAlone(w, id, p, m);
  }

  lemma FirstState(w: World, p: Proxy, m: Member)
    requires p == Proxy(None, false, Phase.Idling, {}, {})
    requires m == Member(Install(BLANK_CONNECTION, Idle, 0, true), false, None, ReceiverSafety.INITIAL, {},
                         [Register(Idle, 0)])
    ensures Reached(w, Execution([Lone(p, m)], []), p, m)
  {
    hide Initial;
    StartsAlone(w, Lone(p, m));
    NoActions(w, Lone(p, m));
  }

  lemma BeginsAlone(w: World, id: uint64, p: Proxy, m: Member)
    requires SoundFile(w, id) && p == Proxy(None, false, Phase.Idling, {}, {})
    requires m == Member(Install(BLANK_CONNECTION, Idle, 0, true), false, None, ReceiverSafety.INITIAL, {},
                         [Register(Idle, 0)])
    ensures ProxyAfter(Lone(p, m), BeginTransfer(w.meta(id), true)) == During(w, id, Phase.Idling)
    ensures MemberAfter(Lone(p, m), BeginTransfer(w.meta(id), true), m)
         == Given(w, id, false, ReceiverSafety.INITIAL, {}, [Register(Idle, 0)])
  {
  }

  lemma OwnInRound(w: World, id: uint64, x: Execution, c: Conn, rx: Rx, sent: seq<Report>, event: Event,
                   outcome: Outcome)
    returns (y: Execution)
    requires Reached(w, x, During(w, id, Collecting0(w, id, 0)), Holder(w, id, c, rx, sent))
    requires HonestEvent(w, event) && Step(w, rx, event, outcome) && !event.KillAfterRename?
    ensures Reached(w, y, During(w, id, Collecting0(w, id, 0)), Holder(w, id, c, outcome.rx, sent + outcome.sent))
  {
    hide Reached, HonestEvent, Step, OrphanedBy;
    NoOrphans(rx, event);
    y := ByReceiver(w, x, During(w, id, Collecting0(w, id, 0)), Holder(w, id, c, rx, sent), event, outcome);
  }

  /** Section 0: the block comes, the drain publishes, and the two reports are read. */
  lemma SmallSection(w: World, id: uint64) returns (x: Execution)
    requires OneBlock(w, id)
    ensures Reached(w, x, During(w, id, Collecting0(w, id, 0)),
                    Holder(w, id, Completed1(w, id), Publishes(w, id), SmallLog(w, id, 4)))
  {
    hide Reached, Step, Receives, Publishes, OrphanedBy, MemberStep, Completed1, SmallData;
    SmallLogGrows(w, id);
    var p, c, log := During(w, id, Collecting0(w, id, 0)), Record(w, id, true, None), SmallLog(w, id, 2);
    x := SmallOpens(w, id);
    SmallArrives(w, id);
    SmallDrains(w, id);
    SmallPublishes(w, id);
    x := OwnInRound(w, id, x, c, Receives(w, id, false, None), log, Data(SmallData(w, id)),
                    Outcome(Receives(w, id, true, None), []));
    Quiet(log);
    x := OwnInRound(w, id, x, c, Receives(w, id, true, None), log, SmallEnd(id),
                    Outcome(Receives(w, id, true, Some(0)), []));
    x := OwnInRound(w, id, x, c, Receives(w, id, true, Some(0)), log, Timer,
                    Outcome(Publishes(w, id), [Status(SmallStatus(id)), SmallComplete(w, id)]));
    StatusRecord(w, id, Publishes(w, id), SmallLog(w, id, 4));
    CompleteRecord(w, id, Publishes(w, id), SmallLog(w, id, 4));
    x := ByRecord(w, x, p, Holder(w, id, c, Publishes(w, id), SmallLog(w, id, 4)),
                  RoundFrame(Status(SmallStatus(id)), true),
                  Holder(w, id, Record(w, id, true, Some(SmallStatus(id))), Publishes(w, id), SmallLog(w, id, 4)));
    x := ByRecord(w, x, p,
                  Holder(w, id, Record(w, id, true, Some(SmallStatus(id))), Publishes(w, id), SmallLog(w, id, 4)),
                  RoundFrame(SmallComplete(w, id), true),
                  Holder(w, id, Completed1(w, id), Publishes(w, id), SmallLog(w, id, 4)));
  }

  lemma SmallOpens(w: World, id: uint64) returns (x: Execution)
    requires OneBlock(w, id)
    ensures Reached(w, x, During(w, id, Collecting0(w, id, 0)),
                    Holder(w, id, Record(w, id, true, None), Receives(w, id, false, None), SmallLog(w, id, 2)))
  {
    hide Reached, Receives, SmallLog;
    x := SmallBegins(w, id);
    var m := Given(w, id, true, Receives(w, id, false, None), {}, SmallLog(w, id, 2));
    SectionRecords(w, id, m);
    x := ByProxy(w, x, During(w, id, Phase.Idling), m, StartSection(0));
  }

  /** The section is delivered, the receiver is acknowledged and is ready for the next file. */
  lemma SmallFinishes(w: World, id: uint64) returns (x: Execution)
    requires OneBlock(w, id)
    ensures Reached(w, x, During(w, id, Phase.Idling).(delivered := {0}),
                    Holder(w, id, Waits(w, id), Rx(None, false, 0, PublishedDisk(w, id)), SmallLog(w, id, 5)))
  {
    hide Reached, Publishes, SmallLog, Step, OrphanedBy, MemberStep, ProxyAfter, MemberAfter, ProxyEnabled,
      Completed1, Waits;
    x := SmallSection(w, id);
    SmallLogGrows(w, id);
    assert SoundFile(w, id);
    Completed1Shows(w, id);
    var m := Holder(w, id, Completed1(w, id), Publishes(w, id), SmallLog(w, id, 4));
    SectionRecords(w, id, m);
    SectionEnabled(w, id, m);
    x := ByProxy(w, x, During(w, id, Collecting0(w, id, 0)), m, EndCollection(1));
    x := ByProxy(w, x, During(w, id, Deciding(Round(w.meta(id), 0, 0))), m, Decide(1));
    SmallForgets(w, id);
    var p, done := During(w, id, Phase.Idling).(delivered := {0}), Rx(None, false, 0, PublishedDisk(w, id));
    NoOrphans(Publishes(w, id), Control(CompleteAck(id)));
    x := ByReceiver(w, x, p, m, Control(CompleteAck(id)), Outcome(done, [ReceiverReady(id)]));
    ReadyRecord(w, id, done, SmallLog(w, id, 5), {0});
    x := ByRecord(w, x, p, Holder(w, id, Completed1(w, id), done, SmallLog(w, id, 5)), ReadyFrame(ReceiverReady(id)),
                  Holder(w, id, Waits(w, id), done, SmallLog(w, id, 5)));
  }

  lemma Completed1Shows(w: World, id: uint64)
    ensures Completed1(w, id).completed && Waits(w, id).completed
  {
  }

  lemma SectionEnabled(w: World, id: uint64, m: Member)
    ensures ProxyEnabled(w, Lone(During(w, id, Collecting0(w, id, 0)), m), EndCollection(1))
    ensures ProxyEnabled(w, Lone(During(w, id, Deciding(Round(w.meta(id), 0, 0))), m), Decide(1))
  {
  }

  /** The first file has been completed by the receiver, and the second is found in the cache: the flag stays
      up and speaks of the first, and the receiver has nothing of the second. */
  lemma FlagIsLeftOver(w: World, a: uint64, b: uint64, delivers: bool) returns (x: Execution)
    requires OneBlock(w, a) && a != b
    ensures IsExecution(w, x) && InOrder(x) && |x.states[|x.actions|].members| == 1
    ensures var s, m := x.states[|x.actions|], x.states[|x.actions|].members[0];
      && s.proxy.current == Some(w.meta(b)) && m.conn.activeMeta == Some(w.meta(b))
      && m.conn.completed && m.claim == Some(a) && b !in m.rx.disk.published && b !in m.rx.disk.files
  {
    hide Initial, ExecutionStep, InOrder, Waits;
    x := SmallFinishes(w, a);
    assert SoundFile(w, b);
    Completed1Shows(w, a);
    var p := During(w, a, Phase.Idling).(delivered := {0});
    var m := Holder(w, a, Waits(w, a), Rx(None, false, 0, PublishedDisk(w, a)), SmallLog(w, a, 5));
    WaitsIdle(w, a);
    x := ByProxy(w, x, p, m, CachedTransfer(w.meta(b), delivers));
  }

  lemma WaitsIdle(w: World, id: uint64)
    ensures Waits(w, id).recoveryState == Idle
  {
  }
}
