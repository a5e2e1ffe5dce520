/** The control connections keep the order of TCP: a frame is the next report on its connection, and an
    accepted reconnect drops what was unread on the one before. In that order a digest mismatch is final:
    the receiver that reported it settles no later section of the transfer. */
module ReportOrder {
  import opened Common
  import opened Reports
  import opened Sections
  import opened Messages
  import opened Connections
  import opened Receiver
  import opened ReceiverSafety
  import opened Mismatch
  import opened SectionBarrier
  import opened SectionScript
  import opened SectionRounds
  import Dispatch

  // ----- Scripts in TCP order

  /** How many reports of a receiver have been read, or were lost with a replaced connection. */
  function Passed(cursors: seq<nat>, input: Input): seq<nat> {
    if input.i < |cursors| then cursors[input.i := PassedAt(cursors[input.i], input)] else cursors
  }

  function PassedAt(c: nat, input: Input): nat {
    if input.Frame? || input.Rejoin? then input.at + 1 else c
  }

  function PassedAll(cursors: seq<nat>, inputs: seq<Input>): seq<nat>
    decreases |inputs|
  {
    if inputs == [] then cursors else PassedAll(Passed(cursors, inputs[0]), inputs[1..])
  }

  /** A wait accepts at most one reconnect. While sections are distributed, no BACKFILL_END is sent. */
  predicate InTurn(cursors: seq<nat>, accepted: bool, input: Input) {
    input.i < |cursors| && InTurnAt(cursors[input.i], accepted, input)
  }

  predicate InTurnAt(c: nat, accepted: bool, input: Input) {
    match input
    case Frame(_, at, report, _) => at == c && !report.Register?
    case Rejoin(_, at, _, _, _) => c <= at && !accepted
    case Hangup(_) => true
    case Own(_, event, _) => !IsBackfillEnd(event)
  }

  predicate IsBackfillEnd(event: Event) {
    event.Control? && event.command.BackfillEnd?
  }

  predicate WaitInTurn(cursors: seq<nat>, accepted: bool, inputs: seq<Input>)
    decreases |inputs|
  {
    inputs == [] || (InTurn(cursors, accepted, inputs[0])
                     && WaitInTurn(Passed(cursors, inputs[0]), accepted || inputs[0].Rejoin?, inputs[1..]))
  }

  predicate WaitsInTurn(cursors: seq<nat>, waits: seq<seq<Input>>)
    decreases |waits|
  {
    waits == [] || (WaitInTurn(cursors, false, waits[0]) && WaitsInTurn(PassedAll(cursors, waits[0]), waits[1..]))
  }

  predicate NoBackfill(inputs: seq<Input>) {
    forall k :: 0 <= k < |inputs| && inputs[k].Own? ==> !IsBackfillEnd(inputs[k].event)
  }

  predicate OrderlyFrom(cursors: seq<nat>, script: Script, round: nat, maxRounds: nat)
    decreases if round < maxRounds then maxRounds - round else 0
  {
    && WaitsInTurn(cursors, script.waits(round))
    && (round < maxRounds ==>
          NoBackfill(script.meanwhile(round + 1))
          && OrderlyFrom(PassedAll(cursors, Joined(script.waits(round))), script, round + 1, maxRounds))
  }

  predicate Orderly(cursors: seq<nat>, script: Script, maxRounds: nat) {
    NoBackfill(script.meanwhile(0)) && OrderlyFrom(cursors, script, 0, maxRounds)
  }

  /** What has been read when the section is over. */
  function CursorsAfter(cursors: seq<nat>, script: Script, round: nat, maxRounds: nat): seq<nat>
    decreases if round < maxRounds then maxRounds - round else 0
  {
    var after := PassedAll(cursors, Joined(script.waits(round)));
    if round < maxRounds then CursorsAfter(after, script, round + 1, maxRounds) else after
  }

  // ----- A receiver that is lost to the transfer

  ghost predicate HarmlessFrom(sent: seq<Report>, c: nat, id: uint64) {
    forall k :: c <= k < |sent| ==> Harmless(sent[k], id)
  }

  /** Its record is unsettled, and nothing that is unread or still to come can settle it. */
  ghost predicate Doomed(w: World, m: Member, c: nat, id: uint64) {
    && Condemned(w, m.rx, id) && HarmlessFrom(m.sent, c, id)
    && !m.conn.completed && !SetAside(m.conn) && (m.conn.status.Some? ==> Reported(m.conn, StatusCode.Failed))
  }

  /** After an unread failure report nothing else comes for the transfer. */
  ghost predicate FailureIsLast(w: World, m: Member, c: nat, id: uint64) {
    forall q :: c <= q < |m.sent| && FailedStatus(m.sent[q], id) ==>
      Condemned(w, m.rx, id) && HarmlessFrom(m.sent, q + 1, id)
  }

  ghost predicate LaneOk(w: World, m: Member, c: nat, id: uint64) {
    && Inv(w, m.rx, m.orphaned) && AckFollows(m.sent, m.rx) && FailureIsLast(w, m, c, id)
    && (m.conn.activeMeta.Some? ==> m.conn.activeMeta.value.transferId == id)
    && (Reported(m.conn, StatusCode.Failed) ==> Doomed(w, m, c, id))
  }

  /** A watched receiver that a reconnect has just completed sends no drain report next. */
  ghost predicate WatchedOk(m: Member, c: nat) {
    && !SetAside(m.conn)
    && (m.conn.completed ==>
          c <= |m.sent|
          && if c == |m.sent| then m.rx.transfer.Some? && AwaitsAck(m.rx, m.rx.transfer.value.meta.transferId)
             else !m.sent[c].Status?)
  }

  // ----- One receiver, one input

  lemma OwnKeeps(w: World, m: Member, c: nat, id: uint64, event: Event, result: Outcome)
    requires Sound(w) && LaneOk(w, m, c, id) && HonestEvent(w, event)
    requires Step(w, m.rx, event, result) && !IsBackfillEnd(event)
    ensures var peer := OwnStep(PeerOf(m), event, result);
      var n := m.(rx := peer.rx, orphaned := peer.orphaned, sent := peer.sent);
      LaneOk(w, n, c, id) && (Doomed(w, m, c, id) ==> Doomed(w, n, c, id)) && (WatchedOk(m, c) ==> WatchedOk(n, c))
  {
    hide Step, HonestEvent, Inv, Condemned, AckFollows, AwaitsAck, Harmless, OrphanedBy;
    var n := m.(rx := result.rx, orphaned := m.orphaned + OrphanedBy(m.rx, event), sent := m.sent + result.sent);
    StepKeeps(w, m.rx, event, result, m.orphaned);
    AckFollowsOn(w, m.rx, event, result, m.sent);
    OwnKeepsLast(w, m, c, id, event, result);
    if Doomed(w, m, c, id) {
      StaysCondemned(w, m.rx, event, result, id);
    }
    if WatchedOk(m, c) && m.conn.completed && c == |m.sent| {
      AwaitsOn(w, m.rx, event, result, m.rx.transfer.value.meta.transferId);
      AwaitsSame(result.rx, m.rx.transfer.value.meta.transferId);
    }
  }

  lemma AwaitsSame(rx: Rx, id: uint64)
    ensures AwaitsAck(rx, id) ==> rx.transfer.Some? && rx.transfer.value.meta.transferId == id
  {
  }

  lemma OwnKeepsLast(w: World, m: Member, c: nat, id: uint64, event: Event, result: Outcome)
    requires Sound(w) && LaneOk(w, m, c, id) && HonestEvent(w, event)
    requires Step(w, m.rx, event, result) && !IsBackfillEnd(event)
    ensures FailureIsLast(w, m.(rx := result.rx, sent := m.sent + result.sent), c, id)
  {
    hide Step, HonestEvent, Inv, Condemned, AckFollows, Harmless, FailedStatus, Doomed;
    var sent := m.sent + result.sent;
    forall q | c <= q < |sent| && FailedStatus(sent[q], id)
      ensures Condemned(w, result.rx, id) && HarmlessFrom(sent, q + 1, id)
    {
      if q < |m.sent| {
        assert Condemned(w, m.rx, id) && HarmlessFrom(m.sent, q + 1, id) by {
          assert FailedStatus(m.sent[q], id);
        }
        StaysCondemned(w, m.rx, event, result, id);
      } else {
        var k := q - |m.sent|;
        OnlyDrainsFail(w, m.rx, event, result, id, k);
        TimerCondemns(w, m.rx, event, result, m.orphaned, id, k);
      }
    }
  }

  lemma TimerCondemns(w: World, rx: Rx, event: Event, result: Outcome, orphaned: set<uint64>, id: uint64, k: nat)
    requires Sound(w) && Inv(w, rx, orphaned) && Step(w, rx, event, result) && event.Timer?
    requires k < |result.sent| && FailedStatus(result.sent[k], id)
    ensures Condemned(w, result.rx, id) && k == |result.sent| - 1
  {
    hide Inv, OnTimer, Condemned, FailedStatus;
    DrainCondemns(w, rx, result, orphaned, id, k);
  }

  /** Reports may be skipped. */
  lemma SkipKeeps(w: World, m: Member, c: nat, d: nat, id: uint64)
    requires LaneOk(w, m, c, id) && c <= d
    ensures LaneOk(w, m, d, id) && (Doomed(w, m, c, id) ==> Doomed(w, m, d, id))
  {
    hide Inv, Condemned, AckFollows, Harmless, FailedStatus;
  }

  lemma FrameKeeps(w: World, p: Proxy, m: Member, c: nat, id: uint64, delivers: bool)
    requires LaneOk(w, m, c, id) && WatchedOk(m, c) && c < |m.sent| && p.phase.Collecting?
    requires p.phase.round.meta.transferId == id
    ensures var n := WithConn(p, m, HandleReport(m.conn, p.phase.round, m.sent[c], delivers));
      LaneOk(w, n, c + 1, id) && (Doomed(w, m, c, id) ==> Doomed(w, n, c + 1, id))
  {
    hide Inv, Condemned, AckFollows, WellFormed, BlocksOf, NewClaim;
    SkipKeeps(w, m, c, c + 1, id);
  }

  lemma FlagsKept(c: Conn, delivers: bool, id: uint64)
    ensures SetAside(Send(c, delivers)) == SetAside(c) && Send(c, delivers).completed == c.completed
    ensures !SetAside(c) ==> !SetAside(Recovered(c))
    ensures var d := Connections.Restarted(c, id); !d.completed && (!SetAside(c) ==> !SetAside(d))
  {
  }

  lemma InstallSettles(c: Conn, state: ReceiverState, current: uint64, delivers: bool, id: uint64)
    requires c.activeMeta.Some? ==> c.activeMeta.value.transferId == id
    ensures var d := Install(c, state, current, delivers);
      && d.activeMeta == c.activeMeta && (d.status == c.status || d.status.None?)
      && (Active(c) ==> !SetAside(d) && (d.completed ==> state == Completed && current == id))
  {
    hide Send, Recovered, Connections.Restarted;
    InstallShows(c, state, current, delivers);
    var d := c.(connected := true, recoveryState := state, recoveryId := current);
    FlagsKept(d, delivers, id);
    FlagsKept(Recovered(d), delivers, id);
    FlagsKept(Connections.Restarted(d, id), delivers, id);
  }

  lemma RejoinKeeps(w: World, p: Proxy, m: Member, c: nat, id: uint64, at: nat, state: ReceiverState, current: uint64,
                    delivers: bool)
    requires LaneOk(w, m, c, id) && c <= at < |m.sent| && m.sent[at] == Register(state, current)
    ensures var n := WithConn(p, m, Install(m.conn, state, current, delivers));
      && LaneOk(w, n, at + 1, id) && (Doomed(w, m, c, id) ==> Doomed(w, n, at + 1, id))
      && (Active(m.conn) ==> WatchedOk(n, at + 1))
  {
    hide Inv, Condemned, AckFollows, NewClaim, FailureIsLast, Install;
    InstallSettles(m.conn, state, current, delivers, id);
    SkipKeeps(w, m, c, at + 1, id);
    SkipKeepsLast(w, m, WithConn(p, m, Install(m.conn, state, current, delivers)), c, at + 1, id);
    assert AckAt(m.sent, m.rx, at) by {
      AckHere(m.sent, m.rx, at);
    }
  }

  lemma AckHere(sent: seq<Report>, rx: Rx, at: nat)
    requires AckFollows(sent, rx) && at < |sent|
    ensures AckAt(sent, rx, at)
  {
  }

  lemma SkipKeepsLast(w: World, m: Member, n: Member, c: nat, d: nat, id: uint64)
    requires FailureIsLast(w, m, c, id) && c <= d && n.sent == m.sent && n.rx == m.rx
    ensures FailureIsLast(w, n, d, id)
  {
    hide Condemned, FailedStatus;
  }

  // ----- All receivers

  ghost predicate Lanes(w: World, s: System, cursors: seq<nat>, id: uint64) {
    |cursors| == |s.members| && forall i :: 0 <= i < |s.members| ==> LaneOk(w, s.members[i], cursors[i], id)
  }

  ghost predicate DoomedAt(w: World, s: System, cursors: seq<nat>, id: uint64, i: nat) {
    i < |s.members| && i < |cursors| && Doomed(w, s.members[i], cursors[i], id)
  }

  /** Nobody who is lost before is found again. */
  ghost predicate StayDoomed(w: World, s: System, cursors: seq<nat>, t: System, after: seq<nat>, id: uint64) {
    forall i: nat :: DoomedAt(w, s, cursors, id, i) ==> DoomedAt(w, t, after, id, i)
  }

  /** During a wait: until a reconnect is accepted, the receivers still to be read are as active as before. */
  ghost predicate Watching(s: System, cursors: seq<nat>, watched: set<nat>, accepted: bool) {
    |cursors| == |s.members|
    && forall i: nat :: i in watched && i < |s.members| ==>
         WatchedOk(s.members[i], cursors[i]) && (accepted || Active(s.members[i].conn))
  }

  lemma StayChain(w: World, s: System, a: seq<nat>, t: System, b: seq<nat>, u: System, c: seq<nat>, id: uint64)
    requires StayDoomed(w, s, a, t, b, id) && StayDoomed(w, t, b, u, c, id)
    ensures StayDoomed(w, s, a, u, c, id)
  {
    hide DoomedAt;
  }

  /** One member and its cursor change. */
  lemma OneLane(w: World, s: System, cursors: seq<nat>, i: nat, n: Member, c: nat, id: uint64)
    requires Lanes(w, s, cursors, id) && i < |s.members| && LaneOk(w, n, c, id)
    requires Doomed(w, s.members[i], cursors[i], id) ==> Doomed(w, n, c, id)
    ensures var t := s.(members := s.members[i := n]);
            Lanes(w, t, cursors[i := c], id) && StayDoomed(w, s, cursors, t, cursors[i := c], id)
  {
    hide LaneOk, Doomed;
  }

  lemma HangupKeeps(w: World, m: Member, c: nat, id: uint64)
    requires LaneOk(w, m, c, id)
    ensures var n := m.(conn := m.conn.(connected := false));
      && LaneOk(w, n, c, id) && (Doomed(w, m, c, id) ==> Doomed(w, n, c, id)) && (WatchedOk(m, c) ==> WatchedOk(n, c))
      && Active(n.conn) == Active(m.conn)
  {
    hide Inv, Condemned, AckFollows, Harmless, FailedStatus, AwaitsAck;
  }

  /** What an input does to the receiver it names. */
  lemma LaneInput(w: World, p: Proxy, m: Member, c: nat, id: uint64, watched: bool, accepted: bool, input: Input)
    requires Sound(w) && LaneOk(w, m, c, id) && p.phase.Collecting? && p.phase.round.meta.transferId == id
    requires watched ==> WatchedOk(m, c) && (accepted || Active(m.conn))
    requires PossibleAt(w, PeerOf(m), input) && InTurnAt(c, accepted, input)
    ensures var n, d := AfterInput(p, m, watched, input), PassedAt(c, input);
      && LaneOk(w, n, d, id) && (Doomed(w, m, c, id) ==> Doomed(w, n, d, id))
      && (watched && !input.Frame? ==> WatchedOk(n, d) && (accepted || input.Rejoin? || Active(n.conn)))
  {
    hide LaneOk, Doomed, HandleReport, Install, Step, HonestEvent, WithConn, OwnStep;
    match input
    case Frame(_, at, report, delivers) =>
      SkipKeeps(w, m, c, c + 1, id);
      if watched {
        FrameKeeps(w, p, m, c, id, delivers);
      }
    case Rejoin(_, at, state, current, delivers) =>
      RejoinKeeps(w, p, m, c, id, at, state, current, delivers);
    case Hangup(_) => HangupKeeps(w, m, c, id);
    case Own(_, event, result) => OwnKeeps(w, m, c, id, event, result);
  }

  lemma InputKeeps(w: World, s: System, cursors: seq<nat>, watched: set<nat>, accepted: bool, input: Input, id: uint64)
    requires Sound(w) && Lanes(w, s, cursors, id) && s.proxy.phase.Collecting?
    requires s.proxy.phase.round.meta.transferId == id
    requires Possible(w, Peers(s), input) && InTurn(cursors, accepted, input) && Watching(s, cursors, watched, accepted)
    ensures var t, after := PlayInput(s, watched, input), Passed(cursors, input);
      && Lanes(w, t, after, id) && StayDoomed(w, s, cursors, t, after, id)
      && Watching(t, after, Unwatch(watched, input), accepted || input.Rejoin?)
  {
    hide LaneOk, Doomed, PossibleAt, AfterInput, InTurnAt, PassedAt, WatchedOk, Active;
    var i := input.i;
    var m, c := s.members[i], cursors[i];
    LaneInput(w, s.proxy, m, c, id, i in watched, accepted, input);
    OneLane(w, s, cursors, i, AfterInput(s.proxy, m, i in watched, input), PassedAt(c, input), id);
  }

  lemma {:induction false} WaitKeeps(w: World, s: System, cursors: seq<nat>, watched: set<nat>, accepted: bool,
                                     inputs: seq<Input>, id: uint64)
    requires Sound(w) && Lanes(w, s, cursors, id) && s.proxy.phase.Collecting?
    requires s.proxy.phase.round.meta.transferId == id
    requires AllPossible(w, Peers(s), inputs) && WaitInTurn(cursors, accepted, inputs)
    requires Watching(s, cursors, watched, accepted)
    ensures var t, after := PlayWait(s, watched, inputs), PassedAll(cursors, inputs);
            Lanes(w, t, after, id) && StayDoomed(w, s, cursors, t, after, id)
    decreases |inputs|
  {
    hide Lanes, PlayInput, Possible, InTurn, Passed, Watching, DoomedAt, Peers, PlayPeer;
    if inputs != [] {
      var t, more := PlayInput(s, watched, inputs[0]), Passed(cursors, inputs[0]);
      InputKeeps(w, s, cursors, watched, accepted, inputs[0], id);
      InputShape(w, s, watched, inputs[0]);
      WaitKeeps(w, t, more, Unwatch(watched, inputs[0]), accepted || inputs[0].Rejoin?, inputs[1..], id);
    }
  }

  /** The receivers' own steps, when the proxy is not listening. */
  lemma {:induction false} OwnsKeep(w: World, s: System, cursors: seq<nat>, inputs: seq<Input>, id: uint64)
    requires Sound(w) && Lanes(w, s, cursors, id) && AllPossible(w, Peers(s), inputs) && NoBackfill(inputs)
    ensures var t := PlayOwn(s, inputs); Lanes(w, t, cursors, id) && StayDoomed(w, s, cursors, t, cursors, id)
    decreases |inputs|
  {
    hide Lanes, PlayInput, Possible, DoomedAt, Peers, PlayPeer, IsBackfillEnd;
    if inputs != [] {
      var t := if inputs[0].Own? then PlayInput(s, {}, inputs[0]) else s;
      InputPeers(s, {}, inputs[0]);
      NotOwn(s, inputs[0]);
      if inputs[0].Own? {
        OneOwn(w, s, cursors, inputs[0], id);
      }
      OwnsKeep(w, t, cursors, inputs[1..], id);
    }
  }

  lemma OneOwn(w: World, s: System, cursors: seq<nat>, input: Input, id: uint64)
    requires Sound(w) && Lanes(w, s, cursors, id) && Possible(w, Peers(s), input) && input.Own?
    requires !IsBackfillEnd(input.event)
    ensures var t := PlayInput(s, {}, input); Lanes(w, t, cursors, id) && StayDoomed(w, s, cursors, t, cursors, id)
  {
    hide LaneOk, Doomed, Step, HonestEvent, OwnStep, WatchedOk;
    var i := input.i;
    OwnKeeps(w, s.members[i], cursors[i], id, input.event, input.result);
    OneLane(w, s, cursors, i, AfterInput(s.proxy, s.members[i], false, input), cursors[i], id);
    assert cursors[i := cursors[i]] == cursors;
  }

  // ----- A round

  lemma WatchListOk(w: World, s: System, cursors: seq<nat>, id: uint64)
    requires Lanes(w, s, cursors, id)
    ensures Watching(s, cursors, WatchList(s), false)
  {
    hide LaneOk;
  }

  /** Cursors only move on. */
  ghost predicate NotBefore(a: seq<nat>, b: seq<nat>) {
    |a| == |b| && forall i :: 0 <= i < |a| ==> a[i] <= b[i]
  }

  lemma {:induction false} WaitMovesOn(cursors: seq<nat>, accepted: bool, inputs: seq<Input>)
    requires WaitInTurn(cursors, accepted, inputs)
    ensures NotBefore(cursors, PassedAll(cursors, inputs)) && NoBackfill(inputs)
    decreases |inputs|
  {
    hide IsBackfillEnd;
    if inputs != [] {
      WaitMovesOn(Passed(cursors, inputs[0]), accepted || inputs[0].Rejoin?, inputs[1..]);
      assert forall k :: 0 < k < |inputs| ==> inputs[k] == inputs[1..][k - 1];
    }
  }

  lemma {:induction false} WaitsMoveOn(cursors: seq<nat>, waits: seq<seq<Input>>)
    requires WaitsInTurn(cursors, waits)
    ensures NotBefore(cursors, PassedAll(cursors, Joined(waits))) && NoBackfill(Joined(waits))
    decreases |waits|
  {
    hide WaitInTurn, IsBackfillEnd;
    if waits != [] {
      WaitMovesOn(cursors, false, waits[0]);
      WaitsMoveOn(PassedAll(cursors, waits[0]), waits[1..]);
      PassedSum(cursors, waits[0], Joined(waits[1..]));
    }
  }

  lemma {:induction false} PassedSum(cursors: seq<nat>, a: seq<Input>, b: seq<Input>)
    ensures PassedAll(cursors, a + b) == PassedAll(PassedAll(cursors, a), b)
    decreases |a|
  {
    hide Passed;
    if a == [] {
      assert a + b == b;
    } else {
      assert (a + b)[1..] == a[1..] + b;
      PassedSum(Passed(cursors, a[0]), a[1..], b);
    }
  }

  lemma MoveOn(w: World, s: System, cursors: seq<nat>, later: seq<nat>, id: uint64)
    requires Lanes(w, s, cursors, id) && NotBefore(cursors, later)
    ensures Lanes(w, s, later, id) && StayDoomed(w, s, cursors, s, later, id)
  {
    hide LaneOk, Doomed;
    forall i | 0 <= i < |s.members|
      ensures LaneOk(w, s.members[i], later[i], id)
      ensures Doomed(w, s.members[i], cursors[i], id) ==> Doomed(w, s.members[i], later[i], id)
    {
      SkipKeeps(w, s.members[i], cursors[i], later[i], id);
    }
  }

  lemma {:induction false} CollectedKeeps(w: World, s: System, cursors: seq<nat>, waits: seq<seq<Input>>,
                                          finalSection: bool, id: uint64)
    requires Sound(w) && Lanes(w, s, cursors, id) && s.proxy.phase.Collecting?
    requires s.proxy.phase.round.meta.transferId == id
    requires AllPossible(w, Peers(s), Joined(waits)) && WaitsInTurn(cursors, waits)
    ensures var t, after := Collected(s, waits, finalSection), PassedAll(cursors, Joined(waits));
            Lanes(w, t, after, id) && StayDoomed(w, s, cursors, t, after, id)
    decreases |waits|
  {
    hide Lanes, PlayWait, PlayOwn, AllPossible, WaitInTurn, Watching, DoomedAt, Peers, AllAnswered, WatchList,
      NotBefore, NoBackfill;
    if waits != [] {
      if AllAnswered(s, finalSection) {
        WaitsMoveOn(cursors, waits);
        OwnsKeep(w, s, cursors, Joined(waits), id);
        MoveOn(w, PlayOwn(s, Joined(waits)), cursors, PassedAll(cursors, Joined(waits)), id);
      } else {
        WatchListOk(w, s, cursors, id);
        WaitIsPossible(w, s, waits[0], Joined(waits[1..]));
        WaitKeeps(w, s, cursors, WatchList(s), false, waits[0], id);
        PassedSum(cursors, waits[0], Joined(waits[1..]));
        CollectedKeeps(w, PlayWait(s, WatchList(s), waits[0]), PassedAll(cursors, waits[0]), waits[1..], finalSection,
                       id);
      }
    }
  }

  /** The proxy's own steps in the section loop. */
  lemma LaneStep(w: World, s: System, a: ProxyAction, m: Member, c: nat, id: uint64)
    requires LaneOk(w, m, c, id) && LoopStep(a)
    ensures var n := MemberAfter(s, a, m);
      LaneOk(w, n, c, id) && (Doomed(w, m, c, id) ==> Doomed(w, n, c, id))
  {
    hide Inv, Condemned, AckFollows, Harmless, FailedStatus, First, BlocksOf, MissingIds, NewClaim, AnyFailed,
      AllSettledNow;
  }

  lemma StepKeepsLanes(w: World, s: System, cursors: seq<nat>, a: ProxyAction, id: uint64)
    requires Lanes(w, s, cursors, id) && LoopStep(a)
    ensures Lanes(w, Stepped(s, a), cursors, id) && StayDoomed(w, s, cursors, Stepped(s, a), cursors, id)
  {
    hide LaneOk, Doomed, MemberAfter, ProxyAfter;
    forall i | 0 <= i < |s.members|
      ensures LaneOk(w, MemberAfter(s, a, s.members[i]), cursors[i], id)
      ensures Doomed(w, s.members[i], cursors[i], id) ==> Doomed(w, MemberAfter(s, a, s.members[i]), cursors[i], id)
    {
      LaneStep(w, s, a, s.members[i], cursors[i], id);
    }
  }

  /** A mismatch that ends a collection was reported by a receiver lost for good; such a receiver is not
      settled. */
  lemma DoomedMeansUnsettled(w: World, s: System, cursors: seq<nat>, id: uint64)
    requires Lanes(w, s, cursors, id)
    ensures AnyFailed(s) ==> exists i: nat :: DoomedAt(w, s, cursors, id, i)
    ensures (exists i: nat :: DoomedAt(w, s, cursors, id, i)) ==> !AllSettledNow(s)
  {
    hide Condemned, HarmlessFrom, Inv, AckFollows, FailureIsLast;
    if AnyFailed(s) {
      var i :| 0 <= i < |s.members| && Reported(s.members[i].conn, StatusCode.Failed);
      assert LaneOk(w, s.members[i], cursors[i], id);
      assert DoomedAt(w, s, cursors, id, i);
    }
    if exists i: nat :: DoomedAt(w, s, cursors, id, i) {
      var i: nat :| DoomedAt(w, s, cursors, id, i);
      assert !Settled(s.members[i].conn);
    }
  }

  ghost predicate SomeDoomed(w: World, s: System, cursors: seq<nat>, id: uint64) {
    exists i: nat :: DoomedAt(w, s, cursors, id, i)
  }

  lemma StillSome(w: World, s: System, a: seq<nat>, t: System, b: seq<nat>, id: uint64)
    requires StayDoomed(w, s, a, t, b, id)
    ensures SomeDoomed(w, s, a, id) ==> SomeDoomed(w, t, b, id)
  {
    hide DoomedAt;
    if SomeDoomed(w, s, a, id) {
      var i: nat :| DoomedAt(w, s, a, id, i);
      assert DoomedAt(w, t, b, id, i);
    }
  }

  /** What a section or a round may do: keep the lanes and the lost receivers, lose one on a mismatch, and
      not succeed when one was lost before. */
  ghost predicate EndsInOrder(w: World, s: System, a: seq<nat>, result: Dispatch.DeliveryResult, t: System, b: seq<nat>,
                              id: uint64)
  {
    && Lanes(w, t, b, id) && (SomeDoomed(w, s, a, id) ==> SomeDoomed(w, t, b, id))
    && (result == Dispatch.Sha256Mismatch ==> SomeDoomed(w, t, b, id))
    && (result == Dispatch.Success ==> !SomeDoomed(w, s, a, id))
  }

  lemma RoundKeeps(w: World, s: System, cursors: seq<nat>, script: Script, backfillAfter: uint32, id: uint64)
    requires Sound(w) && Lanes(w, s, cursors, id) && s.proxy.phase.Collecting?
    requires s.proxy.phase.round.meta.transferId == id
    requires var waits := script.waits(s.proxy.phase.round.round);
             AllPossible(w, Peers(s), Joined(waits)) && WaitsInTurn(cursors, waits)
    ensures var u := CollectionEnd(s, script, backfillAfter);
      var after := PassedAll(cursors, Joined(script.waits(s.proxy.phase.round.round)));
      && Lanes(w, u, after, id) && StayDoomed(w, s, cursors, u, after, id)
      && (AnyFailed(u) ==> SomeDoomed(w, u, after, id)) && (SomeDoomed(w, s, cursors, id) ==> !AllSettledNow(u))
  {
    hide Lanes, Collected, Stepped, AllPossible, WaitsInTurn, DoomedAt, Peers, AnyFailed, AllSettledNow;
    var r := s.proxy.phase.round;
    var waits := script.waits(r.round);
    var t, after := Collected(s, waits, IsFinal(r)), PassedAll(cursors, Joined(waits));
    CollectedKeeps(w, s, cursors, waits, IsFinal(r), id);
    StepKeepsLanes(w, t, after, EndCollection(backfillAfter), id);
    StayChain(w, s, cursors, t, after, Stepped(t, EndCollection(backfillAfter)), after, id);
    StillSome(w, s, cursors, Stepped(t, EndCollection(backfillAfter)), after, id);
    DoomedMeansUnsettled(w, Stepped(t, EndCollection(backfillAfter)), after, id);
  }

  lemma OpeningKeeps(w: World, u: System, cursors: seq<nat>, script: Script, maxRounds: uint32, id: uint64)
    requires Sound(w) && Lanes(w, u, cursors, id) && u.proxy.phase.Deciding?
    requires var inputs := script.meanwhile(u.proxy.phase.round.round + 1);
             AllPossible(w, Peers(u), inputs) && NoBackfill(inputs)
    ensures var t := NextOpening(u, script, maxRounds);
            Lanes(w, t, cursors, id) && StayDoomed(w, u, cursors, t, cursors, id)
  {
    hide Lanes, PlayOwn, Stepped, AllPossible, DoomedAt, Peers, NoBackfill;
    var inputs := script.meanwhile(u.proxy.phase.round.round + 1);
    OwnsKeep(w, u, cursors, inputs, id);
    StepKeepsLanes(w, PlayOwn(u, inputs), cursors, Decide(maxRounds), id);
    StayChain(w, u, cursors, PlayOwn(u, inputs), cursors, Stepped(PlayOwn(u, inputs), Decide(maxRounds)), cursors, id);
  }

  lemma {:induction false} CursorsMoveOn(cursors: seq<nat>, script: Script, round: nat, maxRounds: nat)
    requires OrderlyFrom(cursors, script, round, maxRounds)
    ensures NotBefore(cursors, CursorsAfter(cursors, script, round, maxRounds))
    decreases if round < maxRounds then maxRounds - round else 0
  {
    hide WaitsInTurn, NoBackfill;
    WaitsMoveOn(cursors, script.waits(round));
    if round < maxRounds {
      CursorsMoveOn(PassedAll(cursors, Joined(script.waits(round))), script, round + 1, maxRounds);
    }
  }

  /** The rest of the script is passed over when the section is over. */
  lemma RestIsPassed(cursors: seq<nat>, script: Script, round: nat, maxRounds: nat)
    requires OrderlyFrom(cursors, script, round, maxRounds)
    ensures NotBefore(PassedAll(cursors, Joined(script.waits(round))), CursorsAfter(cursors, script, round, maxRounds))
  {
    hide WaitsInTurn, NoBackfill;
    if round < maxRounds {
      CursorsMoveOn(PassedAll(cursors, Joined(script.waits(round))), script, round + 1, maxRounds);
    }
  }

  lemma {:induction false} VerdictKeeps(w: World, s: System, cursors: seq<nat>, script: Script, maxRounds: uint32,
                                        backfillAfter: uint32, id: uint64)
    requires Sound(w) && Lanes(w, s, cursors, id) && s.proxy.phase.Collecting?
    requires s.proxy.phase.round.meta.transferId == id
    requires var round := s.proxy.phase.round.round;
      PlayableFrom(w, Peers(s), script, round, maxRounds) && OrderlyFrom(cursors, script, round, maxRounds)
    ensures var (result, t) := Verdict(s, script, maxRounds, backfillAfter);
            EndsInOrder(w, s, cursors, result, t, CursorsAfter(cursors, script, s.proxy.phase.round.round, maxRounds),
                        id)
    decreases maxRounds - s.proxy.phase.round.round
  {
    hide Lanes, CollectionEnd, NextOpening, Stepped, AllPossible, WaitsInTurn, DoomedAt, Peers, AnyFailed,
      AllSettledNow, NoBackfill, Verdict, StayDoomed, SomeDoomed, PassedAll, NotBefore, PlayPeers;
    var round := s.proxy.phase.round.round;
    var u, after := CollectionEnd(s, script, backfillAfter), PassedAll(cursors, Joined(script.waits(round)));
    RoundKeeps(w, s, cursors, script, backfillAfter, id);
    VerdictUnfolds(s, script, maxRounds, backfillAfter);
    CollectionEnds(s, script, backfillAfter);
    EndPeers(s, script, backfillAfter);
    StillSome(w, s, cursors, u, after, id);
    var last := CursorsAfter(cursors, script, round, maxRounds);
    RestIsPassed(cursors, script, round, maxRounds);
    if AnyFailed(u) {
      MoveOn(w, u, after, last, id);
      StillSome(w, u, after, u, last, id);
    } else if AllSettledNow(u) || round >= maxRounds {
      var t := Stepped(u, Decide(maxRounds));
      StepKeepsLanes(w, u, after, Decide(maxRounds), id);
      StillSome(w, u, after, t, after, id);
      MoveOn(w, t, after, last, id);
      StillSome(w, t, after, t, last, id);
    } else {
      var t := NextOpening(u, script, maxRounds);
      OpeningKeeps(w, u, after, script, maxRounds, id);
      StillSome(w, u, after, t, after, id);
      OpeningOpens(u, script, maxRounds);
      OpeningPeers(u, script, maxRounds);
      VerdictKeeps(w, t, after, script, maxRounds, backfillAfter, id);
    }
  }

  lemma OpeningPeers(u: System, script: Script, maxRounds: uint32)
    requires u.proxy.phase.Deciding?
    ensures Peers(NextOpening(u, script, maxRounds))
         == PlayPeers(Peers(u), script.meanwhile(u.proxy.phase.round.round + 1))
  {
    hide Peers, PlayPeers, Stepped, PlayOwn;
    var inputs := script.meanwhile(u.proxy.phase.round.round + 1);
    OwnPeers(u, inputs);
    SteppedPeers(PlayOwn(u, inputs), Decide(maxRounds));
  }

  /** A section in TCP order: on a mismatch a receiver is lost to the transfer, and once one is lost no
      section succeeds. */
  lemma SectionKeeps(w: World, s: System, cursors: seq<nat>, section: uint32, script: Script, maxRounds: uint32,
                     backfillAfter: uint32, id: uint64)
    requires Sound(w) && Lanes(w, s, cursors, id) && s.proxy.current.Some? && s.proxy.current.value.transferId == id
    requires Playable(w, Peers(s), script, maxRounds) && Orderly(cursors, script, maxRounds)
    ensures var (result, t) := Play(s, section, script, maxRounds, backfillAfter);
            EndsInOrder(w, s, cursors, result, t, CursorsAfter(cursors, script, 0, maxRounds), id)
  {
    hide Lanes, Stepped, PlayOwn, AllPossible, DoomedAt, Peers, NoBackfill, Verdict, StayDoomed, SomeDoomed,
      PlayableFrom, OrderlyFrom, CursorsAfter, PlayPeers;
    var t := PlayOwn(s, script.meanwhile(0));
    PlayOwnShape(s, script.meanwhile(0));
    OwnsKeep(w, s, cursors, script.meanwhile(0), id);
    OwnPeers(s, script.meanwhile(0));
    var u := Stepped(t, StartSection(section));
    StepKeepsLanes(w, t, cursors, StartSection(section), id);
    SteppedPeers(t, StartSection(section));
    SectionStarts(t, section);
    StillSome(w, s, cursors, t, cursors, id);
    StillSome(w, t, cursors, u, cursors, id);
    VerdictKeeps(w, u, cursors, script, maxRounds, backfillAfter, id);
  }

  lemma SectionStarts(s: System, section: uint32)
    requires s.proxy.current.Some?
    ensures Stepped(s, StartSection(section)).proxy.phase == Collecting(Round(s.proxy.current.value, section, 0))
  {
  }

  /** Open connections do not matter. */
  lemma LanesAlike(w: World, s: System, t: System, cursors: seq<nat>, id: uint64)
    requires Alike(s, t) && Lanes(w, s, cursors, id)
    ensures Lanes(w, t, cursors, id) && (SomeDoomed(w, s, cursors, id) ==> SomeDoomed(w, t, cursors, id))
  {
    hide LaneOk, Doomed, Bare;
    forall i | 0 <= i < |s.members|
      ensures LaneOk(w, t.members[i], cursors[i], id)
      ensures Doomed(w, s.members[i], cursors[i], id) ==> Doomed(w, t.members[i], cursors[i], id)
    {
      LaneAlike(w, s.members[i], t.members[i], cursors[i], id);
    }
    if SomeDoomed(w, s, cursors, id) {
      var i: nat :| DoomedAt(w, s, cursors, id, i);
      assert DoomedAt(w, t, cursors, id, i);
    }
  }

  lemma LaneAlike(w: World, m: Member, n: Member, c: nat, id: uint64)
    requires Bare(m) == Bare(n) && LaneOk(w, m, c, id)
    ensures LaneOk(w, n, c, id) && (Doomed(w, m, c, id) ==> Doomed(w, n, c, id))
  {
    hide Inv, Condemned, AckFollows, Harmless, FailedStatus;
    assert Bare(m).rx == m.rx && Bare(m).sent == m.sent && Bare(m).orphaned == m.orphaned;
    assert Bare(n).rx == n.rx && Bare(n).sent == n.sent && Bare(n).orphaned == n.orphaned;
    SameFields(m.conn, n.conn);
  }
}
