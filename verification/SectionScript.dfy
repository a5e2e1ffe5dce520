/** What can happen to a section while `distribute_section` runs: frames that arrive, receivers that
    reconnect or hang up, and the receivers' own steps. This file says how such a script plays on the
    system of SectionBarrier.dfy, which result it leads to, and that open or closed connections do not
    matter for it; SectionRounds.dfy runs the source's loops on it. */
module SectionScript {
  import opened Common
  import opened Reports
  import opened Sections
  import opened Messages
  import opened Connections
  import opened Receiver
  import opened ReceiverSafety
  import opened SectionBarrier
  import Dispatch

  // ----- Scripts

  datatype Input =
    | Frame(i: nat, at: nat, report: Report, delivers: bool)                     // read from a connection
    | Rejoin(i: nat, at: nat, state: ReceiverState, id: uint64, delivers: bool)  // a reconnect is accepted
    | Hangup(i: nat)
    | Own(i: nat, event: Event, result: Outcome)                                 // the receiver's own step

  /** Answers to the control sends of each round, what happens while the sends before a round go on, and
      what happens in each wait for events while its reports are collected. */
  datatype Script = Script(
    begin: nat -> nat -> bool, network: nat -> nat -> bool, end: nat -> nat -> bool,
    meanwhile: nat -> seq<Input>, waits: nat -> seq<seq<Input>>)

  function Joined(waits: seq<seq<Input>>): seq<Input> {
    if waits == [] then [] else waits[0] + Joined(waits[1..])
  }

  /** The receiver's side of a member. */
  datatype Peer = Peer(rx: Rx, orphaned: set<uint64>, sent: seq<Report>)

  function PeerOf(m: Member): Peer {
    Peer(m.rx, m.orphaned, m.sent)
  }

  function Peers(s: System): seq<Peer> {
    seq(|s.members|, i requires 0 <= i < |s.members| => PeerOf(s.members[i]))
  }

  function OwnStep(peer: Peer, event: Event, result: Outcome): Peer {
    Peer(result.rx, peer.orphaned + OrphanedBy(peer.rx, event), peer.sent + result.sent)
  }

  function PlayPeer(peers: seq<Peer>, input: Input): seq<Peer> {
    if input.Own? && input.i < |peers| then peers[input.i := OwnStep(peers[input.i], input.event, input.result)]
    else peers
  }

  function PlayPeers(peers: seq<Peer>, inputs: seq<Input>): seq<Peer>
    decreases |inputs|
  {
    if inputs == [] then peers else PlayPeers(PlayPeer(peers, inputs[0]), inputs[1..])
  }

  /** A receiver's own step is one it can take then; what the proxy reads was sent before. */
  ghost predicate Possible(w: World, peers: seq<Peer>, input: Input) {
    input.i < |peers| && PossibleAt(w, peers[input.i], input)
  }

  ghost predicate PossibleAt(w: World, peer: Peer, input: Input) {
    match input
    case Frame(_, at, report, _) => at < |peer.sent| && peer.sent[at] == report
    case Rejoin(_, at, state, id, _) => at < |peer.sent| && peer.sent[at] == Register(state, id)
    case Hangup(_) => true
    case Own(_, event, result) => HonestEvent(w, event) && Step(w, peer.rx, event, result)
  }

  ghost predicate AllPossible(w: World, peers: seq<Peer>, inputs: seq<Input>)
    decreases |inputs|
  {
    inputs == [] || (Possible(w, peers, inputs[0]) && AllPossible(w, PlayPeer(peers, inputs[0]), inputs[1..]))
  }

  /** Rounds `round` to `maxRounds` of the script, from the receivers' states at the opening of the first;
      a round that is never reached may be empty. */
  ghost predicate PlayableFrom(w: World, peers: seq<Peer>, script: Script, round: nat, maxRounds: nat)
    decreases if round < maxRounds then maxRounds - round else 0
  {
    && AllPossible(w, peers, Joined(script.waits(round)))
    && (round < maxRounds ==>
          var after := PlayPeers(peers, Joined(script.waits(round)));
          && AllPossible(w, after, script.meanwhile(round + 1))
          && PlayableFrom(w, PlayPeers(after, script.meanwhile(round + 1)), script, round + 1, maxRounds))
  }

  ghost predicate Playable(w: World, peers: seq<Peer>, script: Script, maxRounds: nat) {
    && AllPossible(w, peers, script.meanwhile(0))
    && PlayableFrom(w, PlayPeers(peers, script.meanwhile(0)), script, 0, maxRounds)
  }

  // ----- Playing a script on the system

  /** Frames are read from watched receivers only. */
  ghost function AfterInput(p: Proxy, m: Member, watched: bool, input: Input): Member {
    match input
    case Frame(_, _, report, delivers) =>
      if p.phase.Collecting? && watched then WithConn(p, m, HandleReport(m.conn, p.phase.round, report, delivers))
      else m
    case Rejoin(_, _, state, id, delivers) => WithConn(p, m, Install(m.conn, state, id, delivers))
    case Hangup(_) => m.(conn := m.conn.(connected := false))
    case Own(_, event, result) =>
      var peer := OwnStep(PeerOf(m), event, result);
      m.(rx := peer.rx, orphaned := peer.orphaned, sent := peer.sent)
  }

  ghost function PlayInput(s: System, watched: set<nat>, input: Input): System {
    if input.i < |s.members| then
      s.(members := s.members[input.i := AfterInput(s.proxy, s.members[input.i], input.i in watched, input)])
    else s
  }

  /** The receivers that the next wait watches. */
  function WatchList(s: System): set<nat> {
    set i: nat | i < |s.members| && Active(s.members[i].conn)
  }

  /** A receiver that is ready is read once. */
  function Unwatch(watched: set<nat>, input: Input): set<nat> {
    if input.Frame? then watched - {input.i} else watched
  }

  /** The events of one wait. */
  ghost function PlayWait(s: System, watched: set<nat>, inputs: seq<Input>): System
    decreases |inputs|
  {
    if inputs == [] then s
    else PlayWait(PlayInput(s, watched, inputs[0]), Unwatch(watched, inputs[0]), inputs[1..])
  }

  /** The receivers' own steps, when the proxy is not listening. */
  ghost function PlayOwn(s: System, inputs: seq<Input>): System
    decreases |inputs|
  {
    if inputs == [] then s
    else PlayOwn(if inputs[0].Own? then PlayInput(s, {}, inputs[0]) else s, inputs[1..])
  }

  predicate AllAnswered(s: System, finalSection: bool) {
    forall i :: 0 <= i < |s.members| ==> RoundDone(s.members[i].conn, finalSection)
  }

  /** The loop of `collect_round_reports`, which tests for its end between waits; the receivers do not stop
      when it does. */
  ghost function Collected(s: System, waits: seq<seq<Input>>, finalSection: bool): System
    decreases |waits|
  {
    if waits == [] then s
    else if AllAnswered(s, finalSection) then PlayOwn(s, Joined(waits))
    else Collected(PlayWait(s, WatchList(s), waits[0]), waits[1..], finalSection)
  }

  predicate IsFinal(r: Round) {
    r.meta.geometry.sectionBlocks != 0 && r.section + 1 == Count(r.meta.geometry)
  }

  /** The system after one of the proxy's own steps. */
  function Stepped(s: System, a: ProxyAction): System {
    System(ProxyAfter(s, a), seq(|s.members|, i requires 0 <= i < |s.members| => MemberAfter(s, a, s.members[i])))
  }

  ghost function CollectionEnd(s: System, script: Script, backfillAfter: uint32): System
    requires s.proxy.phase.Collecting?
  {
    var r := s.proxy.phase.round;
    Stepped(Collected(s, script.waits(r.round), IsFinal(r)), EndCollection(backfillAfter))
  }

  ghost function NextOpening(u: System, script: Script, maxRounds: uint32): System
    requires u.proxy.phase.Deciding?
  {
    Stepped(PlayOwn(u, script.meanwhile(u.proxy.phase.round.round + 1)), Decide(maxRounds))
  }

  /** The result of a section from an opened round on, and the system it leaves, up to which connections
      are open. */
  ghost function Verdict(s: System, script: Script, maxRounds: uint32, backfillAfter: uint32)
    : (Dispatch.DeliveryResult, System)
    requires s.proxy.phase.Collecting?
    decreases maxRounds - s.proxy.phase.round.round
  {
    var u := CollectionEnd(s, script, backfillAfter);
    CollectionEnds(s, script, backfillAfter);
    if AnyFailed(u) then (Dispatch.Sha256Mismatch, u)
    else if AllSettledNow(u) then (Dispatch.Success, Stepped(u, Decide(maxRounds)))
    else if s.proxy.phase.round.round >= maxRounds then (Dispatch.Failed, Stepped(u, Decide(maxRounds)))
    else
      OpeningOpens(u, script, maxRounds);
      Verdict(NextOpening(u, script, maxRounds), script, maxRounds, backfillAfter)
  }

  ghost function Play(s: System, section: uint32, script: Script, maxRounds: uint32, backfillAfter: uint32)
    : (Dispatch.DeliveryResult, System)
    requires s.proxy.current.Some?
  {
    PlayOwnShape(s, script.meanwhile(0));
    Verdict(Stepped(PlayOwn(s, script.meanwhile(0)), StartSection(section)), script, maxRounds, backfillAfter)
  }

  // ----- Shapes

  lemma {:induction false} PlayOwnShape(s: System, inputs: seq<Input>)
    ensures var t := PlayOwn(s, inputs);
      t.proxy == s.proxy && |t.members| == |s.members|
      && forall i :: 0 <= i < |s.members| ==> t.members[i].conn == s.members[i].conn
    decreases |inputs|
  {
    if inputs != [] {
      PlayOwnShape(if inputs[0].Own? then PlayInput(s, {}, inputs[0]) else s, inputs[1..]);
    }
  }

  lemma PlayOwnSettles(s: System, inputs: seq<Input>)
    ensures AllSettledNow(PlayOwn(s, inputs)) <==> AllSettledNow(s)
  {
    hide Settled, PlayOwn;
    PlayOwnShape(s, inputs);
    var t := PlayOwn(s, inputs);
    if AllSettledNow(t) {
      forall i | 0 <= i < |s.members| ensures Settled(s.members[i].conn) {
        assert Settled(t.members[i].conn);
      }
    }
  }

  lemma {:induction false} WaitShape(s: System, watched: set<nat>, inputs: seq<Input>)
    ensures var t := PlayWait(s, watched, inputs); t.proxy == s.proxy && |t.members| == |s.members|
    decreases |inputs|
  {
    hide AfterInput;
    if inputs != [] {
      WaitShape(PlayInput(s, watched, inputs[0]), Unwatch(watched, inputs[0]), inputs[1..]);
    }
  }

  lemma {:induction false} CollectedShape(s: System, waits: seq<seq<Input>>, finalSection: bool)
    ensures var t := Collected(s, waits, finalSection); t.proxy == s.proxy && |t.members| == |s.members|
    decreases |waits|
  {
    hide AllAnswered, PlayWait;
    if waits != [] {
      if AllAnswered(s, finalSection) {
        PlayOwnShape(s, Joined(waits));
      } else {
        WaitShape(s, WatchList(s), waits[0]);
        CollectedShape(PlayWait(s, WatchList(s), waits[0]), waits[1..], finalSection);
      }
    }
  }

  lemma CollectionEnds(s: System, script: Script, backfillAfter: uint32)
    requires s.proxy.phase.Collecting?
    ensures var u := CollectionEnd(s, script, backfillAfter);
      |u.members| == |s.members|
      && u.proxy == s.proxy.(phase := if AnyFailed(u) then Idling else Deciding(s.proxy.phase.round))
  {
    hide Collected, Isolate, First, BlocksOf;
    var r := s.proxy.phase.round;
    CollectedShape(s, script.waits(r.round), IsFinal(r));
    EndIs(Collected(s, script.waits(r.round), IsFinal(r)), backfillAfter);
  }

  lemma OpeningOpens(u: System, script: Script, maxRounds: uint32)
    requires u.proxy.phase.Deciding? && !AllSettledNow(u) && u.proxy.phase.round.round < maxRounds
    ensures NextOpening(u, script, maxRounds).proxy
         == u.proxy.(phase := Collecting(u.proxy.phase.round.(round := u.proxy.phase.round.round + 1)))
  {
    hide PlayOwn, AllSettledNow;
    PlayOwnShape(u, script.meanwhile(u.proxy.phase.round.round + 1));
    PlayOwnSettles(u, script.meanwhile(u.proxy.phase.round.round + 1));
  }

  /** The end of a collection, spelled out. */
  lemma EndIs(u: System, backfillAfter: uint32)
    requires u.proxy.phase.Collecting?
    ensures var t, r := Stepped(u, EndCollection(backfillAfter)), u.proxy.phase.round;
      && t.proxy == u.proxy.(phase := if AnyFailed(u) then Idling else Deciding(r))
      && |t.members| == |u.members|
      && (AnyFailed(u) ==> t.members == u.members)
      && (AnyFailed(t) <==> AnyFailed(u))
      && (!AnyFailed(u) ==> forall i :: 0 <= i < |u.members| ==>
            t.members[i].conn == Isolate(u.members[i].conn, First(r.meta.geometry, r.section),
                                         BlocksOf(r.meta.geometry, r.section), r.round, backfillAfter))
  {
    hide First, BlocksOf, MissingIds;
    var t := Stepped(u, EndCollection(backfillAfter));
    forall i | 0 <= i < |u.members|
      ensures Reported(t.members[i].conn, StatusCode.Failed) <==> Reported(u.members[i].conn, StatusCode.Failed)
    {
    }
    if AnyFailed(t) {
      var i :| 0 <= i < |t.members| && Reported(t.members[i].conn, StatusCode.Failed);
      assert Reported(u.members[i].conn, StatusCode.Failed);
    }
    if AnyFailed(u) {
      var i :| 0 <= i < |u.members| && Reported(u.members[i].conn, StatusCode.Failed);
      assert Reported(t.members[i].conn, StatusCode.Failed);
    }
  }

  // ----- The receivers go their own way

  lemma InputPeers(s: System, watched: set<nat>, input: Input)
    ensures Peers(PlayInput(s, watched, input)) == PlayPeer(Peers(s), input)
  {
    hide HandleReport, Install, NewClaim;
  }

  lemma {:induction false} OwnPeers(s: System, inputs: seq<Input>)
    ensures Peers(PlayOwn(s, inputs)) == PlayPeers(Peers(s), inputs)
    decreases |inputs|
  {
    hide PlayInput, Peers;
    if inputs != [] {
      InputPeers(s, {}, inputs[0]);
      OwnPeers(if inputs[0].Own? then PlayInput(s, {}, inputs[0]) else s, inputs[1..]);
    }
  }

  lemma {:induction false} WaitPeers(s: System, watched: set<nat>, inputs: seq<Input>)
    ensures Peers(PlayWait(s, watched, inputs)) == PlayPeers(Peers(s), inputs)
    decreases |inputs|
  {
    hide PlayInput, Peers;
    if inputs != [] {
      InputPeers(s, watched, inputs[0]);
      WaitPeers(PlayInput(s, watched, inputs[0]), Unwatch(watched, inputs[0]), inputs[1..]);
    }
  }

  lemma {:induction false} PeersOfSum(peers: seq<Peer>, a: seq<Input>, b: seq<Input>)
    ensures PlayPeers(peers, a + b) == PlayPeers(PlayPeers(peers, a), b)
    decreases |a|
  {
    hide PlayPeer;
    if a == [] {
      assert a + b == b;
    } else {
      assert (a + b)[1..] == a[1..] + b;
      PeersOfSum(PlayPeer(peers, a[0]), a[1..], b);
    }
  }

  lemma {:induction false} PossibleSum(w: World, peers: seq<Peer>, a: seq<Input>, b: seq<Input>)
    ensures AllPossible(w, peers, a + b) <==> AllPossible(w, peers, a) && AllPossible(w, PlayPeers(peers, a), b)
    decreases |a|
  {
    hide PlayPeer, Possible;
    if a == [] {
      assert a + b == b;
    } else {
      assert (a + b)[1..] == a[1..] + b;
      PossibleSum(w, PlayPeer(peers, a[0]), a[1..], b);
    }
  }

  lemma {:induction false} CollectedPeers(s: System, waits: seq<seq<Input>>, finalSection: bool)
    ensures Peers(Collected(s, waits, finalSection)) == PlayPeers(Peers(s), Joined(waits))
    decreases |waits|
  {
    hide PlayWait, Peers, AllAnswered, PlayOwn, PlayPeer;
    if waits != [] {
      OwnPeers(s, Joined(waits));
      WaitPeers(s, WatchList(s), waits[0]);
      CollectedPeers(PlayWait(s, WatchList(s), waits[0]), waits[1..], finalSection);
      PeersOfSum(Peers(s), waits[0], Joined(waits[1..]));
    }
  }

  lemma SteppedPeers(s: System, a: ProxyAction)
    ensures Peers(Stepped(s, a)) == Peers(s)
  {
    hide ProxyAfter, Begin, AdoptCached, Isolate, ResetRound, NewClaim, AnyFailed, AllSettledNow;
  }

  // ----- Connections do not matter for the result

  function Bare(m: Member): Member {
    m.(conn := m.conn.(connected := false))
  }

  /** Equal up to which connections are open. */
  ghost predicate Alike(s: System, t: System) {
    s.proxy == t.proxy && |s.members| == |t.members|
    && forall i :: 0 <= i < |s.members| ==> Bare(s.members[i]) == Bare(t.members[i])
  }

  /** The record `d` is `c`, but perhaps for the connection. */
  predicate SameButLink(c: Conn, d: Conn) {
    c.(connected := false) == d.(connected := false)
  }

  lemma SendAlike(c: Conn, d: Conn, delivers: bool)
    requires SameButLink(c, d)
    ensures SameButLink(Send(c, delivers), Send(d, delivers))
  {
  }

  lemma MarkAlike(c: Conn, d: Conn, id: uint64)
    requires SameButLink(c, d)
    ensures SameButLink(MarkCompleted(c, id), MarkCompleted(d, id))
    ensures SameButLink(Recovered(c), Recovered(d))
    ensures SameButLink(Connections.Restarted(c, id), Connections.Restarted(d, id))
  {
  }

  lemma StatusAlike(c: Conn, d: Conn, status: SectionStatus)
    requires SameButLink(c, d)
    ensures SameButLink(c.(status := Some(status), statusReceived := true),
                        d.(status := Some(status), statusReceived := true))
  {
  }

  /** What the record says apart from the connection is read off either. */
  lemma SameFields(c: Conn, d: Conn)
    requires SameButLink(c, d)
    ensures d.statusReceived == c.statusReceived && d.status == c.status && d.activeMeta == c.activeMeta
    ensures d.completed == c.completed && d.abandoned == c.abandoned && Active(c) == Active(d)
  {
  }

  lemma ReportAlike(c: Conn, d: Conn, r: Round, report: Report, delivers: bool)
    requires SameButLink(c, d)
    ensures SameButLink(HandleReport(c, r, report, delivers), HandleReport(d, r, report, delivers))
  {
    hide WellFormed, BlocksOf, SameButLink, Send, MarkCompleted;
    SameFields(c, d);
    match report
    case Status(status) => StatusAlike(c, d, status);
    case ReceiverComplete(id, _, _) =>
      MarkAlike(c, d, id);
      SendAlike(MarkCompleted(c, id), MarkCompleted(d, id), delivers);
    case _ =>
  }

  lemma InstallAlike(c: Conn, d: Conn, state: ReceiverState, id: uint64, delivers: bool)
    requires SameButLink(c, d)
    ensures SameButLink(Install(c, state, id, delivers), Install(d, state, id, delivers))
  {
    hide Recovered, Connections.Restarted, Send, SameButLink;
    SameFields(c, d);
    var e := c.(connected := true, recoveryState := state, recoveryId := id);
    Relinked(c, d, state, id);
    SameAfter(e, delivers);
    if c.activeMeta.Some? {
      SameAfter(Recovered(e), delivers);
      SameAfter(Connections.Restarted(e, c.activeMeta.value.transferId), delivers);
    }
    SameAfter(e.(readyForNext := true), delivers);
  }

  lemma Relinked(c: Conn, d: Conn, state: ReceiverState, id: uint64)
    requires SameButLink(c, d)
    ensures c.(connected := true, recoveryState := state, recoveryId := id)
         == d.(connected := true, recoveryState := state, recoveryId := id)
  {
  }

  lemma SameAfter(c: Conn, delivers: bool)
    ensures SameButLink(c, c) && SameButLink(Send(c, delivers), Send(c, delivers))
  {
  }

  lemma WithConnAlike(p: Proxy, m: Member, n: Member, c: Conn, d: Conn)
    requires Bare(m) == Bare(n) && SameButLink(c, d)
    ensures Bare(WithConn(p, m, c)) == Bare(WithConn(p, n, d))
  {
    hide SetAside, NewClaim, Bare, SameButLink;
    SameMarks(p, m, n, c, d);
    BareUpdate(m, n, c, d, m.skipped || SetAside(c), NewClaim(p, m, c));
  }

  lemma SameMarks(p: Proxy, m: Member, n: Member, c: Conn, d: Conn)
    requires Bare(m) == Bare(n) && SameButLink(c, d)
    ensures SetAside(c) == SetAside(d) && NewClaim(p, m, c) == NewClaim(p, n, d) && m.skipped == n.skipped
  {
  }

  lemma BareUpdate(m: Member, n: Member, c: Conn, d: Conn, skipped: bool, claim: Option<uint64>)
    requires Bare(m) == Bare(n) && SameButLink(c, d)
    ensures Bare(m.(conn := c, skipped := skipped, claim := claim))
         == Bare(n.(conn := d, skipped := skipped, claim := claim))
  {
    assert m.rx == n.rx && m.orphaned == n.orphaned && m.sent == n.sent;
  }

  lemma InputAlike(p: Proxy, m: Member, n: Member, watched: bool, input: Input)
    requires Bare(m) == Bare(n)
    ensures Bare(AfterInput(p, m, watched, input)) == Bare(AfterInput(p, n, watched, input))
  {
    hide HandleReport, Install, WithConn;
    assert SameButLink(m.conn, n.conn);
    match input
    case Frame(_, _, report, delivers) =>
      if p.phase.Collecting? {
        ReportAlike(m.conn, n.conn, p.phase.round, report, delivers);
        WithConnAlike(p, m, n, HandleReport(m.conn, p.phase.round, report, delivers),
                      HandleReport(n.conn, p.phase.round, report, delivers));
      }
    case Rejoin(_, _, state, id, delivers) =>
      InstallAlike(m.conn, n.conn, state, id, delivers);
      WithConnAlike(p, m, n, Install(m.conn, state, id, delivers), Install(n.conn, state, id, delivers));
    case Hangup(_) =>
    case Own(_, event, result) => OwnAlike(m, n, event, result);
  }

  lemma OwnAlike(m: Member, n: Member, event: Event, result: Outcome)
    requires Bare(m) == Bare(n)
    ensures PeerOf(m) == PeerOf(n)
    ensures var peer := OwnStep(PeerOf(m), event, result);
      Bare(m.(rx := peer.rx, orphaned := peer.orphaned, sent := peer.sent))
      == Bare(n.(rx := peer.rx, orphaned := peer.orphaned, sent := peer.sent))
  {
    hide OrphanedBy;
  }

  lemma PlayAlike(s: System, t: System, watched: set<nat>, input: Input)
    requires Alike(s, t)
    ensures Alike(PlayInput(s, watched, input), PlayInput(t, watched, input))
  {
    hide AfterInput, Bare;
    if input.i < |s.members| {
      InputAlike(s.proxy, s.members[input.i], t.members[input.i], input.i in watched, input);
    }
  }

  lemma {:induction false} WaitAlike(s: System, t: System, watched: set<nat>, inputs: seq<Input>)
    requires Alike(s, t)
    ensures Alike(PlayWait(s, watched, inputs), PlayWait(t, watched, inputs))
    decreases |inputs|
  {
    hide Alike, PlayInput;
    if inputs != [] {
      PlayAlike(s, t, watched, inputs[0]);
      WaitAlike(PlayInput(s, watched, inputs[0]), PlayInput(t, watched, inputs[0]), Unwatch(watched, inputs[0]),
                inputs[1..]);
    }
  }

  lemma SameWatch(s: System, t: System)
    requires Alike(s, t)
    ensures WatchList(s) == WatchList(t)
  {
    forall i: nat | i < |s.members| ensures Active(s.members[i].conn) == Active(t.members[i].conn) {
      assert Bare(s.members[i]) == Bare(t.members[i]);
    }
  }

  lemma {:induction false} PlayOwnAlike(s: System, t: System, inputs: seq<Input>)
    requires Alike(s, t)
    ensures Alike(PlayOwn(s, inputs), PlayOwn(t, inputs))
    decreases |inputs|
  {
    hide Alike, PlayInput;
    if inputs != [] {
      PlayAlike(s, t, {}, inputs[0]);
      PlayOwnAlike(if inputs[0].Own? then PlayInput(s, {}, inputs[0]) else s,
                   if inputs[0].Own? then PlayInput(t, {}, inputs[0]) else t, inputs[1..]);
    }
  }

  /** Everything the proxy asks of the records is the same on both sides. */
  lemma SameAnswers(s: System, t: System, finalSection: bool)
    requires Alike(s, t)
    ensures AllAnswered(s, finalSection) <==> AllAnswered(t, finalSection)
    ensures AllSettledNow(s) <==> AllSettledNow(t)
    ensures AnyFailed(s) <==> AnyFailed(t)
  {
    AnswersFollow(s, t, finalSection);
    AnswersFollow(t, s, finalSection);
  }

  lemma AnswersFollow(s: System, t: System, finalSection: bool)
    requires Alike(s, t)
    ensures AllAnswered(s, finalSection) ==> AllAnswered(t, finalSection)
    ensures AllSettledNow(s) ==> AllSettledNow(t)
    ensures AnyFailed(s) ==> AnyFailed(t)
  {
    hide RoundDone, Settled, Reported;
    forall i | 0 <= i < |s.members|
      ensures RoundDone(s.members[i].conn, finalSection) == RoundDone(t.members[i].conn, finalSection)
      ensures Settled(s.members[i].conn) == Settled(t.members[i].conn)
      ensures Reported(s.members[i].conn, StatusCode.Failed) == Reported(t.members[i].conn, StatusCode.Failed)
    {
      MemberAnswers(s.members[i], t.members[i], finalSection);
    }
    if AnyFailed(s) {
      var i :| 0 <= i < |s.members| && Reported(s.members[i].conn, StatusCode.Failed);
      assert Reported(t.members[i].conn, StatusCode.Failed);
    }
  }

  lemma MemberAnswers(m: Member, n: Member, finalSection: bool)
    requires Bare(m) == Bare(n)
    ensures RoundDone(m.conn, finalSection) == RoundDone(n.conn, finalSection)
    ensures Settled(m.conn) == Settled(n.conn)
    ensures Reported(m.conn, StatusCode.Failed) == Reported(n.conn, StatusCode.Failed)
  {
  }

  lemma {:induction false} CollectedAlike(s: System, t: System, waits: seq<seq<Input>>, finalSection: bool)
    requires Alike(s, t)
    ensures Alike(Collected(s, waits, finalSection), Collected(t, waits, finalSection))
    decreases |waits|
  {
    hide Alike, PlayWait, PlayOwn, AllAnswered, WatchList;
    if waits != [] {
      SameAnswers(s, t, finalSection);
      SameWatch(s, t);
      PlayOwnAlike(s, t, Joined(waits));
      WaitAlike(s, t, WatchList(s), waits[0]);
      CollectedAlike(PlayWait(s, WatchList(s), waits[0]), PlayWait(t, WatchList(t), waits[0]), waits[1..],
                     finalSection);
    }
  }

  lemma IsolateAlike(c: Conn, d: Conn, first: nat, n: nat, round: uint32, backfillAfter: uint32)
    requires SameButLink(c, d)
    ensures SameButLink(Isolate(c, first, n, round, backfillAfter), Isolate(d, first, n, round, backfillAfter))
    ensures SameButLink(ResetRound(c), ResetRound(d))
  {
    hide MissingIds;
  }

  /** The steps of the section loop. */
  predicate LoopStep(a: ProxyAction) {
    a.StartSection? || a.EndCollection? || a.Decide?
  }

  lemma ResetAlike(p: Proxy, m: Member, n: Member)
    requires Bare(m) == Bare(n)
    ensures Bare(WithConn(p, m, ResetRound(m.conn))) == Bare(WithConn(p, n, ResetRound(n.conn)))
  {
    hide WithConn, Isolate, ResetRound;
    assert SameButLink(m.conn, n.conn);
    IsolateAlike(m.conn, n.conn, 0, 0, 0, 0);
    WithConnAlike(p, m, n, ResetRound(m.conn), ResetRound(n.conn));
  }

  lemma EndAlike(p: Proxy, m: Member, n: Member, first: nat, size: nat, round: uint32, backfillAfter: uint32)
    requires Bare(m) == Bare(n)
    ensures Bare(WithConn(p, m, Isolate(m.conn, first, size, round, backfillAfter)))
         == Bare(WithConn(p, n, Isolate(n.conn, first, size, round, backfillAfter)))
  {
    hide WithConn, Isolate, ResetRound;
    assert SameButLink(m.conn, n.conn);
    IsolateAlike(m.conn, n.conn, first, size, round, backfillAfter);
    WithConnAlike(p, m, n, Isolate(m.conn, first, size, round, backfillAfter),
                  Isolate(n.conn, first, size, round, backfillAfter));
  }

  lemma MemberAfterAlike(s: System, t: System, a: ProxyAction, m: Member, n: Member)
    requires Alike(s, t) && LoopStep(a) && Bare(m) == Bare(n)
    ensures Bare(MemberAfter(s, a, m)) == Bare(MemberAfter(t, a, n))
  {
    hide Alike, Bare, WithConn, Isolate, ResetRound, AllSettledNow, AnyFailed, First, BlocksOf;
    SameProxy(s, t);
    SameAnswers(s, t, false);
    var p := s.proxy;
    ResetAlike(p, m, n);
    if a.EndCollection? && !p.phase.Idling? {
      var r := p.phase.round;
      EndAlike(p, m, n, First(r.meta.geometry, r.section), BlocksOf(r.meta.geometry, r.section), r.round,
               a.backfillAfter);
    }
  }

  lemma SameProxy(s: System, t: System)
    requires Alike(s, t)
    ensures s.proxy == t.proxy && |s.members| == |t.members|
    ensures forall i :: 0 <= i < |s.members| ==> Bare(s.members[i]) == Bare(t.members[i])
  {
  }

  lemma SteppedAlike(s: System, t: System, a: ProxyAction)
    requires Alike(s, t) && LoopStep(a)
    ensures Alike(Stepped(s, a), Stepped(t, a))
  {
    hide Bare, MemberAfter, AllSettledNow, AnyFailed;
    SameAnswers(s, t, false);
    forall i | 0 <= i < |s.members| ensures Bare(Stepped(s, a).members[i]) == Bare(Stepped(t, a).members[i]) {
      MemberAfterAlike(s, t, a, s.members[i], t.members[i]);
    }
  }

  lemma CollectionAlike(s: System, t: System, script: Script, backfillAfter: uint32)
    requires Alike(s, t) && s.proxy.phase.Collecting?
    ensures Alike(CollectionEnd(s, script, backfillAfter), CollectionEnd(t, script, backfillAfter))
  {
    hide Alike, Stepped, Collected;
    SameProxy(s, t);
    var r := s.proxy.phase.round;
    CollectedAlike(s, t, script.waits(r.round), IsFinal(r));
    SteppedAlike(Collected(s, script.waits(r.round), IsFinal(r)), Collected(t, script.waits(r.round), IsFinal(r)),
                 EndCollection(backfillAfter));
  }

  lemma OpeningAlike(u: System, v: System, script: Script, maxRounds: uint32)
    requires Alike(u, v) && u.proxy.phase.Deciding?
    ensures Alike(NextOpening(u, script, maxRounds), NextOpening(v, script, maxRounds))
  {
    hide Alike, Stepped, PlayOwn;
    SameProxy(u, v);
    var inputs := script.meanwhile(u.proxy.phase.round.round + 1);
    PlayOwnAlike(u, v, inputs);
    SteppedAlike(PlayOwn(u, inputs), PlayOwn(v, inputs), Decide(maxRounds));
  }

  /** Two systems that differ at most in open connections come to the same verdict. */
  lemma {:induction false} VerdictAlike(s: System, t: System, script: Script, maxRounds: uint32, backfillAfter: uint32)
    requires Alike(s, t) && s.proxy.phase.Collecting?
    ensures var (a, u) := Verdict(s, script, maxRounds, backfillAfter);
            var (b, v) := Verdict(t, script, maxRounds, backfillAfter);
            a == b && Alike(u, v)
    decreases maxRounds - s.proxy.phase.round.round
  {
    hide Alike, Stepped, CollectionEnd, NextOpening, AllSettledNow, AnyFailed;
    SameProxy(s, t);
    var u, v := CollectionEnd(s, script, backfillAfter), CollectionEnd(t, script, backfillAfter);
    CollectionAlike(s, t, script, backfillAfter);
    CollectionEnds(s, script, backfillAfter);
    CollectionEnds(t, script, backfillAfter);
    SameAnswers(u, v, false);
    SteppedAlike(u, v, Decide(maxRounds));
    if !AnyFailed(u) && !AllSettledNow(u) && s.proxy.phase.round.round < maxRounds {
      OpeningAlike(u, v, script, maxRounds);
      OpeningOpens(u, script, maxRounds);
      VerdictAlike(NextOpening(u, script, maxRounds), NextOpening(v, script, maxRounds), script, maxRounds,
                   backfillAfter);
    }
  }
}
