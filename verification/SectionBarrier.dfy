/** The proxy and its receivers as one system: registration, section rounds, reports, isolation,
    backfill, reconnects and process kills in any interleaving. A section that the proxy declares
    delivered is held by every receiver that was never set aside, and a receiver that the proxy
    declares completed has published the file.

    The control channel is modelled weaker than TCP: the proxy may be handed any report the receiver
    ever sent, at any time and any number of times, and receivers may get any command whose metadata
    and block content are honest. */
module SectionBarrier {
  import opened Common
  import opened Reports
  import opened Sections
  import opened Messages
  import opened Connections
  import opened Receiver
  import opened ReceiverSafety
  import opened Mismatch

  // ----- The system

  datatype Phase =
    | Idling                                  // metadata phase, between sections, backfill, between transfers
    | Collecting(round: Round)                // inside `collect_round_reports`
    | Deciding(round: Round)                  // after it, slow receivers isolated

  datatype Proxy = Proxy(
    current: Option<FileMeta>,                // the transfer every record was last given
    begun: bool,                              // given by `begin_receiver_transfer`, not as a cached file
    phase: Phase,
    delivered: set<uint32>,                   // sections of this transfer that returned Success
    claimable: set<uint64>)                   // transfers since the last one begun, which comes first

  /** A receiver together with the proxy's record of it. */
  datatype Member = Member(
    conn: Conn,
    skipped: bool,                            // isolated or abandoned at some moment of this transfer
    claim: Option<uint64>,                    // the transfer that `conn.completed` speaks of
    rx: Rx,
    orphaned: set<uint64>,                    // publications cut short by a kill
    sent: seq<Report>)                        // everything the receiver ever sent, in order

  datatype System = System(proxy: Proxy, members: seq<Member>)

  /** The transfer of `meta` has been begun, and no section of it is under way. */
  predicate Underway(p: Proxy, meta: FileMeta) {
    p.current == Some(meta) && p.begun && p.phase == Idling
  }

  predicate SetAside(c: Conn) {
    c.isolated || c.abandoned
  }

  /** A flag that stays up keeps speaking of its old transfer, unless the record now says that the
      current one is completed. */
  function NewClaim(p: Proxy, m: Member, c: Conn): Option<uint64> {
    if !c.completed then None
    else if p.current.Some? && RegisteredCompleted(c, p.current.value.transferId) then Some(c.recoveryId)
    else m.claim
  }

  function WithConn(p: Proxy, m: Member, c: Conn): Member {
    m.(conn := c, skipped := m.skipped || SetAside(c), claim := NewClaim(p, m, c))
  }

  const BLANK_CONNECTION :=
    Conn(false, false, false, false, false, false, false, false, Idle, 0, {}, None, None)

  /** A receiver as a proxy that has just started finds it: any state its own run may have reached, and
      a record made from a registration it sent. */
  ghost predicate Registered(w: World, m: Member) {
    && ReceiverOk(w, m) && !m.skipped && m.claim.None?
    && exists state, id :: Register(state, id) in m.sent && m.conn == Install(BLANK_CONNECTION, state, id, true)
  }

  /** `accept_receivers` has returned, in a proxy started for the first time or again. */
  ghost predicate Initial(w: World, s: System) {
    && s.proxy == Proxy(None, false, Idling, {}, {})
    && forall i :: 0 <= i < |s.members| ==> Registered(w, s.members[i])
  }

  // ----- Steps

  /** Steps of the proxy alone, applied to every record. */
  datatype ProxyAction =
    | BeginTransfer(meta: FileMeta, delivers: bool)
    | CachedTransfer(meta: FileMeta, delivers: bool)
    | StartSection(section: uint32)
    | EndCollection(backfillAfter: uint32)
    | Decide(maxRounds: uint32)
    | Abort                                // an exception leaves the section loop

  /** Steps that touch one receiver or its record. */
  datatype MemberAction =
    | MetaFrame(report: Report, delivers: bool)
    | RoundFrame(report: Report, delivers: bool)
    | BackfillFrame(report: Report, delivers: bool)
    | ReadyFrame(report: Report)
    | ReconnectFrom(state: ReceiverState, id: uint64, delivers: bool)
    | LinkChange(connected: bool)          // a send failed, or the peer hung up
    | AbandonOne
    | ReceiverStep(event: Event, result: Outcome)

  datatype Action = OfProxy(proxyAction: ProxyAction) | OfMember(i: nat, memberAction: MemberAction)

  predicate AllSettledNow(s: System) {
    forall i :: 0 <= i < |s.members| ==> Settled(s.members[i].conn)
  }

  predicate AnyFailed(s: System) {
    exists i :: 0 <= i < |s.members| && Reported(s.members[i].conn, Failed)
  }

  ghost predicate ProxyEnabled(w: World, s: System, a: ProxyAction) {
    match a
    case BeginTransfer(meta, _) => meta == w.meta(meta.transferId)
    case CachedTransfer(meta, _) => meta == w.meta(meta.transferId) && s.proxy.phase.Idling?
    case StartSection(section) =>
      s.proxy.phase.Idling? && s.proxy.begun && s.proxy.current.Some? && Valid(s.proxy.current.value.geometry)
      && section < Count(s.proxy.current.value.geometry)
    case EndCollection(_) => s.proxy.phase.Collecting?
    case Decide(_) => s.proxy.phase.Deciding?
    case Abort => true
  }

  function ProxyAfter(s: System, a: ProxyAction): Proxy {
    var p := s.proxy;
    match a
    case BeginTransfer(meta, _) => Proxy(Some(meta), true, Idling, {}, {meta.transferId})
    case CachedTransfer(meta, _) => Proxy(Some(meta), false, Idling, {}, p.claimable + {meta.transferId})
    case Abort => p.(phase := Idling)
    case StartSection(section) =>
      if p.current.Some? then p.(phase := Collecting(Round(p.current.value, section, 0))) else p
    case EndCollection(_) =>
      if AnyFailed(s) || p.phase.Idling? then p.(phase := Idling) else p.(phase := Deciding(p.phase.round))
    case Decide(maxRounds) =>
      if p.phase.Idling? then p
      else
        var r := p.phase.round;
        if AllSettledNow(s) then p.(phase := Idling, delivered := p.delivered + {r.section})
        else if r.round < maxRounds then p.(phase := Collecting(r.(round := r.round + 1)))
        else p.(phase := Idling)
  }

  function MemberAfter(s: System, a: ProxyAction, m: Member): Member {
    match a
    case BeginTransfer(meta, delivers) =>
      var c := Begin(m.conn, meta, delivers);
      m.(conn := c, skipped := SetAside(c), claim := NewClaim(ProxyAfter(s, a), m, c))
    case CachedTransfer(meta, delivers) =>
      var c := AdoptCached(m.conn, meta, delivers);
      m.(conn := c, skipped := SetAside(c), claim := NewClaim(ProxyAfter(s, a), m, c))
    case Abort => m
    case StartSection(_) => WithConn(s.proxy, m, ResetRound(m.conn))
    case EndCollection(backfillAfter) =>
      if AnyFailed(s) || s.proxy.phase.Idling? then m
      else
        var r := s.proxy.phase.round;
        WithConn(s.proxy, m, Isolate(m.conn, First(r.meta.geometry, r.section), BlocksOf(r.meta.geometry, r.section),
                            r.round, backfillAfter))
    case Decide(maxRounds) =>
      if !AllSettledNow(s) && !s.proxy.phase.Idling? && s.proxy.phase.round.round < maxRounds
      then WithConn(s.proxy, m, ResetRound(m.conn)) else m
  }

  ghost predicate MemberStep(w: World, p: Proxy, m: Member, a: MemberAction, n: Member) {
    match a
    case MetaFrame(report, delivers) =>
      report in m.sent && p.current.Some? && n == WithConn(p, m, MetaPhase(m.conn, p.current.value, report, delivers))
    case RoundFrame(report, delivers) =>
      && report in m.sent && p.phase.Collecting?
      && n == WithConn(p, m, HandleReport(m.conn, p.phase.round, report, delivers))
    case BackfillFrame(report, delivers) =>
      && report in m.sent && p.phase.Idling? && p.current.Some?
      && n == WithConn(p, m, BackfillPhase(m.conn, p.current.value, report, delivers))
    case ReadyFrame(report) =>
      && report in m.sent && p.phase.Idling? && p.current.Some?
      && n == WithConn(p, m, ReadyPhase(m.conn, p.current.value.transferId, report))
    case ReconnectFrom(state, id, delivers) =>
      Register(state, id) in m.sent && n == WithConn(p, m, Install(m.conn, state, id, delivers))
    case LinkChange(connected) => n == m.(conn := m.conn.(connected := connected))
    case AbandonOne => p.phase.Idling? && n == WithConn(p, m, Abandon(m.conn))
    case ReceiverStep(event, result) =>
      && HonestEvent(w, event) && Step(w, m.rx, event, result)
      && n == m.(rx := result.rx, orphaned := m.orphaned + OrphanedBy(m.rx, event),
                 sent := m.sent + result.sent)
  }

  ghost predicate Next(w: World, s: System, a: Action, t: System) {
    && |t.members| == |s.members|
    && match a
       case OfProxy(act) =>
         && ProxyEnabled(w, s, act) && t.proxy == ProxyAfter(s, act)
         && forall i :: 0 <= i < |s.members| ==> t.members[i] == MemberAfter(s, act, s.members[i])
       case OfMember(i, act) =>
         && i < |s.members| && t.proxy == s.proxy
         && MemberStep(w, s.proxy, s.members[i], act, t.members[i])
         && t.members == s.members[i := t.members[i]]
  }

  // ----- The invariant

  /** What the proxy's record of a receiver says is true of that receiver's disk. */
  ghost predicate ConnTrue(w: World, c: Conn, disk: Disk, current: Option<FileMeta>) {
    && (c.recoveryState == Completed ==> c.recoveryId in disk.published)
    && (c.activeMeta.Some? ==> c.activeMeta == current)
    && (c.status.Some? ==> Truthful(w, disk, Status(c.status.value)))
  }

  /** A completed receiver has published the transfer its flag speaks of: the current one, when that was
      begun and not adopted as a cached file. */
  ghost predicate ClaimTrue(m: Member, p: Proxy) {
    m.conn.completed ==>
      && m.claim.Some? && m.claim.value in m.rx.disk.published && m.claim.value in p.claimable
      && (p.begun ==> p.current.Some? && m.claim.value == p.current.value.transferId)
  }

  /** A step that raises the flag also records the current transfer as completed. */
  predicate Raises(c: Conn, d: Conn, p: Proxy) {
    d.completed ==> c.completed || (p.current.Some? && RegisteredCompleted(d, p.current.value.transferId))
  }

  /** While a round is open, a kept status report belongs to its section. */
  ghost predicate OfRound(c: Conn, phase: Phase) {
    !phase.Idling? && c.status.Some? ==>
      c.status.value.transferId == phase.round.meta.transferId && c.status.value.sectionId == phase.round.section
  }

  ghost predicate AllCovered(w: World, disk: Disk, p: Proxy) {
    p.current.Some? ==>
      forall section :: section in p.delivered ==> Covered(w, disk, p.current.value.transferId, section)
  }

  ghost predicate ReceiverOk(w: World, m: Member) {
    && Inv(w, m.rx, m.orphaned) && AckFollows(m.sent, m.rx)
    && forall report :: report in m.sent ==> Truthful(w, m.rx.disk, report)
  }

  ghost predicate MemberOk(w: World, m: Member, p: Proxy) {
    && ReceiverOk(w, m)
    && ConnTrue(w, m.conn, m.rx.disk, p.current) && ClaimTrue(m, p)
    && OfRound(m.conn, p.phase)
    && (SetAside(m.conn) ==> m.skipped)
    && (!m.skipped ==> AllCovered(w, m.rx.disk, p))
  }

  ghost predicate ProxyOk(w: World, p: Proxy) {
    && (p.current.Some? ==> p.current.value == w.meta(p.current.value.transferId))
    && (!p.phase.Idling? ==> p.begun && p.current == Some(p.phase.round.meta))
    && (p.current.Some? ==> p.current.value.transferId in p.claimable) && (p.begun ==> p.current.Some?)
  }

  ghost predicate SysInv(w: World, s: System) {
    ProxyOk(w, s.proxy) && forall i :: 0 <= i < |s.members| ==> MemberOk(w, s.members[i], s.proxy)
  }

  lemma InitialHolds(w: World, s: System)
    requires Initial(w, s)
    ensures SysInv(w, s)
  {
    hide Inv, Covered, ReceiverOk;
    forall i | 0 <= i < |s.members| ensures MemberOk(w, s.members[i], s.proxy) {
      RegisteredHolds(w, s.members[i]);
    }
  }

  lemma RegisteredHolds(w: World, m: Member)
    requires Registered(w, m)
    ensures MemberOk(w, m, Proxy(None, false, Idling, {}, {}))
  {
    hide Inv, Covered;
    var state, id :| Register(state, id) in m.sent && m.conn == Install(BLANK_CONNECTION, state, id, true);
    assert Truthful(w, m.rx.disk, Register(state, id));
  }

  /** A receiver started for the first time, with an empty disk, is one of them. */
  lemma FreshReceiver(w: World)
    ensures Registered(w, Member(Install(BLANK_CONNECTION, Idle, 0, true), false, None, INITIAL, {},
                                 [Register(Idle, 0)]))
  {
    InitialInv(w);
  }

  // ----- Frames and reconnects

  lemma RoundFrameKeeps(w: World, c: Conn, disk: Disk, p: Proxy, report: Report, delivers: bool)
    requires ConnTrue(w, c, disk, p.current) && ProxyOk(w, p) && OfRound(c, p.phase) && Truthful(w, disk, report)
    requires p.phase.Collecting?
    ensures var d := HandleReport(c, p.phase.round, report, delivers);
            ConnTrue(w, d, disk, p.current) && OfRound(d, p.phase) && Raises(c, d, p)
  {
    hide WellFormed, Covered, BlocksOf;
  }

  lemma MetaFrameKeeps(w: World, c: Conn, disk: Disk, p: Proxy, report: Report, delivers: bool)
    requires ConnTrue(w, c, disk, p.current) && OfRound(c, p.phase) && Truthful(w, disk, report)
    requires p.current.Some?
    ensures var d := MetaPhase(c, p.current.value, report, delivers);
            ConnTrue(w, d, disk, p.current) && OfRound(d, p.phase) && Raises(c, d, p)
  {
    hide Covered;
  }

  lemma BackfillFrameKeeps(w: World, c: Conn, disk: Disk, p: Proxy, report: Report, delivers: bool)
    requires ConnTrue(w, c, disk, p.current) && Truthful(w, disk, report) && p.current.Some?
    ensures var d := BackfillPhase(c, p.current.value, report, delivers);
            ConnTrue(w, d, disk, p.current) && Raises(c, d, p)
    ensures var d := ReadyPhase(c, p.current.value.transferId, report);
            ConnTrue(w, d, disk, p.current) && Raises(c, d, p)
  {
    hide Covered;
  }

  lemma InstallKeepsConn(w: World, c: Conn, disk: Disk, p: Proxy, state: ReceiverState, id: uint64, delivers: bool)
    requires ConnTrue(w, c, disk, p.current) && OfRound(c, p.phase) && Truthful(w, disk, Register(state, id))
    ensures var d := Install(c, state, id, delivers);
            ConnTrue(w, d, disk, p.current) && OfRound(d, p.phase) && Raises(c, d, p)
  {
    hide Truthful, Raises, Install;
    assert state == Completed ==> id in disk.published by {
      RegistrationSays(w, disk, state, id);
    }
    InstallShows(c, state, id, delivers);
    assert Raises(c, Install(c, state, id, delivers), p) by {
      InstallRaises(c, p, state, id, delivers);
    }
  }

  lemma InstallRaises(c: Conn, p: Proxy, state: ReceiverState, id: uint64, delivers: bool)
    requires c.activeMeta.Some? ==> c.activeMeta == p.current
    ensures Raises(c, Install(c, state, id, delivers), p)
  {
    hide Install;
    InstallShows(c, state, id, delivers);
  }

  lemma RegistrationSays(w: World, disk: Disk, state: ReceiverState, id: uint64)
    requires Truthful(w, disk, Register(state, id))
    ensures state == Completed ==> id in disk.published
  {
  }

  /** `d` claims no more than `c` does. */
  predicate SameClaims(c: Conn, d: Conn) {
    d.activeMeta == c.activeMeta && (d.status == c.status || d.status.None?)
    && (d.recoveryState == Completed ==> c.recoveryState == Completed && d.recoveryId == c.recoveryId)
  }

  lemma SendClaims(c: Conn, delivers: bool)
    ensures SameClaims(c, Send(c, delivers)) && Send(c, delivers).completed == c.completed
    ensures Send(c, delivers).recoveryState == c.recoveryState && Send(c, delivers).recoveryId == c.recoveryId
  {
  }

  lemma RecoveredClaims(c: Conn)
    ensures SameClaims(c, Recovered(c))
    ensures Recovered(c).recoveryState == c.recoveryState && Recovered(c).recoveryId == c.recoveryId
  {
  }

  lemma RestartedClaims(c: Conn, id: uint64)
    ensures SameClaims(c, Connections.Restarted(c, id)) && !Connections.Restarted(c, id).completed
  {
  }

  /** What a reconnect leaves in the record of what the receiver claims. */
  lemma InstallShows(c: Conn, state: ReceiverState, id: uint64, delivers: bool)
    ensures var d := Install(c, state, id, delivers);
      && SameClaims(c.(connected := true, recoveryState := state, recoveryId := id), d)
      && (d.completed && !c.completed ==>
            c.activeMeta.Some? && RegisteredCompleted(d, c.activeMeta.value.transferId))
  {
    hide Send, Recovered, Connections.Restarted;
    var d := c.(connected := true, recoveryState := state, recoveryId := id);
    SendClaims(d, delivers);
    RecoveredClaims(d);
    SendClaims(Recovered(d), delivers);
    if c.activeMeta.Some? {
      RestartedClaims(d, c.activeMeta.value.transferId);
      SendClaims(Connections.Restarted(d, c.activeMeta.value.transferId), delivers);
    }
  }

  lemma ClaimKept(w: World, m: Member, p: Proxy, d: Conn)
    requires ProxyOk(w, p) && ClaimTrue(m, p) && ConnTrue(w, d, m.rx.disk, p.current) && Raises(m.conn, d, p)
    ensures ClaimTrue(WithConn(p, m, d), p)
  {
    hide Truthful;
  }

  // ----- Receiver steps

  lemma ProgressKeepsMember(w: World, m: Member, p: Proxy, disk: Disk)
    requires MemberOk(w, m, p) && Progress(m.rx.disk, disk)
    ensures ConnTrue(w, m.conn, disk, p.current)
    ensures m.claim.Some? && m.claim.value in m.rx.disk.published ==> m.claim.value in disk.published
    ensures !m.skipped ==> AllCovered(w, disk, p)
    ensures forall report :: report in m.sent ==> Truthful(w, disk, report)
  {
    hide Inv, Covered;
    assert forall id :: id in m.rx.disk.published ==> id in disk.published;
    if m.conn.status.Some? {
      ProgressKeepsTruth(w, m.rx.disk, disk, Status(m.conn.status.value));
    }
    if p.current.Some? && !m.skipped {
      forall section | section in p.delivered ensures Covered(w, disk, p.current.value.transferId, section) {
        ProgressKeepsCover(w, m.rx.disk, disk, p.current.value.transferId, section);
      }
    }
    forall report | report in m.sent ensures Truthful(w, disk, report) {
      ProgressKeepsTruth(w, m.rx.disk, disk, report);
    }
  }

  lemma ReceiverStepKeeps(w: World, p: Proxy, m: Member, event: Event, result: Outcome)
    requires Sound(w) && MemberOk(w, m, p) && HonestEvent(w, event) && Step(w, m.rx, event, result)
    ensures MemberOk(w, m.(rx := result.rx, orphaned := m.orphaned + OrphanedBy(m.rx, event),
                           sent := m.sent + result.sent), p)
  {
    hide Inv, HonestEvent, Step, Progress, Truthful, ConnTrue, AllCovered, OrphanedBy;
    StepKeeps(w, m.rx, event, result, m.orphaned);
    StepTruth(w, m.rx, event, result, m.orphaned);
    AckFollowsOn(w, m.rx, event, result, m.sent);
    ProgressKeepsMember(w, m, p, result.rx.disk);
  }

  lemma MemberStepKeeps(w: World, p: Proxy, m: Member, a: MemberAction, n: Member)
    requires Sound(w) && ProxyOk(w, p) && MemberOk(w, m, p) && MemberStep(w, p, m, a, n)
    ensures MemberOk(w, n, p)
  {
    hide Inv, HonestEvent, Step, Truthful, ConnTrue, ClaimTrue, Raises, NewClaim, AllCovered, OfRound, Install,
      MetaPhase, BackfillPhase, HandleReport, ReadyPhase;
    if a.ReceiverStep? {
      ReceiverStepKeeps(w, p, m, a.event, a.result);
    } else if a.LinkChange? {
      LinkKeeps(w, p, m, a.connected);
    } else {
      RecordStepKeeps(w, p, m, a, n);
      ClaimKept(w, m, p, n.conn);
    }
  }

  lemma LinkKeeps(w: World, p: Proxy, m: Member, connected: bool)
    requires MemberOk(w, m, p)
    ensures MemberOk(w, m.(conn := m.conn.(connected := connected)), p)
  {
    hide Inv, Truthful, AllCovered;
    SameReports(w, m.conn, m.conn.(connected := connected), m.rx.disk, p);
  }

  /** A step that changes the record only, and more of it than the connection. */
  lemma RecordStepKeeps(w: World, p: Proxy, m: Member, a: MemberAction, n: Member)
    requires ProxyOk(w, p) && MemberOk(w, m, p) && MemberStep(w, p, m, a, n) && !a.ReceiverStep? && !a.LinkChange?
    ensures ConnTrue(w, n.conn, m.rx.disk, p.current) && OfRound(n.conn, p.phase) && Raises(m.conn, n.conn, p)
    ensures n == WithConn(p, m, n.conn)
  {
    hide Inv, Truthful, ConnTrue, ClaimTrue, NewClaim, AllCovered, OfRound, Install, MetaPhase, BackfillPhase,
      HandleReport, ReadyPhase;
    match a
    case MetaFrame(report, delivers) => MetaFrameKeeps(w, m.conn, m.rx.disk, p, report, delivers);
    case RoundFrame(report, delivers) => RoundFrameKeeps(w, m.conn, m.rx.disk, p, report, delivers);
    case BackfillFrame(report, delivers) =>
      BackfillFrameKeeps(w, m.conn, m.rx.disk, p, report, delivers);
      IdleOfRound(n.conn, p.phase);
    case ReadyFrame(report) =>
      BackfillFrameKeeps(w, m.conn, m.rx.disk, p, report, true);
      IdleOfRound(n.conn, p.phase);
    case ReconnectFrom(state, id, delivers) => InstallKeepsConn(w, m.conn, m.rx.disk, p, state, id, delivers);
    case AbandonOne => SameReports(w, m.conn, n.conn, m.rx.disk, p);
    case _ =>
  }

  lemma IdleOfRound(c: Conn, phase: Phase)
    requires phase.Idling?
    ensures OfRound(c, phase)
  {
  }

  lemma SameReports(w: World, c: Conn, d: Conn, disk: Disk, p: Proxy)
    requires ConnTrue(w, c, disk, p.current) && OfRound(c, p.phase)
    requires d.recoveryState == c.recoveryState && d.recoveryId == c.recoveryId && d.completed == c.completed
    requires d.activeMeta == c.activeMeta && (d.status == c.status || d.status.None?)
    ensures ConnTrue(w, d, disk, p.current) && OfRound(d, p.phase) && Raises(c, d, p)
  {
    hide Truthful;
  }

  // ----- Steps of the proxy

  /** What lets the proxy move on: a settled receiver that was never set aside holds the section. */
  lemma SettledHolds(w: World, m: Member, p: Proxy)
    requires ProxyOk(w, p) && MemberOk(w, m, p) && !p.phase.Idling? && Settled(m.conn) && !m.skipped
    ensures Covered(w, m.rx.disk, p.phase.round.meta.transferId, p.phase.round.section)
  {
    hide Inv;
    var id, section := p.phase.round.meta.transferId, p.phase.round.section;
    if m.conn.completed {
      assert id in m.rx.disk.published;
    } else {
      assert Truthful(w, m.rx.disk, Status(m.conn.status.value));
    }
  }

  lemma BeginKeeps(w: World, s: System, m: Member, meta: FileMeta, delivers: bool)
    requires MemberOk(w, m, s.proxy)
    ensures MemberOk(w, MemberAfter(s, BeginTransfer(meta, delivers), m), ProxyAfter(s, BeginTransfer(meta, delivers)))
  {
    hide Inv, Covered;
  }

  lemma CachedKeeps(w: World, s: System, m: Member, meta: FileMeta, delivers: bool)
    requires MemberOk(w, m, s.proxy)
    ensures MemberOk(w, MemberAfter(s, CachedTransfer(meta, delivers), m),
                     ProxyAfter(s, CachedTransfer(meta, delivers)))
  {
    hide Inv, Truthful, Covered, ConnTrue, ClaimTrue, SetAside;
    var n, q := MemberAfter(s, CachedTransfer(meta, delivers), m), ProxyAfter(s, CachedTransfer(meta, delivers));
    AdoptedIsTrue(w, m.conn, m.rx.disk, s.proxy.current, meta, delivers);
    AdoptedClaim(w, m, s.proxy, meta, delivers);
  }

  lemma AdoptedIsTrue(w: World, c: Conn, disk: Disk, current: Option<FileMeta>, meta: FileMeta, delivers: bool)
    requires ConnTrue(w, c, disk, current)
    ensures ConnTrue(w, AdoptCached(c, meta, delivers), disk, Some(meta))
  {
    hide Truthful, AdoptCached;
    AdoptShows(c, meta, delivers);
  }

  lemma AdoptShows(c: Conn, meta: FileMeta, delivers: bool)
    ensures var d := AdoptCached(c, meta, delivers);
      && d.activeMeta == Some(meta) && d.status == c.status
      && d.recoveryState == c.recoveryState && d.recoveryId == c.recoveryId
  {
  }

  lemma AdoptedClaim(w: World, m: Member, p: Proxy, meta: FileMeta, delivers: bool)
    requires ClaimTrue(m, p) && ConnTrue(w, m.conn, m.rx.disk, p.current)
    ensures var c := AdoptCached(m.conn, meta, delivers);
            var q := Proxy(Some(meta), false, Idling, {}, p.claimable + {meta.transferId});
            ClaimTrue(m.(conn := c, skipped := SetAside(c), claim := NewClaim(q, m, c)), q)
  {
    hide Truthful, SetAside;
  }

  /** After a file has been found in the cache nothing is reset, so a flag may be left over. In every
      reachable state, told from what the proxy holds: after a transfer that was begun, the flag speaks of
      the cached file if and only if the receiver had registered it as completed, or was completed in that
      very transfer; after another cached file, the same holds with the first condition alone for a file
      that has not come since the last transfer begun. Otherwise a raised flag speaks of an earlier one. */
  lemma CachedClaimIff(w: World, s: System, i: nat, meta: FileMeta, delivers: bool)
    requires SysInv(w, s) && i < |s.members|
    ensures var m, id := s.members[i], meta.transferId;
      var n := MemberAfter(s, CachedTransfer(meta, delivers), m);
      var speaks := n.conn.completed && n.claim == Some(id);
      && (s.proxy.begun ==>
            s.proxy.current.Some?
            && (speaks <==> RegisteredCompleted(m.conn, id)
                            || (m.conn.completed && s.proxy.current.value.transferId == id)))
      && (id !in s.proxy.claimable ==> (speaks <==> RegisteredCompleted(m.conn, id)))
      && (n.conn.completed && !speaks ==> n.claim.Some? && n.claim.value in s.proxy.claimable)
  {
    hide ReceiverOk, ConnTrue, AllCovered, OfRound;
    assert MemberOk(w, s.members[i], s.proxy);
  }

  lemma DecideKeeps(w: World, s: System, m: Member, maxRounds: uint32)
    requires ProxyOk(w, s.proxy) && MemberOk(w, m, s.proxy) && s.proxy.phase.Deciding?
    requires AllSettledNow(s) ==> Settled(m.conn)
    ensures MemberOk(w, MemberAfter(s, Decide(maxRounds), m), ProxyAfter(s, Decide(maxRounds)))
  {
    hide Inv, Truthful, Covered, ConnTrue, Settled, AllSettledNow;
    var n, q := MemberAfter(s, Decide(maxRounds), m), ProxyAfter(s, Decide(maxRounds));
    SameReports(w, m.conn, n.conn, m.rx.disk, s.proxy);
    ClaimKept(w, m, s.proxy, n.conn);
    if AllSettledNow(s) && !m.skipped {
      SettledHolds(w, m, s.proxy);
    }
  }

  lemma ProxyStepKeeps(w: World, s: System, m: Member, a: ProxyAction)
    requires ProxyOk(w, s.proxy) && MemberOk(w, m, s.proxy) && ProxyEnabled(w, s, a)
    requires AllSettledNow(s) ==> Settled(m.conn)
    ensures MemberOk(w, MemberAfter(s, a, m), ProxyAfter(s, a))
  {
    hide Inv, Truthful, ConnTrue, Covered, Settled, AllSettledNow, AnyFailed, MissingIds, First, BlocksOf;
    match a
    case BeginTransfer(meta, delivers) => BeginKeeps(w, s, m, meta, delivers);
    case CachedTransfer(meta, delivers) => CachedKeeps(w, s, m, meta, delivers);
    case StartSection(section) =>
      SameReports(w, m.conn, ResetRound(m.conn), m.rx.disk, s.proxy);
      ClaimKept(w, m, s.proxy, ResetRound(m.conn));
    case EndCollection(_) =>
      SameReports(w, m.conn, MemberAfter(s, a, m).conn, m.rx.disk, s.proxy);
      ClaimKept(w, m, s.proxy, MemberAfter(s, a, m).conn);
    case Abort => IdleOfRound(m.conn, Idling);
    case Decide(maxRounds) => DecideKeeps(w, s, m, maxRounds);
  }

  lemma ProxyOkKept(w: World, s: System, a: ProxyAction)
    requires ProxyOk(w, s.proxy) && ProxyEnabled(w, s, a)
    ensures ProxyOk(w, ProxyAfter(s, a))
  {
    hide AllSettledNow, AnyFailed;
  }

  lemma NextKeeps(w: World, s: System, a: Action, t: System)
    requires Sound(w) && SysInv(w, s) && Next(w, s, a, t)
    ensures SysInv(w, t)
  {
    hide MemberOk, ProxyOk, ProxyEnabled, ProxyAfter, MemberAfter, MemberStep;
    match a
    case OfProxy(act) =>
      ProxyOkKept(w, s, act);
      forall i | 0 <= i < |t.members| ensures MemberOk(w, t.members[i], t.proxy) {
        ProxyStepKeeps(w, s, s.members[i], act);
      }
    case OfMember(i, act) => MemberStepKeeps(w, s.proxy, s.members[i], act, t.members[i]);
  }

  // ----- What delivered sections mean

  /** A receiver has the section, in memory and on disk, or has published the file. */
  ghost predicate Holds(w: World, m: Member, id: uint64, section: uint32) {
    id in m.rx.disk.published || SectionDurable(w, m.rx, id, section)
  }

  lemma DeliveredHeldNow(w: World, t: System, i: nat, section: uint32)
    requires Sound(w) && SysInv(w, t) && i < |t.members|
    requires t.proxy.current.Some? && section in t.proxy.delivered && !t.members[i].skipped
    ensures Holds(w, t.members[i], t.proxy.current.value.transferId, section)
  {
    hide Inv, SectionDurable, ConnTrue, Truthful, OfRound;
    assert MemberOk(w, t.members[i], t.proxy);
    var m, id := t.members[i], t.proxy.current.value.transferId;
    assert Covered(w, m.rx.disk, id, section);
    if id !in m.rx.disk.published {
      CoveredIsDurable(w, m.rx, m.orphaned, id, section);
    }
  }

  // ----- Whole executions

  datatype Execution = Execution(states: seq<System>, actions: seq<Action>)

  ghost predicate IsExecution(w: World, x: Execution) {
    && |x.states| == |x.actions| + 1 && Initial(w, x.states[0])
    && forall k :: 0 <= k < |x.actions| ==> ExecutionStep(w, x, k)
  }

  ghost predicate ExecutionStep(w: World, x: Execution, k: nat)
    requires k < |x.actions| && |x.states| == |x.actions| + 1
  {
    Next(w, x.states[k], x.actions[k], x.states[k + 1])
  }

  lemma {:induction false} ExecutionKeeps(w: World, x: Execution, n: nat)
    requires Sound(w) && IsExecution(w, x) && n <= |x.actions|
    ensures SysInv(w, x.states[n])
    decreases n
  {
    hide SysInv, Initial, Next;
    if n == 0 {
      InitialHolds(w, x.states[0]);
    } else {
      ExecutionKeeps(w, x, n - 1);
      assert ExecutionStep(w, x, n - 1);
      NextKeeps(w, x.states[n - 1], x.actions[n - 1], x.states[n]);
    }
  }

  /** In every reachable state, a receiver that was not isolated or abandoned in this transfer holds
      every section the proxy has declared delivered, in memory and on disk, or has published. */
  lemma DeliveredIsHeld(w: World, x: Execution, n: nat, i: nat, section: uint32)
    requires Sound(w) && IsExecution(w, x) && n <= |x.actions| && i < |x.states[n].members|
    requires var s := x.states[n];
             s.proxy.current.Some? && section in s.proxy.delivered && !s.members[i].skipped
    ensures var s := x.states[n];
            Holds(w, s.members[i], s.proxy.current.value.transferId, section)
  {
    hide Next, Initial, SysInv, Holds;
    ExecutionKeeps(w, x, n);
    DeliveredHeldNow(w, x.states[n], i, section);
  }

  /** In every reachable state, a receiver marked completed has published a file with the digest of
      the transfer its flag speaks of, and that source file itself unless an earlier publication was cut
      short; when the current transfer was begun, not found in the cache, it is the one. */
  lemma CompletedHasPublished(w: World, x: Execution, n: nat, i: nat)
    requires Sound(w) && IsExecution(w, x) && n <= |x.actions| && i < |x.states[n].members|
    requires x.states[n].members[i].conn.completed
    ensures var s, m := x.states[n], x.states[n].members[i];
      && m.claim.Some?
      && (s.proxy.begun ==> s.proxy.current.Some? && m.claim.value == s.proxy.current.value.transferId)
      && var id := m.claim.value;
         id in m.rx.disk.published
         && w.sha(m.rx.disk.published[id]) == w.meta(id).sha256
         && (id !in m.orphaned ==> m.rx.disk.published[id] == w.source(id))
  {
    hide Next, Initial, ActiveOk, Truthful, OfRound, AllCovered;
    ExecutionKeeps(w, x, n);
    var s := x.states[n];
    assert MemberOk(w, s.members[i], s.proxy);
  }

  // ----- Sections in order

  /** The direct path distributes section s only after 0..s-1 were delivered. */
  ghost predicate InOrder(x: Execution)
    requires |x.states| == |x.actions| + 1
  {
    forall k :: 0 <= k < |x.actions| ==> OrderedAction(x.states[k], x.actions[k])
  }

  ghost predicate OrderedAction(s: System, a: Action) {
    a.OfProxy? && a.proxyAction.StartSection? ==> AllBelow(s.proxy.delivered, a.proxyAction.section)
  }

  ghost predicate AllBelow(delivered: set<uint32>, section: uint32) {
    forall k: uint32 :: k < section ==> k in delivered
  }

  ghost predicate PrefixDelivered(p: Proxy) {
    && (forall section :: section in p.delivered ==> AllBelow(p.delivered, section))
    && (!p.phase.Idling? ==> AllBelow(p.delivered, p.phase.round.section))
  }

  lemma PrefixKept(w: World, s: System, a: Action, t: System)
    requires PrefixDelivered(s.proxy) && OrderedAction(s, a) && Next(w, s, a, t)
    ensures PrefixDelivered(t.proxy)
  {
    hide AllSettledNow, AnyFailed, MemberStep, MemberAfter;
    if a.OfProxy? && a.proxyAction.Decide? {
      forall section | section in t.proxy.delivered ensures AllBelow(t.proxy.delivered, section) {
        if section in s.proxy.delivered {
          assert AllBelow(s.proxy.delivered, section);
        }
      }
    }
  }

  lemma {:induction false} PrefixAlways(w: World, x: Execution, n: nat)
    requires IsExecution(w, x) && InOrder(x) && n <= |x.actions|
    ensures PrefixDelivered(x.states[n].proxy)
    decreases n
  {
    hide Next, OrderedAction;
    if n > 0 {
      PrefixAlways(w, x, n - 1);
      assert ExecutionStep(w, x, n - 1);
      PrefixKept(w, x.states[n - 1], x.actions[n - 1], x.states[n]);
    }
  }

  /** When sections are distributed in order, a delivered section s means that a receiver never set
      aside in this transfer holds all of 0..s or has published. */
  lemma BarrierHolds(w: World, x: Execution, n: nat, i: nat, section: uint32, earlier: uint32)
    requires Sound(w) && IsExecution(w, x) && InOrder(x) && n <= |x.actions| && i < |x.states[n].members|
    requires earlier <= section
    requires var s := x.states[n];
             s.proxy.current.Some? && section in s.proxy.delivered && !s.members[i].skipped
    ensures var s := x.states[n];
            Holds(w, s.members[i], s.proxy.current.value.transferId, earlier)
  {
    hide Next, Initial, OrderedAction, Holds;
    PrefixAlways(w, x, n);
    assert AllBelow(x.states[n].proxy.delivered, section);
    DeliveredIsHeld(w, x, n, i, earlier);
  }
}
