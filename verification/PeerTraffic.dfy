/** Blocks that receivers send each other. SectionBarrier.dfy takes every packet a receiver is handed as
    made from the source file; here a packet may also be one that a peer read from its own disk. As long
    as no receiver's publication of a transfer was cut short, the packets of that transfer are the same. */
module PeerTraffic {
  import opened Common
  import opened Sections
  import opened Messages
  import opened Crc32
  import opened Receiver
  import opened ReceiverSafety
  import opened Connections
  import opened SectionBarrier
  import ReceiverOrder

  // ----- The system with what peers have sent

  datatype Site = Site(system: System, air: set<DataPacket>)

  datatype Move =
    | Acts(action: Action)
    | PeerSends(i: nat, id: uint64, section: uint32, port: uint16, blocks: seq<uint32>)

  /** `original` on its way, with the damage that Honest allows. */
  ghost predicate Copied(packet: DataPacket, original: DataPacket) {
    && packet.transferId == original.transferId && packet.blockId == original.blockId && packet.crc == original.crc
    && (|packet.payload| == |original.payload| ==> BurstApart(packet.payload, original.payload))
  }

  /** A packet comes from the proxy or from a peer. */
  ghost predicate Sourced(w: World, air: set<DataPacket>, packet: DataPacket) {
    Honest(w, packet) || exists original :: original in air && Copied(packet, original)
  }

  /** The UDP packet inside an event. */
  function PacketOf(event: Event): Option<DataPacket> {
    match event
    case Data(packet) => Some(packet)
    case KillInWrite(packet, _) => Some(packet)
    case _ => None
  }

  ghost predicate SourcedEvent(w: World, air: set<DataPacket>, event: Event) {
    if PacketOf(event).Some? then Sourced(w, air, PacketOf(event).value) else HonestEvent(w, event)
  }

  /** Like Next, but a receiver may also be handed a peer's packet. */
  ghost predicate ActsNext(w: World, s: System, air: set<DataPacket>, a: Action, t: System) {
    if a.OfMember? && a.memberAction.ReceiverStep? then
      var i, event, result := a.i, a.memberAction.event, a.memberAction.result;
      && i < |s.members| && SourcedEvent(w, air, event) && Step(w, s.members[i].rx, event, result)
      && var m := s.members[i];
         t == s.(members := s.members[i := m.(rx := result.rx, orphaned := m.orphaned + OrphanedBy(m.rx, event),
                                              sent := m.sent + result.sent)])
    else Next(w, s, a, t)
  }

  ghost predicate SiteNext(w: World, a: Site, move: Move, b: Site) {
    match move
    case Acts(action) => b.air == a.air && ActsNext(w, a.system, a.air, action, b.system)
    case PeerSends(i, id, section, port, blocks) =>
      && i < |a.system.members| && b.system == a.system
      && b.air == a.air + set packet | packet in PeerPackets(a.system.members[i].rx, id, section, port, blocks)
  }

  // ----- Transfers whose publication nobody was killed in

  ghost predicate Untainted(s: System, id: uint64) {
    forall i :: 0 <= i < |s.members| ==> id !in s.members[i].orphaned
  }

  /** The packets that peers have sent of such a transfer carry the source. */
  ghost predicate AirOk(w: World, a: Site) {
    forall packet :: packet in a.air && Untainted(a.system, packet.transferId) ==> Carries(w, packet)
  }

  ghost predicate Carries(w: World, packet: DataPacket) {
    && packet.blockId < |w.source(packet.transferId)| && packet.payload == w.source(packet.transferId)[packet.blockId]
    && packet.crc == Crc(packet.payload)
  }

  /** A peer's packet is only delivered for such a transfer. */
  ghost predicate Trusted(a: Site, move: Move) {
    move.Acts? && move.action.OfMember? && move.action.memberAction.ReceiverStep?
    && PacketOf(move.action.memberAction.event).Some? ==>
      Untainted(a.system, PacketOf(move.action.memberAction.event).value.transferId)
  }

  lemma CopyIsHonest(w: World, packet: DataPacket, original: DataPacket)
    requires Carries(w, original) && Copied(packet, original)
    ensures Honest(w, packet)
  {
    hide BurstApart, Crc;
  }

  lemma SourcedIsHonest(w: World, a: Site, event: Event)
    requires AirOk(w, a) && SourcedEvent(w, a.air, event)
    requires PacketOf(event).Some? ==> Untainted(a.system, PacketOf(event).value.transferId)
    ensures HonestEvent(w, event)
  {
    hide Honest, Carries, Untainted;
    if PacketOf(event).Some? && !Honest(w, PacketOf(event).value) {
      var packet := PacketOf(event).value;
      var original :| original in a.air && Copied(packet, original);
      CopyIsHonest(w, packet, original);
    }
  }

  lemma {:induction false} PeersRead(w: World, rx: Rx, id: uint64, section: uint32, port: uint16, blocks: seq<uint32>,
                                     orphaned: set<uint64>)
    requires Sound(w) && Inv(w, rx, orphaned)
    ensures forall packet :: packet in PeerPackets(rx, id, section, port, blocks) ==>
              packet.transferId == id && (id !in orphaned ==> Carries(w, packet))
    decreases |blocks|
  {
    hide Inv, Servable, Window, Crc, FilesOf, Listening, Carries;
    if blocks != [] && Listening(rx, id) && port != 0 {
      var init, block := blocks[..|blocks| - 1], blocks[|blocks| - 1];
      PeersRead(w, rx, id, section, port, init, orphaned);
      ListensTo(rx, id);
      if id !in orphaned && Servable(rx.transfer.value, section, block) {
        ReceiverOrder.PacketIsGenuine(w, rx, section, block, orphaned);
        GenuineCarries(w, id, section, block, FilesOf(rx.disk, id));
      }
    }
  }

  lemma ListensTo(rx: Rx, id: uint64)
    requires Listening(rx, id)
    ensures rx.transfer.Some? && rx.transfer.value.meta.transferId == id
  {
  }

  lemma GenuineCarries(w: World, id: uint64, section: uint32, block: uint32, files: Files)
    requires files.part.Some? && block < |files.part.value| && BlockOffset(block) < U64
    requires var payload := files.part.value[block];
             ReceiverOrder.Genuine(w, id, section, block,
                                   DataPacket(id, section, block, BlockOffset(block), Crc(payload), payload))
    ensures var payload := files.part.value[block];
            Carries(w, DataPacket(id, section, block, BlockOffset(block), Crc(payload), payload))
  {
    hide Crc;
  }

  // ----- Runs

  lemma TaintStays(w: World, s: System, a: Action, t: System, id: uint64)
    requires Next(w, s, a, t) && Untainted(t, id)
    ensures Untainted(s, id)
  {
    hide ProxyEnabled, ProxyAfter, Begin, AdoptCached, Isolate, ResetRound, NewClaim, HandleReport, Install,
      MetaPhase, BackfillPhase, ReadyPhase, Step, HonestEvent, AllSettledNow, AnyFailed;
    forall i | 0 <= i < |s.members| ensures id !in s.members[i].orphaned {
      assert id !in t.members[i].orphaned;
    }
  }

  lemma ActIsNext(w: World, a: Site, action: Action, t: System)
    requires AirOk(w, a) && ActsNext(w, a.system, a.air, action, t) && Trusted(a, Acts(action))
    ensures Next(w, a.system, action, t)
  {
    hide HonestEvent, Sourced, Step, OrphanedBy, Untainted, AirOk;
    if action.OfMember? && action.memberAction.ReceiverStep? {
      SourcedIsHonest(w, a, action.memberAction.event);
    }
  }

  lemma AirKept(w: World, a: Site, move: Move, b: Site)
    requires Sound(w) && SysInv(w, a.system) && AirOk(w, a) && SiteNext(w, a, move, b)
    requires move.Acts? ==> Next(w, a.system, move.action, b.system)
    ensures AirOk(w, b)
  {
    hide Next, ActsNext, Carries, PeerPackets, Inv, ConnTrue, ClaimTrue, OfRound, AllCovered, ProxyOk;
    forall packet | packet in b.air && Untainted(b.system, packet.transferId) ensures Carries(w, packet) {
      match move
      case Acts(action) => TaintStays(w, a.system, action, b.system, packet.transferId);
      case PeerSends(i, id, section, port, blocks) =>
        var m := a.system.members[i];
        assert MemberOk(w, m, a.system.proxy);
        PeersRead(w, m.rx, id, section, port, blocks, m.orphaned);
    }
  }

  /** Runs in which a peer's packet is delivered only for a transfer that no receiver was killed in the
      publication of. */
  ghost predicate SiteReaches(w: World, moves: seq<Move>, b: Site)
    decreases |moves|
  {
    if moves == [] then Initial(w, b.system) && b.air == {}
    else
      var init, last := moves[..|moves| - 1], moves[|moves| - 1];
      exists a :: SiteReaches(w, init, a) && Trusted(a, last) && SiteNext(w, a, last, b)
  }

  lemma Extends(w: World, x: Execution, a: Action, t: System) returns (y: Execution)
    requires IsExecution(w, x) && Next(w, x.states[|x.actions|], a, t)
    ensures IsExecution(w, y) && y.states[|y.actions|] == t
  {
    hide Initial, Next;
    y := Execution(x.states + [t], x.actions + [a]);
    forall k: nat | k < |y.actions| ensures ExecutionStep(w, y, k) {
      if k < |x.actions| {
        assert ExecutionStep(w, x, k);
      }
    }
  }

  lemma FirstOf(w: World, s: System) returns (x: Execution)
    requires Initial(w, s)
    ensures IsExecution(w, x) && x.states[|x.actions|] == s
  {
    hide Initial;
    x := Execution([s], []);
  }

  /** What peers send each other is what the proxy would send: such a run is an execution of the system,
      and every theorem about executions holds of it. */
  lemma {:induction false} PeersAreHonest(w: World, moves: seq<Move>, b: Site) returns (x: Execution)
    requires Sound(w) && SiteReaches(w, moves, b)
    ensures IsExecution(w, x) && x.states[|x.actions|] == b.system && AirOk(w, b)
    decreases |moves|
  {
    hide Initial, Next, ActsNext, SysInv, IsExecution, Carries, Trusted;
    if moves == [] {
      x := FirstOf(w, b.system);
    } else {
      var init, last := moves[..|moves| - 1], moves[|moves| - 1];
      var a :| SiteReaches(w, init, a) && Trusted(a, last) && SiteNext(w, a, last, b);
      x := PeersAreHonest(w, init, a);
      ExecutionShape(w, x);
      ExecutionKeeps(w, x, |x.actions|);
      if last.Acts? {
        ActIsNext(w, a, last.action, b.system);
        AirKept(w, a, last, b);
        x := Extends(w, x, last.action, b.system);
      } else {
        AirKept(w, a, last, b);
      }
    }
  }

  lemma ExecutionShape(w: World, x: Execution)
    requires IsExecution(w, x)
    ensures |x.states| == |x.actions| + 1
  {
    hide Initial, ExecutionStep;
  }
}
