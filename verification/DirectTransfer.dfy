/** The section loop of `send_file_attempt` (src/sender.cpp): sections are distributed in order, and the
    loop stops at the first that is not delivered. The order that SectionBarrier.BarrierHolds asks for
    is what this loop does. */
module DirectTransfer {
  import opened Common
  import opened Sections
  import opened Messages
  import opened Connections
  import opened ReceiverSafety
  import opened SectionBarrier
  import opened SectionScript
  import opened SectionRounds
  import Dispatch

  // ----- The loop on systems

  predicate Finished(c: Conn) {
    c.completed || c.abandoned
  }

  ghost predicate AllFinished(s: System) {
    forall i :: 0 <= i < |s.members| ==> Finished(s.members[i].conn)
  }

  /** A transfer is under way: its metadata has been sent, and no section is. */
  ghost predicate Transferring(s: System, g: Geometry) {
    s.proxy.current.Some? && s.proxy.current.value.geometry == g && s.proxy.phase.Idling? && Valid(g)
  }

  lemma PlayProxy(s: System, g: Geometry, section: uint32, script: Script, maxRounds: uint32, backfillAfter: uint32)
    requires Transferring(s, g)
    ensures var (result, t) := Play(s, section, script, maxRounds, backfillAfter);
      Transferring(t, g)
      && t.proxy == if result == Dispatch.Success then s.proxy.(delivered := s.proxy.delivered + {section}) else s.proxy
  {
    hide PlayOwn, Verdict, Valid;
    PlayOwnShape(s, script.meanwhile(0));
    VerdictProxy(Stepped(PlayOwn(s, script.meanwhile(0)), StartSection(section)), script, maxRounds, backfillAfter);
  }

  lemma {:induction false} VerdictProxy(s: System, script: Script, maxRounds: uint32, backfillAfter: uint32)
    requires s.proxy.phase.Collecting?
    ensures var (result, t) := Verdict(s, script, maxRounds, backfillAfter);
      t.proxy == s.proxy.(phase := Idling, delivered := if result == Dispatch.Success
                                                        then s.proxy.delivered + {s.proxy.phase.round.section}
                                                        else s.proxy.delivered)
    decreases maxRounds - s.proxy.phase.round.round
  {
    hide CollectionEnd, NextOpening, AllSettledNow, AnyFailed, Stepped, Verdict;
    VerdictUnfolds(s, script, maxRounds, backfillAfter);
    CollectionEnds(s, script, backfillAfter);
    var u := CollectionEnd(s, script, backfillAfter);
    if AnyFailed(u) {
    } else if AllSettledNow(u) || s.proxy.phase.round.round >= maxRounds {
      LastDecision(u, maxRounds);
    } else {
      OpeningOpens(u, script, maxRounds);
      VerdictProxy(NextOpening(u, script, maxRounds), script, maxRounds, backfillAfter);
    }
  }

  /** The result of the sections from `section` on, and the system they leave. */
  ghost function PlayFrom(s: System, g: Geometry, section: nat, scripts: nat -> Script,
                          maxRounds: uint32, backfillAfter: uint32): (Dispatch.DeliveryResult, System)
    requires Transferring(s, g)
    decreases Count(g) - section
  {
    if section >= Count(g) || AllFinished(s) then (Dispatch.Success, s)
    else
      var (result, t) := Play(s, section, scripts(section), maxRounds, backfillAfter);
      PlayProxy(s, g, section, scripts(section), maxRounds, backfillAfter);
      if result == Dispatch.Success then PlayFrom(t, g, section + 1, scripts, maxRounds, backfillAfter) else (result, t)
  }

  /** The scripts can be played one after the other. */
  ghost predicate AllPlayable(w: World, s: System, g: Geometry, section: nat, scripts: nat -> Script,
                              maxRounds: uint32, backfillAfter: uint32)
    requires Transferring(s, g)
    decreases Count(g) - section
  {
    section < Count(g) && !AllFinished(s) ==>
      && Playable(w, Peers(s), scripts(section), maxRounds)
      && var (result, t) := Play(s, section, scripts(section), maxRounds, backfillAfter);
         PlayProxy(s, g, section, scripts(section), maxRounds, backfillAfter);
         result == Dispatch.Success ==> AllPlayable(w, t, g, section + 1, scripts, maxRounds, backfillAfter)
  }

  // ----- Connections do not matter for it

  lemma PlayIsAlike(s: System, t: System, g: Geometry, section: uint32, script: Script, maxRounds: uint32,
                    backfillAfter: uint32)
    requires Transferring(s, g) && Alike(s, t)
    ensures Transferring(t, g)
    ensures SameVerdict(Play(s, section, script, maxRounds, backfillAfter),
                        Play(t, section, script, maxRounds, backfillAfter))
  {
    hide Alike, PlayOwn, Verdict, Valid, Stepped;
    SameProxy(s, t);
    var a, b := PlayOwn(s, script.meanwhile(0)), PlayOwn(t, script.meanwhile(0));
    PlayOwnAlike(s, t, script.meanwhile(0));
    SameProxy(a, b);
    PlayOwnShape(s, script.meanwhile(0));
    PlayOwnShape(t, script.meanwhile(0));
    SteppedAlike(a, b, StartSection(section));
    Started(a, section);
    VerdictAlike(Stepped(a, StartSection(section)), Stepped(b, StartSection(section)), script, maxRounds,
                 backfillAfter);
  }

  lemma Started(s: System, section: uint32)
    requires s.proxy.current.Some?
    ensures Stepped(s, StartSection(section)).proxy.phase.Collecting?
  {
  }

  lemma FinishedAlike(s: System, t: System)
    requires Alike(s, t)
    ensures AllFinished(s) <==> AllFinished(t)
    ensures Peers(s) == Peers(t)
  {
    FinishedFollows(s, t);
    FinishedFollows(t, s);
    assert forall i :: 0 <= i < |s.members| ==> PeerOf(Bare(s.members[i])) == PeerOf(Bare(t.members[i]));
  }

  lemma FinishedFollows(s: System, t: System)
    requires Alike(s, t)
    ensures AllFinished(s) ==> AllFinished(t)
  {
    if AllFinished(s) {
      forall i | 0 <= i < |t.members| ensures Finished(t.members[i].conn) {
        assert Finished(s.members[i].conn) && Bare(s.members[i]) == Bare(t.members[i]);
      }
    }
  }

  lemma {:induction false} PlayFromAlike(s: System, t: System, g: Geometry, section: nat, scripts: nat -> Script,
                                         maxRounds: uint32, backfillAfter: uint32)
    requires Transferring(s, g) && Alike(s, t)
    ensures Transferring(t, g)
    ensures SameVerdict(PlayFrom(s, g, section, scripts, maxRounds, backfillAfter),
                        PlayFrom(t, g, section, scripts, maxRounds, backfillAfter))
    decreases Count(g) - section
  {
    hide Alike, Play, AllFinished;
    FinishedAlike(s, t);
    SameTransfer(s, t, g);
    if section < Count(g) && !AllFinished(s) {
      PlayIsAlike(s, t, g, section, scripts(section), maxRounds, backfillAfter);
      PlayProxy(s, g, section, scripts(section), maxRounds, backfillAfter);
      PlayProxy(t, g, section, scripts(section), maxRounds, backfillAfter);
      var (result, u) := Play(s, section, scripts(section), maxRounds, backfillAfter);
      var (again, v) := Play(t, section, scripts(section), maxRounds, backfillAfter);
      if result == Dispatch.Success {
        PlayFromAlike(u, v, g, section + 1, scripts, maxRounds, backfillAfter);
      }
    }
  }

  lemma SameTransfer(s: System, t: System, g: Geometry)
    requires Transferring(s, g) && Alike(s, t)
    ensures Transferring(t, g)
  {
  }

  lemma {:induction false} PlayableAlike(w: World, s: System, t: System, g: Geometry, section: nat,
                                         scripts: nat -> Script, maxRounds: uint32, backfillAfter: uint32)
    requires Transferring(s, g) && Transferring(t, g) && Alike(s, t)
    requires AllPlayable(w, s, g, section, scripts, maxRounds, backfillAfter)
    ensures AllPlayable(w, t, g, section, scripts, maxRounds, backfillAfter)
    decreases Count(g) - section
  {
    hide Alike, Play, AllFinished, Playable;
    FinishedAlike(s, t);
    if section < Count(g) && !AllFinished(s) {
      PlayIsAlike(s, t, g, section, scripts(section), maxRounds, backfillAfter);
      PlayProxy(s, g, section, scripts(section), maxRounds, backfillAfter);
      PlayProxy(t, g, section, scripts(section), maxRounds, backfillAfter);
      var (result, u) := Play(s, section, scripts(section), maxRounds, backfillAfter);
      var (again, v) := Play(t, section, scripts(section), maxRounds, backfillAfter);
      if result == Dispatch.Success {
        PlayableAlike(w, u, v, g, section + 1, scripts, maxRounds, backfillAfter);
      }
    }
  }

  // ----- The loop on the receiver records

  method AllReceiversCompleted(receivers: Receivers) returns (done: bool)
    ensures done <==> forall i :: 0 <= i < |receivers| ==> Finished(receivers[i].View())
    ensures done <==> forall c :: c in receivers ==> c.completed || c.abandoned
  {
    for i := 0 to |receivers|
      invariant forall j :: 0 <= j < i ==> Finished(receivers[j].View())
    {
      if !receivers[i].completed && !receivers[i].abandoned {
        assert !Finished(receivers[i].View());
        return false;
      }
    }
    return true;
  }

  lemma FinishedIs(receivers: Receivers, s: System)
    requires Match(receivers, s)
    ensures AllFinished(s) <==> forall i :: 0 <= i < |receivers| ==> Finished(receivers[i].View())
  {
    hide Finished;
    if AllFinished(s) {
      forall i | 0 <= i < |receivers| ensures Finished(receivers[i].View()) {
        assert Finished(s.members[i].conn);
      }
    }
  }

  /** The delivered sections are 0 to `n` - 1. */
  ghost predicate FirstOnly(p: Proxy, n: nat) {
    forall k: uint32 :: k in p.delivered <==> k < n
  }

  lemma NoneYet(p: Proxy)
    ensures p.delivered == {} ==> FirstOnly(p, 0)
  {
  }

  lemma CountFits(g: Geometry)
    requires g.sectionBlocks != 0
    ensures Count(g) < U32
  {
  }

  lemma OneMore(p: Proxy, q: Proxy, section: uint32)
    requires FirstOnly(p, section)
    ensures AllBelow(p.delivered, section)
    ensures q == p.(delivered := p.delivered + {section}) ==> FirstOnly(q, section + 1)
  {
  }

  lemma {:induction false} LeadsOn(w: World, ordered: bool, s: System, a: seq<Action>, mid: System, b: seq<Action>,
                                   t: System)
    requires Leads(w, ordered, s, a, mid) && Leads(w, ordered, mid, b, t)
    ensures Leads(w, ordered, s, a + b, t)
    decreases |b|
  {
    hide PacedNext;
    if b == [] {
      assert a + b == a;
    } else {
      var init, last := b[..|b| - 1], b[|b| - 1];
      var u :| Leads(w, ordered, mid, init, u) && PacedNext(w, ordered, u, last, t);
      LeadsOn(w, ordered, s, a, mid, init, u);
      assert (a + b)[..|a + b| - 1] == a + init;
    }
  }

  /** A section of the transfer under way, played: what is left to do is the same as before. */
  lemma OneSection(w: World, s: System, g: Geometry, section: uint32, scripts: nat -> Script, maxRounds: uint32,
                   backfillAfter: uint32, result: Dispatch.DeliveryResult, t: System)
    requires Transferring(s, g) && section < Count(g) && !AllFinished(s)
    requires AllPlayable(w, s, g, section, scripts, maxRounds, backfillAfter)
    requires SameVerdict(Play(s, section, scripts(section), maxRounds, backfillAfter), (result, t))
    ensures Transferring(t, g)
    ensures result == Dispatch.Success ==>
              && AllPlayable(w, t, g, section + 1, scripts, maxRounds, backfillAfter)
              && SameVerdict(PlayFrom(s, g, section, scripts, maxRounds, backfillAfter),
                             PlayFrom(t, g, section + 1, scripts, maxRounds, backfillAfter))
    ensures result != Dispatch.Success ==>
              SameVerdict(PlayFrom(s, g, section, scripts, maxRounds, backfillAfter), (result, t))
  {
    hide Alike, Play, AllFinished, Playable;
    PlayProxy(s, g, section, scripts(section), maxRounds, backfillAfter);
    var (again, u) := Play(s, section, scripts(section), maxRounds, backfillAfter);
    SameTransfer(u, t, g);
    if result == Dispatch.Success {
      PlayFromAlike(u, t, g, section + 1, scripts, maxRounds, backfillAfter);
      PlayableAlike(w, u, t, g, section + 1, scripts, maxRounds, backfillAfter);
    }
  }

  lemma VerdictChain(a: (Dispatch.DeliveryResult, System), b: (Dispatch.DeliveryResult, System),
                     c: (Dispatch.DeliveryResult, System))
    requires SameVerdict(a, b) && SameVerdict(b, c)
    ensures SameVerdict(a, c)
  {
    hide Alike;
    AlikeChain(a.1, b.1, c.1);
  }

  // ----- What ordered journeys leave

  /** Every receiver that was never set aside in this transfer has the sections 0 to `n` - 1, in memory and
      on disk, or has published. */
  ghost predicate AllHold(w: World, s: System, id: uint64, n: nat) {
    forall i: nat, k: uint32 :: i < |s.members| && k < n && !s.members[i].skipped ==> Holds(w, s.members[i], id, k)
  }

  lemma OrderedLeavesHeld(w: World, ordered: bool, s: System, trace: seq<Action>, t: System, n: nat)
    requires ReceiverSafety.Sound(w) && SysInv(w, s) && Leads(w, ordered, s, trace, t)
    requires t.proxy.current.Some? && FirstOnly(t.proxy, n)
    ensures SysInv(w, t) && AllHold(w, t, t.proxy.current.value.transferId, n)
  {
    hide SysInv, Holds, Leads;
    LeadsKeeps(w, ordered, s, trace, t);
    forall i: nat, k: uint32 | i < |t.members| && k < n && !t.members[i].skipped
      ensures Holds(w, t.members[i], t.proxy.current.value.transferId, k)
    {
      DeliveredHeldNow(w, t, i, k);
    }
  }

  /** An execution in which sections come in order goes on as one by the steps of an ordered journey: the
      order that BarrierHolds asks for is kept by the section loop. */
  lemma {:induction false} ExecutionGoesOn(w: World, x: Execution, trace: seq<Action>, t: System) returns (y: Execution)
    requires IsExecution(w, x) && InOrder(x) && Leads(w, true, x.states[|x.actions|], trace, t)
    ensures IsExecution(w, y) && InOrder(y)
    ensures y.actions == x.actions + trace && y.states[|y.actions|] == t && x.states <= y.states
    decreases |trace|
  {
    hide Initial, SectionBarrier.Next, OrderedAction;
    if trace == [] {
      assert x.actions + trace == x.actions;
      y := x;
    } else {
      var init, last := trace[..|trace| - 1], trace[|trace| - 1];
      var mid :| Leads(w, true, x.states[|x.actions|], init, mid) && PacedNext(w, true, mid, last, t);
      var z := ExecutionGoesOn(w, x, init, mid);
      y := OneStepMore(w, z, last, t);
      assert x.actions + init + [last] == x.actions + trace;
    }
  }

  lemma OneStepMore(w: World, x: Execution, a: Action, t: System) returns (y: Execution)
    requires IsExecution(w, x) && InOrder(x) && PacedNext(w, true, x.states[|x.actions|], a, t)
    ensures IsExecution(w, y) && InOrder(y) && y.actions == x.actions + [a] && y.states == x.states + [t]
  {
    hide Initial, SectionBarrier.Next, OrderedAction;
    y := Execution(x.states + [t], x.actions + [a]);
    forall k: nat | k < |y.actions| ensures ExecutionStep(w, y, k) && OrderedAction(y.states[k], y.actions[k]) {
      if k < |x.actions| {
        assert ExecutionStep(w, x, k) && OrderedAction(x.states[k], x.actions[k]);
      }
    }
  }

  lemma PlayableNow(w: World, s: System, g: Geometry, section: uint32, scripts: nat -> Script, maxRounds: uint32,
                    backfillAfter: uint32)
    requires Transferring(s, g) && section < Count(g) && !AllFinished(s)
    requires AllPlayable(w, s, g, section, scripts, maxRounds, backfillAfter)
    ensures Playable(w, Peers(s), scripts(section), maxRounds)
  {
  }

  lemma NothingLeft(s: System, g: Geometry, section: uint32, scripts: nat -> Script, maxRounds: uint32,
                    backfillAfter: uint32)
    requires Transferring(s, g) && (section >= Count(g) || AllFinished(s))
    ensures PlayFrom(s, g, section, scripts, maxRounds, backfillAfter) == (Dispatch.Success, s)
  {
  }

  lemma LoopLeavesHeld(w: World, s: System, trace: seq<Action>, t: System, n: nat)
    requires Leads(w, true, s, trace, t) && t.proxy.current.Some? && FirstOnly(t.proxy, n)
    ensures ReceiverSafety.Sound(w) && SysInv(w, s) ==> AllHold(w, t, t.proxy.current.value.transferId, n)
  {
    hide SysInv, Holds, Leads;
    if ReceiverSafety.Sound(w) && SysInv(w, s) {
      OrderedLeavesHeld(w, true, s, trace, t, n);
    }
  }

  /** The section loop of `send_file_attempt`, after `begin_receiver_transfer`: its journey is ordered, and
      `delivered` counts the sections 0, 1, ... that were delivered before it stopped. */
  method DistributeSections(receivers: Receivers, meta: FileMeta, maxRounds: uint32, backfillAfter: uint32,
                            peerMode: bool, scripts: nat -> Script, ghost w: World, ghost s: System)
    returns (result: Dispatch.DeliveryResult, ghost delivered: nat, ghost trace: seq<Action>, ghost t: System)
    requires Match(receivers, s) && Underway(s.proxy, meta) && s.proxy.delivered == {}
    requires meta == w.meta(meta.transferId) && Valid(meta.geometry)
    requires AllPlayable(w, s, meta.geometry, 0, scripts, maxRounds, backfillAfter)
    modifies receivers
    ensures Match(receivers, t) && Leads(w, true, s, trace, t)
    ensures SameVerdict(PlayFrom(s, meta.geometry, 0, scripts, maxRounds, backfillAfter), (result, t))
    ensures delivered <= Count(meta.geometry) && FirstOnly(t.proxy, delivered)
    ensures t.proxy == s.proxy.(delivered := t.proxy.delivered)
    ensures if result == Dispatch.Success then delivered == Count(meta.geometry) || AllFinished(t)
            else delivered < Count(meta.geometry)
    ensures ReceiverSafety.Sound(w) && SysInv(w, s) ==> AllHold(w, t, meta.transferId, delivered)
  {
    hide Alike, AllFinished, Finished, Leads, Match, Play, SectionCount, AllPlayable, FirstOnly, AllBelow, AllHold,
      SysInv, PlayFrom, Playable, AllSettledNow, AnyFailed;
    result, delivered, trace, t := Dispatch.Success, 0, [], s;
    ghost var g, verdict := meta.geometry, PlayFrom(s, meta.geometry, 0, scripts, maxRounds, backfillAfter);
    StandStill(w, true, s);
    NoneYet(s.proxy);
    CountFits(g);
    AlikeItself(verdict.1);
    var section: uint32 := 0;
    var done := AllReceiversCompleted(receivers);
    FinishedIs(receivers, t);
    while section < Count(meta.geometry) && !done
      invariant delivered == section <= Count(meta.geometry) && result == Dispatch.Success
      invariant Match(receivers, t) && Leads(w, true, s, trace, t) && done == AllFinished(t)
      invariant t.proxy == s.proxy.(delivered := t.proxy.delivered) && FirstOnly(t.proxy, section)
      invariant AllPlayable(w, t, g, section, scripts, maxRounds, backfillAfter)
      invariant SameVerdict(verdict, PlayFrom(t, g, section, scripts, maxRounds, backfillAfter))
      decreases Count(meta.geometry) - section
    {
      ghost var before := t;
      ghost var more: seq<Action>;
      PlayableNow(w, before, g, section, scripts, maxRounds, backfillAfter);
      OneMore(t.proxy, t.proxy, section);
      result, more, t := DistributeSection(receivers, meta, section, maxRounds, backfillAfter, peerMode,
                                           scripts(section),
                                           w, true, t);
      LeadsOn(w, true, s, trace, before, more, t);
      trace := trace + more;
      OneMore(before.proxy, t.proxy, section);
      OneSection(w, before, g, section, scripts, maxRounds, backfillAfter, result, t);
      if result != Dispatch.Success {
        VerdictChain(verdict, PlayFrom(before, g, section, scripts, maxRounds, backfillAfter), (result, t));
        LoopLeavesHeld(w, s, trace, t, delivered);
        return;
      }
      VerdictChain(verdict, PlayFrom(before, g, section, scripts, maxRounds, backfillAfter),
                   PlayFrom(t, g, section + 1, scripts, maxRounds, backfillAfter));
      section, delivered := section + 1, delivered + 1;
      done := AllReceiversCompleted(receivers);
      FinishedIs(receivers, t);
    }
    NothingLeft(t, g, section, scripts, maxRounds, backfillAfter);
    LoopLeavesHeld(w, s, trace, t, delivered);
  }
}
