/** `distribute_section` of src/sender.cpp as it runs on the receiver records: data, reports, slow
    receivers, repair, again, while receivers work, reconnect and hang up. Every change it makes is a
    step of the system of SectionBarrier.dfy, and its result is the verdict of SectionScript.dfy. */
module SectionRounds {
  import opened Common
  import opened Reports
  import opened Sections
  import opened Messages
  import opened Connections
  import opened ReceiverSafety
  import opened SectionBarrier
  import opened SectionScript
  import opened LastSection
  import Dispatch
  import RepairPlan
  import RepairRound

  // ----- Sequences of steps

  /** The system after `trace` from `start`. */
  datatype Journey = Journey(start: System, trace: seq<Action>, now: System)

  /** `ordered` journeys open a section only when all earlier ones were delivered. */
  ghost predicate Leads(w: World, ordered: bool, s: System, trace: seq<Action>, t: System)
    decreases |trace|
  {
    if trace == [] then s == t
    else
      var init, last := trace[..|trace| - 1], trace[|trace| - 1];
      exists mid :: Leads(w, ordered, s, init, mid) && PacedNext(w, ordered, mid, last, t)
  }

  ghost predicate PacedNext(w: World, ordered: bool, s: System, a: Action, t: System) {
    Next(w, s, a, t) && (ordered ==> OrderedAction(s, a))
  }

  ghost predicate Walked(w: World, ordered: bool, j: Journey) {
    Leads(w, ordered, j.start, j.trace, j.now)
  }

  ghost function Onward(j: Journey, a: Action, t: System): Journey {
    Journey(j.start, j.trace + [a], t)
  }

  lemma WalkOn(w: World, ordered: bool, j: Journey, a: Action, t: System)
    requires Walked(w, ordered, j) && PacedNext(w, ordered, j.now, a, t)
    ensures Walked(w, ordered, Onward(j, a, t))
  {
    hide PacedNext;
    assert (j.trace + [a])[..|j.trace|] == j.trace;
  }

  lemma StandStill(w: World, ordered: bool, s: System)
    ensures Walked(w, ordered, Journey(s, [], s))
  {
  }

  /** Steps keep the system's invariant. */
  lemma {:induction false} LeadsKeeps(w: World, ordered: bool, s: System, trace: seq<Action>, t: System)
    requires ReceiverSafety.Sound(w) && SysInv(w, s) && Leads(w, ordered, s, trace, t)
    ensures SysInv(w, t)
    decreases |trace|
  {
    hide SysInv, Next;
    if trace != [] {
      var init, last := trace[..|trace| - 1], trace[|trace| - 1];
      var mid :| Leads(w, ordered, s, init, mid) && PacedNext(w, ordered, mid, last, t);
      LeadsKeeps(w, ordered, s, init, mid);
      NextKeeps(w, mid, last, t);
    }
  }

  // ----- Records and system

  /** The system's view of the proxy is what the records hold. */
  ghost predicate Match(receivers: Receivers, s: System)
    reads receivers
  {
    Distinct(receivers) && |s.members| == |receivers|
    && forall i :: 0 <= i < |receivers| ==> s.members[i].conn == receivers[i].View()
  }

  ghost predicate AllChecked(receivers: Receivers, n: nat)
    reads receivers
  {
    forall i :: 0 <= i < |receivers| ==> StatusChecked(receivers[i].View(), n)
  }

  ghost predicate Proper(w: World, r: Round) {
    r.meta == w.meta(r.meta.transferId) && Valid(r.meta.geometry) && r.section < Count(r.meta.geometry)
  }

  /** The records as the system's, at some point of round `r`. */
  ghost predicate InRound(w: World, ordered: bool, receivers: Receivers, j: Journey, r: Round)
    reads receivers
  {
    && Match(receivers, j.now) && Walked(w, ordered, j) && Proper(w, r)
    && AllChecked(receivers, BlocksOf(r.meta.geometry, r.section))
    && j.now.proxy.begun && j.now.proxy.current == Some(r.meta)
  }

  // ----- Inputs as steps

  function ActionOf(input: Input): Action {
    match input
    case Frame(i, _, report, delivers) => OfMember(i, RoundFrame(report, delivers))
    case Rejoin(i, _, state, id, delivers) => OfMember(i, ReconnectFrom(state, id, delivers))
    case Hangup(i) => OfMember(i, LinkChange(false))
    case Own(i, event, result) => OfMember(i, ReceiverStep(event, result))
  }

  lemma InputIsStep(w: World, ordered: bool, s: System, watched: set<nat>, input: Input)
    requires Possible(w, Peers(s), input) && (input.Frame? ==> s.proxy.phase.Collecting?)
    ensures var t := PlayInput(s, watched, input); t == s || PacedNext(w, ordered, s, ActionOf(input), t)
  {
    hide HandleReport, Install, WithConn, Step, HonestEvent, OrphanedBy;
    var t := PlayInput(s, watched, input);
    assert t.members[input.i] == AfterInput(s.proxy, s.members[input.i], input.i in watched, input);
    if input.Frame? && input.i !in watched {
      assert t.members == s.members;
    }
  }

  lemma WalkInput(w: World, ordered: bool, j: Journey, watched: set<nat>, input: Input) returns (k: Journey)
    requires Walked(w, ordered, j) && Possible(w, Peers(j.now), input)
    requires input.Frame? ==> j.now.proxy.phase.Collecting?
    ensures Walked(w, ordered, k) && k.start == j.start && k.now == PlayInput(j.now, watched, input)
  {
    hide Walked, PacedNext, PlayInput, Possible;
    InputIsStep(w, ordered, j.now, watched, input);
    if PlayInput(j.now, watched, input) == j.now {
      k := j;
    } else {
      WalkOn(w, ordered, j, ActionOf(input), PlayInput(j.now, watched, input));
      k := Onward(j, ActionOf(input), PlayInput(j.now, watched, input));
    }
  }

  lemma {:induction false} WalkOwn(w: World, ordered: bool, j: Journey, inputs: seq<Input>) returns (k: Journey)
    requires Walked(w, ordered, j) && AllPossible(w, Peers(j.now), inputs)
    ensures Walked(w, ordered, k) && k.start == j.start && k.now == PlayOwn(j.now, inputs)
    decreases |inputs|
  {
    hide Walked, PlayInput, Possible, Peers;
    k := j;
    if inputs != [] {
      InputPeers(j.now, {}, inputs[0]);
      NotOwn(j.now, inputs[0]);
      if inputs[0].Own? {
        k := WalkInput(w, ordered, j, {}, inputs[0]);
      }
      k := WalkOwn(w, ordered, k, inputs[1..]);
    }
  }

  lemma NotOwn(s: System, input: Input)
    ensures !input.Own? ==> PlayPeer(Peers(s), input) == Peers(s)
  {
  }

  lemma StillMatch(receivers: Receivers, s: System, t: System)
    requires Match(receivers, s) && |t.members| == |s.members|
    requires forall i :: 0 <= i < |s.members| ==> t.members[i].conn == s.members[i].conn
    ensures Match(receivers, t)
  {
  }

  // ----- One round of reports

  lemma HandledIsChecked(c: Conn, r: Round, report: Report, delivers: bool)
    requires StatusChecked(c, BlocksOf(r.meta.geometry, r.section))
    ensures StatusChecked(HandleReport(c, r, report, delivers), BlocksOf(r.meta.geometry, r.section))
  {
    hide WellFormed, BlocksOf;
  }

  lemma InstalledIsChecked(c: Conn, state: ReceiverState, id: uint64, delivers: bool, n: nat)
    requires StatusChecked(c, n)
    ensures StatusChecked(Install(c, state, id, delivers), n)
  {
    hide Install, WellFormed;
    InstallShows(c, state, id, delivers);
  }

  lemma HungUpIsChecked(c: Conn, n: nat)
    requires StatusChecked(c, n)
    ensures StatusChecked(c.(connected := false), n)
  {
    hide WellFormed;
  }

  ghost function ConnAfter(c: Conn, r: Round, watched: bool, input: Input): Conn {
    match input
    case Frame(_, _, report, delivers) => if watched then HandleReport(c, r, report, delivers) else c
    case Rejoin(_, _, state, id, delivers) => Install(c, state, id, delivers)
    case Hangup(_) => c.(connected := false)
    case Own(_, _, _) => c
  }

  /** A frame is read from a watched receiver, a reconnect replaces the connection, a hang-up closes it; what
      the receiver does is its own business. */
  method HandleOne(receiver: ReceiverConnection, r: Round, watched: bool, input: Input)
    requires Valid(r.meta.geometry) && r.section < Count(r.meta.geometry)
    requires StatusChecked(receiver.View(), BlocksOf(r.meta.geometry, r.section))
    modifies receiver
    ensures receiver.View() == ConnAfter(old(receiver.View()), r, watched, input)
    ensures StatusChecked(receiver.View(), BlocksOf(r.meta.geometry, r.section))
  {
    hide Valid, Count, BlocksOf, HandleReport, Install, StatusChecked;
    match input
    case Frame(_, _, report, delivers) =>
      if watched {
        HandledIsChecked(receiver.View(), r, report, delivers);
        receiver.HandleControlFrame(r, report, delivers);
      }
    case Rejoin(_, _, state, id, delivers) =>
      InstalledIsChecked(receiver.View(), state, id, delivers, BlocksOf(r.meta.geometry, r.section));
      receiver.InstallConnection(state, id, delivers);
    case Hangup(_) =>
      HungUpIsChecked(receiver.View(), BlocksOf(r.meta.geometry, r.section));
      receiver.connected := false;
    case Own(_, _, _) =>
  }

  lemma ConnOfInput(s: System, r: Round, watched: set<nat>, input: Input)
    requires s.proxy.phase == Collecting(r) && input.i < |s.members|
    ensures var t := PlayInput(s, watched, input);
      && |t.members| == |s.members|
      && t.members[input.i].conn == ConnAfter(s.members[input.i].conn, r, input.i in watched, input)
      && forall j :: 0 <= j < |s.members| && j != input.i ==> t.members[j] == s.members[j]
  {
    hide HandleReport, Install, NewClaim;
  }

  /** One event of a wait. */
  method HandleInput(receivers: Receivers, r: Round, watched: set<nat>, input: Input, ghost s: System)
    requires Match(receivers, s) && s.proxy.phase == Collecting(r) && input.i < |receivers|
    requires Valid(r.meta.geometry) && r.section < Count(r.meta.geometry)
    requires AllChecked(receivers, BlocksOf(r.meta.geometry, r.section))
    modifies receivers
    ensures Match(receivers, PlayInput(s, watched, input))
    ensures AllChecked(receivers, BlocksOf(r.meta.geometry, r.section))
  {
    hide Valid, Count, BlocksOf, StatusChecked, PlayInput, ConnAfter;
    ConnOfInput(s, r, watched, input);
    HandleOne(receivers[input.i], r, input.i in watched, input);
  }

  /** The receivers that are neither finished nor set aside. */
  method ListActive(receivers: Receivers) returns (watched: set<nat>)
    ensures watched == set i: nat | i < |receivers| && Active(receivers[i].View())
  {
    watched := {};
    for i := 0 to |receivers|
      invariant watched == set j: nat | j < i && Active(receivers[j].View())
    {
      if !receivers[i].completed && !receivers[i].isolated && !receivers[i].abandoned {
        watched := watched + {i};
      }
    }
  }

  lemma WatchIs(receivers: Receivers, s: System)
    requires Match(receivers, s)
    ensures WatchList(s) == set i: nat | i < |receivers| && Active(receivers[i].View())
  {
    hide Active;
  }

  lemma InputShape(w: World, s: System, watched: set<nat>, input: Input)
    requires Possible(w, Peers(s), input)
    ensures input.i < |s.members| && PlayInput(s, watched, input).proxy == s.proxy
    ensures Peers(PlayInput(s, watched, input)) == PlayPeer(Peers(s), input)
  {
    InputPeers(s, watched, input);
  }

  /** One `wait_for_receiver_events` and the reads after it. */
  method HandleWait(receivers: Receivers, r: Round, inputs: seq<Input>, ghost w: World, ghost ordered: bool,
                    ghost j: Journey)
    returns (ghost k: Journey)
    requires InRound(w, ordered, receivers, j, r) && j.now.proxy.phase == Collecting(r)
    requires AllPossible(w, Peers(j.now), inputs)
    modifies receivers
    ensures InRound(w, ordered, receivers, k, r) && k.start == j.start
    ensures k.now == PlayWait(j.now, WatchList(j.now), inputs)
  {
    hide Valid, Count, Walked, BlocksOf, StatusChecked, PlayInput, Possible, Peers;
    k := j;
    var watched := ListActive(receivers);
    WatchIs(receivers, j.now);
    for n := 0 to |inputs|
      invariant InRound(w, ordered, receivers, k, r) && k.start == j.start && k.now.proxy == j.now.proxy
      invariant AllPossible(w, Peers(k.now), inputs[n..])
      invariant PlayWait(j.now, WatchList(j.now), inputs) == PlayWait(k.now, watched, inputs[n..])
    {
      assert inputs[n..][0] == inputs[n] && inputs[n..][1..] == inputs[n + 1..];
      InputShape(w, k.now, watched, inputs[n]);
      HandleInput(receivers, r, watched, inputs[n], k.now);
      k := WalkInput(w, ordered, k, watched, inputs[n]);
      watched := Unwatch(watched, inputs[n]);
    }
  }

  lemma AnsweredIs(receivers: Receivers, s: System, finalSection: bool)
    requires Match(receivers, s)
    ensures AllAnswered(s, finalSection) <==>
              forall i :: 0 <= i < |receivers| ==> RoundDone(receivers[i].View(), finalSection)
  {
    hide RoundDone;
    if AllAnswered(s, finalSection) {
      forall i | 0 <= i < |receivers| ensures RoundDone(receivers[i].View(), finalSection) {
        assert RoundDone(s.members[i].conn, finalSection);
      }
    }
  }

  lemma WaitIsPossible(w: World, s: System, inputs: seq<Input>, rest: seq<Input>)
    requires AllPossible(w, Peers(s), inputs + rest)
    ensures AllPossible(w, Peers(s), inputs)
    ensures var t := PlayWait(s, WatchList(s), inputs); AllPossible(w, Peers(t), rest) && t.proxy == s.proxy
  {
    hide AllPossible, Peers, PlayWait, PlayPeers;
    PossibleSum(w, Peers(s), inputs, rest);
    WaitPeers(s, WatchList(s), inputs);
    WaitShape(s, WatchList(s), inputs);
  }

  lemma OwedIs(receivers: Receivers, s: System, finalSection: bool)
    requires Match(receivers, s)
    ensures StillOwing(s, finalSection) <==>
              exists i :: 0 <= i < |receivers| && Owes(receivers[i].View(), finalSection)
  {
    hide Owes;
    if StillOwing(s, finalSection) {
      var i :| 0 <= i < |s.members| && Owes(s.members[i].conn, finalSection);
      assert Owes(receivers[i].View(), finalSection);
    }
    if exists i :: 0 <= i < |receivers| && Owes(receivers[i].View(), finalSection) {
      var i :| 0 <= i < |receivers| && Owes(receivers[i].View(), finalSection);
      assert Owes(s.members[i].conn, finalSection);
    }
  }

  lemma NotedIs(receivers: Receivers, s: System)
    requires Match(receivers, s) && AllNoted(s)
    ensures forall c :: c in receivers ==> c.completeReceived ==> c.completed
  {
    forall c | c in receivers ensures c.completeReceived ==> c.completed {
      var i :| 0 <= i < |receivers| && receivers[i] == c;
      assert Noted(s.members[i].conn);
    }
  }

  /** What the records say when a collection ends before its waits run out. */
  lemma EndsAnswered(receivers: Receivers, s: System, waits: seq<seq<Input>>, finalSection: bool)
    requires AllNoted(s) && !RanOut(s, waits, finalSection)
    requires Match(receivers, Collected(s, waits, finalSection))
    ensures forall c :: c in receivers ==>
              c.completed || c.isolated || c.abandoned
              || (c.statusReceived && (finalSection && c.status.Some? ==> c.status.value.code != Complete))
  {
    hide Collected, RanOut, StillOwing, AllNoted;
    OwedIffRanOut(s, waits, finalSection);
    OwedIs(receivers, Collected(s, waits, finalSection), finalSection);
    NotedIs(receivers, Collected(s, waits, finalSection));
    forall c | c in receivers ensures !Owes(c.View(), finalSection) {
      var i :| 0 <= i < |receivers| && receivers[i] == c;
    }
  }

  /** The loop of `collect_round_reports`; the end of `waits` stands for the deadline, and what is left
      of them when all have answered happens to the receivers alone. A collection that ends before them
      has every active receiver's report; in the last section, it has left none of them at Complete. */
  method CollectReports(receivers: Receivers, r: Round, waits: seq<seq<Input>>, finalSection: bool,
                        ghost w: World, ghost ordered: bool, ghost j: Journey)
    returns (ghost k: Journey)
    requires InRound(w, ordered, receivers, j, r) && j.now.proxy.phase == Collecting(r)
    requires AllPossible(w, Peers(j.now), Joined(waits))
    modifies receivers
    ensures InRound(w, ordered, receivers, k, r) && k.start == j.start
    ensures k.now == Collected(j.now, waits, finalSection)
    ensures AllNoted(j.now) && !RanOut(j.now, waits, finalSection) ==>
              forall c :: c in receivers ==>
                c.completed || c.isolated || c.abandoned
                || (c.statusReceived && (finalSection && c.status.Some? ==> c.status.value.code != Complete))
  {
    hide Valid, Count, Walked, BlocksOf, StatusChecked, PlayWait, AllPossible, Peers, AllAnswered, PlayOwn, RoundDone,
      RanOut, AllNoted;
    k := j;
    var n := 0;
    var done := RoundResponsesComplete(receivers, finalSection);
    AnsweredIs(receivers, k.now, finalSection);
    while n < |waits| && !done
      invariant n <= |waits| && done == AllAnswered(k.now, finalSection)
      invariant InRound(w, ordered, receivers, k, r) && k.start == j.start && k.now.proxy == j.now.proxy
      invariant AllPossible(w, Peers(k.now), Joined(waits[n..]))
      invariant Collected(j.now, waits, finalSection) == Collected(k.now, waits[n..], finalSection)
      decreases |waits| - n
    {
      assert waits[n..][0] == waits[n] && waits[n..][1..] == waits[n + 1..];
      WaitIsPossible(w, k.now, waits[n], Joined(waits[n + 1..]));
      k := HandleWait(receivers, r, waits[n], w, ordered, k);
      n := n + 1;
      done := RoundResponsesComplete(receivers, finalSection);
      AnsweredIs(receivers, k.now, finalSection);
    }
    if n < |waits| {
      PlayOwnShape(k.now, Joined(waits[n..]));
      StillMatch(receivers, k.now, PlayOwn(k.now, Joined(waits[n..])));
      k := WalkOwn(w, ordered, k, Joined(waits[n..]));
    }
    if AllNoted(j.now) && !RanOut(j.now, waits, finalSection) {
      EndsAnswered(receivers, j.now, waits, finalSection);
    }
  }

  // ----- The proxy's own steps

  lemma WalkStep(w: World, ordered: bool, j: Journey, a: ProxyAction) returns (k: Journey)
    requires Walked(w, ordered, j) && ProxyEnabled(w, j.now, a) && (ordered ==> OrderedAction(j.now, OfProxy(a)))
    ensures Walked(w, ordered, k) && k.start == j.start && k.now == Stepped(j.now, a)
  {
    hide Walked, ProxyEnabled, ProxyAfter, MemberAfter, AnyFailed, AllSettledNow, OrderedAction;
    WalkOn(w, ordered, j, OfProxy(a), Stepped(j.now, a));
    k := Onward(j, OfProxy(a), Stepped(j.now, a));
  }

  method AnyReportedFailed(receivers: Receivers) returns (failed: bool)
    ensures failed <==> exists i :: 0 <= i < |receivers| && Reported(receivers[i].View(), StatusCode.Failed)
  {
    for i := 0 to |receivers|
      invariant forall j :: 0 <= j < i ==> !Reported(receivers[j].View(), StatusCode.Failed)
    {
      if receivers[i].status.Some? && receivers[i].status.value.code == StatusCode.Failed {
        return true;
      }
    }
    return false;
  }

  lemma FailedIs(receivers: Receivers, u: System)
    requires Match(receivers, u)
    ensures AnyFailed(u) <==> exists i :: 0 <= i < |receivers| && Reported(receivers[i].View(), StatusCode.Failed)
  {
    hide Reported;
    if AnyFailed(u) {
      var i :| 0 <= i < |u.members| && Reported(u.members[i].conn, StatusCode.Failed);
      assert Reported(receivers[i].View(), StatusCode.Failed);
    }
    if exists i :: 0 <= i < |receivers| && Reported(receivers[i].View(), StatusCode.Failed) {
      var i :| 0 <= i < |receivers| && Reported(receivers[i].View(), StatusCode.Failed);
      assert Reported(u.members[i].conn, StatusCode.Failed);
    }
  }

  /** `isolate_slow_receivers`, as part of the step that ends a collection without a failure. */
  method IsolateAll(receivers: Receivers, r: Round, backfillAfter: uint32, ghost u: System)
    requires Match(receivers, u) && u.proxy.phase == Collecting(r) && !AnyFailed(u)
    requires Valid(r.meta.geometry) && r.section < Count(r.meta.geometry)
    requires AllChecked(receivers, BlocksOf(r.meta.geometry, r.section))
    modifies receivers
    ensures Match(receivers, Stepped(u, EndCollection(backfillAfter)))
    ensures AllChecked(receivers, BlocksOf(r.meta.geometry, r.section))
  {
    hide Count, BlocksOf, ProxyAfter, MemberAfter, AnyFailed, First, MissingIds, WellFormed, Stepped, Valid;
    EndIs(u, backfillAfter);
    IsolateSlowReceivers(receivers, r.meta.geometry, r.section, r.round, backfillAfter);
  }

  /** First half of a round: reports, and the check for a digest failure; then slow receivers are isolated. */
  method CollectAndIsolate(receivers: Receivers, r: Round, script: Script, backfillAfter: uint32,
                           ghost w: World, ghost ordered: bool, ghost j: Journey)
    returns (mismatch: bool, ghost k: Journey)
    requires InRound(w, ordered, receivers, j, r) && j.now.proxy.phase == Collecting(r)
    requires AllPossible(w, Peers(j.now), Joined(script.waits(r.round)))
    modifies receivers
    ensures InRound(w, ordered, receivers, k, r) && k.start == j.start
    ensures k.now == CollectionEnd(j.now, script, backfillAfter) && mismatch == AnyFailed(k.now)
  {
    hide Count, Walked, BlocksOf, ProxyAfter, MemberAfter, AllPossible, Collected, AnyFailed, Stepped, Isolate, First;
    var finalSection := IsFinal(r);
    k := CollectReports(receivers, r, script.waits(r.round), finalSection, w, ordered, j);
    CollectedShape(j.now, script.waits(r.round), finalSection);
    mismatch := AnyReportedFailed(receivers);
    FailedIs(receivers, k.now);
    EndIs(k.now, backfillAfter);
    ghost var u := k.now;
    k := WalkStep(w, ordered, k, EndCollection(backfillAfter));
    if mismatch {
      return;
    }
    IsolateAll(receivers, r, backfillAfter, u);
  }

  // ----- Sends that open or close connections

  function WithLink(m: Member, connected: bool): Member {
    m.(conn := m.conn.(connected := connected))
  }

  /** Only connections opened or closed between two views of the records. */
  ghost predicate OnlyLinks(s: System, t: System) {
    && t.proxy == s.proxy && |t.members| == |s.members|
    && forall i :: 0 <= i < |s.members| ==>
         t.members[i] == WithLink(s.members[i], t.members[i].conn.connected)
  }

  /** Replaces the first `k` members. */
  function Mixed(s: System, t: System, k: nat): System
    requires |s.members| == |t.members| && k <= |s.members|
  {
    s.(members := t.members[..k] + s.members[k..])
  }

  lemma {:induction false} LinksLead(w: World, ordered: bool, j: Journey, t: System, k: nat) returns (more: Journey)
    requires Walked(w, ordered, j) && OnlyLinks(j.now, t) && k <= |j.now.members|
    ensures Walked(w, ordered, more) && more.start == j.start && more.now == Mixed(j.now, t, k)
    decreases k
  {
    hide Walked, PacedNext;
    if k == 0 {
      assert Mixed(j.now, t, 0) == j.now;
      more := j;
    } else {
      more := LinksLead(w, ordered, j, t, k - 1);
      var a := OfMember(k - 1, LinkChange(t.members[k - 1].conn.connected));
      LinkStep(w, ordered, j.now, t, k);
      WalkOn(w, ordered, more, a, Mixed(j.now, t, k));
      more := Onward(more, a, Mixed(j.now, t, k));
    }
  }

  lemma LinkStep(w: World, ordered: bool, s: System, t: System, k: nat)
    requires OnlyLinks(s, t) && 0 < k <= |s.members|
    ensures PacedNext(w, ordered, Mixed(s, t, k - 1),
                      OfMember(k - 1, LinkChange(t.members[k - 1].conn.connected)), Mixed(s, t, k))
  {
    var a, b := Mixed(s, t, k - 1), Mixed(s, t, k);
    assert a.members[k - 1] == s.members[k - 1] && b.members[k - 1] == t.members[k - 1];
    assert b.members == a.members[k - 1 := b.members[k - 1]];
  }

  /** The members after sends that only open or close connections. */
  ghost function Relinked(s: System, receivers: Receivers): System
    requires |s.members| == |receivers|
    reads receivers
  {
    s.(members := seq(|receivers|, i requires 0 <= i < |receivers| reads receivers =>
                    WithLink(s.members[i], receivers[i].connected)))
  }

  lemma WalkLinks(w: World, ordered: bool, j: Journey, receivers: Receivers) returns (k: Journey)
    requires |j.now.members| == |receivers| && Walked(w, ordered, j)
    ensures Walked(w, ordered, k) && k.start == j.start && k.now == Relinked(j.now, receivers)
  {
    hide Walked;
    var t := Relinked(j.now, receivers);
    k := LinksLead(w, ordered, j, t, |t.members|);
    assert Mixed(j.now, t, |t.members|) == t;
  }

  lemma RelinkedShows(s: System, receivers: Receivers)
    requires |s.members| == |receivers|
    ensures Alike(s, Relinked(s, receivers)) && Peers(Relinked(s, receivers)) == Peers(s)
  {
  }

  lemma ViewsAreSeen(receivers: Receivers)
    ensures RepairRound.Seen(receivers, Views(receivers))
  {
  }

  /** The repair sends that precede a round; they leave everything but the connections alone. */
  method SendRepair(receivers: Receivers, section: RepairPlan.Section, g: Geometry, peerMode: bool, script: Script)
    requires Distinct(receivers)
    modifies receivers`connected
    ensures forall i :: 0 <= i < |receivers| ==>
              receivers[i].View() == old(receivers[i].View()).(connected := receivers[i].connected)
  {
    hide RepairRound.PeerRound, RepairRound.BaselineRound, RepairRound.Broadcast, RepairRound.Seen;
    ghost var conns := Views(receivers);
    ViewsAreSeen(receivers);
    if peerMode {
      var log := RepairRound.ReToRe(receivers, section, g, script.begin(section.round), script.network(section.round),
                                    script.end(section.round), conns);
    } else {
      var log := RepairRound.SendRepairRound(receivers, section, g, script.begin(section.round),
                                             script.end(section.round), conns);
    }
  }

  method Repair(receivers: Receivers, r: Round, next: uint32, peerMode: bool, script: Script,
                ghost w: World, ghost ordered: bool, ghost j: Journey)
    returns (ghost k: Journey)
    requires InRound(w, ordered, receivers, j, r)
    modifies receivers`connected
    ensures InRound(w, ordered, receivers, k, r) && k.start == j.start
    ensures Alike(j.now, k.now) && Peers(k.now) == Peers(j.now)
  {
    hide Count, BlocksOf, WellFormed, First, Valid, Alike, Peers, Walked;
    var g := r.meta.geometry;
    var section := RepairPlan.Section(r.meta.transferId, r.section, next, First(g, r.section), BlocksOf(g, r.section));
    SendRepair(receivers, section, g, peerMode, script);
    k := WalkLinks(w, ordered, j, receivers);
    RelinkedShows(j.now, receivers);
  }

  /** The SECTION_END of round 0. */
  method Announce(receivers: Receivers, network: nat -> bool, ghost w: World, ghost ordered: bool, ghost j: Journey)
    returns (ghost k: Journey)
    requires Match(receivers, j.now) && Walked(w, ordered, j)
    modifies receivers`connected
    ensures Match(receivers, k.now) && Walked(w, ordered, k) && k.start == j.start
    ensures Alike(j.now, k.now) && Peers(k.now) == Peers(j.now)
  {
    hide Alike, Peers, Walked, RepairRound.Broadcast, RepairRound.Seen;
    ghost var conns := Views(receivers);
    ViewsAreSeen(receivers);
    RepairRound.SendToActive(receivers, network, conns);
    k := WalkLinks(w, ordered, j, receivers);
    RelinkedShows(j.now, receivers);
  }

  // ----- One section

  /** The proxy's step that opens round `r`. */
  ghost predicate Opens(s: System, a: ProxyAction, r: Round) {
    match a
    case StartSection(section) => s.proxy.current == Some(r.meta) && section == r.section && r.round == 0
    case Decide(maxRounds) =>
      s.proxy.phase.Deciding? && !AllSettledNow(s) && s.proxy.phase.round.round < maxRounds
      && r == s.proxy.phase.round.(round := s.proxy.phase.round.round + 1)
    case _ => false
  }

  lemma OpenedMembers(s: System, a: ProxyAction, r: Round)
    requires Opens(s, a, r)
    ensures var t := Stepped(s, a);
      t.proxy == s.proxy.(phase := Collecting(r)) && |t.members| == |s.members|
      && forall i :: 0 <= i < |s.members| ==> t.members[i].conn == ResetRound(s.members[i].conn)
  {
    hide AllSettledNow;
  }

  /** `reset_round_state` at the start of a collection, as part of the step that opens it. */
  method OpenRound(receivers: Receivers, r: Round, ghost a: ProxyAction,
                   ghost w: World, ghost ordered: bool, ghost j: Journey)
    returns (ghost k: Journey)
    requires Match(receivers, j.now) && Walked(w, ordered, j) && Proper(w, r)
    requires j.now.proxy.begun && j.now.proxy.current == Some(r.meta)
    requires ProxyEnabled(w, j.now, a) && (ordered ==> OrderedAction(j.now, OfProxy(a))) && Opens(j.now, a, r)
    modifies receivers
    ensures InRound(w, ordered, receivers, k, r) && k.start == j.start && k.now == Stepped(j.now, a)
    ensures k.now.proxy == j.now.proxy.(phase := Collecting(r))
  {
    hide Count, Valid, Walked, BlocksOf, ProxyEnabled, WellFormed, Opens, Stepped, OrderedAction;
    OpenedMembers(j.now, a, r);
    k := WalkStep(w, ordered, j, a);
    ResetRoundState(receivers);
  }

  lemma SettledIs(receivers: Receivers, s: System)
    requires Match(receivers, s)
    ensures AllSettledNow(s) <==> forall i :: 0 <= i < |receivers| ==> Settled(receivers[i].View())
  {
    hide Settled;
    if AllSettledNow(s) {
      forall i | 0 <= i < |receivers| ensures Settled(receivers[i].View()) {
        assert Settled(s.members[i].conn);
      }
    }
  }

  lemma InRoundShows(receivers: Receivers, r: Round, w: World, ordered: bool, j: Journey)
    requires InRound(w, ordered, receivers, j, r)
    ensures Match(receivers, j.now) && Walked(w, ordered, j) && Proper(w, r)
    ensures j.now.proxy.begun && j.now.proxy.current == Some(r.meta)
  {
  }

  /** While the proxy sends, the receivers go on. */
  lemma Meanwhile(receivers: Receivers, w: World, ordered: bool, j: Journey, inputs: seq<Input>) returns (k: Journey)
    requires Match(receivers, j.now) && Walked(w, ordered, j) && AllPossible(w, Peers(j.now), inputs)
    ensures Match(receivers, k.now) && Walked(w, ordered, k) && k.start == j.start && k.now == PlayOwn(j.now, inputs)
    ensures k.now.proxy == j.now.proxy && Peers(k.now) == PlayPeers(Peers(j.now), inputs)
    ensures AllSettledNow(k.now) <==> AllSettledNow(j.now)
  {
    hide Match, Walked, AllSettledNow, Peers, PlayPeers, PlayOwn, AllPossible;
    OwnPeers(j.now, inputs);
    PlayOwnShape(j.now, inputs);
    PlayOwnSettles(j.now, inputs);
    StillMatch(receivers, j.now, PlayOwn(j.now, inputs));
    k := WalkOwn(w, ordered, j, inputs);
  }

  lemma OpensAgain(w: World, s: System, r: Round, maxRounds: uint32)
    requires s.proxy.phase == Deciding(r) && !AllSettledNow(s) && r.round < maxRounds
    ensures Opens(s, Decide(maxRounds), r.(round := r.round + 1)) && ProxyEnabled(w, s, Decide(maxRounds))
    ensures OrderedAction(s, OfProxy(Decide(maxRounds)))
  {
    hide AllSettledNow;
  }

  lemma NextIsProper(w: World, r: Round, next: Round)
    requires Proper(w, r) && next.meta == r.meta && next.section == r.section
    ensures Proper(w, next)
  {
    hide Valid, Count;
  }

  /** Round `r` was not the last: repair, and open the next one. */
  method NextRound(receivers: Receivers, r: Round, maxRounds: uint32, peerMode: bool, script: Script,
                   ghost w: World, ghost ordered: bool, ghost j: Journey)
    returns (next: Round, ghost k: Journey)
    requires InRound(w, ordered, receivers, j, r) && j.now.proxy.phase == Deciding(r)
    requires !AllSettledNow(j.now) && r.round < maxRounds
    requires AllPossible(w, Peers(j.now), script.meanwhile(r.round + 1))
    modifies receivers
    ensures next == r.(round := r.round + 1) && k.start == j.start
    ensures InRound(w, ordered, receivers, k, next) && k.now.proxy == j.now.proxy.(phase := Collecting(next))
    ensures Alike(NextOpening(j.now, script, maxRounds), k.now)
    ensures Peers(k.now) == PlayPeers(Peers(j.now), script.meanwhile(r.round + 1))
  {
    hide Count, Valid, Walked, BlocksOf, AllSettledNow, WellFormed, First, Alike, Peers, PlayPeers, PlayOwn, Stepped,
      AllPossible, InRound, Match, Proper, Opens, ProxyEnabled, OrderedAction;
    next := r.(round := r.round + 1);
    InRoundShows(receivers, r, w, ordered, j);
    k := Repair(receivers, r, r.round + 1, peerMode, script, w, ordered, j);
    InRoundShows(receivers, r, w, ordered, k);
    SameProxy(j.now, k.now);
    SameAnswers(j.now, k.now, false);
    OpeningAlike(j.now, k.now, script, maxRounds);
    k := Meanwhile(receivers, w, ordered, k, script.meanwhile(r.round + 1));
    SteppedPeers(k.now, Decide(maxRounds));
    OpensAgain(w, k.now, r, maxRounds);
    NextIsProper(w, r, next);
    k := OpenRound(receivers, next, Decide(maxRounds), w, ordered, k);
  }

  /** The first round of a section. */
  method FirstRound(receivers: Receivers, r: Round, script: Script, ghost w: World, ghost ordered: bool,
                    ghost s: System)
    returns (ghost k: Journey)
    requires Match(receivers, s) && s.proxy.begun && s.proxy.current == Some(r.meta) && s.proxy.phase.Idling?
    requires Proper(w, r) && r.round == 0 && (ordered ==> AllBelow(s.proxy.delivered, r.section))
    requires AllPossible(w, Peers(s), script.meanwhile(0))
    modifies receivers
    ensures InRound(w, ordered, receivers, k, r) && k.start == s && k.now.proxy == s.proxy.(phase := Collecting(r))
    ensures Alike(Stepped(PlayOwn(s, script.meanwhile(0)), StartSection(r.section)), k.now)
    ensures Peers(k.now) == PlayPeers(Peers(s), script.meanwhile(0))
  {
    hide Count, Valid, Walked, BlocksOf, WellFormed, Alike, Peers, PlayPeers, PlayOwn, Stepped, AllPossible, AllBelow;
    StandStill(w, ordered, s);
    k := Announce(receivers, script.end(0), w, ordered, Journey(s, [], s));
    SameProxy(s, k.now);
    var inputs := script.meanwhile(0);
    PlayOwnAlike(s, k.now, inputs);
    SteppedAlike(PlayOwn(s, inputs), PlayOwn(k.now, inputs), StartSection(r.section));
    k := Meanwhile(receivers, w, ordered, k, inputs);
    SteppedPeers(k.now, StartSection(r.section));
    k := OpenRound(receivers, r, StartSection(r.section), w, ordered, k);
  }

  // ----- The whole section

  /** The same result, and the same system but for open connections. */
  ghost predicate SameVerdict(a: (Dispatch.DeliveryResult, System), b: (Dispatch.DeliveryResult, System)) {
    a.0 == b.0 && Alike(a.1, b.1)
  }

  lemma AlikeItself(s: System)
    ensures Alike(s, s)
  {
  }

  lemma AlikeChain(s: System, t: System, u: System)
    requires Alike(s, t) && Alike(t, u)
    ensures Alike(s, u)
  {
    hide Bare;
  }

  /** The verdict is that of the next round, opened with other connections perhaps. */
  lemma VerdictGoesOn(a: (Dispatch.DeliveryResult, System), s: System, t: System, script: Script,
                      maxRounds: uint32, backfillAfter: uint32)
    requires s.proxy.phase.Collecting? && Alike(s, t) && SameVerdict(a, Verdict(s, script, maxRounds, backfillAfter))
    ensures t.proxy.phase.Collecting? && SameVerdict(a, Verdict(t, script, maxRounds, backfillAfter))
  {
    hide Alike, Verdict;
    SameProxy(s, t);
    VerdictAlike(s, t, script, maxRounds, backfillAfter);
    AlikeChain(a.1, Verdict(s, script, maxRounds, backfillAfter).1, Verdict(t, script, maxRounds, backfillAfter).1);
  }

  /** What one more round makes of the verdict. */
  lemma VerdictUnfolds(s: System, script: Script, maxRounds: uint32, backfillAfter: uint32)
    requires s.proxy.phase.Collecting?
    ensures var u, v := CollectionEnd(s, script, backfillAfter), Verdict(s, script, maxRounds, backfillAfter);
      && (AnyFailed(u) ==> v == (Dispatch.Sha256Mismatch, u))
      && (!AnyFailed(u) ==>
            u.proxy.phase == Deciding(s.proxy.phase.round)
            && (AllSettledNow(u) ==> v == (Dispatch.Success, Stepped(u, Decide(maxRounds))))
            && (!AllSettledNow(u) && s.proxy.phase.round.round >= maxRounds ==>
                  v == (Dispatch.Failed, Stepped(u, Decide(maxRounds))))
            && (!AllSettledNow(u) && s.proxy.phase.round.round < maxRounds ==>
                  NextOpening(u, script, maxRounds).proxy.phase.Collecting?
                  && v == Verdict(NextOpening(u, script, maxRounds), script, maxRounds, backfillAfter)))
  {
    hide CollectionEnd, NextOpening, AllSettledNow, AnyFailed, Stepped;
    var u := CollectionEnd(s, script, backfillAfter);
    CollectionEnds(s, script, backfillAfter);
    if !AnyFailed(u) && !AllSettledNow(u) && s.proxy.phase.round.round < maxRounds {
      OpeningOpens(u, script, maxRounds);
    }
  }

  lemma EndPeers(s: System, script: Script, backfillAfter: uint32)
    requires s.proxy.phase.Collecting?
    ensures Peers(CollectionEnd(s, script, backfillAfter))
         == PlayPeers(Peers(s), Joined(script.waits(s.proxy.phase.round.round)))
  {
    hide Peers, PlayPeers, Stepped, Collected;
    var r := s.proxy.phase.round;
    CollectedPeers(s, script.waits(r.round), IsFinal(r));
    SteppedPeers(Collected(s, script.waits(r.round), IsFinal(r)), EndCollection(backfillAfter));
  }

  /** The last decision leaves the records alone. */
  lemma LastDecision(s: System, maxRounds: uint32)
    requires s.proxy.phase.Deciding? && (AllSettledNow(s) || s.proxy.phase.round.round >= maxRounds)
    ensures var t := Stepped(s, Decide(maxRounds));
      t.members == s.members
      && t.proxy == s.proxy.(phase := Idling,
                             delivered := if AllSettledNow(s) then s.proxy.delivered + {s.proxy.phase.round.section}
                                          else s.proxy.delivered)
      && (AllSettledNow(t) <==> AllSettledNow(s))
  {
    hide Settled;
    assert Stepped(s, Decide(maxRounds)).members == s.members;
  }

  /** Round `r` was the last. */
  lemma Conclude(receivers: Receivers, r: Round, maxRounds: uint32, w: World, ordered: bool, j: Journey)
    returns (k: Journey)
    requires InRound(w, ordered, receivers, j, r) && j.now.proxy.phase == Deciding(r)
    requires AllSettledNow(j.now) || r.round >= maxRounds
    ensures Match(receivers, k.now) && Walked(w, ordered, k) && k.start == j.start
    ensures k.now == Stepped(j.now, Decide(maxRounds)) && (AllSettledNow(k.now) <==> AllSettledNow(j.now))
    ensures k.now.proxy == j.now.proxy.(phase := Idling,
                                        delivered := if AllSettledNow(j.now) then j.now.proxy.delivered + {r.section}
                                                     else j.now.proxy.delivered)
  {
    hide Count, Valid, Walked, BlocksOf, WellFormed, AllSettledNow, Stepped;
    LastDecision(j.now, maxRounds);
    k := WalkStep(w, ordered, j, Decide(maxRounds));
  }

  /** What a call of `distribute_section` may do to the system. Success adds the section to the delivered
      ones, with every receiver settled; the other results leave it undelivered. */
  ghost predicate Distributed(w: World, ordered: bool, s: System, section: uint32, result: Dispatch.DeliveryResult,
                              trace: seq<Action>, t: System)
  {
    && Leads(w, ordered, s, trace, t)
    && t.proxy == (if result == Dispatch.Success then s.proxy.(delivered := s.proxy.delivered + {section}) else s.proxy)
    && match result
       case Success => AllSettledNow(t)
       case Failed => !AllSettledNow(t)
       case Sha256Mismatch => AnyFailed(t)
  }

  /** What the records say after a Success of the last section. */
  lemma FinishedIs(receivers: Receivers, t: System, s: System, section: uint32, script: Script, maxRounds: uint32,
                   backfillAfter: uint32)
    requires Match(receivers, t) && s.proxy.current.Some?
    requires var g := s.proxy.current.value.geometry; g.sectionBlocks != 0 && section + 1 == Count(g)
    requires SameVerdict(Play(s, section, script, maxRounds, backfillAfter), (Dispatch.Success, t))
    ensures (forall c :: c in receivers ==> c.completed || c.isolated || c.abandoned)
       <==> !EndedByDeadline(s, section, script, maxRounds, backfillAfter)
  {
    hide Play, EndedByDeadline, Count;
    LastCallFinishes(s, section, script, maxRounds, backfillAfter);
    var u := Play(s, section, script, maxRounds, backfillAfter).1;
    SameFinish(u, t);
    if forall c :: c in receivers ==> c.completed || c.isolated || c.abandoned {
      forall i | 0 <= i < |t.members|
        ensures t.members[i].conn.completed || t.members[i].conn.isolated || t.members[i].conn.abandoned
      {
        assert t.members[i].conn == receivers[i].View();
      }
    }
  }

  lemma SameFinish(s: System, t: System)
    requires Alike(s, t)
    ensures Finished(s) <==> Finished(t)
  {
    forall i | 0 <= i < |s.members|
      ensures s.members[i].conn.completed == t.members[i].conn.completed
      ensures s.members[i].conn.isolated == t.members[i].conn.isolated
      ensures s.members[i].conn.abandoned == t.members[i].conn.abandoned
    {
      assert Bare(s.members[i]) == Bare(t.members[i]);
    }
  }

  /** The loop of `distribute_section`. */
  method RunRounds(receivers: Receivers, meta: FileMeta, section: uint32, maxRounds: uint32,
                   backfillAfter: uint32, peerMode: bool, script: Script,
                   ghost w: World, ghost ordered: bool, ghost s: System)
    returns (result: Dispatch.DeliveryResult, ghost trace: seq<Action>, ghost t: System)
    requires Match(receivers, s) && s.proxy.begun && s.proxy.current == Some(meta) && s.proxy.phase.Idling?
    requires meta == w.meta(meta.transferId) && Valid(meta.geometry) && section < Count(meta.geometry)
    requires Playable(w, Peers(s), script, maxRounds) && (ordered ==> AllBelow(s.proxy.delivered, section))
    modifies receivers
    ensures Match(receivers, t) && Distributed(w, ordered, s, section, result, trace, t)
    ensures SameVerdict(Play(s, section, script, maxRounds, backfillAfter), (result, t))
  {
    hide Count, Valid, Leads, AllSettledNow, AnyFailed, First, InRound, Match, Alike, Peers, PlayPeers, CollectionEnd,
      NextOpening, Stepped, PlayOwn, Verdict, AllPossible, AllBelow;
    ghost var verdict := Play(s, section, script, maxRounds, backfillAfter);
    AlikeItself(verdict.1);
    var r := Round(meta, section, 0);
    ghost var j := FirstRound(receivers, r, script, w, ordered, s);
    SameProxy(Stepped(PlayOwn(s, script.meanwhile(0)), StartSection(section)), j.now);
    VerdictGoesOn(verdict, Stepped(PlayOwn(s, script.meanwhile(0)), StartSection(section)), j.now, script, maxRounds,
                  backfillAfter);
    while true
      invariant InRound(w, ordered, receivers, j, r) && j.start == s && j.now.proxy == s.proxy.(phase := Collecting(r))
      invariant r.meta == meta && r.section == section && r.round <= maxRounds
      invariant SameVerdict(verdict, Verdict(j.now, script, maxRounds, backfillAfter))
      invariant PlayableFrom(w, Peers(j.now), script, r.round, maxRounds)
      decreases maxRounds - r.round
    {
      ghost var before := j.now;
      var mismatch: bool;
      VerdictUnfolds(before, script, maxRounds, backfillAfter);
      EndPeers(before, script, backfillAfter);
      CollectionEnds(before, script, backfillAfter);
      mismatch, j := CollectAndIsolate(receivers, r, script, backfillAfter, w, ordered, j);
      InRoundShows(receivers, r, w, ordered, j);
      if mismatch {
        return Dispatch.Sha256Mismatch, j.trace, j.now;
      }
      var done := AllSettled(receivers);
      SettledIs(receivers, j.now);
      if done || r.round == maxRounds {
        j := Conclude(receivers, r, maxRounds, w, ordered, j);
        return if done then Dispatch.Success else Dispatch.Failed, j.trace, j.now;
      }
      ghost var after := j.now;
      r, j := NextRound(receivers, r, maxRounds, peerMode, script, w, ordered, j);
      VerdictGoesOn(verdict, NextOpening(after, script, maxRounds), j.now, script, maxRounds, backfillAfter);
    }
  }

  /** `distribute_section`: the rounds of one section, from the system state `s` to `t` by the steps of
      `trace`. Its result is the verdict of the script. After a Success of the last section, unless the
      deadline ended the deciding collection, every receiver is completed, isolated or abandoned. */
  method DistributeSection(receivers: Receivers, meta: FileMeta, section: uint32, maxRounds: uint32,
                           backfillAfter: uint32, peerMode: bool, script: Script,
                           ghost w: World, ghost ordered: bool, ghost s: System)
    returns (result: Dispatch.DeliveryResult, ghost trace: seq<Action>, ghost t: System)
    requires Match(receivers, s) && s.proxy.begun && s.proxy.current == Some(meta) && s.proxy.phase.Idling?
    requires meta == w.meta(meta.transferId) && Valid(meta.geometry) && section < Count(meta.geometry)
    requires Playable(w, Peers(s), script, maxRounds) && (ordered ==> AllBelow(s.proxy.delivered, section))
    modifies receivers
    ensures Match(receivers, t) && Distributed(w, ordered, s, section, result, trace, t)
    ensures SameVerdict(Play(s, section, script, maxRounds, backfillAfter), (result, t))
    ensures result == Dispatch.Success && section + 1 == Count(meta.geometry) ==>
              ((forall c :: c in receivers ==> c.completed || c.isolated || c.abandoned)
               <==> !EndedByDeadline(s, section, script, maxRounds, backfillAfter))
  {
    result, trace, t := RunRounds(receivers, meta, section, maxRounds, backfillAfter, peerMode, script, w, ordered, s);
    if result == Dispatch.Success && section + 1 == Count(meta.geometry) {
      FinishedIs(receivers, t, s, section, script, maxRounds, backfillAfter);
    }
  }

  // ----- What delivered sections mean

  /** Put together with the system's invariant: when `distribute_section` returns Success, every
      receiver that was never set aside in this transfer holds the section or has published. */
  lemma SuccessMeansHeld(w: World, ordered: bool, s: System, section: uint32, trace: seq<Action>, t: System, i: nat)
    requires ReceiverSafety.Sound(w) && SysInv(w, s) && s.proxy.current.Some?
    requires Distributed(w, ordered, s, section, Dispatch.Success, trace, t)
    requires i < |t.members| && !t.members[i].skipped
    ensures Holds(w, t.members[i], s.proxy.current.value.transferId, section)
  {
    hide Leads, SysInv, Holds;
    LeadsKeeps(w, ordered, s, trace, t);
    DeliveredHeldNow(w, t, i, section);
  }
}
