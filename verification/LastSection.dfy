/** What the last section waits for. A collection ends early only when no receiver owes anything: in the
    last section an active receiver that reported Complete still owes its RECEIVER_COMPLETE, in every
    other section a report is enough. The rule is stated on the fields of the records, and what it is
    for is proved of whole sections: after the last one, who has finished depends on the final wait. */
module LastSection {
  import opened Common
  import opened Reports
  import opened Sections
  import opened Messages
  import opened Connections
  import opened Receiver
  import opened ReceiverSafety
  import opened SectionBarrier
  import opened SectionScript
  import Dispatch

  // ----- Owing

  /** Some receiver, neither finished nor set aside, has not reported, or has reported the whole file of
      the last section without its completion having been read. */
  ghost predicate StillOwing(s: System, finalSection: bool) {
    exists i :: 0 <= i < |s.members| && Owes(s.members[i].conn, finalSection)
  }

  ghost predicate Owes(c: Conn, finalSection: bool) {
    && !c.completed && !c.isolated && !c.abandoned
    && (!c.statusReceived
        || (finalSection && c.status.Some? && c.status.value.code == Complete && !c.completeReceived))
  }

  /** At every test of the collection someone still owed: the deadline ended it. */
  ghost predicate RanOut(s: System, waits: seq<seq<Input>>, finalSection: bool)
    decreases |waits|
  {
    StillOwing(s, finalSection)
    && (waits == [] || RanOut(PlayWait(s, WatchList(s), waits[0]), waits[1..], finalSection))
  }

  /** The first `n` waits, with no test between them. */
  ghost function AfterWaits(s: System, waits: seq<seq<Input>>, n: nat): System
    requires n <= |waits|
    decreases n
  {
    if n == 0 then s else AfterWaits(PlayWait(s, WatchList(s), waits[0]), waits[1..], n - 1)
  }

  lemma AnsweredIffNothingOwed(s: System, finalSection: bool)
    ensures AllAnswered(s, finalSection) <==> !StillOwing(s, finalSection)
  {
    if !AllAnswered(s, finalSection) {
      var i :| 0 <= i < |s.members| && !RoundDone(s.members[i].conn, finalSection);
      assert Owes(s.members[i].conn, finalSection);
    }
    if AllAnswered(s, finalSection) {
      forall i | 0 <= i < |s.members| ensures !Owes(s.members[i].conn, finalSection) {
        assert RoundDone(s.members[i].conn, finalSection);
      }
    }
  }

  /** The collection stops at the first test at which nothing is owed. */
  lemma {:induction false} CollectionStops(s: System, waits: seq<seq<Input>>, finalSection: bool, n: nat)
    requires n <= |waits|
    requires forall m: nat :: m < n ==> StillOwing(AfterWaits(s, waits, m), finalSection)
    requires n == |waits| || !StillOwing(AfterWaits(s, waits, n), finalSection)
    ensures Collected(s, waits, finalSection) == PlayOwn(AfterWaits(s, waits, n), Joined(waits[n..]))
    decreases n
  {
    hide StillOwing, AllAnswered, PlayWait, PlayOwn, WatchList;
    AnsweredIffNothingOwed(s, finalSection);
    if n == 0 {
      assert waits[0..] == waits;
      if waits == [] {
        PlayNothing(s);
      }
    } else {
      assert StillOwing(AfterWaits(s, waits, 0), finalSection);
      var t := PlayWait(s, WatchList(s), waits[0]);
      forall m: nat | m < n - 1 ensures StillOwing(AfterWaits(t, waits[1..], m), finalSection) {
        assert AfterWaits(s, waits, m + 1) == AfterWaits(t, waits[1..], m);
      }
      CollectionStops(t, waits[1..], finalSection, n - 1);
      assert waits[1..][n - 1..] == waits[n..];
    }
  }

  lemma PlayNothing(s: System)
    ensures PlayOwn(s, Joined([])) == s
  {
  }

  /** A section before the last one does not wait for completions: its collection stops at the first test
      at which every active receiver has reported. */
  lemma ReportsAreEnough(s: System, waits: seq<seq<Input>>, n: nat)
    requires n <= |waits|
    requires forall m: nat :: m < n ==> SomeoneIsSilent(AfterWaits(s, waits, m))
    requires n == |waits| || !SomeoneIsSilent(AfterWaits(s, waits, n))
    ensures Collected(s, waits, false) == PlayOwn(AfterWaits(s, waits, n), Joined(waits[n..]))
  {
    hide AfterWaits, Collected, PlayOwn;
    CollectionStops(s, waits, false, n);
  }

  ghost predicate SomeoneIsSilent(s: System) {
    exists i :: 0 <= i < |s.members| && var c := s.members[i].conn;
      !c.completed && !c.isolated && !c.abandoned && !c.statusReceived
  }

  /** A receiver is read once per wait: after a frame from it, further frames wait for the next one. */
  lemma {:induction false} ReadOncePerWait(s: System, watched: set<nat>, first: Input, more: seq<Input>)
    requires first.Frame? && forall k :: 0 <= k < |more| ==> more[k].Frame? && more[k].i == first.i
    ensures PlayWait(s, watched, [first] + more) == PlayInput(s, watched, first)
  {
    hide PlayInput;
    assert ([first] + more)[1..] == more;
    UnwatchedIsIgnored(PlayInput(s, watched, first), Unwatch(watched, first), first.i, more);
  }

  lemma {:induction false} UnwatchedIsIgnored(s: System, watched: set<nat>, i: nat, inputs: seq<Input>)
    requires i !in watched && forall k :: 0 <= k < |inputs| ==> inputs[k].Frame? && inputs[k].i == i
    ensures PlayWait(s, watched, inputs) == s
    decreases |inputs|
  {
    hide HandleReport;
    if inputs != [] {
      assert PlayInput(s, watched, inputs[0]) == s by {
        if i < |s.members| {
          assert s.members[i := s.members[i]] == s.members;
        }
      }
      UnwatchedIsIgnored(s, Unwatch(watched, inputs[0]), i, inputs[1..]);
    }
  }

  // ----- Records between two resets

  /** A completion is read together with the flag that finishes the receiver, a report together with its
      own flag. */
  ghost predicate Noted(c: Conn) {
    (c.completeReceived ==> c.completed) && (c.status.Some? ==> c.statusReceived)
  }

  ghost predicate AllNoted(s: System) {
    forall i :: 0 <= i < |s.members| ==> Noted(s.members[i].conn)
  }

  lemma ReportIsNoted(c: Conn, r: Round, report: Report, delivers: bool)
    requires Noted(c)
    ensures Noted(HandleReport(c, r, report, delivers))
  {
    hide WellFormed, BlocksOf;
  }

  lemma InstallIsNoted(c: Conn, state: ReceiverState, id: uint64, delivers: bool)
    requires Noted(c)
    ensures Noted(Install(c, state, id, delivers))
  {
  }

  lemma InputIsNoted(s: System, watched: set<nat>, input: Input)
    requires AllNoted(s)
    ensures AllNoted(PlayInput(s, watched, input))
  {
    hide HandleReport, Install, NewClaim;
    if input.i < |s.members| {
      var c := s.members[input.i].conn;
      assert Noted(c);
      match input
      case Frame(_, _, report, delivers) =>
        if s.proxy.phase.Collecting? {
          ReportIsNoted(c, s.proxy.phase.round, report, delivers);
        }
      case Rejoin(_, _, state, id, delivers) => InstallIsNoted(c, state, id, delivers);
      case _ =>
    }
  }

  lemma {:induction false} WaitIsNoted(s: System, watched: set<nat>, inputs: seq<Input>)
    requires AllNoted(s)
    ensures AllNoted(PlayWait(s, watched, inputs))
    decreases |inputs|
  {
    hide AllNoted, PlayInput;
    if inputs != [] {
      InputIsNoted(s, watched, inputs[0]);
      WaitIsNoted(PlayInput(s, watched, inputs[0]), Unwatch(watched, inputs[0]), inputs[1..]);
    }
  }

  lemma OwnIsNoted(s: System, inputs: seq<Input>)
    requires AllNoted(s)
    ensures AllNoted(PlayOwn(s, inputs))
  {
    hide PlayOwn, Noted;
    PlayOwnShape(s, inputs);
  }

  lemma ResetIsNoted(s: System, t: System)
    requires |t.members| == |s.members|
    requires forall i :: 0 <= i < |s.members| ==> t.members[i].conn == ResetRound(s.members[i].conn)
    ensures AllNoted(t)
  {
  }

  lemma SectionOpensNoted(s: System, section: uint32)
    ensures AllNoted(Stepped(s, StartSection(section)))
  {
    hide NewClaim;
    ResetIsNoted(s, Stepped(s, StartSection(section)));
  }

  lemma RoundOpensNoted(u: System, script: Script, maxRounds: uint32)
    requires u.proxy.phase.Deciding? && !AllSettledNow(u) && u.proxy.phase.round.round < maxRounds
    ensures AllNoted(NextOpening(u, script, maxRounds))
  {
    hide PlayOwn, AllSettledNow, NewClaim;
    var inputs := script.meanwhile(u.proxy.phase.round.round + 1);
    PlayOwnShape(u, inputs);
    PlayOwnSettles(u, inputs);
    ResetIsNoted(PlayOwn(u, inputs), NextOpening(u, script, maxRounds));
  }

  // ----- The end of one collection

  lemma OwnOwes(s: System, inputs: seq<Input>, finalSection: bool)
    ensures StillOwing(PlayOwn(s, inputs), finalSection) <==> StillOwing(s, finalSection)
  {
    hide PlayOwn, Owes;
    PlayOwnShape(s, inputs);
    if StillOwing(s, finalSection) {
      var i :| 0 <= i < |s.members| && Owes(s.members[i].conn, finalSection);
      assert Owes(PlayOwn(s, inputs).members[i].conn, finalSection);
    }
  }

  /** Something is owed at the end of a collection exactly when its waits ran out. */
  lemma {:induction false} OwedIffRanOut(s: System, waits: seq<seq<Input>>, finalSection: bool)
    requires AllNoted(s)
    ensures StillOwing(Collected(s, waits, finalSection), finalSection) <==> RanOut(s, waits, finalSection)
    ensures AllNoted(Collected(s, waits, finalSection))
    decreases |waits|
  {
    hide StillOwing, AllAnswered, PlayWait, PlayOwn, WatchList, AllNoted;
    AnsweredIffNothingOwed(s, finalSection);
    if waits != [] {
      OwnOwes(s, Joined(waits), finalSection);
      OwnIsNoted(s, Joined(waits));
      WaitIsNoted(s, WatchList(s), waits[0]);
      OwedIffRanOut(PlayWait(s, WatchList(s), waits[0]), waits[1..], finalSection);
    }
  }

  /** A collection of the last section that ends before its waits run out leaves no active receiver's
      report at Complete. */
  lemma NobodyIsLeftComplete(s: System, waits: seq<seq<Input>>, i: nat)
    requires AllNoted(s) && !RanOut(s, waits, true) && i < |Collected(s, waits, true).members|
    ensures var c := Collected(s, waits, true).members[i].conn;
      c.completed || c.isolated || c.abandoned
      || (c.statusReceived && (c.status.Some? ==> c.status.value.code != Complete))
  {
    hide Collected, RanOut;
    OwedIffRanOut(s, waits, true);
    assert !Owes(Collected(s, waits, true).members[i].conn, true);
    assert Noted(Collected(s, waits, true).members[i].conn);
  }

  // ----- The end of the last section

  ghost predicate Finished(s: System) {
    forall i :: 0 <= i < |s.members| ==>
      s.members[i].conn.completed || s.members[i].conn.isolated || s.members[i].conn.abandoned
  }

  /** With every receiver settled, isolation leaves someone unfinished exactly when something was owed. */
  lemma FinishedIffNothingOwed(u: System, backfillAfter: uint32)
    requires u.proxy.phase.Collecting? && AllNoted(u)
    requires var t := Stepped(u, EndCollection(backfillAfter)); !AnyFailed(t) && AllSettledNow(t)
    ensures Finished(Stepped(u, EndCollection(backfillAfter))) <==> !StillOwing(u, true)
  {
    hide Stepped, First, BlocksOf, MissingIds, AnyFailed;
    var t := Stepped(u, EndCollection(backfillAfter));
    EndIs(u, backfillAfter);
    forall i | 0 <= i < |u.members|
      ensures (t.members[i].conn.completed || t.members[i].conn.isolated || t.members[i].conn.abandoned)
         <==> !Owes(u.members[i].conn, true)
    {
      assert Noted(u.members[i].conn) && Settled(t.members[i].conn);
    }
  }

  /** The collection that decided the section was ended by its deadline. */
  ghost predicate CutShort(s: System, script: Script, maxRounds: uint32, backfillAfter: uint32)
    requires s.proxy.phase.Collecting?
    decreases maxRounds - s.proxy.phase.round.round
  {
    var u := CollectionEnd(s, script, backfillAfter);
    CollectionEnds(s, script, backfillAfter);
    if AnyFailed(u) || AllSettledNow(u) || s.proxy.phase.round.round >= maxRounds
    then RanOut(s, script.waits(s.proxy.phase.round.round), true)
    else
      OpeningOpens(u, script, maxRounds);
      CutShort(NextOpening(u, script, maxRounds), script, maxRounds, backfillAfter)
  }

  lemma DecidedIff(s: System, script: Script, maxRounds: uint32, backfillAfter: uint32)
    requires s.proxy.phase.Collecting? && AllNoted(s)
    requires var g := s.proxy.phase.round.meta.geometry;
      g.sectionBlocks != 0 && s.proxy.phase.round.section + 1 == Count(g)
    requires var u := CollectionEnd(s, script, backfillAfter); !AnyFailed(u) && AllSettledNow(u)
    ensures Finished(CollectionEnd(s, script, backfillAfter))
       <==> !RanOut(s, script.waits(s.proxy.phase.round.round), true)
  {
    hide Collected, RanOut, Stepped, AnyFailed, AllSettledNow, Finished, StillOwing, AllNoted;
    var waits := script.waits(s.proxy.phase.round.round);
    CollectedShape(s, waits, true);
    OwedIffRanOut(s, waits, true);
    FinishedIffNothingOwed(Collected(s, waits, true), backfillAfter);
  }

  lemma DecidingKeeps(u: System, maxRounds: uint32)
    requires u.proxy.phase.Deciding? && AllSettledNow(u)
    ensures Stepped(u, Decide(maxRounds)).members == u.members
  {
    hide AllSettledNow;
  }

  /** After a Success of the last section every receiver is completed, isolated or abandoned if and only
      if the deciding collection was not ended by its deadline. */
  lemma {:induction false} LastSectionFinishes(s: System, script: Script, maxRounds: uint32, backfillAfter: uint32)
    requires s.proxy.phase.Collecting? && AllNoted(s)
    requires var g := s.proxy.phase.round.meta.geometry;
      g.sectionBlocks != 0 && s.proxy.phase.round.section + 1 == Count(g)
    ensures var (result, t) := Verdict(s, script, maxRounds, backfillAfter);
      result == Dispatch.Success ==> (Finished(t) <==> !CutShort(s, script, maxRounds, backfillAfter))
    decreases maxRounds - s.proxy.phase.round.round
  {
    hide CollectionEnd, NextOpening, Stepped, AnyFailed, AllSettledNow, AllNoted, Count, RanOut;
    var u := CollectionEnd(s, script, backfillAfter);
    CollectionEnds(s, script, backfillAfter);
    if !AnyFailed(u) {
      if AllSettledNow(u) {
        DecidedIff(s, script, maxRounds, backfillAfter);
        DecidingKeeps(u, maxRounds);
      } else if s.proxy.phase.round.round < maxRounds {
        OpeningOpens(u, script, maxRounds);
        RoundOpensNoted(u, script, maxRounds);
        LastSectionFinishes(NextOpening(u, script, maxRounds), script, maxRounds, backfillAfter);
      }
    }
  }

  /** `CutShort` of a section from the call on. */
  ghost predicate EndedByDeadline(s: System, section: uint32, script: Script, maxRounds: uint32, backfillAfter: uint32)
    requires s.proxy.current.Some?
  {
    PlayOwnShape(s, script.meanwhile(0));
    CutShort(Stepped(PlayOwn(s, script.meanwhile(0)), StartSection(section)), script, maxRounds, backfillAfter)
  }

  /** The same for a call of `distribute_section`, whatever the records held before. */
  lemma LastCallFinishes(s: System, section: uint32, script: Script, maxRounds: uint32, backfillAfter: uint32)
    requires s.proxy.current.Some?
    requires var g := s.proxy.current.value.geometry; g.sectionBlocks != 0 && section + 1 == Count(g)
    ensures var (result, t) := Play(s, section, script, maxRounds, backfillAfter);
      result == Dispatch.Success ==>
        (Finished(t) <==> !EndedByDeadline(s, section, script, maxRounds, backfillAfter))
  {
    hide PlayOwn, MemberAfter, Verdict, CutShort, Count;
    PlayOwnShape(s, script.meanwhile(0));
    SectionOpensNoted(PlayOwn(s, script.meanwhile(0)), section);
    LastSectionFinishes(Stepped(PlayOwn(s, script.meanwhile(0)), StartSection(section)), script, maxRounds,
                        backfillAfter);
  }
}
