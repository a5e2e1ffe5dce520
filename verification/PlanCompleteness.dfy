/** When a repair round must use a peer. The laws of RepairGuarantees.dfy say what peers are asked for;
    these say that a block is left to the proxy only for a reason: every receiver that reported to hold
    it already serves two others, too few blocks came together, or a task could not be delivered. */
module PlanCompleteness {
  import opened Common
  import opened Reports
  import opened Sections
  import opened Messages
  import opened Connections
  import opened RepairPlan
  import opened RepairRound
  import RepairGuarantees

  /** Source `i` has its full number of targets, and `t` is not one of them. */
  ghost predicate Spent(p: Plan, n: nat, i: nat, t: nat)
    requires Shaped(p, n) && i < n && t < n
  {
    p.load[i] >= MAX_TARGETS_PER_SOURCE && p.peer[i][t] == []
  }

  lemma PlaceKeepsSpent(conns: seq<Conn>, s: Section, p: Plan, target: nat, block: nat, i: nat, t: nat)
    requires Shaped(p, |conns|) && target < |conns| && i < |conns| && t < |conns| && Spent(p, |conns|, i, t)
    ensures Spent(PlaceSingle(conns, s, p, target, block), |conns|, i, t)
  {
    hide Holds;
  }

  lemma BlockKeepsSpent(conns: seq<Conn>, s: Section, p: Plan, block: nat, i: nat, t: nat)
    requires Shaped(p, |conns|) && i < |conns| && t < |conns| && Spent(p, |conns|, i, t)
    ensures Spent(PlanBlock(conns, s, p, block), |conns|, i, t)
  {
    hide PlaceSingle, Holds, Lacks;
    var targets := AllTargets(conns, block);
    if |targets| == 1 {
      assert targets[0] in targets;
      PlaceKeepsSpent(conns, s, p, targets[0], block, i, t);
    }
  }

  /** `id` is left to the fallback of `t` for a reason. */
  ghost predicate Justified(conns: seq<Conn>, s: Section, p: Plan, t: nat, id: nat)
    requires Shaped(p, |conns|) && t < |conns|
  {
    id >= s.first && AllTargets(conns, id - s.first) == [t]
    && forall i :: 0 <= i < |conns| && i != t && Holds(conns[i], s, id - s.first) ==> Spent(p, |conns|, i, t)
  }

  ghost predicate AllJustified(conns: seq<Conn>, s: Section, p: Plan)
    requires Shaped(p, |conns|)
  {
    forall t, id :: 0 <= t < |conns| && id in p.fallback[t] ==> Justified(conns, s, p, t, id)
  }

  lemma JustifiedStays(conns: seq<Conn>, s: Section, p: Plan, block: nat, t: nat, id: nat)
    requires Shaped(p, |conns|) && t < |conns| && Justified(conns, s, p, t, id)
    ensures Justified(conns, s, PlanBlock(conns, s, p, block), t, id)
  {
    hide Holds, AllTargets, PlanBlock, Spent;
    forall i | 0 <= i < |conns| && i != t && Holds(conns[i], s, id - s.first)
      ensures Spent(PlanBlock(conns, s, p, block), |conns|, i, t)
    {
      BlockKeepsSpent(conns, s, p, block, i, t);
    }
  }

  /** A new entry of the fallback: both searches for a source have failed. */
  lemma NewIsJustified(conns: seq<Conn>, s: Section, p: Plan, target: nat, block: nat, t: nat, id: nat)
    requires Shaped(p, |conns|) && target < |conns| && t < |conns| && AllTargets(conns, block) == [target]
    requires var q := PlaceSingle(conns, s, p, target, block);
             id in q.fallback[t] && id !in p.fallback[t]
    ensures Justified(conns, s, PlaceSingle(conns, s, p, target, block), t, id)
  {
    hide Holds, AllTargets;
    assert FirstReuse(conns, s, p, target, block, 0) == |conns| && FirstNew(conns, s, p, target, block, 0) == |conns|;
    assert t == target && id == s.first + block;
  }

  lemma BlockJustified(conns: seq<Conn>, s: Section, p: Plan, block: nat)
    requires Shaped(p, |conns|) && AllJustified(conns, s, p)
    ensures AllJustified(conns, s, PlanBlock(conns, s, p, block))
  {
    hide PlaceSingle, Holds, Lacks, Justified;
    var q, targets := PlanBlock(conns, s, p, block), AllTargets(conns, block);
    forall t, id | 0 <= t < |conns| && id in q.fallback[t] ensures Justified(conns, s, q, t, id) {
      if id in p.fallback[t] {
        JustifiedStays(conns, s, p, block, t, id);
      } else {
        assert |targets| == 1;
        assert targets == [targets[0]] && targets[0] in targets;
        NewIsJustified(conns, s, p, targets[0], block, t, id);
      }
    }
  }

  lemma {:induction false} PlanJustified(conns: seq<Conn>, s: Section, k: nat)
    ensures AllJustified(conns, s, PlanUpTo(conns, s, k))
    decreases k
  {
    hide PlanBlock, Justified;
    if k > 0 {
      PlanJustified(conns, s, k - 1);
      BlockJustified(conns, s, PlanUpTo(conns, s, k - 1), k - 1);
    }
  }

  lemma {:induction false} TwoAreBusy(row: seq<seq<nat>>, upTo: nat) returns (a: nat, b: nat)
    requires upTo <= |row| && Busy(row, upTo) >= 2
    ensures a < b < upTo && row[a] != [] && row[b] != []
    decreases upTo
  {
    if Busy(row, upTo - 1) >= 2 {
      a, b := TwoAreBusy(row, upTo - 1);
    } else {
      a := OneIsBusy(row, upTo - 1);
      b := upTo - 1;
    }
  }

  lemma {:induction false} OneIsBusy(row: seq<seq<nat>>, upTo: nat) returns (a: nat)
    requires upTo <= |row| && Busy(row, upTo) >= 1
    ensures a < upTo && row[a] != []
    decreases upTo
  {
    if row[upTo - 1] != [] {
      a := upTo - 1;
    } else {
      a := OneIsBusy(row, upTo - 1);
    }
  }

  /** The plan uses a peer whenever it may: a block is left to the fallback of a target only if every
      other receiver that takes part, is connected and reported in the previous round to hold the
      block, already serves two others and does not serve this one. */
  lemma FallbackIsLastResort(conns: seq<Conn>, s: Section, k: nat, t: nat, id: nat, i: nat)
    requires t < |conns| && i < |conns| && i != t && s.first <= id && id in PlanUpTo(conns, s, k).fallback[t]
    requires var c := conns[i]; !c.completed && !c.isolated && !c.abandoned && c.connected && c.statusReceived
    requires conns[i].status.Some?
    requires var report := conns[i].status.value;
      && report.transferId == s.transferId && report.sectionId == s.sectionId
      && (report.roundId + 1) % 0x1_0000_0000 == s.round
      && (report.code == Complete || (report.code == Missing && !Marked(report.bitmap, id - s.first)))
    ensures PlanUpTo(conns, s, k).peer[i][t] == []
    ensures exists a, b :: 0 <= a < b < |conns| && PlanUpTo(conns, s, k).peer[i][a] != []
                           && PlanUpTo(conns, s, k).peer[i][b] != []
  {
    hide PlanUpTo, AllTargets, Marked;
    PlanJustified(conns, s, k);
    PlanCapped(conns, s, k);
    assert Justified(conns, s, PlanUpTo(conns, s, k), t, id);
    var a, b := TwoAreBusy(PlanUpTo(conns, s, k).peer[i], |conns|);
  }

  // ----- What a round leaves to the proxy

  lemma {:induction false} InSomeRow(peer: seq<seq<seq<nat>>>, t: nat, upTo: nat, id: nat) returns (j: nat)
    requires upTo <= |peer| && (forall s :: 0 <= s < |peer| ==> t < |peer[s]|) && id in PeerTotal(peer, t, upTo)
    ensures j < upTo && id in peer[j][t]
    decreases upTo
  {
    if id in peer[upTo - 1][t] {
      j := upTo - 1;
    } else {
      j := InSomeRow(peer, t, upTo - 1, id);
    }
  }

  lemma {:induction false} IssuedInTask(tasks: seq<SentTask>, source: nat, target: nat, id: nat) returns (k: nat)
    requires id in IssuedTo(tasks, source, target)
    ensures k < |tasks| && tasks[k].source == source && tasks[k].target == target && id in tasks[k].blocks
    decreases |tasks|
  {
    var last := |tasks| - 1;
    if tasks[last].source == source && tasks[last].target == target && id in tasks[last].blocks {
      k := last;
    } else {
      k := IssuedInTask(tasks[..last], source, target, id);
    }
  }

  lemma {:induction false} TaskDelivers(tasks: seq<SentTask>, k: nat, id: nat)
    requires k < |tasks| && tasks[k].delivered && id in tasks[k].blocks
    ensures id in DeliveredTo(tasks, tasks[k].target)
    decreases |tasks|
  {
    if k < |tasks| - 1 {
      TaskDelivers(tasks[..|tasks| - 1], k, id);
    }
  }

  /** A block of the plan that is unicast although a peer was found for it: its task was not delivered,
      or the entry of the plan has less than 16 blocks. */
  lemma PlannedButUnicast(conns: seq<Conn>, s: Section, g: Geometry, log: RoundLog, t: nat, id: nat)
    returns (j: nat)
    requires PeerRound(conns, s, g, log) && t < |conns|
    requires id in UnicastTo(log.unicast, t) && id !in PlanUpTo(conns, s, s.n).fallback[t]
    ensures j < |conns| && id in PlanUpTo(conns, s, s.n).peer[j][t]
    ensures |PlanUpTo(conns, s, s.n).peer[j][t]| < 16
         || exists k :: 0 <= k < |log.tasks| && log.tasks[k].source == j && log.tasks[k].target == t
                        && id in log.tasks[k].blocks && !log.tasks[k].delivered
  {
    hide PlanUpTo, PayloadBytes, PeerBlocks, DeliveredTo, PeerTotal, UnicastTo, AllTargets;
    var p := PlanUpTo(conns, s, s.n);
    RepairGuarantees.RoundExact(conns, s, g, log, t, id);
    var total := multiset(UnicastTo(log.unicast, t)) + DeliveredTo(log.tasks, t);
    assert total[id] == PlannedFor(p, t, |conns|)[id];
    j := InSomeRow(p.peer, t, |conns|, id);
    if |p.peer[j][t]| >= 16 {
      var k := IssuedInTask(log.tasks, j, t, id);
      if log.tasks[k].delivered {
        TaskDelivers(log.tasks, k, id);
        assert false;
      }
    }
  }

  /** Why the proxy still sends a block itself that receiver `i` reported to hold: `i` already serves
      two others and not this target, or the block's peer was left fewer than 16 blocks for the target,
      or the task that carried it was not delivered. */
  lemma UnicastHasReason(conns: seq<Conn>, s: Section, g: Geometry, log: RoundLog, t: nat, id: nat, i: nat)
    requires PeerRound(conns, s, g, log) && t < |conns| && id in UnicastTo(log.unicast, t)
    requires i < |conns| && i != t && s.first <= id
    requires var c := conns[i]; !c.completed && !c.isolated && !c.abandoned && c.connected && c.statusReceived
    requires conns[i].status.Some?
    requires var report := conns[i].status.value;
      && report.transferId == s.transferId && report.sectionId == s.sectionId
      && (report.roundId + 1) % 0x1_0000_0000 == s.round
      && (report.code == Complete || (report.code == Missing && !Marked(report.bitmap, id - s.first)))
    ensures var peer := PlanUpTo(conns, s, s.n).peer;
      || (peer[i][t] == [] && exists a, b :: 0 <= a < b < |conns| && peer[i][a] != [] && peer[i][b] != [])
      || (exists j :: 0 <= j < |conns| && id in peer[j][t] && |peer[j][t]| < 16)
      || (exists k :: 0 <= k < |log.tasks| && log.tasks[k].target == t && id in log.tasks[k].blocks
                      && !log.tasks[k].delivered)
  {
    hide PlanUpTo, PeerRound, UnicastTo, Marked;
    if id in PlanUpTo(conns, s, s.n).fallback[t] {
      FallbackIsLastResort(conns, s, s.n, t, id, i);
    } else {
      var j := PlannedButUnicast(conns, s, g, log, t, id);
    }
  }

  /** The other way: whenever a source is given any task for a target, at least 16 blocks were issued to
      it for that target. */
  lemma TasksAreWorthwhile(conns: seq<Conn>, s: Section, g: Geometry, log: RoundLog, i: nat)
    requires PeerRound(conns, s, g, log) && i < |log.tasks|
    ensures |IssuedTo(log.tasks, log.tasks[i].source, log.tasks[i].target)| >= 16
    ensures |log.tasks[i].blocks| <= 64
  {
    hide PlanUpTo, PayloadBytes, PeerBlocks, DeliveredTo, PlannedFor, IssuedTo;
    var task := log.tasks[i];
    RepairGuarantees.IssuedContains(log.tasks, i, task.blocks[0]);
  }
}
