/** What a repair round guarantees, whatever the network does to the control frames. */
module RepairGuarantees {
  import opened Common
  import opened Reports
  import opened Sections
  import opened Messages
  import opened Connections
  import opened RepairPlan
  import opened RepairRound

  // ----- Every reported block is served exactly once

  lemma {:induction false} SoleCount(conns: seq<Conn>, s: Section, t: nat, k: nat, id: nat)
    ensures multiset(SoleMissing(conns, s, t, k))[id]
         == if s.first <= id < s.first + k && AllTargets(conns, id - s.first) == [t] then 1 else 0
    decreases k
  {
    hide AllTargets, SoleMissing;
    if k == 0 {
      NothingMissing(conns, s, t);
    } else {
      SoleStep(conns, s, t, k);
      SoleCount(conns, s, t, k - 1, id);
    }
  }

  lemma {:induction false} SharedCount(conns: seq<Conn>, s: Section, k: nat, id: nat)
    ensures multiset(SharedMissing(conns, s, k))[id]
         == if s.first <= id < s.first + k && |AllTargets(conns, id - s.first)| >= MULTICAST_THRESHOLD then 1 else 0
    decreases k
  {
    hide AllTargets, SharedMissing;
    if k == 0 {
      NothingMissing(conns, s, 0);
    } else {
      SharedStep(conns, s, k);
      SharedCount(conns, s, k - 1, id);
    }
  }

  lemma NothingMissing(conns: seq<Conn>, s: Section, t: nat)
    ensures SoleMissing(conns, s, t, 0) == [] && SharedMissing(conns, s, 0) == []
  {
  }

  /** How often a round serves block `id` to receiver `t`. */
  function Served(log: RoundLog, t: nat, id: nat): nat {
    multiset(log.multicast)[id] + DeliveredTo(log.tasks, t)[id] + multiset(UnicastTo(log.unicast, t))[id]
  }

  lemma SingleTarget(conns: seq<Conn>, t: nat, block: nat)
    requires t < |conns|
    ensures t in AllTargets(conns, block) <==> Lacks(conns[t], block)
    ensures AllTargets(conns, block) == [t] <==> |AllTargets(conns, block)| == 1 && Lacks(conns[t], block)
  {
  }

  /** A block is addressed to one receiver (by peer task or unicast) exactly when only that receiver
      lacks it, and multicast exactly when two or more lack it. */
  lemma RoundExact(conns: seq<Conn>, s: Section, g: Geometry, log: RoundLog, t: nat, id: nat)
    requires PeerRound(conns, s, g, log) && t < |conns|
    ensures multiset(log.multicast)[id]
         == if s.first <= id < s.first + s.n && |AllTargets(conns, id - s.first)| >= MULTICAST_THRESHOLD then 1 else 0
    ensures DeliveredTo(log.tasks, t)[id] + multiset(UnicastTo(log.unicast, t))[id]
         == if s.first <= id < s.first + s.n && AllTargets(conns, id - s.first) == [t] then 1 else 0
  {
    hide AllTargets, Issued, PayloadBytes, PeerBlocks;
    PlanConserves(conns, s, t, s.n);
    SoleCount(conns, s, t, s.n, id);
    MulticastExact(conns, s, s.n);
    SharedCount(conns, s, s.n, id);
    assert (multiset(UnicastTo(log.unicast, t)) + DeliveredTo(log.tasks, t))[id]
        == multiset(SoleMissing(conns, s, t, s.n))[id];
  }

  /** Exactly once: whatever task sends fail, a receiver that reported a block missing is served that
      block once, by one multicast, one delivered peer task or one unicast; a receiver that did not
      report it is never addressed. */
  lemma ServedExactlyOnce(conns: seq<Conn>, s: Section, g: Geometry, log: RoundLog, t: nat, block: nat)
    requires PeerRound(conns, s, g, log) && t < |conns| && block < s.n
    ensures Lacks(conns[t], block) ==> Served(log, t, s.first + block) == 1
    ensures !Lacks(conns[t], block) ==>
              DeliveredTo(log.tasks, t)[s.first + block] == multiset(UnicastTo(log.unicast, t))[s.first + block] == 0
  {
    hide AllTargets, PeerRound, Lacks, DeliveredTo, UnicastTo;
    RoundExact(conns, s, g, log, t, s.first + block);
    SingleTarget(conns, t, block);
    NonEmpty(conns, t, block);
  }

  lemma NonEmpty(conns: seq<Conn>, t: nat, block: nat)
    ensures t in AllTargets(conns, block) ==> |AllTargets(conns, block)| >= 1
  {
  }

  /** The baseline serves the same pairs, by multicast or unicast. */
  lemma BaselineServesOnce(conns: seq<Conn>, s: Section, g: Geometry, log: RoundLog, t: nat, block: nat)
    requires BaselineRound(conns, s, g, log) && t < |conns| && block < s.n
    ensures Lacks(conns[t], block) ==> Served(log, t, s.first + block) == 1
    ensures !Lacks(conns[t], block) ==> multiset(UnicastTo(log.unicast, t))[s.first + block] == 0
  {
    hide AllTargets, Lacks, UnicastTo, PayloadBytes, SoleMissing, SharedMissing;
    SoleCount(conns, s, t, s.n, s.first + block);
    SharedCount(conns, s, s.n, s.first + block);
    SingleTarget(conns, t, block);
    NonEmpty(conns, t, block);
  }

  // ----- Peer tasks

  lemma {:induction false} IssuedContains(tasks: seq<SentTask>, i: nat, id: nat)
    requires i < |tasks| && id in tasks[i].blocks
    ensures id in IssuedTo(tasks, tasks[i].source, tasks[i].target)
    decreases |tasks|
  {
    if i < |tasks| - 1 {
      IssuedContains(tasks[..|tasks| - 1], i, id);
    }
  }

  lemma TaskIsPlanned(conns: seq<Conn>, s: Section, g: Geometry, log: RoundLog, i: nat, id: nat)
    requires PeerRound(conns, s, g, log) && i < |log.tasks| && id in log.tasks[i].blocks
    ensures var task := log.tasks[i];
            task.source < |conns| && task.target < |conns|
            && id in PlanUpTo(conns, s, s.n).peer[task.source][task.target]
            && |PlanUpTo(conns, s, s.n).peer[task.source][task.target]| >= MIN_PEER_BLOCKS
  {
    hide PlanUpTo, PayloadBytes, PeerBlocks, DeliveredTo, PlannedFor;
    IssuedContains(log.tasks, i, id);
  }

  /** Every task holds 1 to 64 blocks, names two different receivers, and asks its source only for
      blocks the source's last report vouches for and its target alone lacks. */
  lemma TasksServable(conns: seq<Conn>, s: Section, g: Geometry, log: RoundLog, i: nat)
    requires PeerRound(conns, s, g, log) && i < |log.tasks|
    ensures var task := log.tasks[i];
      && task.source < |conns| && task.target < |conns|
      && 1 <= |task.blocks| <= MAX_PEER_BLOCKS && task.source != task.target
      && forall id :: id in task.blocks ==>
           s.first <= id < s.first + s.n
           && Holds(conns[task.source], s, id - s.first) && AllTargets(conns, id - s.first) == [task.target]
  {
    hide PlanUpTo, PayloadBytes, PeerBlocks, DeliveredTo, PlannedFor, Holds, AllTargets;
    var task := log.tasks[i];
    PlanServable(conns, s, s.n);
    var list := PlanUpTo(conns, s, s.n).peer[task.source][task.target];
    assert ListServable(conns, s, list, task.source, task.target, s.n);
    forall id | id in task.blocks ensures id in list {
      TaskIsPlanned(conns, s, g, log, i, id);
    }
    assert task.blocks[0] in task.blocks;
  }

  lemma {:induction false} BusyCounts(row: seq<seq<nat>>, a: nat, b: nat, c: nat, upTo: nat)
    requires a != b && b != c && a != c && upTo <= |row| && a < |row| && b < |row| && c < |row|
    requires row[a] != [] && row[b] != [] && row[c] != []
    ensures Busy(row, upTo) >= (if a < upTo then 1 else 0) + (if b < upTo then 1 else 0) + (if c < upTo then 1 else 0)
    decreases upTo
  {
    if upTo > 0 {
      BusyCounts(row, a, b, c, upTo - 1);
    }
  }

  /** Among any three tasks of one source, two share their target: a source serves at most two. */
  lemma SourceCap(conns: seq<Conn>, s: Section, g: Geometry, log: RoundLog, i: nat, j: nat, k: nat)
    requires PeerRound(conns, s, g, log) && i < |log.tasks| && j < |log.tasks| && k < |log.tasks|
    requires log.tasks[i].source == log.tasks[j].source == log.tasks[k].source
    ensures log.tasks[i].target == log.tasks[j].target || log.tasks[j].target == log.tasks[k].target
         || log.tasks[i].target == log.tasks[k].target
  {
    hide PlanUpTo, PayloadBytes, PeerBlocks, DeliveredTo, PlannedFor, Issued;
    var source := log.tasks[i].source;
    var a, b, c := log.tasks[i].target, log.tasks[j].target, log.tasks[k].target;
    TaskIsPlanned(conns, s, g, log, i, log.tasks[i].blocks[0]);
    TaskIsPlanned(conns, s, g, log, j, log.tasks[j].blocks[0]);
    TaskIsPlanned(conns, s, g, log, k, log.tasks[k].blocks[0]);
    PlanCapped(conns, s, s.n);
    if a != b && b != c && a != c {
      BusyCounts(PlanUpTo(conns, s, s.n).peer[source], a, b, c, |conns|);
    }
  }

  // ----- Peer mode against the baseline

  function Total(parts: seq<multiset<nat>>): multiset<nat>
    decreases |parts|
  {
    if parts == [] then multiset{} else Total(parts[..|parts| - 1]) + parts[|parts| - 1]
  }

  lemma {:induction false} TotalAdds(a: seq<multiset<nat>>, b: seq<multiset<nat>>, c: seq<multiset<nat>>)
    requires |a| == |b| == |c| && forall i :: 0 <= i < |a| ==> a[i] + b[i] == c[i]
    ensures Total(a) + Total(b) == Total(c)
    decreases |a|
  {
    if a != [] {
      var last := |a| - 1;
      TotalAdds(a[..last], b[..last], c[..last]);
      Interleave(Total(a[..last]), a[last], Total(b[..last]), b[last]);
    }
  }

  lemma Interleave(a: multiset<nat>, x: multiset<nat>, b: multiset<nat>, y: multiset<nat>)
    ensures (a + x) + (b + y) == (a + b) + (x + y)
  {
  }

  lemma {:induction false} TotalOfOne(a: seq<multiset<nat>>, t: nat, m: multiset<nat>)
    requires t < |a| && forall i :: 0 <= i < |a| ==> a[i] == if i == t then m else multiset{}
    ensures Total(a) == m
    decreases |a|
  {
    var last := |a| - 1;
    if t == last {
      TotalOfNone(a[..last]);
    } else {
      TotalOfOne(a[..last], t, m);
    }
  }

  lemma {:induction false} TotalOfNone(a: seq<multiset<nat>>)
    requires forall i :: 0 <= i < |a| ==> a[i] == multiset{}
    ensures Total(a) == multiset{}
    decreases |a|
  {
    if a != [] {
      TotalOfNone(a[..|a| - 1]);
    }
  }

  function UnicastParts(unicast: seq<Unicast>, n: nat): seq<multiset<nat>> {
    seq(n, t requires 0 <= t < n => multiset(UnicastTo(unicast, t)))
  }

  function DeliveredParts(tasks: seq<SentTask>, n: nat): seq<multiset<nat>> {
    seq(n, t requires 0 <= t < n => DeliveredTo(tasks, t))
  }

  /** Blocks of all delivered tasks. */
  function DeliveredBlocks(tasks: seq<SentTask>): seq<nat>
    decreases |tasks|
  {
    if tasks == [] then []
    else
      var last := tasks[|tasks| - 1];
      DeliveredBlocks(tasks[..|tasks| - 1]) + (if last.delivered then last.blocks else [])
  }

  /** The unicasts are the disjoint union of what each target gets. */
  lemma {:induction false} UnicastTotal(unicast: seq<Unicast>, n: nat)
    requires forall i :: 0 <= i < |unicast| ==> unicast[i].target < n
    ensures multiset(BlocksSent(unicast)) == Total(UnicastParts(unicast, n))
    decreases |unicast|
  {
    if unicast == [] {
      TotalOfNone(UnicastParts(unicast, n));
    } else {
      var init, x := unicast[..|unicast| - 1], unicast[|unicast| - 1];
      assert unicast == init + [x];
      UnicastTotal(init, n);
      var one := seq(n, t requires 0 <= t < n => if t == x.target then multiset{x.block} else multiset{});
      TotalOfOne(one, x.target, multiset{x.block});
      forall t | 0 <= t < n ensures UnicastParts(init, n)[t] + one[t] == UnicastParts(unicast, n)[t] {
        UnicastSnoc(init, x, t);
      }
      TotalAdds(UnicastParts(init, n), one, UnicastParts(unicast, n));
      UnicastSnoc(init, x, 0);
    }
  }

  lemma {:induction false} DeliveredTotal(tasks: seq<SentTask>, n: nat)
    requires forall i :: 0 <= i < |tasks| ==> tasks[i].target < n
    ensures multiset(DeliveredBlocks(tasks)) == Total(DeliveredParts(tasks, n))
    ensures |DeliveredBlocks(tasks)| == PeerBlocks(tasks)
    decreases |tasks|
  {
    if tasks == [] {
      TotalOfNone(DeliveredParts(tasks, n));
    } else {
      var init, x := tasks[..|tasks| - 1], tasks[|tasks| - 1];
      assert tasks == init + [x];
      DeliveredTotal(init, n);
      var m := if x.delivered then multiset(x.blocks) else multiset{};
      var one := seq(n, t requires 0 <= t < n => if t == x.target then m else multiset{});
      TotalOfOne(one, x.target, m);
      forall t | 0 <= t < n ensures DeliveredParts(init, n)[t] + one[t] == DeliveredParts(tasks, n)[t] {
        DeliveredSnoc(init, x, t);
      }
      TotalAdds(DeliveredParts(init, n), one, DeliveredParts(tasks, n));
    }
  }

  // Byte counts depend only on which blocks are sent.

  lemma {:induction false} PayloadBytesAppend(g: Geometry, a: seq<nat>, b: seq<nat>)
    ensures PayloadBytes(g, a + b) == PayloadBytes(g, a) + PayloadBytes(g, b)
    decreases |b|
  {
    hide BlockSizeOf;
    if b == [] {
      assert a + b == a;
    } else {
      SplitLast(a, b);
      PayloadBytesAppend(g, a, b[..|b| - 1]);
      PayloadBytesSnoc(g, a + b[..|b| - 1], b[|b| - 1]);
    }
  }

  lemma CancelOne(a: multiset<nat>, b: multiset<nat>, x: nat)
    requires a + multiset{x} == b + multiset{x}
    ensures a == b
  {
    forall y ensures a[y] == b[y] {
      assert (a + multiset{x})[y] == (b + multiset{x})[y];
    }
  }

  lemma {:induction false} PayloadBytesPermuted(g: Geometry, a: seq<nat>, b: seq<nat>)
    requires multiset(a) == multiset(b)
    ensures PayloadBytes(g, a) == PayloadBytes(g, b)
    decreases |a|
  {
    hide BlockSizeOf;
    if a == [] {
      assert |multiset(b)| == 0;
    } else {
      var init, x := a[..|a| - 1], a[|a| - 1];
      assert a == init + [x];
      assert x in multiset(b);
      var i :| 0 <= i < |b| && b[i] == x;
      var pre, post := b[..i], b[i + 1..];
      assert b == pre + [x] + post;
      assert multiset(b) == multiset(pre + post) + multiset{x};
      CancelOne(multiset(init), multiset(pre + post), x);
      PayloadBytesPermuted(g, init, pre + post);
      PayloadBytesAppend(g, pre + [x], post);
      PayloadBytesAppend(g, pre, post);
      PayloadBytesSnoc(g, pre, x);
    }
  }

  /** Two views of the receivers that differ at most in which control connections are open. */
  ghost predicate SameReports(a: seq<Conn>, b: seq<Conn>) {
    |a| == |b| && forall i :: 0 <= i < |a| ==> a[i] == b[i].(connected := a[i].connected)
  }

  lemma {:induction false} SameTargets(a: seq<Conn>, b: seq<Conn>, block: nat, upTo: nat)
    requires SameReports(a, b) && upTo <= |a|
    ensures Targets(a, block, upTo) == Targets(b, block, upTo)
    decreases upTo
  {
    if upTo > 0 {
      SameTargets(a, b, block, upTo - 1);
    }
  }

  lemma {:induction false} SameMissing(a: seq<Conn>, b: seq<Conn>, s: Section, t: nat, k: nat)
    requires SameReports(a, b)
    ensures SoleMissing(a, s, t, k) == SoleMissing(b, s, t, k) && SharedMissing(a, s, k) == SharedMissing(b, s, k)
    decreases k
  {
    if k > 0 {
      SameTargets(a, b, k - 1, |a|);
      SameMissing(a, b, s, t, k - 1);
    }
  }

  /** What the baseline unicasts is what the peer round unicasts or delivers through peers. */
  lemma SameUnicastDemand(a: seq<Conn>, b: seq<Conn>, s: Section, g: Geometry, peer: RoundLog, base: RoundLog)
    requires SameReports(a, b) && PeerRound(a, s, g, peer) && BaselineRound(b, s, g, base)
    ensures multiset(BlocksSent(peer.unicast) + DeliveredBlocks(peer.tasks)) == multiset(BlocksSent(base.unicast))
    ensures |DeliveredBlocks(peer.tasks)| == peer.peerBlocks
  {
    var n := |a|;
    UnicastTotal(peer.unicast, n);
    UnicastTotal(base.unicast, n);
    DeliveredTotal(peer.tasks, n);
    forall t | 0 <= t < n
      ensures UnicastParts(peer.unicast, n)[t] + DeliveredParts(peer.tasks, n)[t] == UnicastParts(base.unicast, n)[t]
    {
      PlanConserves(a, s, t, s.n);
      SameMissing(a, b, s, t, s.n);
    }
    TotalAdds(UnicastParts(peer.unicast, n), DeliveredParts(peer.tasks, n), UnicastParts(base.unicast, n));
  }

  /** Peer mode refines the baseline: on the same reports it multicasts the same blocks, its reads
      and its peer blocks add up to the baseline's reads, and it never sends more repair bytes. */
  lemma PeerRefinesBaseline(a: seq<Conn>, b: seq<Conn>, s: Section, g: Geometry, peer: RoundLog, base: RoundLog)
    requires SameReports(a, b) && PeerRound(a, s, g, peer) && BaselineRound(b, s, g, base)
    ensures peer.multicast == base.multicast
    ensures peer.blocksRead + peer.peerBlocks == base.blocksRead
    ensures peer.payloadBytes + PayloadBytes(g, DeliveredBlocks(peer.tasks)) == base.payloadBytes
    ensures peer.payloadBytes <= base.payloadBytes
  {
    MulticastExact(a, s, s.n);
    SameMissing(a, b, s, 0, s.n);
    SameUnicastDemand(a, b, s, g, peer, base);
    var sent, delivered := BlocksSent(peer.unicast), DeliveredBlocks(peer.tasks);
    assert |multiset(sent + delivered)| == |sent| + |delivered|;
    assert |multiset(BlocksSent(base.unicast))| == |base.unicast|;
    PayloadBytesAppend(g, sent, delivered);
    PayloadBytesPermuted(g, sent + delivered, BlocksSent(base.unicast));
  }
}
