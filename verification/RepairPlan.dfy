/** The repair planner of src/sender.cpp: which missing blocks a round multicasts, hands to peers,
    or sends by unicast. This file states the plan as a function of the reports and proves what the
    plan guarantees; RepairRound.dfy runs it. */
module RepairPlan {
  import opened Common
  import opened Reports
  import opened Connections

  const MULTICAST_THRESHOLD := 2
  const MAX_TARGETS_PER_SOURCE := 2

  /** One repair round of one section; `n` is the section's block count, `first` its first block id. */
  datatype Section = Section(transferId: uint64, sectionId: uint32, round: uint32, first: nat, n: nat)

  // ----- Who lacks and who holds a block

  predicate Lacks(c: Conn, block: nat) {
    Active(c) && Reported(c, Missing) && Marked(c.status.value.bitmap, block)
  }

  /** Receivers that reported local block `block` missing, ascending (`aggregate_missing_blocks`). */
  function Targets(conns: seq<Conn>, block: nat, upTo: nat): (targets: seq<nat>)
    requires upTo <= |conns|
    ensures forall t: nat :: t in targets <==> t < upTo && Lacks(conns[t], block)
    decreases upTo
  {
    if upTo == 0 then []
    else Targets(conns, block, upTo - 1) + if Lacks(conns[upTo - 1], block) then [upTo - 1] else []
  }

  function AllTargets(conns: seq<Conn>, block: nat): seq<nat> {
    Targets(conns, block, |conns|)
  }

  /** `source_has_block`: the last report vouches for the block. */
  predicate Holds(c: Conn, s: Section, block: nat) {
    && Active(c) && c.connected && c.statusReceived && c.status.Some?
    && c.status.value.transferId == s.transferId
    && c.status.value.sectionId == s.sectionId
    && (c.status.value.roundId + 1) % U32 == s.round
    && (c.status.value.code == Complete
        || (c.status.value.code == Missing && !Marked(c.status.value.bitmap, block)))
  }

  // ----- The plan

  datatype Plan = Plan(
    peer: seq<seq<seq<nat>>>,    // [source][target]
    fallback: seq<seq<nat>>,     // [target]
    load: seq<nat>,              // [source]
    multicast: seq<nat>)

  ghost predicate Shaped(p: Plan, n: nat) {
    && |p.peer| == |p.fallback| == |p.load| == n
    && forall s :: 0 <= s < n ==> |p.peer[s]| == n
  }

  function EmptyPlan(n: nat): (p: Plan)
    ensures Shaped(p, n)
  {
    Plan(seq(n, _ => seq(n, _ => [])), seq(n, _ => []), seq(n, _ => 0), [])
  }

  /** First receiver from `i` on that already serves `target` and holds the block; |conns| if none. */
  function FirstReuse(conns: seq<Conn>, s: Section, p: Plan, target: nat, block: nat, i: nat): (r: nat)
    requires Shaped(p, |conns|) && target < |conns| && i <= |conns|
    ensures i <= r <= |conns|
    ensures r < |conns| ==> r != target && p.peer[r][target] != [] && Holds(conns[r], s, block)
    ensures forall j :: i <= j < r && j != target && p.peer[j][target] != [] ==> !Holds(conns[j], s, block)
    decreases |conns| - i
  {
    if i == |conns| then i
    else if i != target && p.peer[i][target] != [] && Holds(conns[i], s, block) then i
    else FirstReuse(conns, s, p, target, block, i + 1)
  }

  /** First receiver from `i` on with spare capacity that holds the block; |conns| if none. */
  function FirstNew(conns: seq<Conn>, s: Section, p: Plan, target: nat, block: nat, i: nat): (r: nat)
    requires Shaped(p, |conns|) && target < |conns| && i <= |conns|
    ensures i <= r <= |conns|
    ensures r < |conns| ==> r != target && p.load[r] < MAX_TARGETS_PER_SOURCE && Holds(conns[r], s, block)
    ensures forall j :: i <= j < r && j != target && p.load[j] < MAX_TARGETS_PER_SOURCE
              ==> !Holds(conns[j], s, block)
    decreases |conns| - i
  {
    if i == |conns| then i
    else if i != target && p.load[i] < MAX_TARGETS_PER_SOURCE && Holds(conns[i], s, block) then i
    else FirstNew(conns, s, p, target, block, i + 1)
  }

  function Assign(p: Plan, source: nat, target: nat, id: nat): Plan
    requires source < |p.peer| && target < |p.peer[source]|
  {
    p.(peer := p.peer[source := p.peer[source][target := p.peer[source][target] + [id]]])
  }

  /** A block that only `target` lacks. */
  function PlaceSingle(conns: seq<Conn>, s: Section, p: Plan, target: nat, block: nat): (q: Plan)
    requires Shaped(p, |conns|) && target < |conns|
    ensures Shaped(q, |conns|) && q.multicast == p.multicast
  {
    var reuse := FirstReuse(conns, s, p, target, block, 0);
    if reuse < |conns| then Assign(p, reuse, target, s.first + block)
    else
      var idle := FirstNew(conns, s, p, target, block, 0);
      if idle < |conns| then
        Assign(p.(load := p.load[idle := p.load[idle] + 1]), idle, target, s.first + block)
      else p.(fallback := p.fallback[target := p.fallback[target] + [s.first + block]])
  }

  function PlanBlock(conns: seq<Conn>, s: Section, p: Plan, block: nat): (q: Plan)
    requires Shaped(p, |conns|)
    ensures Shaped(q, |conns|)
  {
    var targets := AllTargets(conns, block);
    if targets == [] then p
    else if |targets| >= MULTICAST_THRESHOLD then p.(multicast := p.multicast + [s.first + block])
    else
      assert targets[0] in targets;
      PlaceSingle(conns, s, p, targets[0], block)
  }

  /** The plan after the first `k` blocks of the section. */
  function PlanUpTo(conns: seq<Conn>, s: Section, k: nat): (p: Plan)
    ensures Shaped(p, |conns|)
    decreases k
  {
    if k == 0 then EmptyPlan(|conns|) else PlanBlock(conns, s, PlanUpTo(conns, s, k - 1), k - 1)
  }

  // ----- What the reports ask for

  /** Ids of the blocks that `target` alone lacks, ascending. */
  function SoleMissing(conns: seq<Conn>, s: Section, target: nat, k: nat): seq<nat>
    decreases k
  {
    if k == 0 then []
    else
      SoleMissing(conns, s, target, k - 1)
      + (if AllTargets(conns, k - 1) == [target] then [s.first + k - 1] else [])
  }

  /** Ids of the blocks that at least two receivers lack, ascending. */
  function SharedMissing(conns: seq<Conn>, s: Section, k: nat): seq<nat>
    decreases k
  {
    if k == 0 then []
    else
      SharedMissing(conns, s, k - 1)
      + (if |AllTargets(conns, k - 1)| >= MULTICAST_THRESHOLD then [s.first + k - 1] else [])
  }

  // ----- Conservation: every sole block is planned exactly once

  /** All blocks planned for `target` on the first `upTo` sources. */
  function PeerTotal(peer: seq<seq<seq<nat>>>, target: nat, upTo: nat): multiset<nat>
    requires upTo <= |peer| && forall s :: 0 <= s < |peer| ==> target < |peer[s]|
    decreases upTo
  {
    if upTo == 0 then multiset{} else PeerTotal(peer, target, upTo - 1) + multiset(peer[upTo - 1][target])
  }

  function OneIf(present: bool, id: nat): multiset<nat> {
    if present then multiset{id} else multiset{}
  }

  lemma {:induction false} PeerTotalUnchanged(a: seq<seq<seq<nat>>>, b: seq<seq<seq<nat>>>, target: nat, upTo: nat)
    requires |a| == |b| && upTo <= |a|
    requires forall s :: 0 <= s < |a| ==> target < |a[s]| == |b[s]|
    requires forall s :: 0 <= s < upTo ==> a[s][target] == b[s][target]
    ensures PeerTotal(a, target, upTo) == PeerTotal(b, target, upTo)
    decreases upTo
  {
    if upTo > 0 {
      PeerTotalUnchanged(a, b, target, upTo - 1);
    }
  }

  /** Appending one block on one source adds it to the total. */
  lemma {:induction false} PeerTotalAppend(a: seq<seq<seq<nat>>>, b: seq<seq<seq<nat>>>,
                                           source: nat, target: nat, id: nat, upTo: nat)
    requires |a| == |b| && upTo <= |a| && source < |a|
    requires forall s :: 0 <= s < |a| ==> target < |a[s]| == |b[s]|
    requires forall s :: 0 <= s < |a| ==> b[s][target] == if s == source then a[s][target] + [id] else a[s][target]
    ensures PeerTotal(b, target, upTo) == PeerTotal(a, target, upTo) + OneIf(source < upTo, id)
    decreases upTo
  {
    if upTo > 0 {
      PeerTotalAppend(a, b, source, target, id, upTo - 1);
    }
  }

  lemma AssignShape(p: Plan, source: nat, target: nat, id: nat, n: nat)
    requires Shaped(p, n) && source < n && target < n
    ensures Shaped(Assign(p, source, target, id), n)
  {
  }

  lemma PeerTotalAssign(p: Plan, source: nat, target: nat, id: nat, other: nat, n: nat)
    requires Shaped(p, n) && source < n && target < n && other < n
    ensures Shaped(Assign(p, source, target, id), n)
    ensures PlannedFor(Assign(p, source, target, id), other, n)
         == PlannedFor(p, other, n) + OneIf(other == target, id)
  {
    var q := Assign(p, source, target, id);
    AssignShape(p, source, target, id, n);
    if other == target {
      PeerTotalAppend(p.peer, q.peer, source, other, id, n);
    } else {
      PeerTotalUnchanged(p.peer, q.peer, other, n);
    }
  }

  lemma {:induction false} EmptyConserved(n: nat, target: nat, upTo: nat)
    requires upTo <= n && target < n
    ensures PeerTotal(EmptyPlan(n).peer, target, upTo) == multiset{}
    decreases upTo
  {
    if upTo > 0 {
      EmptyConserved(n, target, upTo - 1);
    }
  }

  /** What the plan holds for one target: fallback and all sources together. */
  ghost function PlannedFor(p: Plan, target: nat, n: nat): multiset<nat>
    requires Shaped(p, n) && target < n
  {
    multiset(p.fallback[target]) + PeerTotal(p.peer, target, n)
  }

  lemma PlaceConserves(conns: seq<Conn>, s: Section, p: Plan, target: nat, block: nat, t: nat)
    requires Shaped(p, |conns|) && target < |conns| && t < |conns|
    ensures PlannedFor(PlaceSingle(conns, s, p, target, block), t, |conns|)
         == PlannedFor(p, t, |conns|) + OneIf(t == target, s.first + block)
  {
    var id := s.first + block;
    var reuse := FirstReuse(conns, s, p, target, block, 0);
    if reuse < |conns| {
      PeerTotalAssign(p, reuse, target, id, t, |conns|);
    } else {
      var idle := FirstNew(conns, s, p, target, block, 0);
      if idle < |conns| {
        PeerTotalAssign(p.(load := p.load[idle := p.load[idle] + 1]), idle, target, id, t, |conns|);
      }
    }
  }

  lemma BlockConserves(conns: seq<Conn>, s: Section, p: Plan, block: nat, t: nat)
    requires Shaped(p, |conns|) && t < |conns|
    ensures PlannedFor(PlanBlock(conns, s, p, block), t, |conns|)
         == PlannedFor(p, t, |conns|) + OneIf(AllTargets(conns, block) == [t], s.first + block)
  {
    hide PlaceSingle, Holds, Lacks;
    var targets := AllTargets(conns, block);
    if |targets| == 1 {
      assert targets == [targets[0]] && targets[0] in targets;
      PlaceConserves(conns, s, p, targets[0], block, t);
    }
  }

  lemma NothingPlanned(conns: seq<Conn>, s: Section, t: nat)
    requires t < |conns|
    ensures PlannedFor(PlanUpTo(conns, s, 0), t, |conns|) == multiset(SoleMissing(conns, s, t, 0))
  {
    EmptyConserved(|conns|, t, |conns|);
  }

  lemma PlanStep(conns: seq<Conn>, s: Section, k: nat)
    requires k > 0
    ensures PlanUpTo(conns, s, k) == PlanBlock(conns, s, PlanUpTo(conns, s, k - 1), k - 1)
  {
  }

  lemma SoleStep(conns: seq<Conn>, s: Section, t: nat, k: nat)
    requires k > 0
    ensures multiset(SoleMissing(conns, s, t, k)) == multiset(SoleMissing(conns, s, t, k - 1))
          + OneIf(AllTargets(conns, k - 1) == [t], s.first + k - 1)
  {
    hide AllTargets;
  }

  /** Each block that one receiver alone lacks is planned for that receiver exactly once, on one
      source or as fallback; nothing else is planned. */
  lemma {:induction false} PlanConserves(conns: seq<Conn>, s: Section, t: nat, k: nat)
    requires t < |conns|
    ensures PlannedFor(PlanUpTo(conns, s, k), t, |conns|) == multiset(SoleMissing(conns, s, t, k))
    decreases k
  {
    hide *;
    if k == 0 {
      NothingPlanned(conns, s, t);
    } else {
      PlanStep(conns, s, k);
      SoleStep(conns, s, t, k);
      PlanConserves(conns, s, t, k - 1);
      BlockConserves(conns, s, PlanUpTo(conns, s, k - 1), k - 1, t);
    }
  }

  lemma SharedStep(conns: seq<Conn>, s: Section, k: nat)
    requires k > 0
    ensures multiset(SharedMissing(conns, s, k)) == multiset(SharedMissing(conns, s, k - 1))
          + OneIf(|AllTargets(conns, k - 1)| >= MULTICAST_THRESHOLD, s.first + k - 1)
  {
    hide AllTargets;
  }

  lemma {:induction false} MulticastExact(conns: seq<Conn>, s: Section, k: nat)
    ensures PlanUpTo(conns, s, k).multicast == SharedMissing(conns, s, k)
    decreases k
  {
    if k > 0 {
      hide AllTargets, PlaceSingle, Holds, Lacks;
      MulticastExact(conns, s, k - 1);
    }
  }

  // ----- Source capacity

  /** Number of targets among the first `upTo` with a non-empty plan on one source. */
  function Busy(row: seq<seq<nat>>, upTo: nat): nat
    requires upTo <= |row|
    decreases upTo
  {
    if upTo == 0 then 0 else Busy(row, upTo - 1) + if row[upTo - 1] != [] then 1 else 0
  }

  lemma {:induction false} BusyUpdate(row: seq<seq<nat>>, target: nat, id: nat, upTo: nat)
    requires target < |row| && upTo <= |row|
    ensures Busy(row[target := row[target] + [id]], upTo)
         == Busy(row, upTo) + if target < upTo && row[target] == [] then 1 else 0
    decreases upTo
  {
    if upTo > 0 {
      BusyUpdate(row, target, id, upTo - 1);
    }
  }

  ghost predicate Capped(p: Plan, n: nat)
    requires Shaped(p, n)
  {
    forall i :: 0 <= i < n ==> p.load[i] == Busy(p.peer[i], n) <= MAX_TARGETS_PER_SOURCE
  }

  lemma {:induction false} EmptyRow(n: nat, upTo: nat)
    requires upTo <= n
    ensures Busy(seq(n, _ => []), upTo) == 0
    decreases upTo
  {
    if upTo > 0 {
      EmptyRow(n, upTo - 1);
    }
  }

  lemma PlaceCapped(conns: seq<Conn>, s: Section, p: Plan, target: nat, block: nat)
    requires Shaped(p, |conns|) && target < |conns| && Capped(p, |conns|)
    ensures Capped(PlaceSingle(conns, s, p, target, block), |conns|)
  {
    var id, n := s.first + block, |conns|;
    var q := PlaceSingle(conns, s, p, target, block);
    var reuse := FirstReuse(conns, s, p, target, block, 0);
    if reuse < n {
      BusyUpdate(p.peer[reuse], target, id, n);
    } else {
      var idle := FirstNew(conns, s, p, target, block, 0);
      if idle < n {
        BusyUpdate(p.peer[idle], target, id, n);
        assert p.peer[idle][target] == [];
      }
    }
  }

  lemma BlockCapped(conns: seq<Conn>, s: Section, p: Plan, block: nat)
    requires Shaped(p, |conns|) && Capped(p, |conns|)
    ensures Capped(PlanBlock(conns, s, p, block), |conns|)
  {
    hide PlaceSingle, Holds, Lacks, Busy;
    var targets := AllTargets(conns, block);
    if |targets| == 1 {
      assert targets[0] in targets;
      PlaceCapped(conns, s, p, targets[0], block);
    }
  }

  /** The load counter of a source always equals the number of targets it serves, and is at most
      two. The reuse search must come first: it is what makes a newly chosen source an idle one. */
  lemma {:induction false} PlanCapped(conns: seq<Conn>, s: Section, k: nat)
    ensures Capped(PlanUpTo(conns, s, k), |conns|)
    decreases k
  {
    hide PlanBlock;
    if k == 0 {
      EmptyRow(|conns|, |conns|);
    } else {
      PlanCapped(conns, s, k - 1);
      BlockCapped(conns, s, PlanUpTo(conns, s, k - 1), k - 1);
    }
  }

  // ----- Servability

  /** Every block of `list` is one that `target` alone lacks and `source` holds. */
  ghost predicate ListServable(conns: seq<Conn>, s: Section, list: seq<nat>, source: nat, target: nat, k: nat)
    requires source < |conns|
  {
    forall id :: id in list ==>
      && source != target && s.first <= id < s.first + k
      && AllTargets(conns, id - s.first) == [target] && Holds(conns[source], s, id - s.first)
  }

  ghost predicate Servable(conns: seq<Conn>, s: Section, p: Plan, k: nat)
    requires Shaped(p, |conns|)
  {
    forall i, t :: 0 <= i < |conns| && 0 <= t < |conns| ==> ListServable(conns, s, p.peer[i][t], i, t, k)
  }

  lemma PlaceServable(conns: seq<Conn>, s: Section, p: Plan, target: nat, block: nat)
    requires Shaped(p, |conns|) && Servable(conns, s, p, block)
    requires AllTargets(conns, block) == [target] && target < |conns|
    ensures Servable(conns, s, PlaceSingle(conns, s, p, target, block), block + 1)
  {
    var q := PlaceSingle(conns, s, p, target, block);
    forall i, t | 0 <= i < |conns| && 0 <= t < |conns|
      ensures ListServable(conns, s, q.peer[i][t], i, t, block + 1)
    {
      assert ListServable(conns, s, p.peer[i][t], i, t, block);
      if q.peer[i][t] != p.peer[i][t] {
        assert q.peer[i][t] == p.peer[i][t] + [s.first + block];
      }
    }
  }

  lemma BlockServable(conns: seq<Conn>, s: Section, p: Plan, block: nat)
    requires Shaped(p, |conns|) && Servable(conns, s, p, block)
    ensures Servable(conns, s, PlanBlock(conns, s, p, block), block + 1)
  {
    hide PlaceSingle, Holds, Lacks, Servable;
    var targets := AllTargets(conns, block);
    if |targets| == 1 {
      assert targets == [targets[0]] && targets[0] in targets;
      PlaceServable(conns, s, p, targets[0], block);
    } else {
      ServableGrows(conns, s, p, PlanBlock(conns, s, p, block), block);
    }
  }

  /** Peers are only asked for blocks they reported to hold, for a different receiver that lacks them. */
  lemma {:induction false} PlanServable(conns: seq<Conn>, s: Section, k: nat)
    ensures Servable(conns, s, PlanUpTo(conns, s, k), k)
    decreases k
  {
    hide *;
    if k == 0 {
      EmptyServable(conns, s);
    } else {
      PlanStep(conns, s, k);
      PlanServable(conns, s, k - 1);
      BlockServable(conns, s, PlanUpTo(conns, s, k - 1), k - 1);
    }
  }

  lemma EmptyServable(conns: seq<Conn>, s: Section)
    ensures Servable(conns, s, PlanUpTo(conns, s, 0), 0)
  {
    hide Holds, AllTargets;
    var p := EmptyPlan(|conns|);
    assert forall i, t :: 0 <= i < |conns| && 0 <= t < |conns| ==> p.peer[i][t] == [];
  }

  lemma ServableGrows(conns: seq<Conn>, s: Section, p: Plan, q: Plan, k: nat)
    requires Shaped(p, |conns|) && Shaped(q, |conns|) && q.peer == p.peer && Servable(conns, s, p, k)
    ensures Servable(conns, s, q, k + 1)
  {
    forall i, t | 0 <= i < |conns| && 0 <= t < |conns|
      ensures ListServable(conns, s, q.peer[i][t], i, t, k + 1)
    {
      assert ListServable(conns, s, p.peer[i][t], i, t, k);
    }
  }
}
