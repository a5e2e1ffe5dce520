/** One repair round of src/sender.cpp as it runs: the planning loops, the peer tasks and their
    failed sends, the unicast fallback, and the baseline round that uses no peers. */
module RepairRound {
  import opened Common
  import opened Reports
  import opened Sections
  import opened Messages
  import opened Connections
  import opened RepairPlan

  const MIN_PEER_BLOCKS := 16

  datatype SentTask = SentTask(source: nat, target: nat, blocks: seq<nat>, delivered: bool)
  datatype Unicast = Unicast(target: nat, block: nat)

  /** What a round sent, and its metric counters. Task i has task id i + 1. */
  datatype RoundLog = RoundLog(
    multicast: seq<nat>, tasks: seq<SentTask>, unicast: seq<Unicast>,
    blocksRead: nat, peerBlocks: nat, payloadBytes: nat)

  // ----- Reading a log

  function Concat(tasks: seq<SentTask>): seq<nat>
    decreases |tasks|
  {
    if tasks == [] then [] else Concat(tasks[..|tasks| - 1]) + tasks[|tasks| - 1].blocks
  }

  function DeliveredTo(tasks: seq<SentTask>, target: nat): multiset<nat>
    decreases |tasks|
  {
    if tasks == [] then multiset{}
    else
      var last := tasks[|tasks| - 1];
      DeliveredTo(tasks[..|tasks| - 1], target)
      + (if last.delivered && last.target == target then multiset(last.blocks) else multiset{})
  }

  /** Blocks of the tasks issued for one source and target, in order. */
  function IssuedTo(tasks: seq<SentTask>, source: nat, target: nat): seq<nat>
    decreases |tasks|
  {
    if tasks == [] then []
    else
      var last := tasks[|tasks| - 1];
      IssuedTo(tasks[..|tasks| - 1], source, target)
      + (if last.source == source && last.target == target then last.blocks else [])
  }

  function PeerBlocks(tasks: seq<SentTask>): nat
    decreases |tasks|
  {
    if tasks == [] then 0
    else
      var last := tasks[|tasks| - 1];
      PeerBlocks(tasks[..|tasks| - 1]) + (if last.delivered then |last.blocks| else 0)
  }

  function UnicastTo(unicast: seq<Unicast>, target: nat): seq<nat>
    decreases |unicast|
  {
    if unicast == [] then []
    else
      var last := unicast[|unicast| - 1];
      UnicastTo(unicast[..|unicast| - 1], target) + (if last.target == target then [last.block] else [])
  }

  lemma SplitLast<T>(a: seq<T>, b: seq<T>)
    requires b != []
    ensures b == b[..|b| - 1] + [b[|b| - 1]]
    ensures a + b == (a + b[..|b| - 1]) + [b[|b| - 1]]
  {
  }

  lemma DeliveredSnoc(a: seq<SentTask>, x: SentTask, target: nat)
    ensures DeliveredTo(a + [x], target)
         == DeliveredTo(a, target) + (if x.delivered && x.target == target then multiset(x.blocks) else multiset{})
  {
    assert (a + [x])[..|a|] == a;
  }

  lemma {:induction false} DeliveredAppend(a: seq<SentTask>, b: seq<SentTask>, target: nat)
    ensures DeliveredTo(a + b, target) == DeliveredTo(a, target) + DeliveredTo(b, target)
    decreases |b|
  {
    if b == [] {
      assert a + b == a;
    } else {
      hide DeliveredTo;
      var init, x := b[..|b| - 1], b[|b| - 1];
      SplitLast(a, b);
      DeliveredAppend(a, init, target);
      DeliveredSnoc(a + init, x, target);
      DeliveredSnoc(init, x, target);
    }
  }

  lemma IssuedSnoc(a: seq<SentTask>, x: SentTask, source: nat, target: nat)
    ensures IssuedTo(a + [x], source, target)
         == IssuedTo(a, source, target) + (if x.source == source && x.target == target then x.blocks else [])
  {
    assert (a + [x])[..|a|] == a;
  }

  lemma {:induction false} IssuedAppend(a: seq<SentTask>, b: seq<SentTask>, source: nat, target: nat)
    ensures IssuedTo(a + b, source, target) == IssuedTo(a, source, target) + IssuedTo(b, source, target)
    decreases |b|
  {
    if b == [] {
      assert a + b == a;
    } else {
      hide IssuedTo;
      var init, x := b[..|b| - 1], b[|b| - 1];
      SplitLast(a, b);
      IssuedAppend(a, init, source, target);
      IssuedSnoc(a + init, x, source, target);
      IssuedSnoc(init, x, source, target);
    }
  }

  // ----- Tasks of one source and target

  ghost predicate TasksOf(sent: seq<SentTask>, source: nat, target: nat) {
    forall i :: 0 <= i < |sent| ==>
      sent[i].source == source && sent[i].target == target && 1 <= |sent[i].blocks| <= MAX_PEER_BLOCKS
  }

  /** Once a send has failed the control connection is closed and every later send fails. */
  ghost predicate FailureSticks(sent: seq<SentTask>) {
    forall i, j :: 0 <= i < j < |sent| && sent[i].source == sent[j].source && sent[j].delivered
      ==> sent[i].delivered
  }

  /** The outcome of one (source, target) entry of the plan. */
  ghost predicate PairOutcome(blocks: seq<nat>, source: nat, target: nat, sent: seq<SentTask>, returned: seq<nat>) {
    && TasksOf(sent, source, target)
    && Concat(sent) == (if |blocks| < MIN_PEER_BLOCKS then [] else blocks)
    && DeliveredTo(sent, target) + multiset(returned) == multiset(blocks)
  }

  lemma {:induction false} ConcatIsIssued(sent: seq<SentTask>, source: nat, target: nat, s: nat, t: nat)
    requires TasksOf(sent, source, target)
    ensures IssuedTo(sent, s, t) == if s == source && t == target then Concat(sent) else []
    decreases |sent|
  {
    if sent != [] {
      ConcatIsIssued(sent[..|sent| - 1], source, target, s, t);
    }
  }

  lemma {:induction false} DeliveredElsewhere(sent: seq<SentTask>, source: nat, target: nat, t: nat)
    requires TasksOf(sent, source, target) && t != target
    ensures DeliveredTo(sent, t) == multiset{}
    decreases |sent|
  {
    if sent != [] {
      DeliveredElsewhere(sent[..|sent| - 1], source, target, t);
    }
  }

  lemma ChunkStep(blocks: seq<nat>, begin: nat, end: nat, sent: seq<SentTask>, returned: seq<nat>, task: SentTask)
    requires begin < end <= |blocks| && end - begin <= MAX_PEER_BLOCKS
    requires task.blocks == blocks[begin..end]
    requires TasksOf(sent, task.source, task.target) && Concat(sent) == blocks[..begin]
    requires DeliveredTo(sent, task.target) + multiset(returned) == multiset(blocks[..begin])
    ensures TasksOf(sent + [task], task.source, task.target) && Concat(sent + [task]) == blocks[..end]
    ensures DeliveredTo(sent + [task], task.target)
          + multiset(if task.delivered then returned else returned + task.blocks) == multiset(blocks[..end])
  {
    var more := sent + [task];
    assert more[..|more| - 1] == sent && more[|more| - 1] == task;
    assert blocks[..end] == blocks[..begin] + blocks[begin..end];
  }

  lemma NoChunks(source: nat, target: nat)
    ensures TasksOf([], source, target) && Concat([]) == [] && DeliveredTo([], target) == multiset{}
  {
  }

  /** What a run of sends over one control connection looks like when the connection was open or
      closed `before`, and is open or closed `after`. */
  ghost predicate LinkHistory(sent: seq<SentTask>, before: bool, after: bool) {
    && FailureSticks(sent)
    && (after ==> before)
    && forall i :: 0 <= i < |sent| ==> (sent[i].delivered ==> before) && (!sent[i].delivered ==> !after)
  }

  lemma LinkHistoryStep(sent: seq<SentTask>, before: bool, now: bool, task: SentTask)
    requires LinkHistory(sent, before, now) && (task.delivered ==> now)
    ensures LinkHistory(sent + [task], before, task.delivered)
  {
  }

  /** The chunking loop: one frame per 64 blocks; `network(i)` answers the round's i-th task send. */
  method DispatchPair(receiver: ReceiverConnection, source: nat, target: nat, blocks: seq<nat>,
                      issued: nat, network: nat -> bool)
    returns (sent: seq<SentTask>, returned: seq<nat>)
    requires |blocks| >= MIN_PEER_BLOCKS
    modifies receiver`connected
    ensures PairOutcome(blocks, source, target, sent, returned)
    ensures LinkHistory(sent, old(receiver.connected), receiver.connected)
    ensures forall i :: 0 <= i < |sent| - 1 ==> |sent[i].blocks| == 64
  {
    hide Concat, DeliveredTo, TasksOf, LinkHistory, FailureSticks;
    sent, returned := [], [];
    NoChunks(source, target);
    NoHistory(receiver.connected);
    var begin := 0;
    while begin < |blocks|
      invariant 0 <= begin <= |blocks|
      invariant TasksOf(sent, source, target) && Concat(sent) == blocks[..begin]
      invariant DeliveredTo(sent, target) + multiset(returned) == multiset(blocks[..begin])
      invariant LinkHistory(sent, old(receiver.connected), receiver.connected)
      invariant forall i :: 0 <= i < |sent| - (if begin < |blocks| then 0 else 1) ==> |sent[i].blocks| == 64
      decreases |blocks| - begin
    {
      var end := Min(begin + MAX_PEER_BLOCKS, |blocks|);
      var chunk := blocks[begin..end];
      ghost var open := receiver.connected;
      var accepted := receiver.SendFrame(network(issued + |sent|));
      var task := SentTask(source, target, chunk, accepted);
      ChunkStep(blocks, begin, end, sent, returned, task);
      LinkHistoryStep(sent, old(receiver.connected), open, task);
      if !accepted {
        returned := returned + chunk;
      }
      sent := sent + [task];
      begin := end;
    }
    assert blocks[..begin] == blocks;
  }

  lemma NoHistory(open: bool)
    ensures LinkHistory([], open, open)
  {
  }

  // ----- All tasks of the plan

  /** Peer blocks for `target` in the part of the plan already walked: all of the first `source`
      rows, and the first `upTo` entries of the next one. */
  function Walked(peer: seq<seq<seq<nat>>>, target: nat, source: nat, upTo: nat): multiset<nat>
    requires source < |peer| && forall i :: 0 <= i < |peer| ==> target < |peer[i]|
  {
    PeerTotal(peer, target, source) + (if target < upTo then multiset(peer[source][target]) else multiset{})
  }

  ghost predicate Sized(tasks: seq<SentTask>, n: nat) {
    forall i :: 0 <= i < |tasks| ==>
      tasks[i].source < n && tasks[i].target < n && 1 <= |tasks[i].blocks| <= MAX_PEER_BLOCKS
  }

  /** Each target's blocks are split between its delivered tasks and its fallback list. */
  ghost predicate Split(p: Plan, tasks: seq<SentTask>, fallback: seq<seq<nat>>, n: nat, source: nat, upTo: nat)
    requires Shaped(p, n) && source < n
  {
    && |fallback| == n
    && forall t :: 0 <= t < n ==>
         multiset(fallback[t]) + DeliveredTo(tasks, t)
         == multiset(p.fallback[t]) + Walked(p.peer, t, source, upTo)
  }

  /** Every walked entry of at least 16 blocks was issued whole and in order; smaller ones not at all. */
  ghost predicate Issued(p: Plan, tasks: seq<SentTask>, n: nat, source: nat, upTo: nat)
    requires Shaped(p, n)
  {
    forall i, t :: 0 <= i < n && 0 <= t < n ==>
      IssuedTo(tasks, i, t)
      == if (i < source || (i == source && t < upTo)) && |p.peer[i][t]| >= MIN_PEER_BLOCKS then p.peer[i][t] else []
  }

  lemma SplitEntry(p: Plan, tasks: seq<SentTask>, fallback: seq<nat>, n: nat, source: nat, target: nat,
                   sent: seq<SentTask>, returned: seq<nat>, t: nat)
    requires Shaped(p, n) && source < n && target < n && t < n
    requires multiset(fallback) + DeliveredTo(tasks, t) == multiset(p.fallback[t]) + Walked(p.peer, t, source, target)
    requires PairOutcome(p.peer[source][target], source, target, sent, returned)
    ensures multiset(if t == target then fallback + returned else fallback) + DeliveredTo(tasks + sent, t)
         == multiset(p.fallback[t]) + Walked(p.peer, t, source, target + 1)
  {
    hide DeliveredTo, PeerTotal, Concat;
    DeliveredAppend(tasks, sent, t);
    if t == target {
      var blocks := multiset(p.peer[source][target]);
      assert multiset(fallback + returned) == multiset(fallback) + multiset(returned);
      assert Walked(p.peer, t, source, target + 1) == Walked(p.peer, t, source, target) + blocks;
      Regroup(multiset(fallback), DeliveredTo(tasks, t), multiset(p.fallback[t]), Walked(p.peer, t, source, target),
              DeliveredTo(sent, t), multiset(returned), blocks);
    } else {
      DeliveredElsewhere(sent, source, target, t);
      assert Walked(p.peer, t, source, target + 1) == Walked(p.peer, t, source, target);
    }
  }

  lemma Regroup(f: multiset<nat>, d: multiset<nat>, g: multiset<nat>, w: multiset<nat>,
                s: multiset<nat>, r: multiset<nat>, b: multiset<nat>)
    requires f + d == g + w && s + r == b
    ensures (f + r) + (d + s) == g + (w + b)
  {
    forall x ensures ((f + r) + (d + s))[x] == (g + (w + b))[x] {
      assert (f + d)[x] == (g + w)[x] && (s + r)[x] == b[x];
    }
  }

  lemma SplitStep(p: Plan, tasks: seq<SentTask>, fallback: seq<seq<nat>>, n: nat, source: nat, target: nat,
                  sent: seq<SentTask>, returned: seq<nat>)
    requires Shaped(p, n) && source < n && target < n
    requires Split(p, tasks, fallback, n, source, target)
    requires PairOutcome(p.peer[source][target], source, target, sent, returned)
    ensures Split(p, tasks + sent, fallback[target := fallback[target] + returned], n, source, target + 1)
  {
    hide PairOutcome, Walked;
    forall t | 0 <= t < n
      ensures multiset(fallback[target := fallback[target] + returned][t]) + DeliveredTo(tasks + sent, t)
           == multiset(p.fallback[t]) + Walked(p.peer, t, source, target + 1)
    {
      SplitEntry(p, tasks, fallback[t], n, source, target, sent, returned, t);
    }
  }

  lemma IssuedStep(p: Plan, tasks: seq<SentTask>, n: nat, source: nat, target: nat,
                   sent: seq<SentTask>, returned: seq<nat>)
    requires Shaped(p, n) && source < n && target < n && Issued(p, tasks, n, source, target)
    requires PairOutcome(p.peer[source][target], source, target, sent, returned)
    ensures Issued(p, tasks + sent, n, source, target + 1)
  {
    forall i, t | 0 <= i < n && 0 <= t < n
      ensures IssuedTo(tasks + sent, i, t)
           == if (i < source || (i == source && t < target + 1)) && |p.peer[i][t]| >= MIN_PEER_BLOCKS
              then p.peer[i][t] else []
    {
      IssuedAppend(tasks, sent, i, t);
      ConcatIsIssued(sent, source, target, i, t);
    }
  }

  lemma WalkedRow(peer: seq<seq<seq<nat>>>, t: nat, source: nat)
    requires source < |peer| && forall i :: 0 <= i < |peer| ==> t < |peer[i]|
    ensures forall n :: t < n ==> Walked(peer, t, source, n) == PeerTotal(peer, t, source + 1)
    ensures source + 1 < |peer| ==> Walked(peer, t, source + 1, 0) == PeerTotal(peer, t, source + 1)
  {
  }

  lemma SplitNextSource(p: Plan, tasks: seq<SentTask>, fallback: seq<seq<nat>>, n: nat, source: nat)
    requires Shaped(p, n) && source < n && Split(p, tasks, fallback, n, source, n)
    ensures source + 1 < n ==> Split(p, tasks, fallback, n, source + 1, 0)
    ensures source + 1 == n ==> forall t :: 0 <= t < n ==>
              multiset(fallback[t]) + DeliveredTo(tasks, t) == PlannedFor(p, t, n)
  {
    hide Walked, PeerTotal, DeliveredTo;
    forall t | 0 <= t < n
      ensures Walked(p.peer, t, source, n) == PeerTotal(p.peer, t, source + 1)
      ensures source + 1 < n ==> Walked(p.peer, t, source + 1, 0) == PeerTotal(p.peer, t, source + 1)
    {
      WalkedRow(p.peer, t, source);
    }
  }

  lemma IssuedNextSource(p: Plan, tasks: seq<SentTask>, n: nat, source: nat)
    requires Shaped(p, n) && source < n && Issued(p, tasks, n, source, n)
    ensures Issued(p, tasks, n, source + 1, 0)
  {
    hide IssuedTo;
  }

  lemma SplitStart(p: Plan, n: nat)
    requires Shaped(p, n) && 0 < n
    ensures Split(p, [], p.fallback, n, 0, 0) && Issued(p, [], n, 0, 0)
  {
    forall t | 0 <= t < n ensures Walked(p.peer, t, 0, 0) == multiset{} {
    }
  }

  lemma LinkHistoryAppend(a: seq<SentTask>, b: seq<SentTask>, before: bool, now: bool, after: bool)
    requires LinkHistory(a, before, now) && LinkHistory(b, now, after)
    ensures LinkHistory(a + b, before, after)
  {
  }

  ghost predicate FromSource(tasks: seq<SentTask>, source: nat, n: nat) {
    forall i :: 0 <= i < |tasks| ==>
      tasks[i].source == source && tasks[i].target < n && 1 <= |tasks[i].blocks| <= MAX_PEER_BLOCKS
  }

  lemma FromSourceAppend(a: seq<SentTask>, b: seq<SentTask>, source: nat, target: nat, n: nat)
    requires FromSource(a, source, n) && TasksOf(b, source, target) && target < n
    ensures FromSource(a + b, source, n)
  {
  }

  lemma SmallPair(blocks: seq<nat>, source: nat, target: nat)
    requires |blocks| < MIN_PEER_BLOCKS
    ensures PairOutcome(blocks, source, target, [], blocks)
  {
  }

  lemma NoneFromSource(source: nat, n: nat)
    ensures FromSource([], source, n)
  {
  }

  /** The inner loop of phase 3: all targets of one source. */
  method DispatchSource(receiver: ReceiverConnection, p: Plan, n: nat, source: nat,
                        tasks: seq<SentTask>, pending: seq<seq<nat>>, network: nat -> bool)
    returns (sent: seq<SentTask>, fallback: seq<seq<nat>>)
    requires Shaped(p, n) && source < n && |pending| == n
    requires Split(p, tasks, pending, n, source, 0) && Issued(p, tasks, n, source, 0)
    modifies receiver`connected
    ensures |fallback| == n
    ensures Split(p, tasks + sent, fallback, n, source, n) && Issued(p, tasks + sent, n, source, n)
    ensures FromSource(sent, source, n) && LinkHistory(sent, old(receiver.connected), receiver.connected)
  {
    hide Split, Issued, FromSource, LinkHistory, PairOutcome;
    sent, fallback := [], pending;
    NoHistory(receiver.connected);
    NoneFromSource(source, n);
    assert tasks + sent == tasks;
    for target := 0 to n
      invariant |fallback| == n
      invariant Split(p, tasks + sent, fallback, n, source, target) && Issued(p, tasks + sent, n, source, target)
      invariant FromSource(sent, source, n) && LinkHistory(sent, old(receiver.connected), receiver.connected)
    {
      var blocks := p.peer[source][target];
      var chunks, returned := [], blocks;
      ghost var open := receiver.connected;
      if |blocks| >= MIN_PEER_BLOCKS {
        chunks, returned := DispatchPair(receiver, source, target, blocks, |tasks| + |sent|, network);
      } else {
        SmallPair(blocks, source, target);
        NoHistory(open);
      }
      SplitStep(p, tasks + sent, fallback, n, source, target, chunks, returned);
      IssuedStep(p, tasks + sent, n, source, target, chunks, returned);
      PairIsTasksOf(blocks, source, target, chunks, returned);
      FromSourceAppend(sent, chunks, source, target, n);
      LinkHistoryAppend(sent, chunks, old(receiver.connected), open, receiver.connected);
      assert (tasks + sent) + chunks == tasks + (sent + chunks);
      sent := sent + chunks;
      fallback := fallback[target := fallback[target] + returned];
    }
  }

  lemma PairIsTasksOf(blocks: seq<nat>, source: nat, target: nat, sent: seq<SentTask>, returned: seq<nat>)
    requires PairOutcome(blocks, source, target, sent, returned)
    ensures TasksOf(sent, source, target)
  {
  }

  ghost predicate SourcesBelow(tasks: seq<SentTask>, n: nat, source: nat) {
    Sized(tasks, n) && FailureSticks(tasks) && forall i :: 0 <= i < |tasks| ==> tasks[i].source < source
  }

  lemma SourcesBelowAppend(tasks: seq<SentTask>, sent: seq<SentTask>, n: nat, source: nat, before: bool, after: bool)
    requires SourcesBelow(tasks, n, source) && FromSource(sent, source, n) && source < n
    requires LinkHistory(sent, before, after)
    ensures SourcesBelow(tasks + sent, n, source + 1)
  {
  }

  lemma NothingIssued(p: Plan)
    requires Shaped(p, 0)
    ensures Issued(p, [], 0, 0, 0)
  {
  }

  /** Phase 3 of `re_to_re`: every entry of the plan is issued in chunks or handed to the fallback list. */
  method DispatchTasks(receivers: Receivers, p: Plan, network: nat -> bool)
    returns (tasks: seq<SentTask>, fallback: seq<seq<nat>>)
    requires Distinct(receivers) && Shaped(p, |receivers|)
    modifies receivers`connected
    ensures |fallback| == |receivers| && Sized(tasks, |receivers|) && FailureSticks(tasks)
    ensures Issued(p, tasks, |receivers|, |receivers|, 0)
    ensures forall t :: 0 <= t < |receivers| ==>
              multiset(fallback[t]) + DeliveredTo(tasks, t) == PlannedFor(p, t, |receivers|)
  {
    hide Split, Issued, FromSource, LinkHistory, DeliveredTo, PlannedFor;
    var n := |receivers|;
    tasks, fallback := [], p.fallback;
    if n > 0 {
      SplitStart(p, n);
    } else {
      NothingIssued(p);
    }
    for source := 0 to n
      invariant |fallback| == n && SourcesBelow(tasks, n, source)
      invariant source < n ==> Split(p, tasks, fallback, n, source, 0) && Issued(p, tasks, n, source, 0)
      invariant source == n ==> Issued(p, tasks, n, n, 0)
      invariant source == n ==> forall t :: 0 <= t < n ==>
                  multiset(fallback[t]) + DeliveredTo(tasks, t) == PlannedFor(p, t, n)
    {
      var receiver := receivers[source];
      ghost var open := receiver.connected;
      var sent, updated := DispatchSource(receiver, p, n, source, tasks, fallback, network);
      SourcesBelowAppend(tasks, sent, n, source, open, receiver.connected);
      tasks, fallback := tasks + sent, updated;
      SplitNextSource(p, tasks, fallback, n, source);
      IssuedNextSource(p, tasks, n, source);
    }
  }

  // ----- Unicast fallback and byte counts

  function PayloadBytes(g: Geometry, ids: seq<nat>): nat
    decreases |ids|
  {
    if ids == [] then 0 else PayloadBytes(g, ids[..|ids| - 1]) + BlockSizeOf(g, ids[|ids| - 1])
  }

  function BlocksSent(unicast: seq<Unicast>): seq<nat> {
    seq(|unicast|, i requires 0 <= i < |unicast| => unicast[i].block)
  }

  lemma PayloadBytesSnoc(g: Geometry, ids: seq<nat>, id: nat)
    ensures PayloadBytes(g, ids + [id]) == PayloadBytes(g, ids) + BlockSizeOf(g, id)
  {
    assert (ids + [id])[..|ids|] == ids;
  }

  lemma UnicastSnoc(unicast: seq<Unicast>, x: Unicast, target: nat)
    ensures UnicastTo(unicast + [x], target)
         == UnicastTo(unicast, target) + (if x.target == target then [x.block] else [])
    ensures BlocksSent(unicast + [x]) == BlocksSent(unicast) + [x.block]
  {
    assert (unicast + [x])[..|unicast|] == unicast;
  }

  /** Phase 4 of `re_to_re`. */
  method SendFallback(g: Geometry, fallback: seq<seq<nat>>) returns (unicast: seq<Unicast>, bytes: nat)
    ensures forall t :: 0 <= t < |fallback| ==> UnicastTo(unicast, t) == fallback[t]
    ensures forall i :: 0 <= i < |unicast| ==> unicast[i].target < |fallback|
    ensures bytes == PayloadBytes(g, BlocksSent(unicast))
  {
    hide UnicastTo, PayloadBytes, BlocksSent, BlockSizeOf;
    unicast, bytes := [], 0;
    NothingSent(g);
    for target := 0 to |fallback|
      invariant forall t :: 0 <= t < |fallback| ==> UnicastTo(unicast, t) == if t < target then fallback[t] else []
      invariant forall i :: 0 <= i < |unicast| ==> unicast[i].target < |fallback|
      invariant bytes == PayloadBytes(g, BlocksSent(unicast))
    {
      for j := 0 to |fallback[target]|
        invariant forall t :: 0 <= t < |fallback| ==>
                    UnicastTo(unicast, t)
                    == if t < target then fallback[t] else if t == target then fallback[t][..j] else []
        invariant forall i :: 0 <= i < |unicast| ==> unicast[i].target < |fallback|
        invariant bytes == PayloadBytes(g, BlocksSent(unicast))
      {
        var block := fallback[target][j];
        var packet := Unicast(target, block);
        PayloadBytesSnoc(g, BlocksSent(unicast), block);
        forall t: nat ensures UnicastTo(unicast + [packet], t)
                           == UnicastTo(unicast, t) + (if t == target then [block] else [])
        {
          UnicastSnoc(unicast, packet, t);
        }
        UnicastSnoc(unicast, packet, target);
        assert fallback[target][..j + 1] == fallback[target][..j] + [block];
        bytes := bytes + BlockSizeOf(g, block);
        unicast := unicast + [packet];
      }
    }
  }

  lemma NothingSent(g: Geometry)
    ensures PayloadBytes(g, BlocksSent([])) == 0
    ensures forall t: nat :: UnicastTo([], t) == []
  {
  }

  // ----- Planning loops

  /** The view of every receiver. */
  ghost predicate Seen(receivers: Receivers, conns: seq<Conn>)
    reads receivers
  {
    |conns| == |receivers| && forall i :: 0 <= i < |conns| ==> receivers[i].View() == conns[i]
  }

  /** `aggregate_missing_blocks`, one block. */
  method MissingTargets(receivers: Receivers, block: nat, ghost conns: seq<Conn>) returns (targets: seq<nat>)
    requires Seen(receivers, conns)
    ensures targets == AllTargets(conns, block)
  {
    targets := [];
    for i := 0 to |receivers|
      invariant targets == Targets(conns, block, i)
    {
      if Lacks(receivers[i].View(), block) {
        targets := targets + [i];
      }
    }
  }

  /** The two searches for a source: reuse first, then a new one. */
  method FindSource(receivers: Receivers, s: Section, p: Plan, target: nat, block: nat, ghost conns: seq<Conn>)
    returns (source: nat, isNew: bool)
    requires Seen(receivers, conns) && Shaped(p, |conns|) && target < |conns|
    ensures !isNew ==> source == FirstReuse(conns, s, p, target, block, 0)
    ensures isNew ==> FirstReuse(conns, s, p, target, block, 0) == |conns|
    ensures isNew ==> source == FirstNew(conns, s, p, target, block, 0)
    ensures !isNew ==> source < |conns|
  {
    hide Holds;
    var n := |receivers|;
    var i := 0;
    while i < n
      invariant 0 <= i <= n
      invariant FirstReuse(conns, s, p, target, block, 0) == FirstReuse(conns, s, p, target, block, i)
    {
      if i != target && p.peer[i][target] != [] && Holds(receivers[i].View(), s, block) {
        return i, false;
      }
      i := i + 1;
    }
    i := 0;
    while i < n
      invariant 0 <= i <= n
      invariant FirstNew(conns, s, p, target, block, 0) == FirstNew(conns, s, p, target, block, i)
    {
      if i != target && p.load[i] < MAX_TARGETS_PER_SOURCE && Holds(receivers[i].View(), s, block) {
        return i, true;
      }
      i := i + 1;
    }
    return n, true;
  }

  method PlaceBlock(receivers: Receivers, s: Section, p: Plan, target: nat, block: nat, ghost conns: seq<Conn>)
    returns (q: Plan)
    requires Seen(receivers, conns) && Shaped(p, |conns|) && target < |conns|
    ensures q == PlaceSingle(conns, s, p, target, block)
  {
    hide Holds, FirstReuse, FirstNew;
    q := p;
    var source, isNew := FindSource(receivers, s, p, target, block, conns);
    if source == |receivers| {
      q := q.(fallback := q.fallback[target := q.fallback[target] + [s.first + block]]);
      return;
    }
    if isNew {
      q := q.(load := q.load[source := q.load[source] + 1]);
    }
    q := Assign(q, source, target, s.first + block);
  }

  /** Phases 1 and 2 of `re_to_re`: multicast shared blocks, find a source for each sole block. */
  method MakePlan(receivers: Receivers, s: Section, ghost conns: seq<Conn>) returns (p: Plan)
    requires Seen(receivers, conns)
    ensures p == PlanUpTo(conns, s, s.n)
  {
    hide AllTargets, PlaceSingle;
    p := EmptyPlan(|receivers|);
    PlanNothing(conns, s);
    for block := 0 to s.n
      invariant p == PlanUpTo(conns, s, block)
    {
      PlanStep(conns, s, block + 1);
      var targets := MissingTargets(receivers, block, conns);
      if targets == [] {
        continue;
      }
      if |targets| >= MULTICAST_THRESHOLD {
        p := p.(multicast := p.multicast + [s.first + block]);
        continue;
      }
      TargetInRange(conns, block);
      p := PlaceBlock(receivers, s, p, targets[0], block, conns);
    }
  }

  lemma PlanNothing(conns: seq<Conn>, s: Section)
    ensures PlanUpTo(conns, s, 0) == EmptyPlan(|conns|)
  {
  }

  lemma TargetInRange(conns: seq<Conn>, block: nat)
    requires AllTargets(conns, block) != []
    ensures AllTargets(conns, block)[0] < |conns|
  {
    assert AllTargets(conns, block)[0] in AllTargets(conns, block);
  }

  /** Control frames to every active receiver (`REPAIR_BEGIN`, `SECTION_END`). */
  function Broadcast(conns: seq<Conn>, network: nat -> bool): seq<Conn> {
    seq(|conns|, i requires 0 <= i < |conns| => if Active(conns[i]) then Send(conns[i], network(i)) else conns[i])
  }

  method SendToActive(receivers: Receivers, network: nat -> bool, ghost conns: seq<Conn>)
    requires Distinct(receivers) && Seen(receivers, conns)
    modifies receivers`connected
    ensures Seen(receivers, Broadcast(conns, network))
  {
    for i := 0 to |receivers|
      invariant forall j :: 0 <= j < i ==> receivers[j].View() == Broadcast(conns, network)[j]
      invariant forall j :: i <= j < |receivers| ==> receivers[j].View() == conns[j]
    {
      var receiver := receivers[i];
      assert receiver.View() == conns[i];
      assert Active(conns[i]) <==> !receiver.completed && !receiver.isolated && !receiver.abandoned;
      assert Broadcast(conns, network)[i] == if Active(conns[i]) then Send(conns[i], network(i)) else conns[i];
      if !receiver.completed && !receiver.isolated && !receiver.abandoned {
        var sent := receiver.SendFrame(network(i));
      }
      assert receiver.View() == Broadcast(conns, network)[i];
    }
  }

  // ----- The rounds

  /** Everything a peer-mode round guarantees, given the receivers' state after `REPAIR_BEGIN`. */
  ghost predicate PeerRound(conns: seq<Conn>, s: Section, g: Geometry, log: RoundLog) {
    var p := PlanUpTo(conns, s, s.n);
    && log.multicast == p.multicast
    && Sized(log.tasks, |conns|) && FailureSticks(log.tasks) && Issued(p, log.tasks, |conns|, |conns|, 0)
    && (forall t :: 0 <= t < |conns| ==>
          multiset(UnicastTo(log.unicast, t)) + DeliveredTo(log.tasks, t) == PlannedFor(p, t, |conns|))
    && (forall i :: 0 <= i < |log.unicast| ==> log.unicast[i].target < |conns|)
    && log.blocksRead == |log.multicast| + |log.unicast|
    && log.peerBlocks == PeerBlocks(log.tasks)
    && log.payloadBytes == PayloadBytes(g, log.multicast) + PayloadBytes(g, BlocksSent(log.unicast))
  }

  /** `re_to_re`. */
  method ReToRe(receivers: Receivers, s: Section, g: Geometry,
                begin: nat -> bool, network: nat -> bool, end: nat -> bool, ghost conns: seq<Conn>)
    returns (log: RoundLog)
    requires Distinct(receivers) && Seen(receivers, conns)
    modifies receivers`connected
    ensures PeerRound(Broadcast(conns, begin), s, g, log)
  {
    ghost var current := Broadcast(conns, begin);
    SendToActive(receivers, begin, conns);
    var p := MakePlan(receivers, s, current);
    var multicastBytes := MulticastBytes(g, p.multicast);
    var tasks, fallback := DispatchTasks(receivers, p, network);
    var unicast, unicastBytes := SendFallback(g, fallback);
    log := RoundLog(p.multicast, tasks, unicast, |p.multicast| + |unicast|, PeerBlocks(tasks),
                    multicastBytes + unicastBytes);
    ghost var after := seq(|receivers|, i requires 0 <= i < |receivers| reads receivers => receivers[i].View());
    SendToActive(receivers, end, after);
  }

  method MulticastBytes(g: Geometry, ids: seq<nat>) returns (bytes: nat)
    ensures bytes == PayloadBytes(g, ids)
  {
    bytes := 0;
    for i := 0 to |ids|
      invariant bytes == PayloadBytes(g, ids[..i])
    {
      assert ids[..i + 1] == ids[..i] + [ids[i]];
      PayloadBytesSnoc(g, ids[..i], ids[i]);
      bytes := bytes + BlockSizeOf(g, ids[i]);
    }
    assert ids[..|ids|] == ids;
  }

  /** What a baseline round sends: shared blocks by multicast, sole blocks by unicast, in block order. */
  ghost predicate BaselineRound(conns: seq<Conn>, s: Section, g: Geometry, log: RoundLog) {
    && log.multicast == SharedMissing(conns, s, s.n)
    && log.tasks == [] && log.peerBlocks == 0
    && (forall t :: 0 <= t < |conns| ==> UnicastTo(log.unicast, t) == SoleMissing(conns, s, t, s.n))
    && (forall i :: 0 <= i < |log.unicast| ==> log.unicast[i].target < |conns|)
    && log.blocksRead == |log.multicast| + |log.unicast|
    && log.payloadBytes == PayloadBytes(g, log.multicast) + PayloadBytes(g, BlocksSent(log.unicast))
  }

  /** `send_repair_round`. */
  method SendRepairRound(receivers: Receivers, s: Section, g: Geometry,
                         begin: nat -> bool, end: nat -> bool, ghost conns: seq<Conn>)
    returns (log: RoundLog)
    requires Distinct(receivers) && Seen(receivers, conns)
    modifies receivers`connected
    ensures BaselineRound(Broadcast(conns, begin), s, g, log)
  {
    hide AllTargets, PayloadBytes, UnicastTo, BlocksSent, BlockSizeOf;
    ghost var current := Broadcast(conns, begin);
    SendToActive(receivers, begin, conns);
    var multicast, unicast, bytes := [], [], 0;
    NothingSent(g);
    NoBytes(g);
    for block := 0 to s.n
      invariant Seen(receivers, current)
      invariant multicast == SharedMissing(current, s, block)
      invariant forall t :: 0 <= t < |current| ==> UnicastTo(unicast, t) == SoleMissing(current, s, t, block)
      invariant forall i :: 0 <= i < |unicast| ==> unicast[i].target < |current|
      invariant bytes == PayloadBytes(g, multicast) + PayloadBytes(g, BlocksSent(unicast))
    {
      var targets := MissingTargets(receivers, block, current);
      var id := s.first + block;
      if targets == [] {
        continue;
      }
      if |targets| >= MULTICAST_THRESHOLD {
        PayloadBytesSnoc(g, multicast, id);
        multicast := multicast + [id];
        bytes := bytes + BlockSizeOf(g, id);
      } else {
        TargetInRange(current, block);
        var packet := Unicast(targets[0], id);
        assert targets == [targets[0]];
        PayloadBytesSnoc(g, BlocksSent(unicast), id);
        forall t: nat ensures UnicastTo(unicast + [packet], t)
                           == UnicastTo(unicast, t) + (if t == targets[0] then [id] else [])
        {
          UnicastSnoc(unicast, packet, t);
        }
        UnicastSnoc(unicast, packet, targets[0]);
        unicast := unicast + [packet];
        bytes := bytes + BlockSizeOf(g, id);
      }
    }
    log := RoundLog(multicast, [], unicast, |multicast| + |unicast|, 0, bytes);
    SendToActive(receivers, end, current);
  }

  lemma NoBytes(g: Geometry)
    ensures PayloadBytes(g, []) == 0
  {
  }
}
