/** The dispatch pipeline of Dispatch.dfy with what its worker does to the receivers: each
    `distribute_section` call is a journey of SectionRounds.dfy. The worker goes on after a digest
    mismatch, so a delivered section says nothing about earlier ones unless the results do; with the
    reports in TCP order they do. */
module DispatchedTransfer {
  import opened Common
  import opened Sections
  import opened Messages
  import opened Connections
  import opened Receiver
  import opened ReceiverSafety
  import opened SectionBarrier
  import opened SectionScript
  import opened SectionRounds
  import opened Mismatch
  import opened ReportOrder
  import Dispatch
  import DirectTransfer

  // ----- Two threads and the receivers

  datatype Joint = Joint(threads: Dispatch.State, system: System)

  datatype JointStep =
    | Threads(step: Dispatch.Step)                                  // not the end of a section
    | Delivers(result: Dispatch.DeliveryResult, trace: seq<Action>, script: Script, maxRounds: uint32,
               backfillAfter: uint32)
    | Throws(trace: seq<Action>)
    | Own(i: nat, event: Event, outcome: Outcome)                   // a receiver's own step

  /** The thread step inside a joint step. */
  function ThreadStep(step: JointStep): Dispatch.Step
    requires !step.Own?
  {
    match step
    case Threads(step) => step
    case Delivers(result, _, _, _, _) => Dispatch.WorkerDelivers(result)
    case Throws(_) => Dispatch.WorkerThrows
  }

  /** Only the worker's calls touch the records, as the contract of `DistributeSection` says; an exception
      leaves the section undelivered. */
  ghost predicate SystemStep(w: World, a: Joint, step: JointStep, t: System) {
    match step
    case Threads(d) => !d.WorkerDelivers? && !d.WorkerThrows? && t == a.system
    case Delivers(result, trace, script, maxRounds, backfillAfter) =>
      && a.threads.worker.Distributing? && a.threads.worker.task.section < U32 && a.system.proxy.current.Some?
      && var section := a.threads.worker.task.section;
         && Playable(w, Peers(a.system), script, maxRounds)
         && Distributed(w, false, a.system, section, result, trace, t)
         && SameVerdict(Play(a.system, section, script, maxRounds, backfillAfter), (result, t))
    case Throws(trace) => Leads(w, false, a.system, trace, t) && t.proxy == a.system.proxy
    case Own(i, event, outcome) => SectionBarrier.Next(w, a.system, OfMember(i, ReceiverStep(event, outcome)), t)
  }

  ghost predicate JointNext(w: World, g: Geometry, n: nat, a: Joint, step: JointStep, b: Joint) {
    && SystemStep(w, a, step, b.system)
    && if step.Own? then b.threads == a.threads
       else
         && Dispatch.Enabled(g, n, a.threads, ThreadStep(step))
         && b.threads == Dispatch.Next(g, a.threads, ThreadStep(step))
  }

  /** `begin_receiver_transfer` has returned, and the worker is started. */
  ghost predicate JointStart(w: World, meta: FileMeta, a: Joint) {
    && a.threads == Dispatch.START && SysInv(w, a.system)
    && Underway(a.system.proxy, meta) && a.system.proxy.delivered == {}
  }

  ghost predicate JointReaches(w: World, meta: FileMeta, n: nat, schedule: seq<JointStep>, b: Joint)
    decreases |schedule|
  {
    if schedule == [] then JointStart(w, meta, b)
    else
      var init, last := schedule[..|schedule| - 1], schedule[|schedule| - 1];
      exists a :: JointReaches(w, meta, n, init, a) && JointNext(w, meta.geometry, n, a, last, b)
  }

  // ----- The log and the delivered sections

  predicate Succeeded(log: seq<Dispatch.Finished>, k: nat) {
    k < |log| && log[k].result == Dispatch.Success
  }

  /** A section has been delivered if and only if its logged result is Success. */
  ghost predicate Logged(a: Joint) {
    forall k: uint32 :: k in a.system.proxy.delivered <==> Succeeded(a.threads.log, k)
  }

  ghost predicate JointInv(w: World, meta: FileMeta, n: nat, a: Joint) {
    && Dispatch.Inv(meta.geometry, n, a.threads) && SysInv(w, a.system) && Logged(a)
    && Underway(a.system.proxy, meta)
  }

  lemma StartJoint(w: World, meta: FileMeta, n: nat, a: Joint)
    requires Dispatch.Pipeline(meta.geometry, n) && JointStart(w, meta, a)
    ensures JointInv(w, meta, n, a)
  {
    hide SysInv, Dispatch.Inv;
    Dispatch.StartHolds(meta.geometry, n);
  }

  lemma SystemStepKeeps(w: World, a: Joint, step: JointStep, t: System)
    requires ReceiverSafety.Sound(w) && SysInv(w, a.system) && SystemStep(w, a, step, t)
    ensures SysInv(w, t)
    ensures t.proxy == if step.Delivers? && step.result == Dispatch.Success
                       then a.system.proxy.(delivered := a.system.proxy.delivered + {a.threads.worker.task.section})
                       else a.system.proxy
  {
    hide SysInv, Leads, MemberStep, AllSettledNow, AnyFailed, Playable, Play, SameVerdict;
    match step
    case Threads(_) =>
    case Delivers(_, trace, _, _, _) => LeadsKeeps(w, false, a.system, trace, t);
    case Throws(trace) => LeadsKeeps(w, false, a.system, trace, t);
    case Own(i, event, outcome) => NextKeeps(w, a.system, OfMember(i, ReceiverStep(event, outcome)), t);
  }

  lemma ThreadStepKeeps(g: Geometry, n: nat, s: Dispatch.State, step: Dispatch.Step)
    requires Dispatch.Pipeline(g, n) && Dispatch.Inv(g, n, s) && Dispatch.Enabled(g, n, s, step)
    ensures var t := Dispatch.Next(g, s, step);
      && Dispatch.Inv(g, n, t)
      && (!step.WorkerDelivers? ==> t.log == s.log)
      && (step.WorkerDelivers? ==>
            s.worker.Distributing? && s.worker.task.section == |s.log|
            && t.log == s.log + [Dispatch.Finished(|s.log|, step.result)])
  {
    hide Dispatch.QueueOk, Dispatch.BytesOk, Dispatch.ProducerOk, Dispatch.WakeupsOk, SectionBytes, Dispatch.Pipeline,
      Dispatch.AfterTake, Dispatch.AfterResult, Dispatch.AfterThrow, Dispatch.PushOutcome, Dispatch.AfterPush;
    Dispatch.StepKeeps(g, n, s, step);
  }

  lemma JointKeeps(w: World, meta: FileMeta, n: nat, a: Joint, step: JointStep, b: Joint)
    requires ReceiverSafety.Sound(w) && Dispatch.Pipeline(meta.geometry, n)
    requires JointInv(w, meta, n, a) && JointNext(w, meta.geometry, n, a, step, b)
    ensures JointInv(w, meta, n, b)
  {
    hide SysInv, Dispatch.Inv, Dispatch.Next, Dispatch.Enabled, Distributed, Leads, SectionBarrier.Next, Playable,
      Play, SameVerdict;
    SystemStepKeeps(w, a, step, b.system);
    if !step.Own? {
      ThreadStepKeeps(meta.geometry, n, a.threads, ThreadStep(step));
    }
    LogKept(w, a, step, b);
  }

  lemma LogKept(w: World, a: Joint, step: JointStep, b: Joint)
    requires Logged(a) && SystemStep(w, a, step, b.system)
    requires b.system.proxy.delivered == a.system.proxy.delivered
                                         + if step.Delivers? && step.result == Dispatch.Success
                                           then {a.threads.worker.task.section} else {}
    requires if step.Delivers?
             then a.threads.worker.task.section == |a.threads.log|
                  && b.threads.log == a.threads.log + [Dispatch.Finished(|a.threads.log|, step.result)]
             else b.threads.log == a.threads.log
    ensures Logged(b)
  {
    hide Distributed, Leads, SectionBarrier.Next, Playable, Play, SameVerdict;
    forall k: uint32 ensures k in b.system.proxy.delivered <==> Succeeded(b.threads.log, k) {
      assert k in a.system.proxy.delivered <==> Succeeded(a.threads.log, k);
    }
  }

  lemma {:induction false} JointHolds(w: World, meta: FileMeta, n: nat, schedule: seq<JointStep>, a: Joint)
    requires ReceiverSafety.Sound(w) && Dispatch.Pipeline(meta.geometry, n) && JointReaches(w, meta, n, schedule, a)
    ensures JointInv(w, meta, n, a)
    decreases |schedule|
  {
    hide JointInv, JointStart, JointNext, Dispatch.Pipeline;
    if schedule == [] {
      StartJoint(w, meta, n, a);
    } else {
      var init, last := schedule[..|schedule| - 1], schedule[|schedule| - 1];
      var prior :| JointReaches(w, meta, n, init, prior) && JointNext(w, meta.geometry, n, prior, last, a);
      JointHolds(w, meta, n, init, prior);
      JointKeeps(w, meta, n, prior, last, a);
    }
  }

  /** What Dispatch.dfy proves of the two threads holds here too. */
  lemma {:induction false} ThreadsReach(w: World, meta: FileMeta, n: nat, schedule: seq<JointStep>, a: Joint)
    returns (run: seq<Dispatch.Step>)
    requires JointReaches(w, meta, n, schedule, a)
    ensures Dispatch.Reaches(meta.geometry, n, run, a.threads)
    decreases |schedule|
  {
    hide SystemStep, Dispatch.Next, Dispatch.Enabled, SysInv;
    if schedule == [] {
      run := [];
    } else {
      var init, last := schedule[..|schedule| - 1], schedule[|schedule| - 1];
      var prior :| JointReaches(w, meta, n, init, prior) && JointNext(w, meta.geometry, n, prior, last, a);
      run := ThreadsReach(w, meta, n, init, prior);
      if !last.Own? {
        run := run + [ThreadStep(last)];
        assert run[..|run| - 1] + [ThreadStep(last)] == run;
      }
    }
  }

  // ----- What the results mean

  /** In every reachable state the sections 0 to `n` - 1 have all been delivered if and only if their logged
      results are all Success; then every receiver that was never set aside in this transfer holds them
      all or has published. */
  lemma HeldIffLogged(w: World, meta: FileMeta, n: nat, schedule: seq<JointStep>, a: Joint, count: nat)
    requires ReceiverSafety.Sound(w) && Dispatch.Pipeline(meta.geometry, n) && JointReaches(w, meta, n, schedule, a)
    requires count <= n
    ensures (forall k: uint32 :: k < count ==> k in a.system.proxy.delivered)
       <==> (forall k :: 0 <= k < count ==> Succeeded(a.threads.log, k))
    ensures (forall k :: 0 <= k < count ==> Succeeded(a.threads.log, k)) ==>
              DirectTransfer.AllHold(w, a.system, meta.transferId, count)
  {
    hide SysInv, Dispatch.Inv, JointReaches, Succeeded, Holds;
    JointHolds(w, meta, n, schedule, a);
    DirectTransfer.CountFits(meta.geometry);
    if forall k: uint32 :: k < count ==> k in a.system.proxy.delivered {
      forall k | 0 <= k < count ensures Succeeded(a.threads.log, k) {
        assert (k as uint32) in a.system.proxy.delivered;
      }
    }
    if forall k :: 0 <= k < count ==> Succeeded(a.threads.log, k) {
      forall i: nat, k: uint32 | i < |a.system.members| && k < count && !a.system.members[i].skipped
        ensures Holds(w, a.system.members[i], meta.transferId, k)
      {
        DeliveredHeldNow(w, a.system, i, k);
      }
    }
  }

  /** What a digest mismatch in the middle leaves, whatever order the reports are read in: its section is
      not delivered. When the pipeline has finished without a failure, all sections were delivered if and
      only if none was logged as a mismatch; `section_result` is the last section's result alone. */
  lemma MismatchLeaves(w: World, meta: FileMeta, n: nat, schedule: seq<JointStep>, a: Joint)
    requires ReceiverSafety.Sound(w) && Dispatch.Pipeline(meta.geometry, n) && JointReaches(w, meta, n, schedule, a)
    ensures forall k: uint32 :: k < |a.threads.log| && a.threads.log[k].result == Dispatch.Sha256Mismatch ==>
                                  k !in a.system.proxy.delivered
    ensures a.threads.producer.ProducerGone? && !a.threads.shared.cancelled ==>
              && |a.threads.log| == n
              && a.threads.shared.sectionResult == a.threads.log[n - 1].result
              && ((forall k: uint32 :: k < n ==> k in a.system.proxy.delivered)
                  <==> (forall k :: 0 <= k < n ==> a.threads.log[k].result != Dispatch.Sha256Mismatch))
  {
    hide SysInv, Dispatch.Inv, JointReaches, Holds, Dispatch.Reaches, DirectTransfer.AllHold;
    JointHolds(w, meta, n, schedule, a);
    if a.threads.producer.ProducerGone? && !a.threads.shared.cancelled {
      var run := ThreadsReach(w, meta, n, schedule, a);
      CountIsCeiling(meta.geometry);
      Dispatch.CleanFinish(meta.geometry, n, run, a.threads);
      HeldIffLogged(w, meta, n, schedule, a, n);
      assert forall k :: 0 <= k < n ==> (Succeeded(a.threads.log, k)
                                         <==> a.threads.log[k].result != Dispatch.Sha256Mismatch);
    }
  }

  // ----- Reports in the order of TCP

  /** The joint state, and how much of what each receiver sent has been read. */
  datatype Ordered = Ordered(joint: Joint, cursors: seq<nat>)

  /** Reports are read in order, and BACKFILL_END is not sent before the pipeline has ended. */
  ghost predicate OrderedNext(w: World, g: Geometry, n: nat, a: Ordered, step: JointStep, b: Ordered) {
    && JointNext(w, g, n, a.joint, step, b.joint)
    && match step
       case Threads(_) => b.cursors == a.cursors
       case Delivers(_, _, script, maxRounds, _) =>
         Orderly(a.cursors, script, maxRounds) && b.cursors == CursorsAfter(a.cursors, script, 0, maxRounds)
       case Throws(_) => true
       case Own(_, event, _) => !IsBackfillEnd(event) && b.cursors == a.cursors
  }

  /** The records hold no status yet, and none that is unread says that this transfer has failed. */
  ghost predicate OrderedStart(w: World, meta: FileMeta, a: Ordered) {
    && JointStart(w, meta, a.joint) && |a.cursors| == |a.joint.system.members|
    && forall i :: 0 <= i < |a.cursors| ==> NothingFailed(a.joint.system.members[i], a.cursors[i], meta.transferId)
  }

  predicate NothingFailed(m: Member, c: nat, id: uint64) {
    m.conn.status.None? && forall q :: c <= q < |m.sent| ==> !FailedStatus(m.sent[q], id)
  }

  ghost predicate OrderedReaches(w: World, meta: FileMeta, n: nat, schedule: seq<JointStep>, b: Ordered)
    decreases |schedule|
  {
    if schedule == [] then OrderedStart(w, meta, b)
    else
      var init, last := schedule[..|schedule| - 1], schedule[|schedule| - 1];
      exists a :: OrderedReaches(w, meta, n, init, a) && OrderedNext(w, meta.geometry, n, a, last, b)
  }

  lemma {:induction false} OrderedIsJoint(w: World, meta: FileMeta, n: nat, schedule: seq<JointStep>, a: Ordered)
    requires OrderedReaches(w, meta, n, schedule, a)
    ensures JointReaches(w, meta, n, schedule, a.joint)
    decreases |schedule|
  {
    hide JointNext, JointStart;
    if schedule != [] {
      var init, last := schedule[..|schedule| - 1], schedule[|schedule| - 1];
      var prior :| OrderedReaches(w, meta, n, init, prior) && OrderedNext(w, meta.geometry, n, prior, last, a);
      OrderedIsJoint(w, meta, n, init, prior);
    }
  }

  predicate SawMismatch(log: seq<Dispatch.Finished>) {
    exists k :: 0 <= k < |log| && log[k].result == Dispatch.Sha256Mismatch
  }

  /** Once a section has ended in a mismatch, none succeeds. */
  predicate MismatchIsFinal(log: seq<Dispatch.Finished>) {
    forall j, k :: 0 <= j < k < |log| && log[j].result == Dispatch.Sha256Mismatch ==> log[k].result != Dispatch.Success
  }

  ghost predicate OrderedInv(w: World, meta: FileMeta, a: Ordered) {
    && MismatchIsFinal(a.joint.threads.log)
    && (!a.joint.threads.shared.workerFailed ==>
          && Lanes(w, a.joint.system, a.cursors, meta.transferId)
          && (SawMismatch(a.joint.threads.log) ==> SomeDoomed(w, a.joint.system, a.cursors, meta.transferId)))
  }

  lemma OrderedStarts(w: World, meta: FileMeta, a: Ordered)
    requires OrderedStart(w, meta, a)
    ensures OrderedInv(w, meta, a)
  {
    hide Inv, AckFollows, Condemned, HarmlessFrom, Truthful, AllCovered, ClaimTrue, FailedStatus;
    var s := a.joint.system;
    forall i | 0 <= i < |s.members| ensures LaneOk(w, s.members[i], a.cursors[i], meta.transferId) {
      assert NothingFailed(s.members[i], a.cursors[i], meta.transferId);
      assert MemberOk(w, s.members[i], s.proxy);
    }
  }

  lemma FailureStays(g: Geometry, n: nat, s: Dispatch.State, step: Dispatch.Step)
    requires Dispatch.Inv(g, n, s) && Dispatch.Enabled(g, n, s, step)
    ensures var t := Dispatch.Next(g, s, step);
      && (s.shared.workerFailed || step.WorkerThrows? ==> t.shared.workerFailed)
      && (step.WorkerDelivers? ==> !s.shared.workerFailed)
  {
    hide Dispatch.QueueOk, Dispatch.BytesOk, Dispatch.ProducerOk, Dispatch.WakeupsOk, Dispatch.TaskOf,
      Dispatch.PushOutcome;
  }

  lemma OwnStepOrdered(w: World, s: System, cursors: seq<nat>, i: nat, event: Event, outcome: Outcome, t: System,
                       id: uint64)
    requires Sound(w) && Lanes(w, s, cursors, id) && !IsBackfillEnd(event)
    requires SectionBarrier.Next(w, s, OfMember(i, ReceiverStep(event, outcome)), t)
    ensures Lanes(w, t, cursors, id) && (SomeDoomed(w, s, cursors, id) ==> SomeDoomed(w, t, cursors, id))
  {
    hide LaneOk, Doomed, Step, HonestEvent, OrphanedBy, WatchedOk, StayDoomed, SomeDoomed;
    OwnKeeps(w, s.members[i], cursors[i], id, event, outcome);
    OneLane(w, s, cursors, i, t.members[i], cursors[i], id);
    assert t == s.(members := s.members[i := t.members[i]]) && cursors[i := cursors[i]] == cursors;
    StillSome(w, s, cursors, t, cursors, id);
  }

  lemma LogGoesOn(log: seq<Dispatch.Finished>, result: Dispatch.DeliveryResult)
    requires MismatchIsFinal(log) && (result == Dispatch.Success ==> !SawMismatch(log))
    ensures var more := log + [Dispatch.Finished(|log|, result)];
            MismatchIsFinal(more) && (SawMismatch(more) <==> SawMismatch(log) || result == Dispatch.Sha256Mismatch)
  {
    var more := log + [Dispatch.Finished(|log|, result)];
    if SawMismatch(log) {
      var k :| 0 <= k < |log| && log[k].result == Dispatch.Sha256Mismatch;
      assert more[k].result == Dispatch.Sha256Mismatch;
    }
    if result == Dispatch.Sha256Mismatch {
      assert more[|log|].result == Dispatch.Sha256Mismatch;
    }
  }

  lemma DeliveryOrdered(w: World, meta: FileMeta, a: Ordered, result: Dispatch.DeliveryResult, section: uint32,
                        script: Script, maxRounds: uint32, backfillAfter: uint32, t: System)
    requires Sound(w) && Lanes(w, a.joint.system, a.cursors, meta.transferId)
    requires a.joint.system.proxy.current == Some(meta)
    requires Playable(w, Peers(a.joint.system), script, maxRounds) && Orderly(a.cursors, script, maxRounds)
    requires SameVerdict(Play(a.joint.system, section, script, maxRounds, backfillAfter), (result, t))
    ensures EndsInOrder(w, a.joint.system, a.cursors, result, t, CursorsAfter(a.cursors, script, 0, maxRounds),
                        meta.transferId)
  {
    hide Lanes, Playable, Orderly, Play, CursorsAfter, SomeDoomed, Peers, Alike;
    var u := Play(a.joint.system, section, script, maxRounds, backfillAfter).1;
    SectionKeeps(w, a.joint.system, a.cursors, section, script, maxRounds, backfillAfter, meta.transferId);
    LanesAlike(w, u, t, CursorsAfter(a.cursors, script, 0, maxRounds), meta.transferId);
  }

  lemma OrderedKeeps(w: World, meta: FileMeta, n: nat, a: Ordered, step: JointStep, b: Ordered)
    requires Sound(w) && Dispatch.Pipeline(meta.geometry, n)
    requires JointInv(w, meta, n, a.joint) && OrderedInv(w, meta, a) && OrderedNext(w, meta.geometry, n, a, step, b)
    ensures OrderedInv(w, meta, b)
  {
    hide SysInv, Dispatch.Inv, Dispatch.Next, Dispatch.Enabled, Distributed, Leads, SectionBarrier.Next, Lanes,
      SomeDoomed, Playable, Play, Orderly, CursorsAfter, SameVerdict, MismatchIsFinal, SawMismatch;
    if !step.Own? {
      ThreadStepKeeps(meta.geometry, n, a.joint.threads, ThreadStep(step));
      FailureStays(meta.geometry, n, a.joint.threads, ThreadStep(step));
    }
    match step
    case Delivers(result, _, script, maxRounds, backfillAfter) =>
      DeliveryOrdered(w, meta, a, result, a.joint.threads.worker.task.section, script, maxRounds, backfillAfter,
                      b.joint.system);
      LogGoesOn(a.joint.threads.log, result);
    case Own(i, event, outcome) =>
      if !a.joint.threads.shared.workerFailed {
        OwnStepOrdered(w, a.joint.system, a.cursors, i, event, outcome, b.joint.system, meta.transferId);
      }
    case _ =>
  }

  lemma {:induction false} OrderedHolds(w: World, meta: FileMeta, n: nat, schedule: seq<JointStep>, a: Ordered)
    requires Sound(w) && Dispatch.Pipeline(meta.geometry, n) && OrderedReaches(w, meta, n, schedule, a)
    ensures OrderedInv(w, meta, a)
    decreases |schedule|
  {
    hide JointInv, OrderedInv, OrderedStart, JointNext, JointReaches, Dispatch.Pipeline;
    if schedule == [] {
      OrderedStarts(w, meta, a);
    } else {
      var init, last := schedule[..|schedule| - 1], schedule[|schedule| - 1];
      var prior :| OrderedReaches(w, meta, n, init, prior) && OrderedNext(w, meta.geometry, n, prior, last, a);
      OrderedHolds(w, meta, n, init, prior);
      OrderedIsJoint(w, meta, n, init, prior);
      JointHolds(w, meta, n, init, prior.joint);
      OrderedKeeps(w, meta, n, prior, last, a);
    }
  }

  /** With the reports in TCP order a digest mismatch is never overwritten: no section that comes after one
      succeeds. When the pipeline has finished without a failure, `section_result` is Success if and only
      if every section was delivered, and then every receiver that was never set aside holds them all or
      has published. */
  lemma SuccessDeliversAll(w: World, meta: FileMeta, n: nat, schedule: seq<JointStep>, a: Ordered)
    requires Sound(w) && Dispatch.Pipeline(meta.geometry, n) && OrderedReaches(w, meta, n, schedule, a)
    ensures MismatchIsFinal(a.joint.threads.log)
    ensures var threads, s := a.joint.threads, a.joint.system;
      threads.producer.ProducerGone? && !threads.shared.cancelled ==>
        && (threads.shared.sectionResult == Dispatch.Success
            <==> forall k: uint32 :: k < n ==> k in s.proxy.delivered)
        && (threads.shared.sectionResult == Dispatch.Success ==> DirectTransfer.AllHold(w, s, meta.transferId, n))
  {
    hide SysInv, Dispatch.Inv, JointReaches, OrderedReaches, Lanes, SomeDoomed, DirectTransfer.AllHold;
    OrderedHolds(w, meta, n, schedule, a);
    OrderedIsJoint(w, meta, n, schedule, a);
    var log := a.joint.threads.log;
    if a.joint.threads.producer.ProducerGone? && !a.joint.threads.shared.cancelled {
      MismatchLeaves(w, meta, n, schedule, a.joint);
      HeldIffLogged(w, meta, n, schedule, a.joint, n);
      CountIsCeiling(meta.geometry);
      NoneBefore(log, n);
      if forall k :: 0 <= k < n ==> Succeeded(log, k) {
        assert Succeeded(log, n - 1);
      }
    }
  }

  /** In such a log a last Success means that there was no mismatch. */
  lemma NoneBefore(log: seq<Dispatch.Finished>, n: nat)
    requires MismatchIsFinal(log) && |log| == n && 0 < n
    ensures log[n - 1].result == Dispatch.Success ==>
              forall k :: 0 <= k < n ==> log[k].result != Dispatch.Sha256Mismatch
  {
  }
}
