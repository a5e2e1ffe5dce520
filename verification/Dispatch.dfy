/** The dispatch pipeline inside `receive_cached_file_from_central` (src/sender.cpp): a producer and
    a worker share a queue, a byte counter and one condition variable. Critical sections are methods
    of DispatchState; the two threads are a transition system whose steps are those critical
    sections, sleeping, waking (spuriously too) and notifying. */
module Dispatch {
  import opened Common
  import opened Sections

  datatype DeliveryResult = Success | Failed | Sha256Mismatch

  datatype Task = Task(section: nat, bytes: nat)

  // ----- The shared variables and their critical sections

  datatype Shared = Shared(
    queue: seq<Task>, pending: uint64, producerDone: bool, cancelled: bool, workerFailed: bool,
    sectionResult: DeliveryResult)

  const EMPTY := Shared([], 0, false, false, false, Success)

  function HighWatermark(g: Geometry): nat {
    MaximumSectionBytes(g) * 4
  }

  function LowWatermark(g: Geometry): nat {
    MaximumSectionBytes(g) * 2
  }

  /** Unsigned 64-bit addition and subtraction. */
  function Plus(a: uint64, b: nat): uint64 {
    (a + b) % U64
  }

  function Minus(a: uint64, b: nat): uint64 {
    (a - b) % U64
  }

  /** The predicate the worker waits for. */
  predicate WorkerMayRun(s: Shared) {
    s.cancelled || s.producerDone || s.queue != []
  }

  /** The predicate the producer waits for. */
  predicate ProducerMayRun(s: Shared, g: Geometry) {
    s.workerFailed || s.cancelled || s.pending <= LowWatermark(g)
  }

  datatype Taken = MustSleep | Leave | Take(task: Task)

  function TakeOutcome(s: Shared): Taken {
    if !WorkerMayRun(s) then MustSleep
    else if s.cancelled || s.queue == [] then Leave
    else Take(s.queue[0])
  }

  function AfterTake(s: Shared): Shared {
    if TakeOutcome(s).Take? then s.(queue := s.queue[1..]) else s
  }

  function AfterResult(s: Shared, task: Task, result: DeliveryResult): Shared {
    var t := s.(pending := Minus(s.pending, task.bytes), sectionResult := result);
    if result == Failed then t.(workerFailed := true, cancelled := true) else t
  }

  /** `distribute_section` threw. */
  function AfterThrow(s: Shared, task: Task): Shared {
    s.(pending := Minus(s.pending, task.bytes), workerFailed := true, cancelled := true)
  }

  datatype Pushed = Full | Refused | Accepted

  /** `first` is the attempt before any wait, which looks at the high watermark. */
  function PushOutcome(s: Shared, g: Geometry, task: Task, first: bool): Pushed {
    if (!first || Plus(s.pending, task.bytes) > HighWatermark(g)) && !ProducerMayRun(s, g) then Full
    else if s.workerFailed || s.cancelled then Refused
    else Accepted
  }

  function AfterPush(s: Shared, task: Task): Shared {
    s.(queue := s.queue + [task], pending := Plus(s.pending, task.bytes))
  }

  /** `complete_dispatch`. */
  function AfterFinish(s: Shared): Shared {
    s.(producerDone := true)
  }

  /** `stop_dispatch`. */
  function AfterCancel(s: Shared): Shared {
    s.(cancelled := true)
  }

  class DispatchState {
    var queue: seq<Task>
    var pendingBytes: uint64
    var producerDone: bool
    var cancelDispatch: bool
    var workerFailed: bool
    var sectionResult: DeliveryResult

    constructor ()
      ensures View() == EMPTY
    {
      queue, pendingBytes := [], 0;
      producerDone, cancelDispatch, workerFailed := false, false, false;
      sectionResult := Success;
    }

    function View(): Shared
      reads this
    {
      Shared(queue, pendingBytes, producerDone, cancelDispatch, workerFailed, sectionResult)
    }

    method TakeTask() returns (taken: Taken)
      modifies this
      ensures taken == TakeOutcome(old(View())) && View() == AfterTake(old(View()))
      ensures old(cancelDispatch) ==> taken == Leave && queue == old(queue)
      ensures !old(cancelDispatch) && old(queue) != [] ==> taken == Take(old(queue)[0]) && queue == old(queue)[1..]
      ensures !old(cancelDispatch) && old(queue) == [] ==> taken == if producerDone then Leave else MustSleep
    {
      if !(cancelDispatch || producerDone || queue != []) {
        return MustSleep;
      }
      if cancelDispatch {
        return Leave;
      }
      if queue == [] {
        return Leave;
      }
      taken := Take(queue[0]);
      queue := queue[1..];
    }

    method RecordResult(task: Task, result: DeliveryResult) returns (failed: bool)
      modifies this
      ensures View() == AfterResult(old(View()), task, result) && failed == (result == Failed)
    {
      failed := result == Failed;
      pendingBytes := Minus(pendingBytes, task.bytes);
      sectionResult := result;
      if failed {
        workerFailed := true;
        cancelDispatch := true;
      }
    }

    method RecordThrow(task: Task)
      modifies this
      ensures View() == AfterThrow(old(View()), task)
    {
      pendingBytes := Minus(pendingBytes, task.bytes);
      workerFailed := true;
      cancelDispatch := true;
    }

    /** `enqueue_section` from lock to unlock; Full stands for going to sleep. The first attempt goes through
        while four sections' worth of bytes are not exceeded, a later one when at most two are left. */
    method PushTask(g: Geometry, task: Task, first: bool) returns (pushed: Pushed)
      modifies this
      ensures pushed == PushOutcome(old(View()), g, task, first)
      ensures View() == if pushed == Accepted then AfterPush(old(View()), task) else old(View())
      ensures old(workerFailed || cancelDispatch) ==> pushed == Refused
      ensures !old(workerFailed || cancelDispatch) ==>
                var room := old(pendingBytes) <= 2 * MaximumSectionBytes(g)
                            || (first && (old(pendingBytes) + task.bytes) % U64 <= 4 * MaximumSectionBytes(g));
                pushed == if room then Accepted else Full
    {
      if !first || Plus(pendingBytes, task.bytes) > HighWatermark(g) {
        if !(workerFailed || cancelDispatch || pendingBytes <= LowWatermark(g)) {
          return Full;
        }
      }
      if workerFailed {
        return Refused;
      } else if cancelDispatch {
        return Refused;
      }
      queue := queue + [task];
      pendingBytes := Plus(pendingBytes, task.bytes);
      return Accepted;
    }

    method FinishProducing()
      modifies this
      ensures View() == AfterFinish(old(View()))
    {
      producerDone := true;
    }

    method Cancel()
      modifies this
      ensures View() == AfterCancel(old(View()))
    {
      cancelDispatch := true;
    }
  }

  // ----- The two threads

  datatype WorkerAt =
    | Acquiring                    // about to lock and test the predicate
    | WorkerAsleep                 // in `wait`
    | Distributing(task: Task)     // in `distribute_section`, no lock held
    | WorkerNotifying(stop: bool)  // lock released, `notify_all` pending
    | WorkerGone

  datatype ProducerAt =
    | Feeding                      // between frames from central
    | Pushing(task: Task)          // about to lock in `enqueue_section`
    | ProducerAsleep(task: Task)   // in `wait`
    | Retrying(task: Task)         // woken, about to relock and test the predicate
    | NotifyingPush                // `notify_one` pending
    | Stopping                     // an exception reached `stop_dispatch`
    | NotifyingEnd                 // `notify_all` of `complete_dispatch` or `stop_dispatch` pending
    | Joining
    | ProducerGone

  /** One finished `distribute_section` call. */
  datatype Finished = Finished(section: nat, result: DeliveryResult)

  /** `next` sections were enqueued; `log` lists what the worker finished without an exception. */
  datatype State = State(shared: Shared, worker: WorkerAt, producer: ProducerAt, next: nat, log: seq<Finished>)

  const START := State(EMPTY, Acquiring, Feeding, 0, [])

  datatype Step =
    | WorkerTakes
    | WorkerDelivers(result: DeliveryResult)
    | WorkerThrows
    | WorkerNotifies
    | WorkerWakesUp                // spurious
    | ProducerOffers
    | ProducerPushes
    | ProducerNotifies
    | ProducerWakesUp              // spurious
    | ProducerFinishes
    | ProducerFails                // an error while talking to central, or a worker failure noticed
    | ProducerCancels
    | ProducerJoins

  function TaskOf(g: Geometry, section: nat): Task {
    var bytes := SectionBytes(g, section);
    Task(section, if bytes < 0 then 0 else bytes)
  }

  function WakeWorker(w: WorkerAt): WorkerAt {
    if w.WorkerAsleep? then Acquiring else w
  }

  function WakeProducer(p: ProducerAt): ProducerAt {
    if p.ProducerAsleep? then Retrying(p.task) else p
  }

  predicate Enabled(g: Geometry, n: nat, s: State, step: Step) {
    match step
    case WorkerTakes => s.worker.Acquiring?
    case WorkerDelivers(_) => s.worker.Distributing?
    case WorkerThrows => s.worker.Distributing?
    case WorkerNotifies => s.worker.WorkerNotifying?
    case WorkerWakesUp => s.worker.WorkerAsleep?
    case ProducerOffers => s.producer.Feeding? && s.next < n
    case ProducerPushes => s.producer.Pushing? || s.producer.Retrying?
    case ProducerNotifies => s.producer.NotifyingPush? || s.producer.NotifyingEnd?
    case ProducerWakesUp => s.producer.ProducerAsleep?
    case ProducerFinishes => s.producer.Feeding? && s.next == n
    case ProducerFails => s.producer.Feeding?
    case ProducerCancels => s.producer.Stopping?
    case ProducerJoins => s.producer.Joining? && s.worker.WorkerGone?
  }

  function Push(g: Geometry, s: State, task: Task, first: bool): State {
    match PushOutcome(s.shared, g, task, first)
    case Full => s.(producer := ProducerAsleep(task))
    case Refused => s.(producer := Stopping)
    case Accepted => s.(shared := AfterPush(s.shared, task), producer := NotifyingPush, next := s.next + 1)
  }

  function Next(g: Geometry, s: State, step: Step): State {
    match step
    case WorkerTakes =>
      s.(shared := AfterTake(s.shared),
         worker := match TakeOutcome(s.shared)
                   case MustSleep => WorkerAsleep
                   case Leave => WorkerGone
                   case Take(task) => Distributing(task))
    case WorkerDelivers(result) =>
      if s.worker.Distributing? then
        s.(shared := AfterResult(s.shared, s.worker.task, result), worker := WorkerNotifying(result == Failed),
           log := s.log + [Finished(s.worker.task.section, result)])
      else s
    case WorkerThrows =>
      if s.worker.Distributing? then
        s.(shared := AfterThrow(s.shared, s.worker.task), worker := WorkerNotifying(true))
      else s
    case WorkerNotifies =>
      s.(producer := WakeProducer(s.producer),
         worker := if s.worker.WorkerNotifying? && s.worker.stop then WorkerGone else Acquiring)
    case WorkerWakesUp => s.(worker := Acquiring)
    case ProducerOffers => s.(producer := Pushing(TaskOf(g, s.next)))
    case ProducerPushes =>
      if s.producer.Pushing? then Push(g, s, s.producer.task, true)
      else if s.producer.Retrying? then Push(g, s, s.producer.task, false)
      else s
    case ProducerNotifies =>
      s.(worker := WakeWorker(s.worker), producer := if s.producer.NotifyingPush? then Feeding else Joining)
    case ProducerWakesUp => s.(producer := WakeProducer(s.producer))
    case ProducerFinishes => s.(shared := AfterFinish(s.shared), producer := NotifyingEnd)
    case ProducerFails => s.(producer := Stopping)
    case ProducerCancels => s.(shared := AfterCancel(s.shared), producer := NotifyingEnd)
    case ProducerJoins => s.(producer := ProducerGone)
  }

  // ----- The invariant

  function QueueBytes(queue: seq<Task>): nat
    decreases |queue|
  {
    if queue == [] then 0 else QueueBytes(queue[..|queue| - 1]) + queue[|queue| - 1].bytes
  }

  function InFlight(w: WorkerAt): nat {
    if w.Distributing? then w.task.bytes else 0
  }

  /** First section still in the queue. */
  function QueueStart(s: State): int {
    s.next - |s.shared.queue|
  }

  ghost predicate QueueOk(g: Geometry, n: nat, s: State) {
    && s.next <= n && |s.shared.queue| <= s.next
    && forall i :: 0 <= i < |s.shared.queue| ==> s.shared.queue[i] == TaskOf(g, QueueStart(s) + i)
  }

  /** The byte counter is exact: what is queued plus what the worker holds. */
  ghost predicate BytesOk(g: Geometry, s: State) {
    s.shared.pending == QueueBytes(s.shared.queue) + InFlight(s.worker) <= HighWatermark(g)
  }

  /** Where the worker is in the sequence of sections. */
  ghost predicate WorkerOk(g: Geometry, n: nat, s: State) {
    && (s.worker.Distributing? ==>
          && QueueStart(s) > 0 && s.worker.task == TaskOf(g, QueueStart(s) - 1)
          && |s.log| == QueueStart(s) - 1)
    && (!s.worker.Distributing? && !s.shared.workerFailed ==> |s.log| == QueueStart(s))
    && (forall i :: 0 <= i < |s.log| ==> s.log[i].section == i)
    && (!s.shared.workerFailed ==> forall i :: 0 <= i < |s.log| ==> s.log[i].result != Failed)
    && (s.log != [] && !s.shared.workerFailed ==> s.shared.sectionResult == s.log[|s.log| - 1].result)
    && (s.worker.WorkerNotifying? ==> s.worker.stop == s.shared.workerFailed)
    && (s.worker.Distributing? || s.worker.Acquiring? || s.worker.WorkerAsleep? ==> !s.shared.workerFailed)
    && (s.worker.WorkerGone? ==> s.shared.cancelled || (s.shared.producerDone && s.shared.queue == []))
    && (s.shared.workerFailed ==> s.shared.cancelled)
  }

  ghost predicate ProducerOk(g: Geometry, n: nat, s: State) {
    && (s.producer.Pushing? || s.producer.ProducerAsleep? || s.producer.Retrying? ==>
          s.next < n && s.producer.task == TaskOf(g, s.next))
    && (s.shared.producerDone ==>
          s.next == n && (s.producer.NotifyingEnd? || s.producer.Joining? || s.producer.ProducerGone?))
    && (s.shared.cancelled && !s.shared.workerFailed ==>
          s.producer.NotifyingEnd? || s.producer.Joining? || s.producer.ProducerGone?)
    && (s.producer.NotifyingEnd? || s.producer.Joining? || s.producer.ProducerGone? ==>
          s.shared.producerDone || s.shared.cancelled)
    && (s.producer.ProducerGone? ==> s.worker.WorkerGone?)
  }

  /** No wake-up is lost: a thread asleep although it may run is about to be notified. */
  ghost predicate WakeupsOk(g: Geometry, s: State) {
    && (s.worker.WorkerAsleep? && WorkerMayRun(s.shared) ==> s.producer.NotifyingPush? || s.producer.NotifyingEnd?)
    && (s.producer.ProducerAsleep? && ProducerMayRun(s.shared, g) ==> s.worker.WorkerNotifying?)
  }

  ghost predicate Inv(g: Geometry, n: nat, s: State) {
    QueueOk(g, n, s) && BytesOk(g, s) && WorkerOk(g, n, s) && ProducerOk(g, n, s) && WakeupsOk(g, s)
  }

  /** `n` sections of an admitted transfer are dispatched. */
  ghost predicate Pipeline(g: Geometry, n: nat) {
    Valid(g) && n == Count(g)
  }

  // ----- Byte arithmetic

  /** The 64-bit counter has room: five sections of at most 2^32 blocks never reach 2^64. */
  lemma WatermarkFits(g: Geometry)
    ensures HighWatermark(g) + MaximumSectionBytes(g) < U64
  {
  }

  lemma {:induction false} QueueBytesFront(queue: seq<Task>)
    requires queue != []
    ensures QueueBytes(queue) == queue[0].bytes + QueueBytes(queue[1..])
    decreases |queue|
  {
    if |queue| > 1 {
      QueueBytesFront(queue[..|queue| - 1]);
      assert queue[1..][..|queue| - 2] == queue[..|queue| - 1][1..];
    }
  }

  lemma QueueBytesBack(queue: seq<Task>, task: Task)
    ensures QueueBytes(queue + [task]) == QueueBytes(queue) + task.bytes
  {
    assert (queue + [task])[..|queue|] == queue;
  }

  lemma TaskBytes(g: Geometry, n: nat, section: nat)
    requires Pipeline(g, n) && section < n
    ensures TaskOf(g, section).section == section && 1 <= TaskOf(g, section).bytes <= MaximumSectionBytes(g)
  {
    SectionBytesBounds(g, section);
  }

  // ----- Every step keeps the invariant

  lemma StartHolds(g: Geometry, n: nat)
    requires Pipeline(g, n)
    ensures Inv(g, n, START)
  {
    hide MaximumSectionBytes;
  }

  lemma TakeKeeps(g: Geometry, n: nat, s: State)
    requires Inv(g, n, s) && s.worker.Acquiring?
    ensures Inv(g, n, Next(g, s, WorkerTakes))
  {
    hide MaximumSectionBytes, TaskOf, QueueBytes;
    if s.shared.queue != [] {
      QueueBytesFront(s.shared.queue);
    }
    NoBytes();
  }

  lemma NoBytes()
    ensures QueueBytes([]) == 0
  {
  }

  lemma FinishKeeps(g: Geometry, n: nat, s: State, step: Step)
    requires Pipeline(g, n) && Inv(g, n, s) && s.worker.Distributing? && (step.WorkerDelivers? || step.WorkerThrows?)
    ensures Inv(g, n, Next(g, s, step))
  {
    hide MaximumSectionBytes, SectionBytes, QueueBytes;
    TaskBytes(g, n, QueueStart(s) - 1);
    WatermarkFits(g);
  }

  /** The counter after an accepted push: exact, and within the watermark. */
  lemma AcceptedBytes(g: Geometry, n: nat, s: State, first: bool)
    requires Pipeline(g, n) && BytesOk(g, s) && s.next < n
    requires PushOutcome(s.shared, g, TaskOf(g, s.next), first) == Accepted
    ensures BytesOk(g, Push(g, s, TaskOf(g, s.next), first))
  {
    hide MaximumSectionBytes, SectionBytes, QueueBytes;
    var task := TaskOf(g, s.next);
    TaskBytes(g, n, s.next);
    WatermarkFits(g);
    QueueBytesBack(s.shared.queue, task);
  }

  lemma AcceptedQueue(g: Geometry, n: nat, s: State, first: bool)
    requires QueueOk(g, n, s) && s.next < n
    requires PushOutcome(s.shared, g, TaskOf(g, s.next), first) == Accepted
    ensures QueueOk(g, n, Push(g, s, TaskOf(g, s.next), first))
    ensures QueueStart(Push(g, s, TaskOf(g, s.next), first)) == QueueStart(s)
  {
    hide PushOutcome, TaskOf, Plus;
  }

  lemma AcceptedThreads(g: Geometry, n: nat, s: State, first: bool)
    requires Inv(g, n, s) && (if first then s.producer.Pushing? else s.producer.Retrying?)
    requires PushOutcome(s.shared, g, s.producer.task, first) == Accepted
    requires QueueStart(Push(g, s, s.producer.task, first)) == QueueStart(s)
    ensures var t := Push(g, s, s.producer.task, first); WorkerOk(g, n, t) && ProducerOk(g, n, t) && WakeupsOk(g, t)
  {
    hide HighWatermark, LowWatermark, TaskOf, Plus, QueueOk, BytesOk, QueueStart;
  }

  lemma RefusedKeeps(g: Geometry, n: nat, s: State, first: bool)
    requires Inv(g, n, s) && (if first then s.producer.Pushing? else s.producer.Retrying?)
    requires PushOutcome(s.shared, g, s.producer.task, first) != Accepted
    ensures Inv(g, n, Push(g, s, s.producer.task, first))
  {
    hide HighWatermark, LowWatermark, TaskOf, QueueBytes, Plus;
  }

  lemma PushKeeps(g: Geometry, n: nat, s: State, first: bool)
    requires Pipeline(g, n) && Inv(g, n, s)
    requires if first then s.producer.Pushing? else s.producer.Retrying?
    ensures Inv(g, n, Push(g, s, s.producer.task, first))
  {
    hide PushOutcome, Push, TaskOf, QueueOk, BytesOk, WorkerOk, WakeupsOk, QueueStart;
    if PushOutcome(s.shared, g, s.producer.task, first) == Accepted {
      AcceptedBytes(g, n, s, first);
      AcceptedQueue(g, n, s, first);
      AcceptedThreads(g, n, s, first);
    } else {
      RefusedKeeps(g, n, s, first);
    }
  }

  lemma NotifyKeeps(g: Geometry, n: nat, s: State, step: Step)
    requires Inv(g, n, s) && Enabled(g, n, s, step)
    requires step.WorkerNotifies? || step.ProducerNotifies? || step.WorkerWakesUp? || step.ProducerWakesUp?
    ensures Inv(g, n, Next(g, s, step))
  {
    hide MaximumSectionBytes, TaskOf, QueueBytes;
  }

  lemma ProducerKeeps(g: Geometry, n: nat, s: State, step: Step)
    requires Inv(g, n, s) && Enabled(g, n, s, step)
    requires step.ProducerOffers? || step.ProducerFinishes? || step.ProducerFails? || step.ProducerCancels?
             || step.ProducerJoins?
    ensures Inv(g, n, Next(g, s, step))
  {
    hide MaximumSectionBytes, TaskOf, QueueBytes;
  }

  lemma StepKeeps(g: Geometry, n: nat, s: State, step: Step)
    requires Pipeline(g, n) && Inv(g, n, s) && Enabled(g, n, s, step)
    ensures Inv(g, n, Next(g, s, step))
  {
    hide Inv, PushOutcome, TakeOutcome, Push;
    match step
    case WorkerTakes => TakeKeeps(g, n, s);
    case WorkerDelivers(_) => FinishKeeps(g, n, s, step);
    case WorkerThrows => FinishKeeps(g, n, s, step);
    case ProducerPushes => PushKeeps(g, n, s, s.producer.Pushing?);
    case ProducerOffers => ProducerKeeps(g, n, s, step);
    case ProducerFinishes => ProducerKeeps(g, n, s, step);
    case ProducerFails => ProducerKeeps(g, n, s, step);
    case ProducerCancels => ProducerKeeps(g, n, s, step);
    case ProducerJoins => ProducerKeeps(g, n, s, step);
    case _ => NotifyKeeps(g, n, s, step);
  }

  // ----- Reachable states

  /** The state after a schedule of steps; a schedule that asks for a disabled step is not one. */
  ghost predicate Reaches(g: Geometry, n: nat, schedule: seq<Step>, s: State)
    decreases |schedule|
  {
    if schedule == [] then s == START
    else
      var init, last := schedule[..|schedule| - 1], schedule[|schedule| - 1];
      exists prior :: Reaches(g, n, init, prior) && Enabled(g, n, prior, last) && s == Next(g, prior, last)
  }

  lemma {:induction false} ReachableHolds(g: Geometry, n: nat, schedule: seq<Step>, s: State)
    requires Pipeline(g, n) && Reaches(g, n, schedule, s)
    ensures Inv(g, n, s)
    decreases |schedule|
  {
    hide Inv, Next, Enabled;
    if schedule == [] {
      StartHolds(g, n);
    } else {
      var init, last := schedule[..|schedule| - 1], schedule[|schedule| - 1];
      var prior :| Reaches(g, n, init, prior) && Enabled(g, n, prior, last) && s == Next(g, prior, last);
      ReachableHolds(g, n, init, prior);
      StepKeeps(g, n, prior, last);
    }
  }

  /** In every reachable state of every interleaving the byte counter is exactly the queued bytes plus
      the bytes in the worker's hands, and stays within the high watermark. */
  lemma PendingIsExact(g: Geometry, n: nat, schedule: seq<Step>, s: State)
    requires Pipeline(g, n) && Reaches(g, n, schedule, s)
    ensures s.shared.pending == QueueBytes(s.shared.queue) + InFlight(s.worker)
    ensures s.shared.pending <= 4 * MaximumSectionBytes(g)
    ensures InFlight(s.worker) <= s.shared.pending
  {
    hide Reaches, MaximumSectionBytes;
    ReachableHolds(g, n, schedule, s);
  }

  /** No reachable state leaves both threads asleep, nor the producer waiting for a sleeping worker. */
  lemma NeverBothAsleep(g: Geometry, n: nat, schedule: seq<Step>, s: State)
    requires Pipeline(g, n) && Reaches(g, n, schedule, s)
    ensures !(s.worker.WorkerAsleep? && s.producer.ProducerAsleep?)
    ensures !(s.worker.WorkerAsleep? && s.producer.Joining?)
  {
    hide Reaches, MaximumSectionBytes;
    ReachableHolds(g, n, schedule, s);
  }

  /** A step that is not a spurious wake-up. */
  predicate Proper(step: Step) {
    !step.WorkerWakesUp? && !step.ProducerWakesUp?
  }

  predicate Finals(s: State) {
    s.producer.ProducerGone?
  }

  /** The pipeline can always move without relying on spurious wake-ups, until the producer is done. */
  lemma NeverStuck(g: Geometry, n: nat, schedule: seq<Step>, s: State)
    requires Pipeline(g, n) && Reaches(g, n, schedule, s)
    ensures Finals(s) || exists step :: Proper(step) && Enabled(g, n, s, step)
  {
    hide Reaches, MaximumSectionBytes;
    ReachableHolds(g, n, schedule, s);
    NeverBothAsleep(g, n, schedule, s);
    if !Finals(s) {
      var step := match s.worker
        case Acquiring => WorkerTakes
        case Distributing(_) => WorkerThrows
        case WorkerNotifying(_) => WorkerNotifies
        case _ =>
          match s.producer
          case Feeding => ProducerFails
          case Pushing(_) => ProducerPushes
          case Retrying(_) => ProducerPushes
          case NotifyingPush => ProducerNotifies
          case NotifyingEnd => ProducerNotifies
          case Stopping => ProducerCancels
          case _ => ProducerJoins;
      assert Proper(step) && Enabled(g, n, s, step);
    }
  }

  /** When `complete_dispatch` joins a worker that did not fail and nothing was cancelled, the sections
      0..n-1 were distributed exactly once each, in order, and nothing is left in the queue. */
  lemma CleanFinish(g: Geometry, n: nat, schedule: seq<Step>, s: State)
    requires Pipeline(g, n) && Reaches(g, n, schedule, s)
    requires s.producer.ProducerGone? && !s.shared.cancelled
    ensures |s.log| == n && forall i :: 0 <= i < n ==> s.log[i].section == i && s.log[i].result != Failed
    ensures s.shared.queue == [] && s.shared.pending == 0
    ensures s.shared.sectionResult == s.log[n - 1].result
  {
    hide Reaches, MaximumSectionBytes, TaskOf;
    ReachableHolds(g, n, schedule, s);
    CountIsCeiling(g);
  }

  // ----- Termination

  function WorkerWeight(w: WorkerAt): nat {
    match w
    case WorkerAsleep => 0
    case Acquiring => 1
    case Distributing(_) => 8
    case WorkerNotifying(_) => 6
    case WorkerGone => 0
  }

  function ProducerWeight(p: ProducerAt): nat {
    match p
    case Feeding => 7
    case Pushing(_) => 6
    case ProducerAsleep(_) => 4
    case Retrying(_) => 5
    case NotifyingPush => 9
    case Stopping => 4
    case NotifyingEnd => 3
    case Joining => 1
    case ProducerGone => 0
  }

  /** Work left: sections not yet enqueued, sections not yet taken, and where the threads stand. */
  function Rank(n: nat, s: State): int {
    10 * (n - s.next) + ProducerWeight(s.producer) + 10 * (n - QueueStart(s)) + WorkerWeight(s.worker)
  }

  lemma WorkerRank(g: Geometry, n: nat, s: State, step: Step)
    requires QueueOk(g, n, s) && Enabled(g, n, s, step) && Proper(step)
    requires step.WorkerTakes? || step.WorkerDelivers? || step.WorkerThrows? || step.WorkerNotifies?
    ensures Rank(n, Next(g, s, step)) < Rank(n, s)
  {
    hide TaskOf, Minus, Push;
  }

  lemma PushRank(g: Geometry, n: nat, s: State)
    requires s.producer.Pushing? || s.producer.Retrying?
    ensures Rank(n, Next(g, s, ProducerPushes)) < Rank(n, s)
  {
    hide PushOutcome, Plus;
  }

  /** Every proper step brings the pipeline closer to its end; a spurious wake-up costs one. With
      NeverStuck: a run with finitely many spurious wake-ups ends with the producer done. */
  lemma RankDecreases(g: Geometry, n: nat, s: State, step: Step)
    requires Pipeline(g, n) && Inv(g, n, s) && Enabled(g, n, s, step)
    ensures 0 <= Rank(n, s)
    ensures if Proper(step) then Rank(n, Next(g, s, step)) < Rank(n, s)
            else Rank(n, Next(g, s, step)) == Rank(n, s) + 1
  {
    RankIsNatural(g, n, s);
    match step
    case WorkerTakes => WorkerRank(g, n, s, step);
    case WorkerDelivers(_) => WorkerRank(g, n, s, step);
    case WorkerThrows => WorkerRank(g, n, s, step);
    case WorkerNotifies => WorkerRank(g, n, s, step);
    case ProducerPushes => PushRank(g, n, s);
    case _ =>
      hide Push, TaskOf, Inv, AfterTake, AfterResult, AfterThrow, TakeOutcome;
  }

  function SpuriousSteps(schedule: seq<Step>): nat
    decreases |schedule|
  {
    if schedule == [] then 0
    else SpuriousSteps(schedule[..|schedule| - 1]) + if Proper(schedule[|schedule| - 1]) then 0 else 1
  }

  /** No run is longer than 20 n + 8 steps plus two for each spurious wake-up. */
  lemma {:induction false} RunsAreBounded(g: Geometry, n: nat, schedule: seq<Step>, s: State)
    requires Pipeline(g, n) && Reaches(g, n, schedule, s)
    ensures |schedule| + Rank(n, s) <= 20 * n + 8 + 2 * SpuriousSteps(schedule)
    ensures 0 <= Rank(n, s)
    decreases |schedule|
  {
    hide Inv, Next, Enabled, Rank;
    ReachableHolds(g, n, schedule, s);
    if schedule == [] {
      StartRank(n);
    } else {
      var init, last := schedule[..|schedule| - 1], schedule[|schedule| - 1];
      var prior :| Reaches(g, n, init, prior) && Enabled(g, n, prior, last) && s == Next(g, prior, last);
      RunsAreBounded(g, n, init, prior);
      ReachableHolds(g, n, init, prior);
      RankDecreases(g, n, prior, last);
    }
    RankIsNatural(g, n, s);
  }

  lemma StartRank(n: nat)
    ensures Rank(n, START) == 20 * n + 8
  {
  }

  lemma RankIsNatural(g: Geometry, n: nat, s: State)
    requires Inv(g, n, s)
    ensures 0 <= Rank(n, s)
  {
    hide BytesOk, WorkerOk, WakeupsOk, ProducerOk;
  }
}
