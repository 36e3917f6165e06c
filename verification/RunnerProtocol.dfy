/** The parallel runner as atomic steps: the submitting thread, one dispatcher, one child process and one reader per
    worker, a shared job queue and a shared result queue. Any enabled step may come next; pipes may fail anywhere. */
module RunnerProtocol {

  /** `sub` numbers the submissions and never repeats; the id may, after a reset. */
  datatype Job = Job(sub: nat, id: nat, epoch: nat)

  datatype RunnerResult = RunnerResult(job: Job, worker: nat, accepted: bool)

  datatype Ready = Unknown | Good | Bad

  /** Where a dispatcher thread stands. It owns the worker's slot from Acquired to Sending. */
  datatype Dispatcher =
    | Waiting | Acquiring | Acquired | Owning | Holding(job: Job) | Sending(job: Job) | Nacking(job: Job) | Exited

  /** Where a reader thread stands: Got has read a result but not yet released the slot, Released has not yet pushed
      it; Closing is leaving but has not yet released the slot, Closed has not yet cleared the running flag. */
  datatype Reader = Reading | Got(job: Job) | Released(job: Job) | Closing | Closed | Done

  datatype Worker = Worker(
    running: bool, epoch: nat, ready: Ready, dispatcher: Dispatcher,
    busy: bool, procRunning: bool, stdinOpen: bool, reader: Reader,
    alive: bool, inbox: seq<Job>, executing: seq<Job>, outbox: seq<Job>,
    limbo: seq<Job>, unsent: seq<Job>)

  datatype State = State(
    queue: seq<Job>, closed: bool, out: seq<RunnerResult>, returned: seq<RunnerResult>, workers: seq<Worker>,
    nextSub: nat, jobSeq: nat, epoch: nat)

  // ---------------------------------------------------------------- steps inside one worker

  datatype Local =
    | ReportReady(ok: bool)          // the reader sees the child's READY message
    | SeeReady | SeeFailed           // the dispatcher leaves its waiting loop
    | SeeStopped                     // the dispatcher notices that the worker was stopped
    | Acquire                        // compare-and-swap on the slot
    | CheckRunning
    | LeaveClosed                    // the queue is closed and empty: release and exit
    | AcceptJob | RejectJob          // the epoch comparison
    | SendOk                         // the whole envelope is in the child's pipe
    | SendStopped                    // send_job returns without releasing the slot
    | SendBroken                     // a write failed: the slot is released
    | TakeJob | FinishJob | Die      // the child
    | ReadResult | ReleaseSlot       // the reader; a read may fail, or break off inside a result or a progress message
    | ReadFails | ReadTorn | ProgressTorn | CloseRelease | CloseDone
    | StopWorker | StopProcess       // the stopping thread

  predicate LocalEnabled(w: Worker, l: Local) {
    match l
    case ReportReady(_) => w.ready.Unknown? && w.reader.Reading?
    case SeeReady => w.dispatcher.Waiting? && w.ready.Good?
    case SeeFailed => w.dispatcher.Waiting? && w.ready.Bad?
    case SeeStopped => !w.running && (w.dispatcher.Waiting? || w.dispatcher.Acquiring? || w.dispatcher.Acquired?)
    case Acquire => w.dispatcher.Acquiring? && !w.busy
    case CheckRunning => w.dispatcher.Acquired? && w.running
    case LeaveClosed => w.dispatcher.Owning?
    case AcceptJob => w.dispatcher.Holding? && w.dispatcher.job.epoch == w.epoch
    case RejectJob => w.dispatcher.Holding? && w.dispatcher.job.epoch != w.epoch
    case SendOk => w.dispatcher.Sending? && w.stdinOpen && w.alive
    case SendStopped => w.dispatcher.Sending? && !w.procRunning
    case SendBroken => w.dispatcher.Sending?
    case TakeJob => w.alive && w.executing == [] && w.inbox != []
    case FinishJob => w.alive && w.executing != []
    case Die => w.alive
    case ReadResult => w.reader.Reading? && w.outbox != []
    case ReleaseSlot => w.reader.Got?
    case ReadFails | ProgressTorn => w.reader.Reading?
    case ReadTorn => w.reader.Reading? && w.outbox != []
    case CloseRelease => w.reader.Closing?
    case CloseDone => w.reader.Closed?
    case StopWorker => w.running
    case StopProcess => !w.running && w.procRunning
  }

  function ApplyLocal(w: Worker, l: Local): Worker
    requires LocalEnabled(w, l)
  {
    match l
    case ReportReady(ok) => w.(ready := if ok then Good else Bad)
    case SeeReady => w.(dispatcher := Acquiring)
    case SeeFailed => w.(dispatcher := Exited)
    case SeeStopped => w.(dispatcher := Exited)
    case Acquire => w.(dispatcher := Acquired, busy := true)
    case CheckRunning => w.(dispatcher := Owning)
    case LeaveClosed => w.(dispatcher := Exited, busy := false)
    case AcceptJob => w.(dispatcher := Sending(w.dispatcher.job))
    case RejectJob => w.(dispatcher := Nacking(w.dispatcher.job), busy := false)
    case SendOk => w.(dispatcher := Acquiring, inbox := w.inbox + [w.dispatcher.job])
    case SendStopped => w.(dispatcher := Exited, unsent := w.unsent + [w.dispatcher.job])
    case SendBroken => w.(dispatcher := Exited, unsent := w.unsent + [w.dispatcher.job], busy := false)
    case TakeJob => w.(executing := [w.inbox[0]], inbox := w.inbox[1..])
    case FinishJob => w.(outbox := w.outbox + w.executing, executing := [])
    case Die => w.(alive := false, limbo := w.limbo + w.executing + w.inbox, executing := [], inbox := [])
    case ReadResult => w.(reader := Got(w.outbox[0]), outbox := w.outbox[1..])
    case ReleaseSlot => w.(reader := Released(w.reader.job), busy := false)
    case ReadFails => w.(reader := Closing)
    case ProgressTorn => w.(reader := Closing, procRunning := false)
    case ReadTorn => w.(reader := Closing, procRunning := false, limbo := w.limbo + [w.outbox[0]], outbox := w.outbox[1..])
    case CloseRelease => w.(reader := Closed, busy := false)
    case CloseDone => w.(reader := Done, procRunning := false)
    case StopWorker => w.(running := false)
    case StopProcess => w.(procRunning := false, stdinOpen := false)
  }

  // ---------------------------------------------------------------- steps of the whole runner

  datatype Step =
    | Submit | TryGetResult | BumpEpoch | PropagateEpoch(i: nat) | ResetIds | CloseQueue
    | PopJob(i: nat) | PushNack(i: nat) | PushResult(i: nat)
    | At(i: nat, l: Local)

  predicate Enabled(s: State, step: Step) {
    match step
    case Submit | BumpEpoch | ResetIds | CloseQueue => true
    case TryGetResult => s.out != []
    case PropagateEpoch(i) => i < |s.workers|
    case PopJob(i) => i < |s.workers| && s.workers[i].dispatcher.Owning? && s.queue != []
    case PushNack(i) => i < |s.workers| && s.workers[i].dispatcher.Nacking?
    case PushResult(i) => i < |s.workers| && s.workers[i].reader.Released?
    case At(i, l) => i < |s.workers| && LocalEnabled(s.workers[i], l) && (l.LeaveClosed? ==> s.closed && s.queue == [])
  }

  function Apply(s: State, step: Step): State
    requires Enabled(s, step)
  {
    match step
    case Submit =>
      s.(queue := s.queue + [Job(s.nextSub, s.jobSeq + 1, s.epoch)], nextSub := s.nextSub + 1, jobSeq := s.jobSeq + 1)
    case TryGetResult => s.(out := s.out[1..], returned := s.returned + [s.out[0]])
    case BumpEpoch => s.(epoch := s.epoch + 1)
    case PropagateEpoch(i) => s.(workers := s.workers[i := s.workers[i].(epoch := s.epoch)])
    case ResetIds => s.(jobSeq := 0)
    case CloseQueue => s.(closed := true)
    case PopJob(i) =>
      s.(queue := s.queue[1..], workers := s.workers[i := s.workers[i].(dispatcher := Holding(s.queue[0]))])
    case PushNack(i) =>
      s.(out := s.out + [RunnerResult(s.workers[i].dispatcher.job, i, false)],
         workers := s.workers[i := s.workers[i].(dispatcher := Acquiring)])
    case PushResult(i) =>
      s.(out := s.out + [RunnerResult(s.workers[i].reader.job, i, true)],
         workers := s.workers[i := s.workers[i].(reader := Reading)])
    case At(i, l) => s.(workers := s.workers[i := ApplyLocal(s.workers[i], l)])
  }

  /** A worker whose process started, or one that failed to launch and is parked. */
  predicate Launched(w: Worker) {
    && w.running && w.dispatcher.Waiting? && !w.busy && w.procRunning && w.stdinOpen && w.alive && w.reader.Reading?
    && w.ready.Unknown? && w.inbox == w.executing == w.outbox == w.limbo == w.unsent == []
  }

  predicate Parked(w: Worker) {
    && !w.running && w.dispatcher.Exited? && !w.busy && !w.procRunning && !w.alive && w.reader.Done?
    && w.inbox == w.executing == w.outbox == w.limbo == w.unsent == []
  }

  ghost predicate Init(s: State) {
    && s.queue == [] && !s.closed && s.out == [] && s.returned == [] && s.nextSub == 0
    && forall i | 0 <= i < |s.workers| ::
         (Launched(s.workers[i]) && s.workers[i].epoch == s.epoch) || Parked(s.workers[i])
  }

  /** A run: every step enabled where it is taken. */
  ghost predicate Runs(s: State, steps: seq<Step>)
    decreases |steps|
  {
    steps == [] || (Enabled(s, steps[0]) && Runs(Apply(s, steps[0]), steps[1..]))
  }

  ghost function After(s: State, steps: seq<Step>): State
    requires Runs(s, steps)
    decreases |steps|
  {
    if steps == [] then s else After(Apply(s, steps[0]), steps[1..])
  }

  // ---------------------------------------------------------------- where jobs are

  function Held(w: Worker): seq<Job> {
    match w.dispatcher
    case Holding(j) => [j]
    case Sending(j) => [j]
    case _ => []
  }

  function Refused(w: Worker): seq<Job> {
    if w.dispatcher.Nacking? then [w.dispatcher.job] else []
  }

  function Read(w: Worker): seq<Job> {
    match w.reader
    case Got(j) => [j]
    case Released(j) => [j]
    case _ => []
  }

  function InChild(w: Worker): seq<Job> { w.outbox + w.executing + w.inbox }

  /** From the reader back to the dispatcher: the order in which the jobs were popped. */
  function Pipeline(w: Worker): seq<Job> { Read(w) + InChild(w) + Held(w) }

  /** How often submission x occurs. */
  function Count(jobs: seq<Job>, x: nat): nat {
    if jobs == [] then 0 else (if jobs[0].sub == x then 1 else 0) + Count(jobs[1..], x)
  }

  function ResultCount(results: seq<RunnerResult>, x: nat): nat {
    if results == [] then 0 else (if results[0].job.sub == x then 1 else 0) + ResultCount(results[1..], x)
  }

  function WorkerCount(w: Worker, x: nat): nat {
    Count(Read(w), x) + Count(w.outbox, x) + Count(w.executing, x) + Count(w.inbox, x) + Count(Held(w), x) +
    Count(Refused(w), x) + Count(w.limbo, x) + Count(w.unsent, x)
  }

  function WorkersCount(ws: seq<Worker>, x: nat): nat {
    if ws == [] then 0 else WorkerCount(ws[0], x) + WorkersCount(ws[1..], x)
  }

  /** How often submission x occurs anywhere: queued, at a worker, in the result queue, returned, or lost. */
  function Everywhere(s: State, x: nat): nat {
    Count(s.queue, x) + ResultCount(s.out, x) + ResultCount(s.returned, x) + WorkersCount(s.workers, x)
  }

  /** Every submission so far is in exactly one place, and no other. */
  ghost predicate Conserved(s: State) {
    forall x: nat :: Everywhere(s, x) == if x < s.nextSub then 1 else 0
  }

  lemma {:induction false} CountAppend(a: seq<Job>, b: seq<Job>, x: nat)
    ensures Count(a + b, x) == Count(a, x) + Count(b, x)
  {
    if a == [] {
      assert a + b == b;
    } else {
      assert (a + b)[1..] == a[1..] + b;
      CountAppend(a[1..], b, x);
    }
  }

  lemma CountFew(j: Job, x: nat)
    ensures Count([j], x) == (if j.sub == x then 1 else 0) && Count([], x) == 0
  {
    assert [j][1..] == [];
  }

  lemma CountHead(jobs: seq<Job>, x: nat)
    requires jobs != []
    ensures Count(jobs, x) == Count([jobs[0]], x) + Count(jobs[1..], x)
  {
    CountFew(jobs[0], x);
  }

  lemma {:induction false} ResultSnoc(rs: seq<RunnerResult>, r: RunnerResult, x: nat)
    ensures ResultCount(rs + [r], x) == ResultCount(rs, x) + if r.job.sub == x then 1 else 0
  {
    if rs == [] {
      assert rs + [r] == [r] && [r][1..] == [];
    } else {
      assert (rs + [r])[1..] == rs[1..] + [r];
      ResultSnoc(rs[1..], r, x);
    }
  }

  lemma {:induction false} WorkersUpdate(ws: seq<Worker>, i: nat, w: Worker, x: nat)
    requires i < |ws|
    ensures WorkersCount(ws[i := w], x) + WorkerCount(ws[i], x) == WorkersCount(ws, x) + WorkerCount(w, x)
  {
    hide WorkerCount;
    if i == 0 {
      assert ws[i := w][1..] == ws[1..];
    } else {
      WorkersUpdate(ws[1..], i - 1, w, x);
      assert ws[i := w][1..] == ws[1..][i - 1 := w];
    }
  }

  // ---------------------------------------------------------------- conservation

  predicate ChildStep(l: Local) { l.TakeJob? || l.FinishJob? || l.Die? }

  predicate ReaderStep(l: Local) { l.ReadResult? || l.ReleaseSlot? || l.ReadFails? || l.ReadTorn? || l.ProgressTorn? || l.CloseRelease? || l.CloseDone? }

  predicate SendStep(l: Local) { l.SendOk? || l.SendStopped? || l.SendBroken? }

  lemma ChildConserves(w: Worker, l: Local, x: nat)
    requires LocalEnabled(w, l) && ChildStep(l)
    ensures WorkerCount(ApplyLocal(w, l), x) == WorkerCount(w, x)
  {
    hide Count;
    CountNone(x);
    match l {
      case TakeJob => CountHead(w.inbox, x);
      case FinishJob => CountAppend(w.outbox, w.executing, x);
      case Die => CountAppend(w.limbo + w.executing, w.inbox, x); CountAppend(w.limbo, w.executing, x);
    }
  }

  lemma ReadConserves(w: Worker, l: Local, x: nat)
    requires LocalEnabled(w, l) && (l.ReadResult? || l.ReadTorn?)
    ensures WorkerCount(ApplyLocal(w, l), x) == WorkerCount(w, x)
  {
    hide Count;
    CountNone(x);
    CountHead(w.outbox, x);
    if l.ReadTorn? { CountAppend(w.limbo, [w.outbox[0]], x); }
  }

  lemma ReaderConserves(w: Worker, l: Local, x: nat)
    requires LocalEnabled(w, l) && ReaderStep(l)
    ensures WorkerCount(ApplyLocal(w, l), x) == WorkerCount(w, x)
  {
    hide Count;
    CountNone(x);
    if l.ReadResult? || l.ReadTorn? { ReadConserves(w, l, x); }
  }

  lemma SendConserves(w: Worker, l: Local, x: nat)
    requires LocalEnabled(w, l) && SendStep(l)
    ensures WorkerCount(ApplyLocal(w, l), x) == WorkerCount(w, x)
  {
    hide Count;
    CountNone(x);
    CountAppend(w.inbox, [w.dispatcher.job], x);
    CountAppend(w.unsent, [w.dispatcher.job], x);
  }

  lemma CountNone(x: nat)
    ensures Count([], x) == 0
  {
  }

  /** Inside a worker nothing is created, copied or destroyed. */
  lemma LocalConserves(w: Worker, l: Local, x: nat)
    requires LocalEnabled(w, l)
    ensures WorkerCount(ApplyLocal(w, l), x) == WorkerCount(w, x)
  {
    if ChildStep(l) { ChildConserves(w, l, x); }
    else if ReaderStep(l) { ReaderConserves(w, l, x); }
    else if SendStep(l) { SendConserves(w, l, x); }
    else {
      hide Count;
      CountNone(x);
    }
  }

  /** Every step moves at most one submission from one place to another; a submission adds the next one. */
  lemma StepConserves(s: State, step: Step, x: nat)
    requires Enabled(s, step)
    ensures Everywhere(Apply(s, step), x) == Everywhere(s, x) + if step.Submit? && x == s.nextSub then 1 else 0
  {
    match step {
      case Submit => SubmitConserves(s, x);
      case TryGetResult =>
        ResultSnoc(s.returned, s.out[0], x);
      case PropagateEpoch(i) =>
        WorkersUpdate(s.workers, i, s.workers[i].(epoch := s.epoch), x);
        hide Count;
      case PopJob(i) => PopConserves(s, i, x);
      case PushNack(i) => PushConserves(s, step, i, x);
      case PushResult(i) => PushConserves(s, step, i, x);
      case At(i, l) =>
        LocalConserves(s.workers[i], l, x);
        WorkersUpdate(s.workers, i, ApplyLocal(s.workers[i], l), x);
        hide WorkerCount, ApplyLocal, LocalEnabled, Count;
      case _ =>
    }
  }

  lemma SubmitConserves(s: State, x: nat)
    ensures Everywhere(Apply(s, Submit), x) == Everywhere(s, x) + if x == s.nextSub then 1 else 0
  {
    var j := Job(s.nextSub, s.jobSeq + 1, s.epoch);
    CountAppend(s.queue, [j], x);
    CountFew(j, x);
  }

  lemma PopConserves(s: State, i: nat, x: nat)
    requires Enabled(s, PopJob(i))
    ensures Everywhere(Apply(s, PopJob(i)), x) == Everywhere(s, x)
  {
    var w := s.workers[i];
    var v := w.(dispatcher := Holding(s.queue[0]));
    WorkersUpdate(s.workers, i, v, x);
    CountHead(s.queue, x);
    CountNone(x);
    hide Count, WorkersCount, ResultCount;
    assert WorkerCount(v, x) == WorkerCount(w, x) + Count([s.queue[0]], x);
  }

  lemma PushConserves(s: State, step: Step, i: nat, x: nat)
    requires Enabled(s, step) && (step == PushNack(i) || step == PushResult(i))
    ensures Everywhere(Apply(s, step), x) == Everywhere(s, x)
  {
    var w, v := s.workers[i], Apply(s, step).workers[i];
    var r := if step.PushNack? then RunnerResult(w.dispatcher.job, i, false) else RunnerResult(w.reader.job, i, true);
    WorkersUpdate(s.workers, i, v, x);
    ResultSnoc(s.out, r, x);
    PushCounts(w, r.job, x);
    hide WorkerCount, WorkersCount, ResultCount, Count;
  }

  lemma PushCounts(w: Worker, j: Job, x: nat)
    ensures w.dispatcher == Nacking(j) ==> WorkerCount(w, x) == WorkerCount(w.(dispatcher := Acquiring), x) + if j.sub == x then 1 else 0
    ensures w.reader == Released(j) ==> WorkerCount(w, x) == WorkerCount(w.(reader := Reading), x) + if j.sub == x then 1 else 0
  {
    CountFew(j, x);
    hide Count;
  }
}
