/** What holds in every interleaving of the runner's steps: no submission is lost track of or answered twice, a
    worker's slot is exact until its reader leaves or it is stopped, a failing worker loses at most two jobs, and
    every worker's accepted results come in submission order. */
module RunnerInvariants {
  import opened RunnerProtocol

  function Bit(b: bool): nat { if b then 1 else 0 }

  // ---------------------------------------------------------------- the slot

  predicate Owns(w: Worker) {
    w.dispatcher.Acquired? || w.dispatcher.Owning? || w.dispatcher.Holding? || w.dispatcher.Sending?
  }

  predicate ReaderOpen(w: Worker) { w.reader.Reading? || w.reader.Got? || w.reader.Released? }

  /** Jobs between send and the reader's release of the slot, including those that died on the way. */
  function InFlight(w: Worker): nat {
    |w.inbox| + |w.executing| + |w.outbox| + |w.limbo| + Bit(w.reader.Got?)
  }

  /** Not stopped, and the reader has not left. */
  predicate Intact(w: Worker) { w.running && ReaderOpen(w) }

  ghost predicate SlotExact(w: Worker) {
    && w.procRunning && Bit(Owns(w)) + InFlight(w) == Bit(w.busy)
    && |w.unsent| <= 1 && (w.unsent != [] ==> w.dispatcher.Exited? && !w.busy)
  }

  /** Jobs that will never be answered once the reader has left. */
  function Doomed(w: Worker): nat {
    |w.limbo| + |w.unsent| + |w.inbox| + |w.executing| + |w.outbox|
  }

  /** How many more jobs the dispatcher can still pop and send. */
  function MaySend(w: Worker): nat {
    if w.dispatcher.Exited? then 0
    else if !w.running then Bit(w.dispatcher.Owning? || w.dispatcher.Holding? || w.dispatcher.Sending?)
    else Bit(Owns(w)) + Bit(!w.busy) + Bit(w.reader.Closing?)
  }

  ghost predicate Slot(w: Worker) {
    if Intact(w) then SlotExact(w) else Doomed(w) + MaySend(w) <= 2
  }

  lemma ChildKeepsSlot(w: Worker, l: Local)
    requires Slot(w) && LocalEnabled(w, l) && ChildStep(l)
    ensures Slot(ApplyLocal(w, l))
  {
    match l {
      case TakeJob => assert |w.inbox[1..]| == |w.inbox| - 1;
      case FinishJob => assert |w.outbox + w.executing| == |w.outbox| + |w.executing|;
      case Die => assert |w.limbo + w.executing + w.inbox| == |w.limbo| + |w.executing| + |w.inbox|;
    }
  }

  lemma ReadKeepsSlot(w: Worker, l: Local)
    requires Slot(w) && LocalEnabled(w, l) && (l.ReadResult? || l.ReadTorn?)
    ensures Slot(ApplyLocal(w, l))
  {
    assert |w.outbox[1..]| == |w.outbox| - 1 && |w.limbo + [w.outbox[0]]| == |w.limbo| + 1;
  }

  lemma LeaveKeepsSlot(w: Worker, l: Local)
    requires Slot(w) && LocalEnabled(w, l) && ReaderStep(l) && !l.ReadResult? && !l.ReadTorn?
    ensures Slot(ApplyLocal(w, l))
  {
  }

  lemma ReaderKeepsSlot(w: Worker, l: Local)
    requires Slot(w) && LocalEnabled(w, l) && ReaderStep(l)
    ensures Slot(ApplyLocal(w, l))
  {
    hide Slot, LocalEnabled, ApplyLocal;
    if l.ReadResult? || l.ReadTorn? { ReadKeepsSlot(w, l); } else { LeaveKeepsSlot(w, l); }
  }

  lemma SendKeepsSlot(w: Worker, l: Local)
    requires Slot(w) && LocalEnabled(w, l) && SendStep(l)
    ensures Slot(ApplyLocal(w, l))
  {
    assert |w.inbox + [w.dispatcher.job]| == |w.inbox| + 1 && |w.unsent + [w.dispatcher.job]| == |w.unsent| + 1;
  }

  /** Before the dispatcher takes the slot. */
  predicate WaitStep(l: Local) { l.ReportReady? || l.SeeReady? || l.SeeFailed? || l.SeeStopped? }

  /** While it has it. */
  predicate OwnStep(l: Local) { l.Acquire? || l.CheckRunning? || l.LeaveClosed? || l.AcceptJob? || l.RejectJob? }

  lemma WaitKeepsSlot(w: Worker, l: Local)
    requires Slot(w) && LocalEnabled(w, l) && WaitStep(l)
    ensures Slot(ApplyLocal(w, l))
  {
  }

  lemma OwnKeepsSlot(w: Worker, l: Local)
    requires Slot(w) && LocalEnabled(w, l) && OwnStep(l)
    ensures Slot(ApplyLocal(w, l))
  {
  }

  lemma StopKeepsSlot(w: Worker, l: Local)
    requires Slot(w) && LocalEnabled(w, l) && (l.StopWorker? || l.StopProcess?)
    ensures Slot(ApplyLocal(w, l))
  {
  }

  lemma LocalKeepsSlot(w: Worker, l: Local)
    requires Slot(w) && LocalEnabled(w, l)
    ensures Slot(ApplyLocal(w, l))
  {
    hide Slot, LocalEnabled, ApplyLocal;
    if ChildStep(l) { ChildKeepsSlot(w, l); }
    else if ReaderStep(l) { ReaderKeepsSlot(w, l); }
    else if SendStep(l) { SendKeepsSlot(w, l); }
    else if WaitStep(l) { WaitKeepsSlot(w, l); }
    else if OwnStep(l) { OwnKeepsSlot(w, l); }
    else { StopKeepsSlot(w, l); }
  }

  /** Popping a job and pushing a result or a refusal leave the slot alone. */
  lemma SharedKeepsSlot(w: Worker, j: Job)
    requires Slot(w)
    ensures w.dispatcher.Owning? ==> Slot(w.(dispatcher := Holding(j)))
    ensures w.dispatcher.Nacking? ==> Slot(w.(dispatcher := Acquiring))
    ensures w.reader.Released? ==> Slot(w.(reader := Reading))
  {
  }

  lemma EpochKeepsSlot(w: Worker, epoch: nat)
    requires Slot(w)
    ensures Slot(w.(epoch := epoch))
  {
  }

  lemma StepKeepsSlots(s: State, step: Step)
    requires Enabled(s, step) && forall i | 0 <= i < |s.workers| :: Slot(s.workers[i])
    ensures var t := Apply(s, step); |t.workers| == |s.workers| && forall i | 0 <= i < |t.workers| :: Slot(t.workers[i])
  {
    match step {
      case At(i, l) =>
        LocalKeepsSlot(s.workers[i], l);
        hide Slot, ApplyLocal, LocalEnabled;
      case PopJob(i) => SharedKeepsSlot(s.workers[i], s.queue[0]); hide Slot;
      case PushNack(i) => SharedKeepsSlot(s.workers[i], s.workers[i].dispatcher.job); hide Slot;
      case PushResult(i) => SharedKeepsSlot(s.workers[i], s.workers[i].reader.job); hide Slot;
      case PropagateEpoch(i) => EpochKeepsSlot(s.workers[i], s.epoch); hide Slot;
      case _ =>
    }
  }

  // ---------------------------------------------------------------- order

  function JobSubs(jobs: seq<Job>): (r: seq<nat>)
    ensures |r| == |jobs|
  {
    seq(|jobs|, i requires 0 <= i < |jobs| => jobs[i].sub)
  }

  /** The accepted results of a worker, oldest first. */
  function Accepted(results: seq<RunnerResult>, worker: nat): seq<nat> {
    if results == [] then []
    else
      var last := results[|results| - 1];
      Accepted(results[..|results| - 1], worker) + if last.accepted && last.worker == worker then [last.job.sub] else []
  }

  ghost predicate Increasing(s: seq<nat>) {
    forall i, j | 0 <= i < j < |s| :: s[i] < s[j]
  }

  /** Increasing, and all submitted already. */
  ghost predicate Ordered(s: seq<nat>, bound: nat) {
    Increasing(s) && forall k | 0 <= k < |s| :: s[k] < bound
  }

  function LineOf(done: seq<nat>, pipe: seq<Job>, queue: seq<Job>): seq<nat> {
    done + JobSubs(pipe) + JobSubs(queue)
  }

  /** From the first accepted result of worker i back to the newest job in the queue. */
  function Line(s: State, i: nat): seq<nat>
    requires i < |s.workers|
  {
    LineOf(Accepted(s.returned + s.out, i), Pipeline(s.workers[i]), s.queue)
  }

  ghost predicate InOrder(s: State, i: nat)
    requires i < |s.workers|
  {
    Ordered(Line(s, i), s.nextSub)
  }

  lemma AcceptedSnoc(rs: seq<RunnerResult>, r: RunnerResult, i: nat)
    ensures Accepted(rs + [r], i) == Accepted(rs, i) + if r.accepted && r.worker == i then [r.job.sub] else []
  {
    assert (rs + [r])[..|rs|] == rs;
  }

  /** Leaving out a middle part keeps the order and the bound. */
  lemma DropKeeps(a: seq<nat>, b: seq<nat>, c: seq<nat>, bound: nat)
    requires Ordered(a + b + c, bound)
    ensures Ordered(a + c, bound)
  {
    forall k | 0 <= k < |a + c| ensures (a + c)[k] == (a + b + c)[if k < |a| then k else k + |b|] {}
  }

  lemma PipeDrops(done: seq<nat>, a: seq<Job>, b: seq<Job>, c: seq<Job>, queue: seq<Job>, bound: nat)
    requires Ordered(LineOf(done, a + b + c, queue), bound)
    ensures Ordered(LineOf(done, a + c, queue), bound)
  {
    hide Ordered;
    var x, y, z := done + JobSubs(a), JobSubs(b), JobSubs(c) + JobSubs(queue);
    assert LineOf(done, a + b + c, queue) == x + y + z;
    assert LineOf(done, a + c, queue) == x + z;
    DropKeeps(x, y, z, bound);
  }

  /** The head of the queue moves to the end of the pipeline, or goes to another worker. */
  lemma QueueMoves(done: seq<nat>, pipe: seq<Job>, queue: seq<Job>, bound: nat)
    requires queue != [] && Ordered(LineOf(done, pipe, queue), bound)
    ensures Ordered(LineOf(done, pipe + [queue[0]], queue[1..]), bound)
    ensures Ordered(LineOf(done, pipe, queue[1..]), bound)
  {
    hide Ordered;
    var x, y, z := done + JobSubs(pipe), [queue[0].sub], JobSubs(queue[1..]);
    assert LineOf(done, pipe, queue) == x + y + z;
    assert LineOf(done, pipe + [queue[0]], queue[1..]) == x + y + z;
    assert LineOf(done, pipe, queue[1..]) == x + z;
    DropKeeps(x, y, z, bound);
  }

  lemma ResultMoves(done: seq<nat>, j: Job, pipe: seq<Job>, queue: seq<Job>)
    ensures LineOf(done, [j] + pipe, queue) == LineOf(done + [j.sub], pipe, queue)
  {
    assert JobSubs([j] + pipe) == [j.sub] + JobSubs(pipe);
  }

  lemma QueueGrows(done: seq<nat>, pipe: seq<Job>, queue: seq<Job>, j: Job)
    requires Ordered(LineOf(done, pipe, queue), j.sub)
    ensures Ordered(LineOf(done, pipe, queue + [j]), j.sub + 1)
  {
    assert LineOf(done, pipe, queue + [j]) == LineOf(done, pipe, queue) + [j.sub];
  }

  /** Inside a worker the pipeline keeps its order; at most a part of it drops out. */
  ghost predicate Drops(w: Worker, v: Worker, a: seq<Job>, b: seq<Job>, c: seq<Job>) {
    Pipeline(w) == a + b + c && Pipeline(v) == a + c
  }

  lemma DiePipeline(w: Worker)
    requires w.alive
    ensures Drops(w, ApplyLocal(w, Die), Read(w) + w.outbox, w.executing + w.inbox, Held(w))
  {
    assert Pipeline(w) == Read(w) + w.outbox + (w.executing + w.inbox) + Held(w);
    assert Pipeline(ApplyLocal(w, Die)) == Read(w) + w.outbox + Held(w);
  }

  lemma ChildPipeline(w: Worker, l: Local) returns (a: seq<Job>, b: seq<Job>, c: seq<Job>)
    requires LocalEnabled(w, l) && ChildStep(l)
    ensures Drops(w, ApplyLocal(w, l), a, b, c)
  {
    if l.Die? {
      a, b, c := Read(w) + w.outbox, w.executing + w.inbox, Held(w);
      DiePipeline(w);
    } else {
      a, b, c := Pipeline(w), [], [];
      if l.TakeJob? { assert w.inbox == [w.inbox[0]] + w.inbox[1..]; }
      assert InChild(ApplyLocal(w, l)) == InChild(w);
    }
  }

  lemma TornPipeline(w: Worker)
    requires LocalEnabled(w, ReadTorn)
    ensures Drops(w, ApplyLocal(w, ReadTorn), [], [w.outbox[0]], w.outbox[1..] + w.executing + w.inbox + Held(w))
  {
    var rest := w.outbox[1..] + w.executing + w.inbox + Held(w);
    assert w.outbox == [w.outbox[0]] + w.outbox[1..];
    assert Pipeline(w) == [] + [w.outbox[0]] + rest;
    assert Pipeline(ApplyLocal(w, ReadTorn)) == [] + rest;
  }

  lemma ReadPipeline(w: Worker)
    requires LocalEnabled(w, ReadResult)
    ensures Pipeline(ApplyLocal(w, ReadResult)) == Pipeline(w)
  {
    assert w.outbox == [w.outbox[0]] + w.outbox[1..];
    assert Pipeline(w) == [w.outbox[0]] + (w.outbox[1..] + w.executing + w.inbox) + Held(w);
  }

  lemma ReaderPipeline(w: Worker, l: Local) returns (a: seq<Job>, b: seq<Job>, c: seq<Job>)
    requires LocalEnabled(w, l) && ReaderStep(l)
    ensures Drops(w, ApplyLocal(w, l), a, b, c)
  {
    if l.ReadTorn? {
      a, b, c := [], [w.outbox[0]], w.outbox[1..] + w.executing + w.inbox + Held(w);
      TornPipeline(w);
    } else {
      a, b, c := Pipeline(w), [], [];
      if l.ReadResult? { ReadPipeline(w); }
    }
  }

  lemma SendPipeline(w: Worker, l: Local) returns (a: seq<Job>, b: seq<Job>, c: seq<Job>)
    requires LocalEnabled(w, l) && (SendStep(l) || l.RejectJob?)
    ensures Drops(w, ApplyLocal(w, l), a, b, c)
  {
    if l.SendOk? {
      a, b, c := Pipeline(w), [], [];
    } else {
      a, b, c := Read(w) + InChild(w), Held(w), [];
    }
  }

  lemma LocalPipeline(w: Worker, l: Local) returns (a: seq<Job>, b: seq<Job>, c: seq<Job>)
    requires LocalEnabled(w, l)
    ensures Drops(w, ApplyLocal(w, l), a, b, c)
  {
    if ChildStep(l) { a, b, c := ChildPipeline(w, l); }
    else if ReaderStep(l) { a, b, c := ReaderPipeline(w, l); }
    else if SendStep(l) || l.RejectJob? { a, b, c := SendPipeline(w, l); }
    else { a, b, c := Pipeline(w), [], []; }
  }

  lemma LocalKeepsOrder(s: State, i: nat, l: Local, k: nat)
    requires Enabled(s, At(i, l)) && k < |s.workers| && InOrder(s, k)
    ensures InOrder(Apply(s, At(i, l)), k)
  {
    if k == i {
      var a, b, c := LocalPipeline(s.workers[i], l);
      hide Pipeline, ApplyLocal, LocalEnabled, Ordered, LineOf, Accepted;
      PipeDrops(Accepted(s.returned + s.out, i), a, b, c, s.queue, s.nextSub);
    }
  }

  lemma SubmitKeepsOrder(s: State, k: nat)
    requires k < |s.workers| && InOrder(s, k)
    ensures InOrder(Apply(s, Submit), k)
  {
    hide Pipeline, Ordered, LineOf, Accepted;
    QueueGrows(Accepted(s.returned + s.out, k), Pipeline(s.workers[k]), s.queue, Job(s.nextSub, s.jobSeq + 1, s.epoch));
  }

  lemma HoldsMore(w: Worker, j: Job)
    requires w.dispatcher.Owning?
    ensures Pipeline(w.(dispatcher := Holding(j))) == Pipeline(w) + [j]
  {
  }

  lemma PopKeepsOrder(s: State, i: nat, k: nat)
    requires Enabled(s, PopJob(i)) && k < |s.workers| && InOrder(s, k)
    ensures InOrder(Apply(s, PopJob(i)), k)
  {
    hide Pipeline, Ordered, LineOf, Accepted;
    QueueMoves(Accepted(s.returned + s.out, k), Pipeline(s.workers[k]), s.queue, s.nextSub);
    HoldsMore(s.workers[i], s.queue[0]);
  }

  lemma PushesHead(w: Worker)
    ensures w.reader.Released? ==> Pipeline(w) == [w.reader.job] + Pipeline(w.(reader := Reading))
    ensures w.dispatcher.Nacking? ==> Pipeline(w.(dispatcher := Acquiring)) == Pipeline(w)
  {
  }

  lemma PushKeepsOrder(s: State, step: Step, i: nat, k: nat)
    requires Enabled(s, step) && (step == PushNack(i) || step == PushResult(i)) && k < |s.workers| && InOrder(s, k)
    ensures InOrder(Apply(s, step), k)
  {
    var t := Apply(s, step);
    var r := t.out[|s.out|];
    assert t.returned + t.out == (s.returned + s.out) + [r];
    AcceptedSnoc(s.returned + s.out, r, k);
    PushesHead(s.workers[i]);
    hide Pipeline, Ordered, LineOf, Accepted;
    ResultMoves(Accepted(s.returned + s.out, k), r.job, Pipeline(t.workers[k]), s.queue);
    assert Accepted(s.returned + s.out, k) + [] == Accepted(s.returned + s.out, k);
  }

  lemma TryGetKeepsOrder(s: State, k: nat)
    requires Enabled(s, TryGetResult) && k < |s.workers| && InOrder(s, k)
    ensures InOrder(Apply(s, TryGetResult), k)
  {
    hide Ordered, LineOf, Accepted, Pipeline;
    assert (s.returned + [s.out[0]]) + s.out[1..] == s.returned + s.out;
  }

  lemma PropagateKeepsOrder(s: State, i: nat, k: nat)
    requires i < |s.workers| && k < |s.workers| && InOrder(s, k)
    ensures InOrder(Apply(s, PropagateEpoch(i)), k)
  {
    assert Pipeline(s.workers[i].(epoch := s.epoch)) == Pipeline(s.workers[i]);
    hide Ordered, LineOf, Accepted, Pipeline;
  }

  lemma StepKeepsOrder(s: State, step: Step, k: nat)
    requires Enabled(s, step) && k < |s.workers| && InOrder(s, k)
    ensures k < |Apply(s, step).workers| && InOrder(Apply(s, step), k)
  {
    hide Ordered, LineOf, Accepted, Pipeline, ApplyLocal, LocalEnabled;
    match step {
      case Submit => SubmitKeepsOrder(s, k);
      case TryGetResult => TryGetKeepsOrder(s, k);
      case PropagateEpoch(i) => PropagateKeepsOrder(s, i, k);
      case PopJob(i) => PopKeepsOrder(s, i, k);
      case PushNack(i) => PushKeepsOrder(s, step, i, k);
      case PushResult(i) => PushKeepsOrder(s, step, i, k);
      case At(i, l) => LocalKeepsOrder(s, i, l, k);
      case _ =>
    }
  }

  // ---------------------------------------------------------------- every run

  ghost predicate Inv(s: State) {
    && Conserved(s)
    && forall i | 0 <= i < |s.workers| :: Slot(s.workers[i]) && InOrder(s, i)
  }

  lemma {:induction false} IdleCount(ws: seq<Worker>, x: nat)
    requires forall i | 0 <= i < |ws| :: Launched(ws[i]) || Parked(ws[i])
    ensures WorkersCount(ws, x) == 0
  {
    if ws != [] {
      assert Launched(ws[0]) || Parked(ws[0]);
      CountNone(x);
      IdleCount(ws[1..], x);
    }
  }

  lemma InitHolds(s: State)
    requires Init(s)
    ensures Inv(s)
  {
    forall x: nat ensures Everywhere(s, x) == 0 { IdleCount(s.workers, x); }
    forall i | 0 <= i < |s.workers| ensures Slot(s.workers[i]) && InOrder(s, i) {
      assert Launched(s.workers[i]) || Parked(s.workers[i]);
      assert Line(s, i) == [];
    }
  }

  lemma StepKeeps(s: State, step: Step)
    requires Inv(s) && Enabled(s, step)
    ensures Inv(Apply(s, step))
  {
    var t := Apply(s, step);
    StepKeepsSlots(s, step);
    forall x: nat ensures Everywhere(t, x) == if x < t.nextSub then 1 else 0 { StepConserves(s, step, x); }
    hide Slot, Everywhere, InOrder;
    forall k: nat | k < |t.workers| ensures InOrder(t, k) { StepKeepsOrder(s, step, k); }
  }

  /** Main lemma: whatever steps are taken in whatever order, the invariant holds. */
  lemma {:induction false} RunKeeps(s: State, steps: seq<Step>)
    requires Inv(s) && Runs(s, steps)
    ensures Inv(After(s, steps))
    decreases |steps|
  {
    if steps != [] {
      StepKeeps(s, steps[0]);
      RunKeeps(Apply(s, steps[0]), steps[1..]);
    }
  }

  ghost predicate Reachable(s: State) {
    exists start, steps :: Init(start) && Runs(start, steps) && After(start, steps) == s
  }

  lemma ReachableHolds(s: State)
    requires Reachable(s)
    ensures Inv(s)
  {
    var start, steps :| Init(start) && Runs(start, steps) && After(start, steps) == s;
    InitHolds(start);
    RunKeeps(start, steps);
  }

  /** Main result: no submission is ever answered twice. */
  lemma NoSecondResult(s: State, i: nat, j: nat)
    requires Reachable(s) && i < j < |s.returned + s.out|
    ensures (s.returned + s.out)[i].job.sub != (s.returned + s.out)[j].job.sub
  {
    ReachableHolds(s);
    var all := s.returned + s.out;
    var x := all[i].job.sub;
    ResultCountAppend(s.returned, s.out, x);
    assert Everywhere(s, x) <= 1;
    if all[j].job.sub == x { TwiceCounted(all, i, j); }
  }

  lemma {:induction false} ResultCountAppend(a: seq<RunnerResult>, b: seq<RunnerResult>, x: nat)
    ensures ResultCount(a + b, x) == ResultCount(a, x) + ResultCount(b, x)
  {
    if a == [] {
      assert a + b == b;
    } else {
      assert (a + b)[1..] == a[1..] + b;
      ResultCountAppend(a[1..], b, x);
    }
  }

  lemma {:induction false} OnceCounted(rs: seq<RunnerResult>, i: nat)
    requires i < |rs|
    ensures ResultCount(rs, rs[i].job.sub) >= 1
  {
    if i > 0 { OnceCounted(rs[1..], i - 1); }
  }

  lemma {:induction false} TwiceCounted(rs: seq<RunnerResult>, i: nat, j: nat)
    requires i < j < |rs| && rs[i].job.sub == rs[j].job.sub
    ensures ResultCount(rs, rs[i].job.sub) >= 2
  {
    if i == 0 { OnceCounted(rs[1..], j - 1); } else { TwiceCounted(rs[1..], i - 1, j - 1); }
  }

  /** Main result: every submission is in exactly one place. */
  lemma EverySubmissionOnce(s: State, x: nat)
    requires Reachable(s)
    ensures Everywhere(s, x) == if x < s.nextSub then 1 else 0
  {
    ReachableHolds(s);
  }

  /** Main result: a worker loses at most two jobs, also counting those stuck in its child after its reader left. */
  lemma AtMostTwoLost(s: State, i: nat)
    requires Reachable(s) && i < |s.workers|
    ensures |s.workers[i].limbo| + |s.workers[i].unsent| <= 2
    ensures !ReaderOpen(s.workers[i]) ==> Doomed(s.workers[i]) <= 2
  {
    ReachableHolds(s);
    assert Slot(s.workers[i]);
  }

  /** Main result: until the reader leaves or the worker is stopped, the slot is taken exactly when the dispatcher
      owns it or exactly one job is between send and release, so the child never holds two jobs. */
  lemma SlotIsExact(s: State, i: nat)
    requires Reachable(s) && i < |s.workers| && Intact(s.workers[i])
    ensures var w := s.workers[i];
            && (w.busy <==> Owns(w) || InFlight(w) == 1) && !(Owns(w) && InFlight(w) > 0) && InFlight(w) <= 1
            && |w.inbox| + |w.executing| <= 1
  {
    ReachableHolds(s);
    assert Slot(s.workers[i]);
  }

  /** Main result: every worker's accepted results come in submission order. */
  lemma WorkerResultsInOrder(s: State, i: nat)
    requires Reachable(s) && i < |s.workers|
    ensures Increasing(Accepted(s.returned + s.out, i))
  {
    ReachableHolds(s);
    assert InOrder(s, i);
    var a, line := Accepted(s.returned + s.out, i), Line(s, i);
    hide Accepted, Pipeline;
    forall k | 0 <= k < |a| ensures a[k] == line[k] {}
  }
}
