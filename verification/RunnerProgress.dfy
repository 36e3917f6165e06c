/** What remains possible: as long as one worker can work, every queued job can still be answered by it, so no interleaving of
    the runner's steps locks it up. */
module RunnerProgress {
  import opened RunnerProtocol
  import opened RunnerInvariants

  // ---------------------------------------------------------------- a worker that can work

  /** Not stopped, its child alive and reachable, its reader reading, its dispatcher running. */
  predicate Usable(w: Worker) {
    && w.running && w.procRunning && w.stdinOpen && w.alive && ReaderOpen(w) && !w.dispatcher.Exited? && !w.ready.Bad?
    && (w.ready.Unknown? ==> w.dispatcher.Waiting?)
  }

  /** Nothing died with a child that is alive, while its reader reads. */
  predicate NoneDied(w: Worker) { w.alive && ReaderOpen(w) ==> w.limbo == [] }

  lemma LocalNoneDied(w: Worker, l: Local)
    requires LocalEnabled(w, l) && NoneDied(w)
    ensures NoneDied(ApplyLocal(w, l))
  {
  }

  lemma StepNoneDied(s: State, step: Step)
    requires Enabled(s, step) && forall i | 0 <= i < |s.workers| :: NoneDied(s.workers[i])
    ensures var t := Apply(s, step); forall i | 0 <= i < |t.workers| :: NoneDied(t.workers[i])
  {
    if step.At? { LocalNoneDied(s.workers[step.i], step.l); }
    hide ApplyLocal, LocalEnabled;
  }

  lemma {:induction false} RunNoneDied(s: State, steps: seq<Step>)
    requires Runs(s, steps) && forall i | 0 <= i < |s.workers| :: NoneDied(s.workers[i])
    ensures var t := After(s, steps); forall i | 0 <= i < |t.workers| :: NoneDied(t.workers[i])
    decreases |steps|
  {
    hide NoneDied;
    if steps != [] {
      StepNoneDied(s, steps[0]);
      assert After(s, steps) == After(Apply(s, steps[0]), steps[1..]);
      RunNoneDied(Apply(s, steps[0]), steps[1..]);
    }
  }

  // ---------------------------------------------------------------- its next step

  /** Finish what is under way, from the reader back to the dispatcher; then see to the next job. */
  function NextStep(w: Worker, i: nat): Step {
    if w.reader.Got? then At(i, ReleaseSlot)
    else if w.reader.Released? then PushResult(i)
    else if w.outbox != [] then At(i, ReadResult)
    else if w.executing != [] then At(i, FinishJob)
    else if w.inbox != [] then At(i, TakeJob)
    else
      match w.dispatcher
      case Waiting => if w.ready.Unknown? then At(i, ReportReady(true)) else At(i, SeeReady)
      case Acquiring => At(i, Acquire)
      case Acquired => At(i, CheckRunning)
      case Owning => PopJob(i)
      case Holding(j) => At(i, if j.epoch == w.epoch then AcceptJob else RejectJob)
      case Sending(_) => At(i, SendOk)
      case Nacking(_) => PushNack(i)
      case Exited => At(i, SeeReady)
  }

  /** The steps until all jobs of the worker are answered. */
  function Work(w: Worker): nat {
    (if w.reader.Got? then 2 else if w.reader.Released? then 1 else 0) + 3 * |w.outbox| + 4 * |w.executing| + 5 * |w.inbox| +
    match w.dispatcher case Holding(_) => 7 case Sending(_) => 6 case Nacking(_) => 1 case _ => 0
  }

  /** The steps until the next job is popped. */
  function Rank(w: Worker): nat {
    Work(w) +
    match w.dispatcher
    case Waiting => if w.ready.Unknown? then 5 else 4
    case Acquired => 2
    case Owning => 1
    case _ => 3
  }

  ghost predicate AllReady(s: State, i: nat) {
    i < |s.workers| && Usable(s.workers[i]) && NoneDied(s.workers[i]) && Slot(s.workers[i])
  }

  /** The worker the next step leaves behind. */
  ghost predicate Steps(s: State, i: nat) {
    && i < |s.workers|
    && var w, step := s.workers[i], NextStep(s.workers[i], i);
       && Enabled(s, step) && |Apply(s, step).workers| == |s.workers|
       && var v := Apply(s, step).workers[i];
          && Usable(v) && NoneDied(v) && v.epoch == w.epoch && (Rank(v) < Rank(w) || step == PopJob(i))
  }

  lemma ReaderSteps(s: State, i: nat)
    requires AllReady(s, i) && s.workers[i].reader != Reading
    ensures Steps(s, i)
  {
    hide Slot;
  }

  lemma ReadSteps(s: State, i: nat)
    requires AllReady(s, i) && s.workers[i].reader == Reading && s.workers[i].outbox != []
    ensures Steps(s, i)
  {
    hide Slot;
    assert |s.workers[i].outbox[1..]| == |s.workers[i].outbox| - 1;
  }

  lemma FinishSteps(s: State, i: nat)
    requires AllReady(s, i) && s.workers[i].reader == Reading && s.workers[i].outbox == [] && s.workers[i].executing != []
    ensures Steps(s, i)
  {
    hide Slot;
    var w := s.workers[i];
    assert |w.outbox + w.executing| == |w.executing|;
  }

  lemma TakeSteps(s: State, i: nat)
    requires AllReady(s, i) && s.workers[i].reader == Reading && s.workers[i].outbox == s.workers[i].executing == [] && s.workers[i].inbox != []
    ensures Steps(s, i)
  {
    hide Slot;
    assert |s.workers[i].inbox[1..]| == |s.workers[i].inbox| - 1;
  }

  lemma ChildSteps(s: State, i: nat)
    requires AllReady(s, i) && s.workers[i].reader == Reading && InChild(s.workers[i]) != []
    ensures Steps(s, i)
  {
    hide Slot, Usable, NoneDied, Steps;
    if s.workers[i].outbox != [] { ReadSteps(s, i); }
    else if s.workers[i].executing != [] { FinishSteps(s, i); }
    else { TakeSteps(s, i); }
  }

  /** The dispatcher takes the slot. */
  lemma SlotSteps(s: State, i: nat)
    requires AllReady(s, i) && s.workers[i].reader == Reading && InChild(s.workers[i]) == []
    requires var d := s.workers[i].dispatcher; d.Waiting? || d.Acquiring? || d.Acquired?
    ensures Steps(s, i)
  {
    var w := s.workers[i];
    assert w.outbox == w.executing == w.inbox == [];
  }

  /** The dispatcher deals with a job. */
  lemma JobSteps(s: State, i: nat)
    requires AllReady(s, i) && s.workers[i].reader == Reading && InChild(s.workers[i]) == []
    requires NextStep(s.workers[i], i) == PopJob(i) ==> s.queue != []
    requires var d := s.workers[i].dispatcher; !d.Waiting? && !d.Acquiring? && !d.Acquired?
    ensures Steps(s, i)
  {
    hide Slot;
    var w := s.workers[i];
    assert w.outbox == w.executing == w.inbox == [];
    if w.dispatcher.Sending? { assert w.inbox + [w.dispatcher.job] == [w.dispatcher.job]; }
  }

  lemma DispatcherSteps(s: State, i: nat)
    requires AllReady(s, i) && s.workers[i].reader == Reading && InChild(s.workers[i]) == []
    requires NextStep(s.workers[i], i) == PopJob(i) ==> s.queue != []
    ensures Steps(s, i)
  {
    hide Slot, Usable, NoneDied, Steps, InChild, NextStep;
    var d := s.workers[i].dispatcher;
    if d.Waiting? || d.Acquiring? || d.Acquired? { SlotSteps(s, i); } else { JobSteps(s, i); }
  }

  lemma WorkerSteps(s: State, i: nat)
    requires AllReady(s, i) && (NextStep(s.workers[i], i) == PopJob(i) ==> s.queue != [])
    ensures Steps(s, i)
  {
    hide Slot, Usable, NoneDied, Steps, InChild, NextStep;
    if s.workers[i].reader != Reading { ReaderSteps(s, i); }
    else if InChild(s.workers[i]) != [] { ChildSteps(s, i); }
    else { DispatcherSteps(s, i); }
  }

  lemma WorkerStepsOn(s: State, i: nat)
    requires AllReady(s, i) && (NextStep(s.workers[i], i) == PopJob(i) ==> s.queue != [])
    ensures var w, step := s.workers[i], NextStep(s.workers[i], i);
            && Enabled(s, step) && AllReady(Apply(s, step), i) && Apply(s, step).workers[i].epoch == w.epoch
            && (Rank(Apply(s, step).workers[i]) < Rank(w) || step == PopJob(i))
  {
    WorkerSteps(s, i);
    hide Usable, NoneDied, Rank, Apply, Enabled, NextStep, Slot;
    SlotOn(s, NextStep(s.workers[i], i), i);
  }

  lemma SlotOn(s: State, step: Step, i: nat)
    requires Enabled(s, step) && i < |s.workers| && Slot(s.workers[i])
    ensures i < |Apply(s, step).workers| && Slot(Apply(s, step).workers[i])
  {
    hide Slot, ApplyLocal, LocalEnabled;
    match step {
      case At(k, l) => if k == i { LocalKeepsSlot(s.workers[i], l); }
      case PopJob(k) => SharedKeepsSlot(s.workers[i], s.queue[0]);
      case PushNack(k) => SharedKeepsSlot(s.workers[i], s.workers[k].dispatcher.job);
      case PushResult(k) => SharedKeepsSlot(s.workers[i], s.workers[k].reader.job);
      case PropagateEpoch(k) => EpochKeepsSlot(s.workers[i], s.epoch);
      case _ =>
    }
  }

  lemma QueueStays(s: State, i: nat)
    requires i < |s.workers| && Enabled(s, NextStep(s.workers[i], i))
    ensures var step := NextStep(s.workers[i], i);
            && s.out <= Apply(s, step).out
            && Apply(s, step).queue == if step == PopJob(i) then s.queue[1..] else s.queue
  {
    hide ApplyLocal, LocalEnabled;
  }

  // ---------------------------------------------------------------- on to the next job

  /** The oldest job of the queue is with the worker, which has nothing else to do. */
  ghost predicate TookHead(s: State, t: State, i: nat) {
    && s.queue != [] && AllReady(s, i) && AllReady(t, i) && t.workers[i].epoch == s.workers[i].epoch
    && t.workers[i].dispatcher == Holding(s.queue[0]) && t.workers[i].reader == Reading
    && t.queue == s.queue[1..] && s.out <= t.out
  }

  lemma OneThen(s: State, step: Step, rest: seq<Step>)
    requires Enabled(s, step) && Runs(Apply(s, step), rest)
    ensures Runs(s, [step] + rest) && After(s, [step] + rest) == After(Apply(s, step), rest)
  {
    hide Enabled, Apply;
    assert ([step] + rest)[1..] == rest;
  }

  lemma {:induction false} HeadIsTaken(s: State, i: nat) returns (steps: seq<Step>)
    requires AllReady(s, i) && s.queue != []
    ensures Runs(s, steps) && TookHead(s, After(s, steps), i)
    decreases Rank(s.workers[i])
  {
    hide Usable, NoneDied, Rank, Slot;
    var step := NextStep(s.workers[i], i);
    WorkerStepsOn(s, i);
    QueueStays(s, i);
    var t := Apply(s, step);
    if step == PopJob(i) {
      steps := [step];
      OneThen(s, step, []);
      assert [step] + [] == [step];
      PopsWhenIdle(s.workers[i], i);
    } else {
      hide Apply, Enabled, NextStep;
      var rest := HeadIsTaken(t, i);
      OneThen(s, step, rest);
      steps := [step] + rest;
    }
  }

  lemma PopsWhenIdle(w: Worker, i: nat)
    requires NextStep(w, i) == PopJob(i) && Usable(w)
    ensures w.reader == Reading
  {
  }

  // ---------------------------------------------------------------- and to its answer

  predicate Carries(w: Worker, j: Job) {
    || w.dispatcher in {Holding(j), Sending(j), Nacking(j)} || w.inbox == [j] || w.executing == [j] || w.outbox == [j]
    || w.reader in {Got(j), Released(j)}
  }

  /** Once past the comparison the outcome is settled. */
  predicate Fits(w: Worker, j: Job) {
    && (w.dispatcher == Nacking(j) ==> j.epoch != w.epoch)
    && (w.dispatcher == Sending(j) || w.inbox == [j] || w.executing == [j] || w.outbox == [j] || w.reader in {Got(j), Released(j)} ==> j.epoch == w.epoch)
  }

  predicate AnsweredBy(s: State, i: nat, j: Job, accepted: bool) { RunnerResult(j, i, accepted) in s.out }

  /** What the next step does for the job. */
  ghost predicate Carried(s: State, i: nat, j: Job) {
    && i < |s.workers|
    && var w, step := s.workers[i], NextStep(s.workers[i], i);
       && Enabled(s, step) && |Apply(s, step).workers| == |s.workers|
       && var v := Apply(s, step).workers[i];
          && Work(v) < Work(w) && step != PopJob(i)
          && ((Carries(v, j) && Fits(v, j)) || AnsweredBy(Apply(s, step), i, j, j.epoch == w.epoch))
  }

  lemma CarriedByReader(s: State, i: nat, j: Job)
    requires AllReady(s, i) && Carries(s.workers[i], j) && Fits(s.workers[i], j) && s.workers[i].reader != Reading
    ensures Carried(s, i, j)
  {
    SlotFew(s.workers[i]);
    hide Slot;
  }

  lemma CarriedByChild(s: State, i: nat, j: Job)
    requires AllReady(s, i) && Carries(s.workers[i], j) && Fits(s.workers[i], j) && s.workers[i].reader == Reading
    requires InChild(s.workers[i]) != []
    ensures Carried(s, i, j)
  {
    var w := s.workers[i];
    SlotFew(w);
    hide Slot;
    if w.executing != [] { assert |w.outbox + w.executing| == |w.outbox| + |w.executing|; }
  }

  lemma CarriedByDispatcher(s: State, i: nat, j: Job)
    requires AllReady(s, i) && Carries(s.workers[i], j) && Fits(s.workers[i], j) && s.workers[i].reader == Reading
    requires InChild(s.workers[i]) == []
    ensures Carried(s, i, j)
  {
    var w := s.workers[i];
    assert w.outbox == w.executing == w.inbox == [];
    hide Slot;
    if w.dispatcher.Sending? { assert w.inbox + [w.dispatcher.job] == [w.dispatcher.job]; }
  }

  lemma CarriedOn(s: State, i: nat, j: Job)
    requires AllReady(s, i) && Carries(s.workers[i], j) && Fits(s.workers[i], j)
    ensures Carried(s, i, j)
  {
    hide Slot, Usable, NoneDied, Carries, Fits, Carried, InChild;
    if s.workers[i].reader != Reading { CarriedByReader(s, i, j); }
    else if InChild(s.workers[i]) != [] { CarriedByChild(s, i, j); }
    else { CarriedByDispatcher(s, i, j); }
  }

  lemma SlotFew(w: Worker)
    requires Usable(w) && Slot(w)
    ensures |w.inbox| + |w.executing| + |w.outbox| <= 1 && (Owns(w) ==> w.inbox == w.executing == w.outbox == [] && !w.reader.Got?)
    ensures w.reader.Got? ==> w.inbox == w.executing == w.outbox == []
  {
  }

  lemma {:induction false} CarriedIsAnswered(s: State, i: nat, j: Job) returns (steps: seq<Step>)
    requires AllReady(s, i) && Carries(s.workers[i], j) && Fits(s.workers[i], j)
    ensures Runs(s, steps)
    ensures var t := After(s, steps);
            && AllReady(t, i) && t.workers[i].epoch == s.workers[i].epoch && t.queue == s.queue && s.out <= t.out
            && AnsweredBy(t, i, j, j.epoch == s.workers[i].epoch)
    decreases Work(s.workers[i])
  {
    hide Usable, NoneDied, Work, Slot, Carries, Fits;
    var step := NextStep(s.workers[i], i);
    CarriedOn(s, i, j);
    WorkerStepsOn(s, i);
    QueueStays(s, i);
    var t := Apply(s, step);
    if AnsweredBy(t, i, j, j.epoch == s.workers[i].epoch) {
      steps := [step];
      OneThen(s, step, []);
      assert [step] + [] == [step];
    } else {
      hide Apply, Enabled, NextStep, AnsweredBy;
      var rest := CarriedIsAnswered(t, i, j);
      OneThen(s, step, rest);
      steps := [step] + rest;
      Outlives(s.out, t.out, After(t, rest).out);
    }
  }

  lemma Outlives(a: seq<RunnerResult>, b: seq<RunnerResult>, c: seq<RunnerResult>)
    requires a <= b <= c
    ensures a <= c
  {
  }

  // ---------------------------------------------------------------- every queued job

  lemma Joined(s: State, a: seq<Step>, b: seq<Step>)
    requires Runs(s, a) && Runs(After(s, a), b)
    ensures Runs(s, a + b) && After(s, a + b) == After(After(s, a), b)
    decreases |a|
  {
    if a == [] {
      assert a + b == b;
    } else {
      assert (a + b)[0] == a[0] && (a + b)[1..] == a[1..] + b;
      Joined(Apply(s, a[0]), a[1..], b);
    }
  }

  lemma HeadIsAnswered(s: State, i: nat) returns (steps: seq<Step>)
    requires AllReady(s, i) && s.queue != []
    ensures Runs(s, steps)
    ensures var t := After(s, steps);
            && AllReady(t, i) && t.workers[i].epoch == s.workers[i].epoch && t.queue == s.queue[1..] && s.out <= t.out
            && AnsweredBy(t, i, s.queue[0], s.queue[0].epoch == s.workers[i].epoch)
  {
    hide After, Runs, AnsweredBy, Usable, NoneDied, Slot;
    var first := HeadIsTaken(s, i);
    var t := After(s, first);
    HoldingFits(t.workers[i], s.queue[0]);
    var second := CarriedIsAnswered(t, i, s.queue[0]);
    Joined(s, first, second);
    steps := first + second;
    Outlives(s.out, t.out, After(t, second).out);
  }

  lemma HoldingFits(w: Worker, j: Job)
    requires w.dispatcher == Holding(j) && Usable(w) && Slot(w)
    ensures Carries(w, j) && (w.reader == Reading ==> Fits(w, j))
  {
    SlotFew(w);
  }

  lemma {:induction false} QueuedIsAnswered(s: State, i: nat, p: nat) returns (steps: seq<Step>)
    requires AllReady(s, i) && p < |s.queue|
    ensures Runs(s, steps) && AnsweredBy(After(s, steps), i, s.queue[p], s.queue[p].epoch == s.workers[i].epoch)
    decreases p
  {
    hide After, Runs, AllReady;
    steps := HeadIsAnswered(s, i);
    if p > 0 {
      var t := After(s, steps);
      var rest := QueuedIsAnswered(t, i, p - 1);
      Joined(s, steps, rest);
      steps := steps + rest;
    }
  }

  /** Main result: in every reachable state with a usable worker, every queued job can still be answered by that worker, and is
      accepted then exactly when it carries the worker's epoch. */
  lemma QueuedJobsCanBeAnswered(start: State, before: seq<Step>, i: nat, p: nat) returns (steps: seq<Step>)
    requires Init(start) && Runs(start, before)
    requires var s := After(start, before); i < |s.workers| && Usable(s.workers[i]) && p < |s.queue|
    ensures var s := After(start, before);
            && Runs(s, steps)
            && RunnerResult(s.queue[p], i, s.queue[p].epoch == s.workers[i].epoch) in After(s, steps).out
  {
    hide Runs, After, Usable, Slot;
    var s := After(start, before);
    InitHolds(start);
    RunKeeps(start, before);
    StartsUnharmed(start);
    RunNoneDied(start, before);
    hide NoneDied;
    ReadyFrom(s, i);
    steps := QueuedIsAnswered(s, i, p);
  }

  lemma StartsUnharmed(s: State)
    requires Init(s)
    ensures forall i | 0 <= i < |s.workers| :: NoneDied(s.workers[i])
  {
  }

  lemma ReadyFrom(s: State, i: nat)
    requires Inv(s) && i < |s.workers| && Usable(s.workers[i]) && NoneDied(s.workers[i])
    ensures AllReady(s, i)
  {
    hide Conserved, InOrder, Usable, NoneDied;
    assert Slot(s.workers[i]);
  }

  // ---------------------------------------------------------------- leaving

  /** The dispatcher's way out of a stopped worker. */
  function ExitStep(s: State, i: nat): Step
    requires i < |s.workers|
  {
    match s.workers[i].dispatcher
    case Owning => if s.queue == [] then At(i, LeaveClosed) else PopJob(i)
    case Holding(j) => At(i, if j.epoch == s.workers[i].epoch then AcceptJob else RejectJob)
    case Sending(_) => At(i, SendBroken)
    case Nacking(_) => PushNack(i)
    case _ => At(i, SeeStopped)
  }

  function ExitRank(w: Worker): nat {
    match w.dispatcher
    case Owning => 4
    case Holding(_) => 3
    case Nacking(_) => 2
    case Exited => 0
    case _ => 1
  }

  /** What it does. */
  ghost predicate Exits(s: State, i: nat) {
    && i < |s.workers|
    && var step := ExitStep(s, i);
       && Enabled(s, step) && Apply(s, step).closed && |Apply(s, step).workers| == |s.workers|
       && !Apply(s, step).workers[i].running && ExitRank(Apply(s, step).workers[i]) < ExitRank(s.workers[i])
  }

  lemma JobExits(s: State, i: nat)
    requires s.closed && i < |s.workers| && !s.workers[i].running
    requires var d := s.workers[i].dispatcher; d.Owning? || d.Holding? || d.Nacking?
    ensures Exits(s, i)
  {
  }

  lemma RestExits(s: State, i: nat)
    requires s.closed && i < |s.workers| && !s.workers[i].running
    requires var d := s.workers[i].dispatcher; d.Sending? || d.Waiting? || d.Acquiring? || d.Acquired?
    ensures Exits(s, i)
  {
  }

  lemma ExitsOn(s: State, i: nat)
    requires s.closed && i < |s.workers| && !s.workers[i].running && !s.workers[i].dispatcher.Exited?
    ensures Exits(s, i)
  {
    hide Exits;
    var d := s.workers[i].dispatcher;
    if d.Owning? || d.Holding? || d.Nacking? { JobExits(s, i); } else { RestExits(s, i); }
  }

  /** Main result: once the queue is closed and the worker stopped its dispatcher can always finish, so waiting for it can end. */
  lemma {:induction false} StoppedDispatcherExits(s: State, i: nat) returns (steps: seq<Step>)
    requires s.closed && i < |s.workers| && !s.workers[i].running
    ensures Runs(s, steps) && i < |After(s, steps).workers| && After(s, steps).workers[i].dispatcher.Exited?
    decreases ExitRank(s.workers[i])
  {
    steps := [];
    if !s.workers[i].dispatcher.Exited? {
      ExitsOn(s, i);
      hide ExitRank, ExitStep, Enabled, Apply;
      var step := ExitStep(s, i);
      var rest := StoppedDispatcherExits(Apply(s, step), i);
      OneThen(s, step, rest);
      steps := [step] + rest;
    }
  }

  /** Main result: a reader that leaves frees the slot: a dispatcher that was waiting for it can take up the next job. */
  lemma LeavingReaderFrees(s: State, i: nat) returns (steps: seq<Step>)
    requires i < |s.workers| && s.queue != []
    requires var w := s.workers[i]; w.running && w.reader.Closing? && w.dispatcher.Acquiring?
    ensures Runs(s, steps) && i < |After(s, steps).workers| && After(s, steps).workers[i].dispatcher == Holding(s.queue[0])
  {
    var a := Apply(s, At(i, CloseRelease));
    var b := Apply(a, At(i, Acquire));
    var c := Apply(b, At(i, CheckRunning));
    var d := Apply(c, PopJob(i));
    OneThen(c, PopJob(i), []);
    OneThen(b, At(i, CheckRunning), [PopJob(i)] + []);
    OneThen(a, At(i, Acquire), [At(i, CheckRunning)] + ([PopJob(i)] + []));
    steps := [At(i, CloseRelease)] + ([At(i, Acquire)] + ([At(i, CheckRunning)] + ([PopJob(i)] + [])));
    OneThen(s, At(i, CloseRelease), [At(i, Acquire)] + ([At(i, CheckRunning)] + ([PopJob(i)] + [])));
    hide Enabled, ApplyLocal;
    assert After(c, [PopJob(i)] + []) == d;
  }
}
