/** Epochs in every interleaving of the runner's steps: a job carries the epoch in which it was submitted, and is refused
    exactly when its worker is in another one as it takes the job up. */
module RunnerEpochs {
  import opened RunnerProtocol

  // ---------------------------------------------------------------- runs, step by step

  lemma {:induction false} RunsSplit(s: State, front: seq<Step>, back: seq<Step>)
    requires Runs(s, front + back)
    ensures Runs(s, front) && Runs(After(s, front), back) && After(s, front + back) == After(After(s, front), back)
    decreases |front|
  {
    if front == [] {
      assert front + back == back;
    } else {
      assert (front + back)[0] == front[0] && (front + back)[1..] == front[1..] + back;
      RunsSplit(Apply(s, front[0]), front[1..], back);
    }
  }

  /** The state after the first n steps. */
  ghost function StateAt(s: State, steps: seq<Step>, n: nat): State
    requires Runs(s, steps) && n <= |steps|
  {
    assert steps == steps[..n] + steps[n..];
    RunsSplit(s, steps[..n], steps[n..]);
    After(s, steps[..n])
  }

  lemma RunsSnoc(s: State, front: seq<Step>, step: Step)
    requires Runs(s, front + [step])
    ensures Runs(s, front) && Enabled(After(s, front), step) && After(s, front + [step]) == Apply(After(s, front), step)
  {
    hide Apply, Enabled;
    RunsSplit(s, front, [step]);
    assert [step][1..] == [];
  }

  lemma StateNext(s: State, steps: seq<Step>, n: nat)
    requires Runs(s, steps) && n < |steps|
    ensures Enabled(StateAt(s, steps, n), steps[n]) && StateAt(s, steps, n + 1) == Apply(StateAt(s, steps, n), steps[n])
  {
    hide Apply, Enabled, After;
    assert steps == steps[..n + 1] + steps[n + 1..] && steps[..n + 1] == steps[..n] + [steps[n]];
    RunsSplit(s, steps[..n + 1], steps[n + 1..]);
    RunsSnoc(s, steps[..n], steps[n]);
  }

  lemma StateSame(s: State, steps: seq<Step>, m: nat, n: nat)
    requires Runs(s, steps) && n <= m <= |steps|
    ensures Runs(s, steps[..m]) && StateAt(s, steps[..m], n) == StateAt(s, steps, n)
  {
    assert steps == steps[..m] + steps[m..] && steps[..m][..n] == steps[..n];
    RunsSplit(s, steps[..m], steps[m..]);
  }

  // ---------------------------------------------------------------- what happened to a job

  /** The worker took the job up in its own epoch, and went on to send it. */
  ghost predicate LetThroughAt(s: State, steps: seq<Step>, n: nat, i: nat, j: Job)
    requires Runs(s, steps)
  {
    && n < |steps| && i < |StateAt(s, steps, n).workers| == |StateAt(s, steps, n + 1).workers|
    && var w, v := StateAt(s, steps, n).workers[i], StateAt(s, steps, n + 1).workers[i];
       w.dispatcher == Holding(j) && v.dispatcher == Sending(j) && j.epoch == w.epoch
  }

  /** The worker took the job up in another epoch, gave its slot back, and went on to refuse it. */
  ghost predicate TurnedDownAt(s: State, steps: seq<Step>, n: nat, i: nat, j: Job)
    requires Runs(s, steps)
  {
    && n < |steps| && i < |StateAt(s, steps, n).workers| == |StateAt(s, steps, n + 1).workers|
    && var w, v := StateAt(s, steps, n).workers[i], StateAt(s, steps, n + 1).workers[i];
       w.dispatcher == Holding(j) && v.dispatcher == Nacking(j) && j.epoch != w.epoch && !v.busy
  }

  /** The job was submitted in the epoch that it carries, under the next id. */
  ghost predicate StampedAt(s: State, steps: seq<Step>, n: nat, j: Job)
    requires Runs(s, steps)
  {
    && n < |steps| && steps[n] == Submit
    && var t := StateAt(s, steps, n); j.sub == t.nextSub && j.epoch == t.epoch && j.id == t.jobSeq + 1
  }

  ghost predicate LetThrough(s: State, steps: seq<Step>, i: nat, j: Job)
    requires Runs(s, steps)
  {
    exists n: nat :: LetThroughAt(s, steps, n, i, j)
  }

  ghost predicate TurnedDown(s: State, steps: seq<Step>, i: nat, j: Job)
    requires Runs(s, steps)
  {
    exists n: nat :: TurnedDownAt(s, steps, n, i, j)
  }

  ghost predicate Stamped(s: State, steps: seq<Step>, j: Job)
    requires Runs(s, steps)
  {
    exists n: nat :: StampedAt(s, steps, n, j)
  }

  /** What happened stays so. */
  lemma Remains(s: State, steps: seq<Step>, m: nat, i: nat, j: Job)
    requires Runs(s, steps) && m <= |steps|
    ensures Runs(s, steps[..m])
    ensures LetThrough(s, steps[..m], i, j) ==> LetThrough(s, steps, i, j)
    ensures TurnedDown(s, steps[..m], i, j) ==> TurnedDown(s, steps, i, j)
    ensures Stamped(s, steps[..m], j) ==> Stamped(s, steps, j)
  {
    StateSame(s, steps, m, m);
    hide StateAt, Runs;
    forall n: nat | n <= m ensures StateAt(s, steps[..m], n) == StateAt(s, steps, n) { StateSame(s, steps, m, n); }
    if n: nat :| LetThroughAt(s, steps[..m], n, i, j) { assert LetThroughAt(s, steps, n, i, j); }
    if n: nat :| TurnedDownAt(s, steps[..m], n, i, j) { assert TurnedDownAt(s, steps, n, i, j); }
    if n: nat :| StampedAt(s, steps[..m], n, j) { assert StampedAt(s, steps, n, j); }
  }

  // ---------------------------------------------------------------- where the jobs of a state are

  /** The jobs of a worker between the epoch comparison and the result queue. */
  predicate Sent(w: Worker, j: Job) {
    || w.dispatcher == Sending(j) || j in w.inbox || j in w.executing || j in w.outbox || j in w.limbo || j in w.unsent
    || w.reader == Got(j) || w.reader == Released(j)
  }

  predicate Answers(s: State, r: RunnerResult) { r in s.out || r in s.returned }

  ghost predicate Present(s: State, j: Job) {
    || j in s.queue || (exists r :: Answers(s, r) && r.job == j)
    || exists i: nat :: i < |s.workers| && (Sent(s.workers[i], j) || s.workers[i].dispatcher in {Holding(j), Nacking(j)})
  }

  // ---------------------------------------------------------------- one step

  lemma LocalOrigins(w: Worker, l: Local, j: Job)
    requires LocalEnabled(w, l)
    ensures var v := ApplyLocal(w, l);
            && (Sent(v, j) ==> Sent(w, j) || (w.dispatcher == Holding(j) && v.dispatcher == Sending(j) && j.epoch == w.epoch))
            && (v.dispatcher == Nacking(j) ==>
                  w.dispatcher == Nacking(j) || (w.dispatcher == Holding(j) && j.epoch != w.epoch && !v.busy))
            && (v.dispatcher == Holding(j) ==> w.dispatcher == Holding(j))
  {
  }

  /** Where a worker's jobs come from in one step: from itself, or from the queue. */
  lemma WorkerOrigins(s: State, step: Step, i: nat, j: Job)
    requires Enabled(s, step) && i < |s.workers|
    ensures |Apply(s, step).workers| == |s.workers|
    ensures var w, v := s.workers[i], Apply(s, step).workers[i];
            && (Sent(v, j) ==> Sent(w, j) || (w.dispatcher == Holding(j) && v.dispatcher == Sending(j) && j.epoch == w.epoch))
            && (v.dispatcher == Nacking(j) ==>
                  w.dispatcher == Nacking(j) || (w.dispatcher == Holding(j) && j.epoch != w.epoch && !v.busy))
            && (v.dispatcher == Holding(j) ==> w.dispatcher == Holding(j) || j in s.queue)
  {
    if step.At? && step.i == i {
      LocalOrigins(s.workers[i], step.l, j);
      hide ApplyLocal, LocalEnabled, Sent;
    } else {
      hide ApplyLocal, LocalEnabled;
    }
  }

  /** Where an answer comes from. */
  lemma AnswerOrigins(s: State, step: Step, r: RunnerResult)
    requires Enabled(s, step) && Answers(Apply(s, step), r)
    ensures Answers(s, r) || (r.worker < |s.workers| &&
              var w := s.workers[r.worker];
              if r.accepted then w.reader == Released(r.job) else w.dispatcher == Nacking(r.job))
  {
    hide ApplyLocal, LocalEnabled;
  }

  /** Where a job in the queue comes from. */
  lemma QueueOrigins(s: State, step: Step, j: Job)
    requires Enabled(s, step) && j in Apply(s, step).queue
    ensures j in s.queue || (step == Submit && j == Job(s.nextSub, s.jobSeq + 1, s.epoch))
  {
    hide ApplyLocal, LocalEnabled;
  }

  /** Every job of a state was there before, or has just been submitted. */
  lemma PresentOrigins(s: State, step: Step, j: Job)
    requires Enabled(s, step) && Present(Apply(s, step), j)
    ensures Present(s, j) || (step == Submit && j == Job(s.nextSub, s.jobSeq + 1, s.epoch))
  {
    var t := Apply(s, step);
    if j in t.queue {
      QueueOrigins(s, step, j);
    } else if r :| Answers(t, r) && r.job == j {
      AnswerOrigins(s, step, r);
    } else {
      var i: nat :| i < |t.workers| && (Sent(t.workers[i], j) || t.workers[i].dispatcher in {Holding(j), Nacking(j)});
      SameWorkers(s, step);
      WorkerOrigins(s, step, i, j);
    }
  }

  lemma SameWorkers(s: State, step: Step)
    requires Enabled(s, step)
    ensures |Apply(s, step).workers| == |s.workers|
  {
    hide ApplyLocal, LocalEnabled;
  }

  // ---------------------------------------------------------------- every run

  ghost predicate Accounted(s: State, steps: seq<Step>, r: RunnerResult)
    requires Runs(s, steps)
  {
    if r.accepted then LetThrough(s, steps, r.worker, r.job) else TurnedDown(s, steps, r.worker, r.job)
  }

  ghost predicate WorkerAccounted(s: State, steps: seq<Step>, i: nat, j: Job)
    requires Runs(s, steps) && i < |After(s, steps).workers|
  {
    var w := After(s, steps).workers[i];
    (Sent(w, j) ==> LetThrough(s, steps, i, j)) && (w.dispatcher == Nacking(j) ==> TurnedDown(s, steps, i, j))
  }

  lemma LastStep(s: State, steps: seq<Step>)
    requires Runs(s, steps) && steps != []
    ensures var n := |steps| - 1;
            && Runs(s, steps[..n]) && Enabled(After(s, steps[..n]), steps[n])
            && StateAt(s, steps, n) == After(s, steps[..n])
            && StateAt(s, steps, n + 1) == After(s, steps) == Apply(After(s, steps[..n]), steps[n])
  {
    var n := |steps| - 1;
    StateSame(s, steps, n, n);
    StateNext(s, steps, n);
    assert steps[..n + 1] == steps && steps[..n][..n] == steps[..n];
  }

  lemma {:induction false} WorkersAccounted(s: State, steps: seq<Step>, i: nat, j: Job)
    requires Init(s) && Runs(s, steps) && i < |After(s, steps).workers|
    ensures WorkerAccounted(s, steps, i, j)
    decreases |steps|
  {
    hide Init, Runs, StateAt, LetThrough, TurnedDown, Sent, ApplyLocal, LocalEnabled;
    if steps == [] {
      StartsEmpty(s, i, j);
    } else {
      LastStep(s, steps);
      var n := |steps| - 1;
      var t, step := After(s, steps[..n]), steps[n];
      SameWorkers(t, step);
      WorkersAccounted(s, steps[..n], i, j);
      WorkerOrigins(t, step, i, j);
      Remains(s, steps, n, i, j);
      hide After, Apply, Enabled;
      JustDecided(s, steps, n, i, j);
    }
  }

  lemma JustDecided(s: State, steps: seq<Step>, n: nat, i: nat, j: Job)
    requires Runs(s, steps) && n < |steps|
    ensures LetThroughAt(s, steps, n, i, j) ==> LetThrough(s, steps, i, j)
    ensures TurnedDownAt(s, steps, n, i, j) ==> TurnedDown(s, steps, i, j)
  {
    hide LetThroughAt, TurnedDownAt;
  }

  lemma StartsEmpty(s: State, i: nat, j: Job)
    requires Init(s) && i < |s.workers|
    ensures After(s, []) == s && !Sent(s.workers[i], j) && s.workers[i].dispatcher !in {Nacking(j), Holding(j)}
    ensures Runs(s, [])
  {
    assert Launched(s.workers[i]) || Parked(s.workers[i]);
  }

  lemma {:induction false} AnswersAccounted(s: State, steps: seq<Step>, r: RunnerResult)
    requires Init(s) && Runs(s, steps) && Answers(After(s, steps), r)
    ensures Accounted(s, steps, r)
    decreases |steps|
  {
    hide Runs, StateAt, LetThrough, TurnedDown, ApplyLocal, LocalEnabled;
    if steps != [] {
      LastStep(s, steps);
      var n := |steps| - 1;
      var t, step := After(s, steps[..n]), steps[n];
      AnswerOrigins(t, step, r);
      Remains(s, steps, n, r.worker, r.job);
      hide Init, After, Apply, Enabled, Answers;
      if Answers(t, r) {
        AnswersAccounted(s, steps[..n], r);
      } else {
        WorkersAccounted(s, steps[..n], r.worker, r.job);
      }
    }
  }

  lemma {:induction false} JobsStamped(s: State, steps: seq<Step>, j: Job)
    requires Init(s) && Runs(s, steps) && Present(After(s, steps), j)
    ensures Stamped(s, steps, j)
    decreases |steps|
  {
    hide Runs, StateAt, Stamped, ApplyLocal, LocalEnabled, Present;
    if steps == [] {
      NothingPresent(s, j);
    } else {
      LastStep(s, steps);
      var n := |steps| - 1;
      var t, step := After(s, steps[..n]), steps[n];
      PresentOrigins(t, step, j);
      Remains(s, steps, n, 0, j);
      hide Init, After, Apply, Enabled;
      if Present(t, j) { JobsStamped(s, steps[..n], j); } else { JustStamped(s, steps, n, j); }
    }
  }

  lemma JustStamped(s: State, steps: seq<Step>, n: nat, j: Job)
    requires Runs(s, steps) && n < |steps| && StampedAt(s, steps, n, j)
    ensures Stamped(s, steps, j)
  {
    hide StampedAt;
  }

  lemma NothingPresent(s: State, j: Job)
    requires Init(s)
    ensures !Present(s, j)
  {
    forall i: nat | i < |s.workers| ensures !Sent(s.workers[i], j) && s.workers[i].dispatcher !in {Nacking(j), Holding(j)} {
      StartsEmpty(s, i, j);
    }
  }

  /** Main result: in every run, an accepted answer is for a job its worker took up in the job's own epoch and sent, a
      refused one for a job its worker took up in another epoch; and that epoch is the one it was submitted in. */
  lemma AnswersByEpoch(s: State, steps: seq<Step>, r: RunnerResult)
    requires Init(s) && Runs(s, steps) && Answers(After(s, steps), r)
    ensures if r.accepted then LetThrough(s, steps, r.worker, r.job) else TurnedDown(s, steps, r.worker, r.job)
    ensures Stamped(s, steps, r.job)
  {
    AnswersAccounted(s, steps, r);
    hide After, Init, Runs, LetThrough, TurnedDown, Stamped;
    JobsStamped(s, steps, r.job);
  }

  // ---------------------------------------------------------------- one epoch only

  /** Everything is in epoch e, and nothing is being refused. */
  ghost predicate OneEpoch(s: State, e: nat) {
    && s.epoch == e
    && (forall j | j in s.queue :: j.epoch == e)
    && (forall i | 0 <= i < |s.workers| :: WorkerIn(s.workers[i], e))
    && (forall r | Answers(s, r) :: r.accepted)
  }

  predicate WorkerIn(w: Worker, e: nat) {
    && (w.dispatcher.Exited? || w.epoch == e) && !w.dispatcher.Nacking?
    && (w.dispatcher.Holding? ==> w.dispatcher.job.epoch == e)
  }

  lemma LocalIn(w: Worker, l: Local, e: nat)
    requires LocalEnabled(w, l) && WorkerIn(w, e)
    ensures WorkerIn(ApplyLocal(w, l), e)
  {
  }

  lemma StepIn(s: State, step: Step, e: nat)
    requires Enabled(s, step) && OneEpoch(s, e) && step != BumpEpoch
    ensures OneEpoch(Apply(s, step), e)
  {
    if step.At? { LocalIn(s.workers[step.i], step.l, e); }
    hide ApplyLocal, LocalEnabled;
    var t := Apply(s, step);
    forall r | Answers(t, r) ensures r.accepted { AnswerOrigins(s, step, r); }
    forall j | j in t.queue ensures j.epoch == e { QueueOrigins(s, step, j); }
  }

  lemma {:induction false} RunIn(s: State, steps: seq<Step>, e: nat)
    requires Runs(s, steps) && OneEpoch(s, e) && BumpEpoch !in steps
    ensures OneEpoch(After(s, steps), e)
    decreases |steps|
  {
    hide OneEpoch;
    if steps != [] {
      StepIn(s, steps[0], e);
      RunIn(Apply(s, steps[0]), steps[1..], e);
    }
  }

  /** Main result: as long as the epoch is not changed, no job is refused. */
  lemma NoneRefused(s: State, steps: seq<Step>, r: RunnerResult)
    requires Init(s) && Runs(s, steps) && BumpEpoch !in steps && Answers(After(s, steps), r)
    ensures r.accepted
  {
    RunIn(s, steps, s.epoch);
  }
}
