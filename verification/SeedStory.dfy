/** The search's results in terms of the polls alone: which jobs went out under which ids, which inputs stand in the
    catalogue for an observed delta, and when a target counts as satisfied. */
module SeedStory {
  import opened SeedBoard
  import opened SeedDraws

  // ---------------------------------------------------------------- what happened

  /** At poll k a result came for an id that had been handed out. */
  ghost predicate AnsweredAt(stages: seq<Stage>, events: seq<Event>, first: nat, k: nat, id: nat)
    requires k < |stages| <= |events| + 1
  {
    k < |events| && events[k].Result? && events[k].jobId == id && first <= id < first + |stages[k].board.submitted|
  }

  /** The id has been handed out by poll m, and no result came for it. */
  ghost predicate Awaited(stages: seq<Stage>, events: seq<Event>, first: nat, m: nat, id: nat)
    requires m < |stages| <= |events| + 1
  {
    && first <= id < first + |stages[m].board.submitted|
    && forall k: nat | k < m :: !AnsweredAt(stages, events, first, k, id)
  }

  /** At poll m the job, still awaited, reported that delta. */
  ghost predicate Reports(stages: seq<Stage>, events: seq<Event>, first: nat, m: nat, obs: int, job: JobMeta)
    requires |stages| <= |events| + 1
  {
    && m + 1 < |stages| && events[m].Result? && events[m].ok && events[m].obs == obs
    && Awaited(stages, events, first, m, events[m].jobId) && stages[m].board.submitted[events[m].jobId - first] == job
  }

  /** The jobs that the draws call for: the target of the place, and the inputs found. */
  function Metas(states: seq<TargetState>, sends: seq<Send>): (jobs: seq<JobMeta>)
    requires forall s | s in sends :: s.place < |states|
    ensures |jobs| == |sends|
  {
    seq(|sends|, k requires 0 <= k < |sends| => assert sends[k] in sends; JobMeta(states[sends[k].place].t, sends[k].key))
  }

  /** Ids count the submissions, and exactly the awaited ones are open, with the job that went out under them. */
  ghost predicate IdsTold(stages: seq<Stage>, events: seq<Event>, first: nat, n: nat)
    requires n < |stages| <= |events| + 1
  {
    var b := stages[n].board;
    && b.nextId == first + |b.submitted|
    && (forall k | 0 <= k < n :: stages[k].board.submitted <= b.submitted)
    && (forall id :: id in b.jobs <==> Awaited(stages, events, first, n, id))
    && (forall id | id in b.jobs :: first <= id < b.nextId && b.jobs[id] == b.submitted[id - first])
  }

  /** Behind the opening entries, the catalogue holds reported deltas with the inputs that went out under the reporting
      id; and every reported delta is in it. */
  ghost predicate FoundTold(opening: Board, stages: seq<Stage>, events: seq<Event>, n: nat)
    requires n < |stages| <= |events| + 1
  {
    var b := stages[n].board;
    && opening.found <= b.found && opening.catalogue <= b.catalogue
    && (forall k | |opening.found| <= k < |b.found| :: EntryTold(stages, events, opening.nextId, n, b.found[k]))
    && (forall m: nat, obs, job | m < n && Reports(stages, events, opening.nextId, m, obs, job) :: Int32(obs) in b.catalogue)
  }

  ghost predicate EntryTold(stages: seq<Stage>, events: seq<Event>, first: nat, n: nat, f: Found)
    requires |stages| <= |events| + 1
  {
    exists m: nat, target: int :: m < n && Reports(stages, events, first, m, f.delta, JobMeta(target, f.key))
  }

  /** A job for the target reported just that delta. */
  ghost predicate Reached(stages: seq<Stage>, events: seq<Event>, first: nat, n: nat, t: int)
    requires |stages| <= |events| + 1
  {
    exists m: nat, key :: m < n && Reports(stages, events, first, m, t, JobMeta(t, key))
  }

  ghost predicate TargetsTold(opening: Board, stages: seq<Stage>, events: seq<Event>, n: nat)
    requires n < |stages| <= |events| + 1
  {
    var b := stages[n].board;
    && SameTargets(opening.states, b.states)
    && forall i | 0 <= i < |b.states| :: b.states[i].satisfied <==> Reached(stages, events, opening.nextId, n, b.states[i].t)
  }

  ghost predicate Told(opening: Board, stages: seq<Stage>, events: seq<Event>, n: nat)
    requires n < |stages| <= |events| + 1
  {
    && IdsTold(stages, events, opening.nextId, n) && FoundTold(opening, stages, events, n) && TargetsTold(opening, stages, events, n)
  }

  // ---------------------------------------------------------------- what submissions do

  /** The board after some jobs went out. */
  ghost predicate Grown(b: Board, a: Board, metas: seq<JobMeta>) {
    && a.found == b.found && a.catalogue == b.catalogue && a.submitted == b.submitted + metas && a.nextId == b.nextId + |metas|
    && SameTargets(b.states, a.states) && (forall i | 0 <= i < |a.states| :: a.states[i].satisfied == b.states[i].satisfied)
    && (forall id :: id in a.jobs <==> id in b.jobs || b.nextId <= id < a.nextId)
    && (forall id | id in a.jobs :: if b.nextId <= id < a.nextId then a.jobs[id] == metas[id - b.nextId] else id in b.jobs && a.jobs[id] == b.jobs[id])
  }

  ghost predicate IdsBelow(b: Board) { forall id | id in b.jobs :: id < b.nextId }

  lemma {:induction false} SendsGrow(b: Board, sends: seq<Send>)
    requires IdsBelow(b) && forall s | s in sends :: s.place < |b.states|
    ensures Grown(b, AfterSends(b, sends), Metas(b.states, sends)) && IdsBelow(AfterSends(b, sends))
  {
    if sends != [] {
      var n := |sends| - 1;
      var front, last := sends[..n], sends[n];
      SendsGrow(b, front);
      assert last in sends;
      assert Metas(b.states, sends) == Metas(b.states, front) + [JobMeta(b.states[last.place].t, last.key)];
      hide AfterSends, Metas;
      OneGrows(b, AfterSends(b, front), Metas(b.states, front), last);
      assert AfterSends(b, sends) == Submitted(AfterSends(b, front), last.place, last.key) by { AfterSnocIs(b, sends); }
    }
  }

  lemma AfterSnocIs(b: Board, sends: seq<Send>)
    requires sends != [] && sends[|sends| - 1].place < |b.states|
    ensures var n := |sends| - 1; AfterSends(b, sends) == Submitted(AfterSends(b, sends[..n]), sends[n].place, sends[n].key)
  {
  }

  lemma OneGrows(b: Board, a: Board, metas: seq<JobMeta>, s: Send)
    requires Grown(b, a, metas) && IdsBelow(b) && s.place < |b.states|
    ensures Grown(b, Submitted(a, s.place, s.key), metas + [JobMeta(b.states[s.place].t, s.key)]) && IdsBelow(Submitted(a, s.place, s.key))
  {
  }

  // ---------------------------------------------------------------- what a poll does

  /** The board after a poll: the event's effect, then the new jobs. */
  ghost predicate Turned(b: Board, e: Event, a: Board, metas: seq<JobMeta>) {
    && a.submitted == b.submitted + metas && a.nextId == b.nextId + |metas| && SameTargets(b.states, a.states)
    && var open := e.Result? && e.jobId in b.jobs;
       && (forall id :: id in a.jobs <==> (id in b.jobs && !(open && id == e.jobId)) || b.nextId <= id < a.nextId)
       && (forall id | id in a.jobs :: if b.nextId <= id < a.nextId then a.jobs[id] == metas[id - b.nextId] else id in b.jobs && a.jobs[id] == b.jobs[id])
       && (if open && e.ok
           then && a.found == (if Int32(e.obs) in b.catalogue then b.found else b.found + [Found(e.obs, b.jobs[e.jobId].key)])
                && a.catalogue == b.catalogue + {Int32(e.obs)}
                && (forall i | 0 <= i < |a.states| :: a.states[i].satisfied <==>
                      b.states[i].satisfied || (b.states[i].t == e.obs && b.jobs[e.jobId].target == e.obs))
           else && a.found == b.found && a.catalogue == b.catalogue
                && (forall i | 0 <= i < |a.states| :: a.states[i].satisfied == b.states[i].satisfied))
  }

  lemma {:induction false} SendsOfAppend(a: seq<Drawing>, b: seq<Drawing>)
    ensures SendsOf(a + b) == SendsOf(a) + SendsOf(b)
    decreases |b|
  {
    if b == [] {
      assert a + b == a;
    } else {
      assert (a + b)[..|a + b| - 1] == a + b[..|b| - 1];
      SendsOfAppend(a, b[..|b| - 1]);
    }
  }

  lemma SentSends(states: seq<TargetState>, cap: nat, sweep: seq<Drawing>)
    requires SentSweep(states, cap, sweep)
    ensures SendsOf(sweep) == [Send(sweep[|sweep| - 1].place, sweep[|sweep| - 1].found.value)]
  {
  }

  lemma {:induction false} SweepsSend(b: Board, log: TopUpLog, n: nat, inputs: Inputs, cap: nat, workers: nat)
    requires Sweeps(b, log, inputs, cap, workers) && n <= |log.sweeps|
    ensures SendsOf(Flat(log.sweeps[..n])) == log.sends[..n]
  {
    hide SentSweep, MaySend, AfterSends;
    if n > 0 {
      SweepsSend(b, log, n - 1, inputs, cap, workers);
      assert log.sweeps[..n][..n - 1] == log.sweeps[..n - 1];
      assert SendsAt(b, log, n - 1, inputs, cap, workers);
      SendsOfAppend(Flat(log.sweeps[..n - 1]), log.sweeps[n - 1]);
      SentSends(AfterSends(b, log.sends[..n - 1]).states, cap, log.sweeps[n - 1]);
    }
  }

  /** A top-up sends what its draws found. */
  lemma TopUpSends(log: TopUpLog, b: Board, draws: seq<Drawing>, after: Board, inputs: Inputs, cap: nat, workers: nat)
    requires LogsTopUp(log, b, draws, after, inputs, cap, workers)
    ensures SendsOf(draws) == log.sends && after == AfterSends(b, log.sends) && MaySendAll(b, log.sends, inputs, cap)
  {
    SweepsMaySend(b, log, inputs, cap, workers);
    SweepsSend(b, log, |log.sweeps|, inputs, cap, workers);
    SendsOfAppend(Flat(log.sweeps), log.rest);
    assert log.sweeps[..|log.sweeps|] == log.sweeps && log.sends[..|log.sends|] == log.sends;
    hide Sweeps, AfterSends;
    assert SendsOf(log.rest) == [];
  }

  lemma SendsInside(b: Board, sends: seq<Send>, inputs: Inputs, cap: nat)
    requires MaySendAll(b, sends, inputs, cap)
    ensures forall s | s in sends :: s.place < |b.states|
  {
    forall n | 0 <= n < |sends| ensures sends[n].place < |b.states| { assert MaySend(AfterSends(b, sends[..n]), sends[n], inputs, cap); }
  }

  lemma AnswerTurns(b: Board, id: nat, ok: bool, obs: int)
    requires KnownJobs(b) && DistinctTargets(b.states) && id in b.jobs
    ensures Turned(b, Result(id, ok, obs), Answered(b, id, ok, obs), [])
    ensures IdsBelow(b) && IdsBelow(Answered(b, id, ok, obs)) && |Answered(b, id, ok, obs).states| == |b.states|
  {
    hide Int32;
    JobState(b, id);
  }

  lemma TurnsThenGrows(b: Board, e: Event, m: Board, a: Board, metas: seq<JobMeta>)
    requires Turned(b, e, m, []) && Grown(m, a, metas) && IdsBelow(b)
    ensures Turned(b, e, a, metas)
  {
    hide Int32;
    assert m.submitted + metas == b.submitted + metas;
  }

  lemma QuietTurns(b: Board, e: Event)
    requires Nothing(b, e) && IdsBelow(b)
    ensures Turned(b, e, b, [])
  {
  }

  lemma RoundTurns(b: Board, e: Event, draws: seq<Drawing>, after: Board, inputs: Inputs, cap: nat, workers: nat)
    requires Inv(b, inputs, cap) && Round(b, e, draws, after, inputs, cap, workers)
    ensures forall s | s in SendsOf(draws) :: s.place < |b.states|
    ensures Turned(b, e, after, Metas(b.states, SendsOf(draws)))
  {
    hide Turned, Inv, Answered, Grown, AfterSends, Sweeps;
    InvParts(b, inputs, cap);
    if Nothing(b, e) {
      QuietTurns(b, e);
    } else {
      AnswerTurns(b, e.jobId, e.ok, e.obs);
      var m := Answered(b, e.jobId, e.ok, e.obs);
      if e.ok {
        var log :| LogsTopUp(log, m, draws, after, inputs, cap, workers);
        TopUpSends(log, m, draws, after, inputs, cap, workers);
        SendsInside(m, log.sends, inputs, cap);
        SendsGrow(m, log.sends);
        TurnsThenGrows(b, e, m, after, Metas(m.states, log.sends));
        MetasSame(b, m, e, log.sends);
      }
    }
  }

  lemma InvParts(b: Board, inputs: Inputs, cap: nat)
    requires Inv(b, inputs, cap)
    ensures KnownJobs(b) && DistinctTargets(b.states) && IdsBelow(b)
  {
    hide Counted, Fresh, Catalogued;
  }

  lemma MetasSame(b: Board, m: Board, e: Event, sends: seq<Send>)
    requires Turned(b, e, m, []) && forall s | s in sends :: s.place < |m.states|
    ensures |b.states| == |m.states| && Metas(b.states, sends) == Metas(m.states, sends)
  {
    hide Int32;
  }

  // ---------------------------------------------------------------- poll by poll

  lemma AwaitedOn(stages: seq<Stage>, events: seq<Event>, first: nat, n: nat, id: nat)
    requires n + 1 < |stages| <= |events| + 1 && stages[n].board.submitted <= stages[n + 1].board.submitted
    requires forall k | 0 <= k < n :: stages[k].board.submitted <= stages[n].board.submitted
    ensures Awaited(stages, events, first, n + 1, id) <==>
              || (Awaited(stages, events, first, n, id) && !(events[n].Result? && events[n].jobId == id))
              || first + |stages[n].board.submitted| <= id < first + |stages[n + 1].board.submitted|
  {
    if Awaited(stages, events, first, n + 1, id) && id < first + |stages[n].board.submitted| {
      assert !AnsweredAt(stages, events, first, n, id);
    }
    forall k: nat | k <= n && id >= first + |stages[n].board.submitted| ensures !AnsweredAt(stages, events, first, k, id) {}
  }

  lemma IdOn(stages: seq<Stage>, events: seq<Event>, first: nat, n: nat, metas: seq<JobMeta>, id: nat)
    requires n + 1 < |stages| <= |events| + 1 && IdsTold(stages, events, first, n)
    requires Turned(stages[n].board, events[n], stages[n + 1].board, metas)
    ensures id in stages[n + 1].board.jobs <==> Awaited(stages, events, first, n + 1, id)
  {
    hide Awaited, Int32;
    AwaitedOn(stages, events, first, n, id);
  }

  lemma JobsOn(b: Board, e: Event, a: Board, metas: seq<JobMeta>, first: nat)
    requires Turned(b, e, a, metas) && b.nextId == first + |b.submitted|
    requires forall id | id in b.jobs :: first <= id < b.nextId && b.jobs[id] == b.submitted[id - first]
    ensures a.nextId == first + |a.submitted| && b.submitted <= a.submitted
    ensures forall id | id in a.jobs :: first <= id < a.nextId && a.jobs[id] == a.submitted[id - first]
  {
    hide Int32;
  }

  lemma IdsOn(stages: seq<Stage>, events: seq<Event>, first: nat, n: nat, metas: seq<JobMeta>)
    requires n + 1 < |stages| <= |events| + 1 && IdsTold(stages, events, first, n)
    requires Turned(stages[n].board, events[n], stages[n + 1].board, metas)
    ensures IdsTold(stages, events, first, n + 1)
  {
    var next := n + 1;
    forall id ensures id in stages[next].board.jobs <==> Awaited(stages, events, first, next, id) {
      hide Awaited, Turned, IdsTold;
      IdOn(stages, events, first, n, metas, id);
    }
    hide Awaited, Turned;
    JobsOn(stages[n].board, events[n], stages[n + 1].board, metas, first);
  }

  lemma OpenIsAwaited(stages: seq<Stage>, events: seq<Event>, first: nat, n: nat)
    requires n + 1 < |stages| <= |events| + 1 && IdsTold(stages, events, first, n)
    requires events[n].Result? && events[n].jobId in stages[n].board.jobs && events[n].ok
    ensures Reports(stages, events, first, n, events[n].obs, stages[n].board.jobs[events[n].jobId])
  {
    hide Awaited;
  }

  lemma OnlyOpenReports(stages: seq<Stage>, events: seq<Event>, first: nat, n: nat, obs: int, job: JobMeta)
    requires |stages| <= |events| + 1 && Reports(stages, events, first, n, obs, job) && IdsTold(stages, events, first, n)
    ensures events[n].Result? && events[n].ok && events[n].obs == obs && events[n].jobId in stages[n].board.jobs
    ensures job == stages[n].board.jobs[events[n].jobId]
  {
    hide Awaited;
  }

  lemma FoundOn(opening: Board, stages: seq<Stage>, events: seq<Event>, n: nat, metas: seq<JobMeta>)
    requires n + 1 < |stages| <= |events| + 1 && IdsTold(stages, events, opening.nextId, n) && FoundTold(opening, stages, events, n)
    requires Turned(stages[n].board, events[n], stages[n + 1].board, metas)
    ensures FoundTold(opening, stages, events, n + 1)
  {
    hide Int32, Reports, IdsTold;
    var b, a, first := stages[n].board, stages[n + 1].board, opening.nextId;
    var open := events[n].Result? && events[n].jobId in b.jobs;
    if open && events[n].ok { OpenIsAwaited(stages, events, first, n); }
    forall k | |opening.found| <= k < |a.found| ensures EntryTold(stages, events, first, n + 1, a.found[k]) {
      if k < |b.found| {
        var m: nat, target: int :| m < n && Reports(stages, events, first, m, b.found[k].delta, JobMeta(target, b.found[k].key));
        assert a.found[k] == b.found[k];
      } else {
        var job := b.jobs[events[n].jobId];
        assert job == JobMeta(job.target, a.found[k].key);
      }
    }
    forall m: nat, obs, job | m < n + 1 && Reports(stages, events, first, m, obs, job) ensures Int32(obs) in a.catalogue {
      if m == n { OnlyOpenReports(stages, events, first, n, obs, job); }
    }
  }

  lemma ReachedOn(stages: seq<Stage>, events: seq<Event>, first: nat, n: nat, t: int)
    requires n + 1 < |stages| <= |events| + 1 && IdsTold(stages, events, first, n)
    ensures var b := stages[n].board;
            Reached(stages, events, first, n + 1, t) <==>
              || Reached(stages, events, first, n, t)
              || (events[n].Result? && events[n].jobId in b.jobs && events[n].ok && events[n].obs == t && b.jobs[events[n].jobId].target == t)
  {
    hide Reports, IdsTold;
    var b := stages[n].board;
    if m: nat, key :| m < n + 1 && Reports(stages, events, first, m, t, JobMeta(t, key)) {
      if m == n { OnlyOpenReports(stages, events, first, n, t, JobMeta(t, key)); }
    }
    if events[n].Result? && events[n].jobId in b.jobs && events[n].ok && events[n].obs == t && b.jobs[events[n].jobId].target == t {
      OpenIsAwaited(stages, events, first, n);
      var job := b.jobs[events[n].jobId];
      assert job == JobMeta(t, job.key);
    }
  }

  lemma TargetsOn(opening: Board, stages: seq<Stage>, events: seq<Event>, n: nat, metas: seq<JobMeta>)
    requires n + 1 < |stages| <= |events| + 1 && IdsTold(stages, events, opening.nextId, n) && TargetsTold(opening, stages, events, n)
    requires Turned(stages[n].board, events[n], stages[n + 1].board, metas)
    ensures TargetsTold(opening, stages, events, n + 1)
  {
    hide Int32, IdsTold, Reached;
    var a := stages[n + 1].board;
    forall i | 0 <= i < |a.states|
      ensures a.states[i].satisfied <==> Reached(stages, events, opening.nextId, n + 1, a.states[i].t)
    {
      ReachedOn(stages, events, opening.nextId, n, a.states[i].t);
    }
  }

  /** The board the story starts from: nothing sent, nothing satisfied. */
  predicate Untouched(b: Board) {
    b.submitted == [] && b.jobs == map[] && forall i | 0 <= i < |b.states| :: !b.states[i].satisfied
  }

  lemma ToldFirst(opening: Board, stages: seq<Stage>, events: seq<Event>, metas: seq<JobMeta>)
    requires 0 < |stages| <= |events| + 1 && Untouched(opening) && Grown(opening, stages[0].board, metas)
    ensures Told(opening, stages, events, 0)
  {
    hide Int32, Reports;
    var b := stages[0].board;
    forall id ensures id in b.jobs <==> Awaited(stages, events, opening.nextId, 0, id) {}
  }

  // ---------------------------------------------------------------- the whole search

  /** The search as polls: the first wave from the opening books, then round by round. */
  ghost predicate Unfolds(opening: Board, stages: seq<Stage>, events: seq<Event>, inputs: Inputs, cap: nat, workers: nat) {
    && Rounds(stages, events, inputs, cap, workers) && Untouched(opening) && Inv(opening, inputs, cap)
    && MaySendAll(opening, SendsOf(stages[0].draws), inputs, cap)
    && stages[0].board == AfterSends(opening, SendsOf(stages[0].draws))
  }

  /** What went out is what the draws found, in order. */
  ghost predicate SentTold(opening: Board, stages: seq<Stage>, n: nat)
    requires n < |stages|
  {
    var sends := SendsOf(AllDraws(stages[..n + 1]));
    (forall s | s in sends :: s.place < |opening.states|) && stages[n].board.submitted == Metas(opening.states, sends)
  }

  lemma FirstTold(opening: Board, stages: seq<Stage>, events: seq<Event>, inputs: Inputs, cap: nat, workers: nat)
    requires Unfolds(opening, stages, events, inputs, cap, workers)
    ensures Told(opening, stages, events, 0) && SentTold(opening, stages, 0) && Inv(stages[0].board, inputs, cap)
  {
    hide Inv, Told, AfterSends, Metas, MaySendAll;
    var sends := SendsOf(stages[0].draws);
    SendsInside(opening, sends, inputs, cap);
    SendsKeep(opening, sends, inputs, cap);
    SendsGrow(opening, sends);
    ToldFirst(opening, stages, events, Metas(opening.states, sends));
    AllDrawsSnoc([], stages[0]);
    assert [] + [stages[0]] == stages[..1] && AllDraws([]) + stages[0].draws == stages[0].draws;
    assert [] + Metas(opening.states, sends) == Metas(opening.states, sends);
  }

  lemma NextSent(opening: Board, stages: seq<Stage>, n: nat, e: Event)
    requires n + 1 < |stages| && SentTold(opening, stages, n) && SameTargets(opening.states, stages[n].board.states)
    requires forall s | s in SendsOf(stages[n + 1].draws) :: s.place < |stages[n].board.states|
    requires Turned(stages[n].board, e, stages[n + 1].board, Metas(stages[n].board.states, SendsOf(stages[n + 1].draws)))
    ensures SentTold(opening, stages, n + 1)
  {
    hide Int32, AllDraws, SendsOf;
    var before, more := AllDraws(stages[..n + 1]), stages[n + 1].draws;
    assert stages[..n + 2] == stages[..n + 1] + [stages[n + 1]];
    AllDrawsSnoc(stages[..n + 1], stages[n + 1]);
    SendsOfAppend(before, more);
    assert Metas(opening.states, SendsOf(before) + SendsOf(more)) ==
           Metas(opening.states, SendsOf(before)) + Metas(stages[n].board.states, SendsOf(more));
  }

  /** Main lemma: at every poll the books tell what happened. */
  lemma {:induction false} StoryTold(opening: Board, stages: seq<Stage>, events: seq<Event>, inputs: Inputs, cap: nat, workers: nat, n: nat)
    requires Unfolds(opening, stages, events, inputs, cap, workers) && n < |stages|
    ensures Told(opening, stages, events, n) && SentTold(opening, stages, n) && Inv(stages[n].board, inputs, cap)
    decreases n
  {
    hide Inv, Round, Turned, SentTold, IdsTold, FoundTold, TargetsTold, AfterSends, MaySendAll;
    if n == 0 {
      FirstTold(opening, stages, events, inputs, cap, workers);
    } else {
      StoryTold(opening, stages, events, inputs, cap, workers, n - 1);
      StoryOn(opening, stages, events, inputs, cap, workers, n - 1);
    }
  }

  lemma StoryOn(opening: Board, stages: seq<Stage>, events: seq<Event>, inputs: Inputs, cap: nat, workers: nat, n: nat)
    requires n + 1 < |stages| <= |events| + 1 && Told(opening, stages, events, n) && SentTold(opening, stages, n) && Inv(stages[n].board, inputs, cap)
    requires Round(stages[n].board, events[n], stages[n + 1].draws, stages[n + 1].board, inputs, cap, workers)
    ensures Told(opening, stages, events, n + 1) && SentTold(opening, stages, n + 1) && Inv(stages[n + 1].board, inputs, cap)
  {
    hide Inv, Round, Turned, SentTold, IdsTold, FoundTold;
    var b := stages[n].board;
    RoundTurns(b, events[n], stages[n + 1].draws, stages[n + 1].board, inputs, cap, workers);
    RoundKeeps(b, events[n], stages[n + 1].draws, stages[n + 1].board, inputs, cap, workers);
    var metas := Metas(b.states, SendsOf(stages[n + 1].draws));
    IdsOn(stages, events, opening.nextId, n, metas);
    FoundOn(opening, stages, events, n, metas);
    NextSent(opening, stages, n, events[n]);
    hide TargetsTold;
    TargetsOn(opening, stages, events, n, metas);
  }
}
