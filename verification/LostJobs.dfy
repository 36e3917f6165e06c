/** The runner and its caller together: a job that a worker lost is never answered, so the caller's collection loop
    never runs out of jobs to wait for. */
module LostJobs {
  import L = RunLedger
  import P = RunnerProtocol
  import R = RunnerInvariants
  import opened Bytes

  // ---------------------------------------------------------------- lost jobs stay lost

  /** Between the dispatcher's send and the reader. */
  function ChildCount(w: P.Worker, x: nat): nat {
    P.Count(w.inbox, x) + P.Count(w.executing, x) + P.Count(w.outbox, x)
  }

  /** It died with the child, never got into its pipe, or is with a child whose reader has left. */
  predicate LostAt(w: P.Worker, x: nat) {
    P.Count(w.limbo, x) + P.Count(w.unsent, x) > 0 || (!R.ReaderOpen(w) && ChildCount(w, x) > 0)
  }

  ghost predicate Lost(s: P.State, x: nat) {
    exists i: nat :: i < |s.workers| && LostAt(s.workers[i], x)
  }

  /** What died or was never sent is not taken up again. */
  lemma LocalKeepsDead(w: P.Worker, l: P.Local, x: nat)
    requires P.LocalEnabled(w, l)
    ensures var v := P.ApplyLocal(w, l);
            P.Count(v.limbo, x) + P.Count(v.unsent, x) >= P.Count(w.limbo, x) + P.Count(w.unsent, x)
  {
    hide P.Count;
    match l {
      case Die => P.CountAppend(w.limbo + w.executing, w.inbox, x); P.CountAppend(w.limbo, w.executing, x);
      case ReadTorn => P.CountAppend(w.limbo, [w.outbox[0]], x);
      case SendStopped => P.CountAppend(w.unsent, [w.dispatcher.job], x);
      case SendBroken => P.CountAppend(w.unsent, [w.dispatcher.job], x);
      case _ =>
    }
  }

  /** A reader that left does not come back, so nobody takes the child's jobs out: they stay or die with it. */
  lemma LocalKeepsStuck(w: P.Worker, l: P.Local, x: nat)
    requires P.LocalEnabled(w, l) && !R.ReaderOpen(w)
    ensures var v := P.ApplyLocal(w, l);
            && !R.ReaderOpen(v)
            && P.Count(v.limbo, x) + ChildCount(v, x) >= P.Count(w.limbo, x) + ChildCount(w, x)
  {
    P.CountNone(x);
    hide P.Count;
    match l {
      case SendOk => P.CountAppend(w.inbox, [w.dispatcher.job], x);
      case TakeJob => P.CountHead(w.inbox, x);
      case FinishJob => P.CountAppend(w.outbox, w.executing, x);
      case Die => P.CountAppend(w.limbo + w.executing, w.inbox, x); P.CountAppend(w.limbo, w.executing, x);
      case _ =>
    }
  }

  lemma LocalKeepsLost(w: P.Worker, l: P.Local, x: nat)
    requires P.LocalEnabled(w, l) && LostAt(w, x)
    ensures LostAt(P.ApplyLocal(w, l), x)
  {
    hide P.Count, ChildCount, P.ApplyLocal, P.LocalEnabled, R.ReaderOpen;
    LocalKeepsDead(w, l, x);
    if !R.ReaderOpen(w) { LocalKeepsStuck(w, l, x); }
  }

  lemma StepKeepsLost(s: P.State, step: P.Step, x: nat)
    requires P.Enabled(s, step) && Lost(s, x)
    ensures Lost(P.Apply(s, step), x)
  {
    var i: nat :| i < |s.workers| && LostAt(s.workers[i], x);
    var t := P.Apply(s, step);
    if step.At? && step.i == i { LocalKeepsLost(s.workers[i], step.l, x); }
    hide P.Count, P.ApplyLocal, P.LocalEnabled;
    assert LostAt(t.workers[i], x);
  }

  lemma {:induction false} RunKeepsLost(s: P.State, steps: seq<P.Step>, x: nat)
    requires P.Runs(s, steps) && Lost(s, x)
    ensures Lost(P.After(s, steps), x)
    decreases |steps|
  {
    hide Lost;
    if steps != [] {
      StepKeepsLost(s, steps[0], x);
      RunKeepsLost(P.Apply(s, steps[0]), steps[1..], x);
    }
  }

  lemma {:induction false} OneOfAll(ws: seq<P.Worker>, i: nat, x: nat)
    requires i < |ws|
    ensures P.WorkersCount(ws, x) >= P.WorkerCount(ws[i], x)
    decreases i
  {
    hide P.WorkerCount;
    if i > 0 { OneOfAll(ws[1..], i - 1, x); }
  }

  lemma LostCounts(w: P.Worker, x: nat)
    requires LostAt(w, x)
    ensures P.WorkerCount(w, x) > 0
  {
    hide P.Count, P.Read, P.Held, P.Refused;
  }

  /** What is lost is neither returned nor waiting to be. */
  lemma LostIsNowhere(s: P.State, x: nat)
    requires R.Inv(s) && Lost(s, x)
    ensures P.ResultCount(s.returned, x) == 0 && P.ResultCount(s.out, x) == 0
  {
    hide P.Count, P.ResultCount, P.WorkersCount, P.WorkerCount, LostAt, R.Slot, R.InOrder;
    var i: nat :| i < |s.workers| && LostAt(s.workers[i], x);
    LostCounts(s.workers[i], x);
    OneOfAll(s.workers, i, x);
    assert P.Everywhere(s, x) <= 1;
  }

  /** Main result: whatever the runner does next, a lost job is never answered. */
  lemma LostNeverReturns(s: P.State, steps: seq<P.Step>, x: nat, k: nat)
    requires R.Reachable(s) && Lost(s, x) && P.Runs(s, steps) && k < |P.After(s, steps).returned|
    ensures P.After(s, steps).returned[k].job.sub != x
  {
    R.ReachableHolds(s);
    R.RunKeeps(s, steps);
    RunKeepsLost(s, steps, x);
    hide R.Inv, Lost, P.After;
    LostIsNowhere(P.After(s, steps), x);
    R.OnceCounted(P.After(s, steps).returned, k);
  }

  // ---------------------------------------------------------------- the caller waits on

  /** An answer the collection handles: which outstanding job, what it says, and what a retry would send. */
  datatype Answer = Answer(k: nat, reply: L.Reply, payload: seq<u8>)

  ghost predicate Handles(l: L.Ledger, answers: seq<Answer>)
    decreases |answers|
  {
    answers == [] ||
    (L.CanDeliver(l, answers[0].k)
     && (L.Retries(l, answers[0].k, answers[0].reply) ==> L.Encodes(answers[0].payload, l.pendings[l.outstanding[answers[0].k]].spec))
     && Handles(L.Delivered(l, answers[0].k, answers[0].reply, answers[0].payload), answers[1..]))
  }

  ghost function Handled(l: L.Ledger, answers: seq<Answer>): L.Ledger
    requires Handles(l, answers)
    decreases |answers|
  {
    if answers == [] then l else Handled(L.Delivered(l, answers[0].k, answers[0].reply, answers[0].payload), answers[1..])
  }

  /** The jobs that were answered. */
  ghost function AnsweredIds(l: L.Ledger, answers: seq<Answer>): seq<nat>
    requires Handles(l, answers)
    decreases |answers|
  {
    if answers == [] then []
    else [l.outstanding[answers[0].k]] + AnsweredIds(L.Delivered(l, answers[0].k, answers[0].reply, answers[0].payload), answers[1..])
  }

  lemma OthersStay(l: L.Ledger, a: Answer, jid: nat)
    requires L.CanDeliver(l, a.k) && jid in l.outstanding && l.outstanding[a.k] != jid
    ensures jid in L.Delivered(l, a.k, a.reply, a.payload).outstanding
  {
    var i: nat :| i < |l.outstanding| && l.outstanding[i] == jid;
    var rest := L.Without(l.outstanding, a.k);
    assert rest[if i < a.k then i else i - 1] == jid;
    assert jid in rest && jid in rest + [l.nextId];
    hide L.Without;
  }

  /** Main result: as long as some job is not answered, the collection waits, whatever the other answers say. */
  lemma {:induction false} UnansweredRemains(cfg: L.RunConfig, l: L.Ledger, answers: seq<Answer>, jid: nat)
    requires L.Inv(cfg, l) && Handles(l, answers) && jid in l.outstanding && jid !in AnsweredIds(l, answers)
    ensures var m := Handled(l, answers); L.Inv(cfg, m) && jid in m.outstanding && m.remaining > 0
    decreases |answers|
  {
    hide L.Inv, L.Delivered, L.Encodes;
    if answers == [] {
      L.OpenCount(cfg, l);
    } else {
      var a := answers[0];
      var m := L.Delivered(l, a.k, a.reply, a.payload);
      assert AnsweredIds(l, answers) == [l.outstanding[a.k]] + AnsweredIds(m, answers[1..]);
      assert l.outstanding[a.k] in AnsweredIds(l, answers);
      OthersStay(l, a, jid);
      L.DeliveredKeeps(cfg, l, a.k, a.reply, a.payload);
      UnansweredRemains(cfg, m, answers[1..], jid);
    }
  }

  // ---------------------------------------------------------------- together

  /** Every answer the collection handles is a result the runner returned, for the job with that id. */
  ghost predicate FedBy(ids: seq<nat>, returned: seq<P.RunnerResult>) {
    forall j | j in ids :: exists k :: 0 <= k < |returned| && returned[k].job.id == j
  }

  /** Only submission x carries that id, as long as the ids are not reset while jobs are out. */
  ghost predicate IdOf(jid: nat, x: nat, returned: seq<P.RunnerResult>) {
    forall k | 0 <= k < |returned| && returned[k].job.id == jid :: returned[k].job.sub == x
  }

  /** Main result: after a worker lost a job the collection waits for it without end, whatever else happens. */
  lemma LostJobIsAwaited(cfg: L.RunConfig, l: L.Ledger, answers: seq<Answer>, jid: nat, s: P.State, steps: seq<P.Step>, x: nat)
    requires L.Inv(cfg, l) && Handles(l, answers) && jid in l.outstanding
    requires R.Reachable(s) && Lost(s, x) && P.Runs(s, steps)
    requires FedBy(AnsweredIds(l, answers), P.After(s, steps).returned) && IdOf(jid, x, P.After(s, steps).returned)
    ensures Handled(l, answers).remaining > 0
  {
    var ids, returned := AnsweredIds(l, answers), P.After(s, steps).returned;
    if jid in ids {
      var k: nat :| k < |returned| && returned[k].job.id == jid;
      LostNeverReturns(s, steps, x, k);
    }
    hide L.Inv, Handles, Handled, AnsweredIds, Lost, P.Runs, P.After;
    UnansweredRemains(cfg, l, answers, jid);
  }
}
