/** What the context of a run reports, by the numbers of its keys: how and where the game last stopped, how long it was given,
    and how many records were judged and passed. */
module BattleReports {
  import opened Bytes
  import opened ActionTypes
  import opened ScriptContext
  import opened PlanWriter
  import opened PredicateEval
  import opened ScriptVm
  import opened BattleProgram
  import opened BattleRuns
  import opened BattleSteps
  import opened BattleFlow
  import opened BattleHistory
  import opened BattleOutcomes
  import opened BattleEndings

  // ---------------------------------------------------------------- what is reported

  /** The time the game is given for its next run: the job's own at first, the short one after a stop that begins a turn,
      the long one after any other. */
  ghost function TimeFor(b: Battle, runs: nat): u32
    requires b.Valid()
  {
    if runs == 0 then b.job.runMs else if Leads(b, runs) then b.short else b.long
  }

  /** Key 0 is the address of the last stop or 0, key 3 the time it took, 0x21 the field count, 0x22 the polling interval
      picked for the time it was given. */
  ghost predicate Stop(b: Battle, ctx: Context, run: nat)
    requires b.Valid() && run > 0
  {
    var e := b.setup.events(run - 1);
    && Has(ctx, 0, U32(if e.hit then e.pc else 0)) && Has(ctx, 3, U32(e.elapsed)) && Has(ctx, 0x21, U32(e.fields))
    && Has(ctx, 0x22, U32(b.setup.pollMs(TimeFor(b, run - 1))))
  }

  /** All records judged so far. */
  function AllJudged(evaluations: seq<Evaluation>): nat {
    if evaluations == [] then 0
    else AllJudged(evaluations[..|evaluations| - 1]) + |JudgedAt(evaluations[|evaluations| - 1].verdicts)|
  }

  /** The records that passed at the last stop where any were looked at. */
  function LastPassed(evaluations: seq<Evaluation>): nat {
    if evaluations == [] then 0
    else if evaluations[|evaluations| - 1].verdicts == [] then LastPassed(evaluations[..|evaluations| - 1])
    else |PassedAt(evaluations[|evaluations| - 1].verdicts)|
  }

  /** Key 0x83 counts the judged records of all stops, 0x84 those that passed at the last one. */
  ghost predicate Scores(ctx: Context, evaluations: seq<Evaluation>) {
    && Has(ctx, 0x83, U32(AllJudged(evaluations) % 4294967296)) && Has(ctx, 0x84, U32(LastPassed(evaluations) % 4294967296))
  }

  /** Key 0x40 holds the time for the next run, once it is settled. */
  ghost predicate Timed(b: Battle, vm: Vm)
    requires b.Valid()
  {
    if vm.pc <= 5 then Has(vm.ctx, 0x40, U32(b.job.runMs))
    else if vm.pc == 14 then Has(vm.ctx, 0x40, U32(TimeFor(b, vm.runs)))
    else if 15 <= vm.pc <= 22 then vm.runs > 0 && Has(vm.ctx, 0x40, U32(TimeFor(b, vm.runs - 1)))
    else if vm.pc in {23, 24, 25} then Has(vm.ctx, 0x40, U32(b.long))
    else if vm.pc in {28, 29, 30} || 7 <= vm.pc <= 11 then Has(vm.ctx, 0x40, U32(b.short))
    else true
  }

  ghost predicate Reports(b: Battle, vm: Vm)
    requires b.Valid()
  {
    Scores(vm.ctx, vm.evaluations) && Timed(b, vm) && (vm.runs > 0 ==> Stop(b, vm.ctx, vm.runs))
  }

  // ---------------------------------------------------------------- what the operations leave alone

  ghost predicate SameStop(c: Context, d: Context) { Same(c, d, 0) && Same(c, d, 3) && Same(c, d, 0x21) && Same(c, d, 0x22) }

  ghost predicate SameScores(c: Context, d: Context) { Same(c, d, 0x83) && Same(c, d, 0x84) }

  lemma ArmLeaves(setup: Setup, vm: Vm)
    ensures var a := ArmPreds(setup, vm).ctx; SameStop(vm.ctx, a) && SameScores(vm.ctx, a) && Same(vm.ctx, a, 0x40)
  {
    hide PredKeys;
  }

  lemma ApplyLeaves(vm: Vm)
    ensures var a := ApplyFrames(vm).ctx; SameStop(vm.ctx, a) && SameScores(vm.ctx, a) && Same(vm.ctx, a, 0x40)
  {
    hide FramesIn, Get32, GetU32;
  }

  lemma CaptureLeavesRest(setup: Setup, vm: Vm)
    ensures var a := CaptureInto(setup, vm).ctx; SameStop(vm.ctx, a) && SameScores(vm.ctx, a) && Same(vm.ctx, a, 0x40)
  {
    hide CaptureAll, CaptureStrays;
  }

  lemma EvalLeaves(setup: Setup, vm: Vm)
    ensures var a := Eval(setup, vm).ctx; SameStop(vm.ctx, a) && Same(vm.ctx, a, 0x40)
  {
    hide Verdicts, Strays, TallyOf, GetU32;
  }

  lemma PlansReport(ctx: Context)
    ensures forall frames: seq<InputFrame> | |frames| < 0x1_0000_0000 ::
              var a := WithPlan(ctx, frames); SameStop(ctx, a) && SameScores(ctx, a) && Same(ctx, a, 0x40)
    ensures forall e :: var a := Failed(ctx, e); SameStop(ctx, a) && SameScores(ctx, a) && Same(ctx, a, 0x40)
  {
    hide FramesBytes, Le32;
  }

  lemma BuildReports(setup: Setup, vm: Vm)
    requires Decodes(setup)
    ensures var a := Build(setup, vm).ctx; SameStop(vm.ctx, a) && SameScores(vm.ctx, a) && Same(vm.ctx, a, 0x40)
  {
    hide WriteTurn, WithPlan, Failed, Blank, Counted32, SameStop, SameScores;
    PlansReport(vm.ctx);
    PlansReport(Failed(vm.ctx, InvalidTurnIdxZero));
    SameOnes(vm.ctx, Failed(vm.ctx, InvalidTurnIdxZero));
  }

  lemma SameOnes(c: Context, d: Context)
    ensures SameStop(c, c) && SameScores(c, c)
    ensures SameStop(c, d) ==> forall e :: SameStop(d, e) ==> SameStop(c, e)
    ensures SameScores(c, d) ==> forall e :: SameScores(d, e) ==> SameScores(c, e)
  {
  }

  lemma RunLeavesScores(setup: Setup, vm: Vm)
    ensures SameScores(vm.ctx, RunTo(setup, vm).ctx) && Same(vm.ctx, RunTo(setup, vm).ctx, 0x40)
  {
    hide HitKey, GetU32;
  }

  /** The readers and writers of the context, one by one. */
  lemma ReaderReports(b: Battle, vm: Vm, after: Vm)
    requires b.Valid() && BattleStep(b, vm, after) && vm.pc < LENGTH && IsReader(OpAt(vm.pc, b.short, b.long))
    ensures Same(vm.ctx, after.ctx, 0x40)
    ensures vm.pc != 14 ==> SameStop(vm.ctx, after.ctx)
    ensures vm.pc != 16 ==> SameScores(vm.ctx, after.ctx)
  {
    hide ArmPreds, Eval, ApplyFrames, Build, RunTo, CaptureInto, SameStop, SameScores, Same;
    ArmLeaves(b.setup, vm);
    ApplyLeaves(vm);
    CaptureLeavesRest(b.setup, vm);
    EvalLeaves(b.setup, vm);
    BuildReports(b.setup, vm);
    RunLeavesScores(b.setup, vm);
    ReaderAt(b.short, b.long, vm.pc);
    hide OpAt;
  }

  lemma ReaderAt(short: u32, long: u32, pc: nat)
    requires pc < LENGTH
    ensures OpAt(pc, short, long).RunUntilBp? ==> pc == 14
    ensures OpAt(pc, short, long).EvalPredicatesAtHitBp? ==> pc == 16
    ensures OpAt(pc, short, long).SetTimeout? ==> pc in {22, 27}
  {
  }

  lemma WriterAt(short: u32, long: u32, pc: nat)
    requires pc < LENGTH
    ensures var op := OpAt(pc, short, long);
            && (op.SetU32? || op.AddU32? ==> op.key == 0x300) && !(op.ReturnResult? && op.key != 0x302)
  {
  }

  ghost predicate Except(c: Context, d: Context, k: KeyId) { forall x | x != k :: Same(c, d, x) }

  /** The rest write no key but these. */
  lemma OtherWrites(b: Battle, vm: Vm, after: Vm)
    requires b.Valid() && BattleStep(b, vm, after) && vm.pc < LENGTH
    requires !IsReader(OpAt(vm.pc, b.short, b.long)) && !IsJump(OpAt(vm.pc, b.short, b.long))
    ensures var op := OpAt(vm.pc, b.short, b.long);
            || after.ctx == vm.ctx
            || Except(vm.ctx, after.ctx, CTX_BLOB)
            || (op.SetTimeout? && Except(vm.ctx, after.ctx, RUN_MS))
            || ((op.SetU32? || op.AddU32?) && Except(vm.ctx, after.ctx, op.key))
  {
    hide OpAt, GetU32, Wrap32, EnvOf;
  }

  lemma OtherReports(b: Battle, vm: Vm, after: Vm)
    requires b.Valid() && BattleStep(b, vm, after) && vm.pc < LENGTH
    requires !IsReader(OpAt(vm.pc, b.short, b.long)) && !IsJump(OpAt(vm.pc, b.short, b.long))
    ensures vm.pc !in {22, 27} ==> Same(vm.ctx, after.ctx, 0x40)
    ensures SameStop(vm.ctx, after.ctx) && SameScores(vm.ctx, after.ctx)
  {
    hide OpAt, BattleStep, IsReader, IsJump;
    OtherWrites(b, vm, after);
    ReaderAt(b.short, b.long, vm.pc);
    WriterAt(b.short, b.long, vm.pc);
  }

  lemma StepLeaves(b: Battle, vm: Vm, after: Vm)
    requires b.Valid() && BattleStep(b, vm, after) && vm.pc < LENGTH
    ensures vm.pc !in {22, 27} ==> Same(vm.ctx, after.ctx, 0x40)
    ensures vm.pc != 14 ==> SameStop(vm.ctx, after.ctx)
    ensures vm.pc != 16 ==> SameScores(vm.ctx, after.ctx)
  {
    hide OpAt, BattleStep, IsReader, IsJump;
    if IsJump(OpAt(vm.pc, b.short, b.long)) { JumpMoves(b, vm, after); }
    else if IsReader(OpAt(vm.pc, b.short, b.long)) { ReaderReports(b, vm, after); }
    else { OtherReports(b, vm, after); }
  }

  // ---------------------------------------------------------------- the scores

  lemma ScoresAdd(ctx: Context, evaluations: seq<Evaluation>, run: nat, v: seq<Verdict>, table: seq<u8>, latch: u32)
    requires Scores(ctx, evaluations) && |v| * 36 <= |table| && v != []
    ensures Scores(Tallied(ctx, TallyOf(v, GetU32(ctx, PRED_TOTAL, 0), latch, table)), evaluations + [Evaluation(run, v)])
  {
    var more := evaluations + [Evaluation(run, v)];
    assert more[..|evaluations|] == evaluations;
    TallyMeans(v, GetU32(ctx, PRED_TOTAL, 0), latch, table);
    AddWraps(AllJudged(evaluations), |JudgedAt(v)|);
    hide TallyOf, JudgedAt, PassedAt;
  }

  lemma AddWraps(x: nat, y: nat)
    ensures (x % 4294967296 + y) % 4294967296 == (x + y) % 4294967296
  {
  }

  lemma ScoresStay(ctx: Context, evaluations: seq<Evaluation>, run: nat)
    requires Scores(ctx, evaluations)
    ensures Scores(ctx, evaluations + [Evaluation(run, [])])
  {
    var more := evaluations + [Evaluation(run, [])];
    assert more[..|evaluations|] == evaluations;
    assert JudgedAt([]) == {};
  }

  lemma EvalScores(b: Battle, vm: Vm, after: Vm)
    requires StepFrom(b, vm, after, 16) && after.status.Running? && Scores(vm.ctx, vm.evaluations)
    ensures Scores(after.ctx, after.evaluations)
  {
    hide StepFrom, Common, Zone, BattleStep, Eval, Ran, HitOf, DwOf, Kept, Shows, TallyOf, Tallied, Scores, Verdicts, Strays;
    StepParts(b, vm, after, 16);
    EvalPlace(b, vm);
    SimpleOps(b, vm, after);
    RanParts(b, vm);
    CommonKept(b, vm);
    EvalTallies(b, vm);
    if b.job.predCount == 0 || HitOf(b, vm.runs) == 0 {
      ScoresStay(vm.ctx, vm.evaluations, vm.runs);
    } else {
      var v := Verdicts(b.setup.events(vm.runs - 1).env, b.job.predCount, b.job.predTable, vm.ctx[PRED_BASELINES].bytes, HitOf(b, vm.runs));
      ScoresAdd(vm.ctx, vm.evaluations, vm.runs, v, b.job.predTable, GetU32(vm.ctx, PRED_ALL_PASSED, 1));
    }
  }

  // ---------------------------------------------------------------- step by step

  lemma ScoresKept(b: Battle, vm: Vm, after: Vm)
    requires StepFrom(b, vm, after, vm.pc) && after.status.Running? && Scores(vm.ctx, vm.evaluations)
    ensures Scores(after.ctx, after.evaluations)
  {
    hide StepFrom, BattleStep, Common, Zone;
    FromInProgram(b, vm, after);
    if vm.pc == 16 {
      EvalScores(b, vm, after);
    } else {
      StepLeaves(b, vm, after);
      EvaluationsStay(b, vm, after);
    }
  }

  lemma EvaluationsStay(b: Battle, vm: Vm, after: Vm)
    requires b.Valid() && BattleStep(b, vm, after) && vm.pc < LENGTH && vm.pc != 16
    ensures after.evaluations == vm.evaluations
  {
    hide OpAt, BattleStep, IsJump;
    if IsJump(OpAt(vm.pc, b.short, b.long)) { JumpMoves(b, vm, after); } else { OthersEvaluateNothing(b, vm, after); }
  }

  lemma ReadersEvaluateNothing(setup: Setup, vm: Vm)
    ensures ArmPreds(setup, vm).evaluations == ApplyFrames(vm).evaluations == CaptureInto(setup, vm).evaluations == vm.evaluations
    ensures RunTo(setup, vm).evaluations == vm.evaluations && (Decodes(setup) ==> Build(setup, vm).evaluations == vm.evaluations)
  {
    hide PredKeys, FramesIn, Get32, CaptureAll, CaptureStrays, WriteTurn, WithPlan, Failed, Blank, HitKey;
  }

  lemma OthersEvaluateNothing(b: Battle, vm: Vm, after: Vm)
    requires b.Valid() && BattleStep(b, vm, after) && vm.pc < LENGTH && vm.pc != 16 && !IsJump(OpAt(vm.pc, b.short, b.long))
    ensures after.evaluations == vm.evaluations
  {
    hide ArmPreds, Eval, ApplyFrames, Build, RunTo, CaptureInto, GetU32, Wrap32, EnvOf, Decodes;
    ReadersEvaluateNothing(b.setup, vm);
    ReaderAt(b.short, b.long, vm.pc);
    hide OpAt;
  }

  lemma RunTells(setup: Setup, vm: Vm, time: u32)
    requires Has(vm.ctx, 0x40, U32(time))
    ensures var e, ctx := setup.events(vm.runs), RunTo(setup, vm).ctx;
            && Has(ctx, 0, U32(if e.hit then e.pc else 0)) && Has(ctx, 3, U32(e.elapsed)) && Has(ctx, 0x21, U32(e.fields))
            && Has(ctx, 0x22, U32(setup.pollMs(time)))
    ensures RunTo(setup, vm).runs == vm.runs + 1
  {
    hide HitKey;
  }

  lemma RunStops(b: Battle, vm: Vm, after: Vm)
    requires StepFrom(b, vm, after, 14) && Timed(b, vm)
    ensures after.runs == vm.runs + 1 && Stop(b, after.ctx, after.runs)
  {
    hide StepFrom, Common, Zone, TimeFor, RunTo, BattleStep;
    StepParts(b, vm, after, 14);
    SimpleOps(b, vm, after);
    RunTells(b.setup, vm, TimeFor(b, vm.runs));
  }

  lemma StopKept(b: Battle, vm: Vm, after: Vm)
    requires StepFrom(b, vm, after, vm.pc) && after.status.Running? && Timed(b, vm) && (vm.runs > 0 ==> Stop(b, vm.ctx, vm.runs))
    ensures after.runs > 0 ==> Stop(b, after.ctx, after.runs)
  {
    hide StepFrom, BattleStep, Common, Zone, TimeFor;
    FromInProgram(b, vm, after);
    if vm.pc == 14 {
      RunStops(b, vm, after);
    } else {
      StepLeaves(b, vm, after);
      RunsStay(b, vm, after);
      hide Timed;
    }
  }

  lemma TimeSet(b: Battle, vm: Vm, after: Vm)
    requires b.Valid() && BattleStep(b, vm, after) && vm.pc in {22, 27}
    ensures Has(after.ctx, 0x40, U32(if vm.pc == 22 then b.long else b.short))
  {
    hide BattleStep;
    SimpleOps(b, vm, after);
  }

  /** Before the long timeout is set nothing has changed since the run; behind it a stop that begins no turn. */
  lemma TimeFollows(short: u32, long: u32, pc: nat, next: nat)
    requires Follows(short, long, pc, next) && pc !in {6, 12, 13, 26, 31, 33, 35, 37, 39}
    ensures next == 14 ==> pc in {5, 11, 23}
    ensures 15 <= next <= 22 ==> 14 <= pc <= 21
    ensures next in {23, 24, 25} ==> pc in {22, 23, 24}
    ensures next in {28, 29, 30} || 7 <= next <= 11 ==> pc in {27, 28, 29, 30} || 7 <= pc <= 10
    ensures next <= 5 ==> pc <= 4
  {
  }

  lemma TimeKept(b: Battle, vm: Vm, after: Vm)
    requires StepFrom(b, vm, after, vm.pc) && Traced(b, vm) && after.status.Running? && Timed(b, vm)
    ensures Timed(b, after)
  {
    hide StepFrom, BattleStep, Common, Zone, TimeFor, Follows, Traced;
    FromInProgram(b, vm, after);
    PlacesLive(b, vm);
    LiveRuns(b, vm, after);
    PcMoves(b, vm, after);
    TimeFollows(b.short, b.long, vm.pc, after.pc);
    StepLeaves(b, vm, after);
    if vm.pc in {22, 27} { TimeSet(b, vm, after); }
    if after.pc == 14 { TimeAtRun(b, vm, after); }
  }

  lemma TimeAtRun(b: Battle, vm: Vm, after: Vm)
    requires StepFrom(b, vm, after, vm.pc) && Traced(b, vm) && after.status.Running? && after.pc == 14 && vm.pc in {5, 11, 23}
    ensures b.Valid()
    ensures TimeFor(b, after.runs) == if vm.pc == 5 then b.job.runMs else if vm.pc == 11 then b.short else b.long
  {
    hide StepFrom, BattleStep, Common, Traced;
    LiveRuns(b, vm, after);
    FromInProgram(b, vm, after);
    if vm.pc == 5 { FreshRuns(b, vm); }
    hide Zone;
    if vm.pc == 11 { TracedJudged(b, vm); }
    if vm.pc == 23 { NotYetMoves(b, vm, after); }
    hide HitOf, Advances;
  }

  lemma ReportsKeep(b: Battle, vm: Vm, after: Vm)
    requires StepFrom(b, vm, after, vm.pc) && Traced(b, vm) && after.status.Running? && Reports(b, vm)
    ensures Reports(b, after)
  {
    hide StepFrom, Traced, Scores, Timed, Stop;
    ScoresKept(b, vm, after);
    StopKept(b, vm, after);
    TimeKept(b, vm, after);
  }

  lemma ReportsBegin(b: Battle)
    requires b.Valid()
    ensures Reports(b, Start(b.setup, JobContext(b)))
  {
  }

  /** Main lemma: every machine of every run reports truly. */
  lemma {:induction false} RunsReport(b: Battle, trace: seq<Vm>, i: nat)
    requires Runs(b, trace) && i < |trace| && (trace[i].status.Running? || trace[i].status.Returned?)
    ensures Reports(b, trace[i])
    decreases i
  {
    hide Runs, Traced, StepFrom, Reports;
    if i == 0 {
      RunStarts(b, trace);
      ReportsBegin(b);
    } else {
      var vm, after := trace[i - 1], trace[i];
      StillRunning(b, trace, i - 1);
      RunsReport(b, trace, i - 1);
      RunsTraced(b, trace, i - 1);
      OneOperation(b, trace, i - 1);
      if after.status.Running? { ReportsKeep(b, vm, after); } else { ReturnReports(b, vm, after); }
    }
  }

  lemma ReturnReports(b: Battle, vm: Vm, after: Vm)
    requires StepFrom(b, vm, after, vm.pc) && Reports(b, vm) && after.status.Returned?
    ensures Reports(b, after)
  {
    hide StepFrom, BattleStep, Common, Zone, Reports;
    FromInProgram(b, vm, after);
    ReturnsInPlace(b, vm, after);
    StatusAside(b, vm, after.status);
  }

  lemma StatusAside(b: Battle, vm: Vm, status: ScriptVm.Status)
    requires b.Valid() && Reports(b, vm)
    ensures Reports(b, vm.(status := status))
  {
    hide Scores, Stop, TimeFor;
  }

  /** Main result: whenever the game is about to run, key 0x40 holds the time its last stop earns it. */
  lemma TimeInForce(b: Battle, trace: seq<Vm>, i: nat)
    requires Runs(b, trace) && i < |trace| && trace[i].status.Running? && trace[i].pc == 14
    ensures b.Valid() && Has(trace[i].ctx, 0x40, U32(TimeFor(b, trace[i].runs)))
  {
    hide Runs, TimeFor;
    RunStarts(b, trace);
    RunsReport(b, trace, i);
  }

  /** Main result: a returned result reports its last stop and the scores of its records. */
  lemma ResultReports(b: Battle, trace: seq<Vm>)
    requires Runs(b, trace) && trace[|trace| - 1].status.Returned? && trace[|trace| - 1].runs > 0
    ensures var vm := trace[|trace| - 1]; Stop(b, vm.status.ctx, vm.runs) && Scores(vm.status.ctx, vm.evaluations)
  {
    hide Runs, TimeFor, Common, Zone, AllJudged, LastPassed;
    RunStarts(b, trace);
    RunsReport(b, trace, |trace| - 1);
    ReturnedFrom(b, trace);
    var vm := trace[|trace| - 1];
    OnlyOutcomeAdded(b, vm, vm.status.ok, vm.status.ctx);
  }

  lemma OnlyOutcomeAdded(b: Battle, vm: Vm, ok: bool, ctx: Context)
    requires b.Valid() && Ended(b, vm, ok, ctx) && vm.runs > 0
    ensures SameStop(vm.ctx, ctx) && SameScores(vm.ctx, ctx)
  {
    hide Common, Zone;
  }

  // ---------------------------------------------------------------- a turn that cannot be written

  lemma WriterErrs(bc: BattleContext, plan: TurnPlan)
    requires bc.Valid() && plan.fakeAttackCount <= 255
    ensures var w := WriteTurn(bc, plan); (w.err == OK || w.err == NoValidTarget) && (w.ok ==> w.err == OK)
  {
    ActionsErr(bc, ATTACK_ITEM, plan.spec, 0);
    WriteOk(bc, plan);
    hide WriteActions;
  }

  lemma {:induction false} ActionsErr(bc: BattleContext, item: u8, spec: TurnPlanSpec, i: nat)
    requires bc.Valid() && item <= 6 && i <= |spec|
    ensures var w := WriteActions(bc, item, spec, i); w.err == OK || w.err == NoValidTarget
    decreases |spec| - i
  {
    if i < |spec| {
      hide MainMoves, TargetMoves, Requested;
      if WriteAction(bc, item, spec[i]).ok { ActionsErr(bc, WriteAction(bc, item, spec[i]).item, spec, i + 1); }
    }
  }

  lemma UnwrittenCode(b: Battle, vm: Vm)
    requires b.Valid() && Zone(b, vm) && vm.pc == 38 && Traced(b, vm)
    ensures vm.runs > 0 && Has(vm.ctx, 0x333, U32(if Advances(b, vm.runs) > b.Turns() then 4 else 1))
  {
    assert Turn(vm.ctx) == Advances(b, vm.runs) by { hide Zone, Words, Judgements, Seen, Battles, Blank, Advances; }
    hide Traced, Advances;
    UnwrittenError(b, vm);
  }

  lemma UnwrittenError(b: Battle, vm: Vm)
    requires b.Valid() && Zone(b, vm) && vm.pc == 38
    ensures vm.runs > 0 && Has(vm.ctx, 0x333, U32(if Turn(vm.ctx) > b.Turns() then 4 else 1))
  {
    assert JustBuilt(b, vm);
    var t := Turn(vm.ctx);
    if t <= b.Turns() {
      assert BuiltFine(b, vm.built) && |vm.built| == t;
      WriterErrs(vm.built[t - 1], b.job.path[t - 1]);
    }
    hide WriteTurn, Settled, Played, Holding, Planned, SteppedAs;
  }

  /** Main result: when a run ends because a turn cannot be written, key 0x333 says why: 4 when the path has no such turn, 1 when
      an attack has no target. */
  lemma UnwrittenReports(b: Battle, trace: seq<Vm>)
    requires Runs(b, trace) && trace[|trace| - 1].status.Returned? && Has(trace[|trace| - 1].status.ctx, 0x302, U32(3))
    ensures b.Valid() && trace[|trace| - 1].runs > 0
    ensures var vm := trace[|trace| - 1];
            Has(vm.status.ctx, 0x333, U32(if Advances(b, vm.runs) > b.Turns() then 4 else 1))
  {
    hide Runs, Traced, Zone, Common, Advances;
    RunStarts(b, trace);
    ReturnedFrom(b, trace);
    RunsTraced(b, trace, |trace| - 1);
    var vm := trace[|trace| - 1];
    OnlyUnwritten(b, vm, vm.status.ok, vm.status.ctx);
    UnwrittenCode(b, vm);
  }

  lemma OnlyUnwritten(b: Battle, vm: Vm, ok: bool, ctx: Context)
    requires b.Valid() && Ended(b, vm, ok, ctx) && Has(ctx, 0x302, U32(3))
    ensures vm.pc == 38 && Zone(b, vm) && Same(vm.ctx, ctx, 0x333)
  {
    hide Common, Zone;
  }

  // ---------------------------------------------------------------- the controller and the snapshots

  /** What the controller was set to last: the job's first frame, then the frames stepped turn by turn. */
  function HeldBy(initial: InputFrame, stepped: seq<seq<InputFrame>>): Option<InputFrame> {
    if stepped == [] then Some(initial) else HeldAfter(HeldBy(initial, stepped[..|stepped| - 1]), stepped[|stepped| - 1])
  }

  /** The controller is set before the first run, and both snapshots are loaded. */
  ghost predicate Ready(b: Battle, vm: Vm)
    requires b.Valid()
  {
    && (vm.pc >= 5 ==> vm.held == HeldBy(b.job.initial, vm.stepped))
    && b.setup.firstLoad && (vm.pc >= 3 ==> b.setup.secondLoad) && (vm.runs > 0 ==> vm.pc >= 3)
  }

  lemma ReadersHold(setup: Setup, vm: Vm)
    ensures ArmPreds(setup, vm).held == Eval(setup, vm).held == CaptureInto(setup, vm).held == RunTo(setup, vm).held == vm.held
    ensures Decodes(setup) ==> Build(setup, vm).held == vm.held && Build(setup, vm).stepped == vm.stepped
    ensures ArmPreds(setup, vm).stepped == Eval(setup, vm).stepped == CaptureInto(setup, vm).stepped == RunTo(setup, vm).stepped == vm.stepped
  {
    hide Verdicts, TallyOf, Tallied, Strays, PredKeys, CaptureAll, CaptureStrays, WriteTurn, WithPlan, Failed, Blank, HitKey;
  }

  lemma SteppingHolds(vm: Vm, initial: InputFrame)
    requires vm.status.Running? && ApplyFrames(vm).status.Running? && vm.held == HeldBy(initial, vm.stepped)
    ensures ApplyFrames(vm).held == HeldBy(initial, ApplyFrames(vm).stepped)
  {
    var after := ApplyFrames(vm);
    assert after.stepped[..|vm.stepped|] == vm.stepped;
    hide FramesIn, Get32, GetU32;
  }

  lemma PlacesSet(short: u32, long: u32, pc: nat)
    requires pc < LENGTH
    ensures OpAt(pc, short, long).ApplyInputFrom? <==> pc == 4
    ensures OpAt(pc, short, long).ApplyInputPlanFrames? <==> pc == 10
    ensures OpAt(pc, short, long).LoadSnapshot? <==> pc == 2
    ensures pc == 4 ==> OpAt(pc, short, long).key == 0x301
  {
  }

  lemma ReaderHolds(b: Battle, vm: Vm, after: Vm)
    requires b.Valid() && BattleStep(b, vm, after) && vm.pc < LENGTH && vm.pc != 10 && IsReader(OpAt(vm.pc, b.short, b.long))
    ensures after.held == vm.held && after.stepped == vm.stepped
  {
    hide ArmPreds, Eval, ApplyFrames, Build, RunTo, CaptureInto;
    ReadersHold(b.setup, vm);
    PlacesSet(b.short, b.long, vm.pc);
    hide OpAt;
  }

  lemma RestHolds(b: Battle, vm: Vm, after: Vm)
    requires b.Valid() && BattleStep(b, vm, after) && vm.pc < LENGTH && vm.pc != 4
    requires !IsReader(OpAt(vm.pc, b.short, b.long)) && !IsJump(OpAt(vm.pc, b.short, b.long))
    ensures after.held == vm.held && after.stepped == vm.stepped
  {
    PlacesSet(b.short, b.long, vm.pc);
    hide OpAt, GetU32, Wrap32, EnvOf;
  }

  /** The other operations leave the controller alone. */
  lemma OthersHold(b: Battle, vm: Vm, after: Vm)
    requires b.Valid() && BattleStep(b, vm, after) && vm.pc < LENGTH && vm.pc !in {4, 10}
    ensures after.held == vm.held && after.stepped == vm.stepped
  {
    hide OpAt, BattleStep, IsReader, IsJump;
    if IsJump(OpAt(vm.pc, b.short, b.long)) { JumpMoves(b, vm, after); }
    else if IsReader(OpAt(vm.pc, b.short, b.long)) { ReaderHolds(b, vm, after); }
    else { RestHolds(b, vm, after); }
  }

  lemma SetAtStart(b: Battle, vm: Vm, after: Vm)
    requires StepFrom(b, vm, after, 4) && after.status.Running?
    ensures after.held == HeldBy(b.job.initial, after.stepped)
  {
    hide Holding, Keys;
  }

  lemma SetByTurn(b: Battle, vm: Vm, after: Vm)
    requires StepFrom(b, vm, after, 10) && after.status.Running? && vm.held == HeldBy(b.job.initial, vm.stepped)
    ensures after.held == HeldBy(b.job.initial, after.stepped)
  {
    hide StepFrom, Common, Zone, BattleStep, ApplyFrames;
    StepParts(b, vm, after, 10);
    SimpleOps(b, vm, after);
    SteppingHolds(vm, b.job.initial);
  }

  lemma Loads(b: Battle, vm: Vm, after: Vm)
    requires StepFrom(b, vm, after, 2) && after.status.Running?
    ensures b.setup.secondLoad
  {
    hide Common, Zone;
  }

  /** The first places come one after the other. */
  lemma EarlyPlaces(short: u32, long: u32, pc: nat, next: nat)
    requires Follows(short, long, pc, next)
    ensures next >= 3 ==> pc >= 2
    ensures next >= 5 ==> pc >= 4
    ensures pc >= 3 ==> next >= 3
  {
  }

  lemma ReadyKept(b: Battle, vm: Vm, after: Vm)
    requires StepFrom(b, vm, after, vm.pc) && after.status.Running? && Ready(b, vm)
    ensures Ready(b, after)
  {
    hide StepFrom, BattleStep, Common, Zone, Follows, HeldBy;
    FromInProgram(b, vm, after);
    LiveRuns(b, vm, after);
    PcMoves(b, vm, after);
    EarlyPlaces(b.short, b.long, vm.pc, after.pc);
    if vm.pc == 4 { SetAtStart(b, vm, after); }
    else if vm.pc == 10 { SetByTurn(b, vm, after); }
    else { OthersHold(b, vm, after); }
    if vm.pc == 2 { Loads(b, vm, after); }
  }

  lemma ReadyAtStart(b: Battle)
    requires b.Valid() && Start(b.setup, JobContext(b)).status.Running?
    ensures Ready(b, Start(b.setup, JobContext(b)))
  {
  }

  lemma {:induction false} RunsReady(b: Battle, trace: seq<Vm>, i: nat)
    requires Runs(b, trace) && i < |trace| && trace[i].status.Running?
    ensures Ready(b, trace[i])
    decreases i
  {
    hide Runs, StepFrom, Ready;
    if i == 0 {
      RunStarts(b, trace);
      ReadyAtStart(b);
    } else {
      StillRunning(b, trace, i - 1);
      RunsReady(b, trace, i - 1);
      OneOperation(b, trace, i - 1);
      ReadyKept(b, trace[i - 1], trace[i]);
    }
  }

  /** Main result: whenever the game is about to run, both snapshots were loaded, and the controller holds the last frame stepped,
      or the job's first frame as long as there is none. */
  lemma ControllerTold(b: Battle, trace: seq<Vm>, i: nat)
    requires Runs(b, trace) && i < |trace| && trace[i].status.Running? && trace[i].pc == 14
    ensures b.Valid() && b.setup.firstLoad && b.setup.secondLoad
    ensures trace[i].held == HeldBy(b.job.initial, trace[i].stepped)
  {
    hide Runs, HeldBy;
    RunStarts(b, trace);
    RunsReady(b, trace, i);
  }
}
