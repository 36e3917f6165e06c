/** What a stop of the game means for the job, by the numbers of its breakpoint and of its outcome: a run of the battle
    program ends at the first stop that ends it, with that stop's outcome. */
module BattleEndings {
  import opened Bytes
  import opened ScriptContext
  import opened PlanWriter
  import opened PredicateEval
  import opened ScriptVm
  import opened BattleProgram
  import opened BattleRuns
  import opened BattleSteps
  import opened BattleFlow
  import opened BattleHistory
  import opened BattleOutcomes

  // ---------------------------------------------------------------- the meaning of a stop

  /** The game runs on; the job ends with an outcome; or the inputs of the next turn are never written to the end. */
  datatype Ending = GoesOn | Ends(outcome: int) | Hangs

  /** What the predicates say at a stop. */
  ghost function VerdictsAt(b: Battle, run: nat): seq<Verdict>
    requires b.Valid() && run > 0
  {
    if b.job.predCount == 0 || HitOf(b, run) == 0 then []
    else Verdicts(b.setup.events(run - 1).env, b.job.predCount, b.job.predTable, BaselinesAt(b, run - 1), HitOf(b, run))
  }

  /** The turn that a stop begins: past the path, with a readable or an unreadable target, or without an end. */
  ghost function NextTurn(b: Battle, run: nat): Ending
    requires b.Valid() && run > 0
  {
    var t := Advances(b, run);
    if t == 0 || t > b.Turns() then Ends(3)
    else if b.job.path[t - 1].fakeAttackCount > 255 then Hangs
    else if Battles(b, run)[t - 1].Valid() && Continues(WriteTurn(Battles(b, run)[t - 1], b.job.path[t - 1])) then GoesOn
    else Ends(3)
  }

  /** The battle as its maintainers would tell it: the emulator stops by itself (5), victory at 209 (0), defeat at 210
      (1), a false predicate (2), the inputs of a turn behind the last one are asked for at 203 (4), and a turn begins,
      at 211 or 203, that cannot be written (3). */
  ghost function EndingAt(b: Battle, run: nat): Ending
    requires b.Valid() && run > 0
  {
    var hit := HitOf(b, run);
    if !b.setup.events(run - 1).hit && DwOf(b, run) != 0 then Ends(5)
    else if hit == 209 then Ends(0)
    else if hit == 210 then Ends(1)
    else if exists i | 0 <= i < |VerdictsAt(b, run)| :: VerdictsAt(b, run)[i].Judged? && !VerdictsAt(b, run)[i].ok then Ends(2)
    else if hit == 211 || (hit == 203 && Advances(b, run - 1) < b.Turns()) then NextTurn(b, run)
    else if hit == 203 then Ends(4)
    else GoesOn
  }

  ghost predicate WentOn(b: Battle, runs: nat)
    requires b.Valid()
  {
    forall k | 0 < k <= runs :: EndingAt(b, k) == GoesOn
  }

  /** Every stop before the last let the game run on; so did the last once the next run is due. */
  ghost predicate Went(b: Battle, vm: Vm)
    requires b.Valid()
  {
    WentOn(b, Clock(vm.runs, vm.pc != 14))
  }

  lemma AllTrueMeans(v: seq<Verdict>)
    ensures AllTrue(v) <==> !exists i | 0 <= i < |v| :: v[i].Judged? && !v[i].ok
  {
    var k := FirstFailure(v);
    assert k < |v| ==> Fails(v[k]);
  }

  lemma EvaluationAt(b: Battle, vm: Vm, k: nat)
    requires b.Valid() && Judgements(b, vm.evaluations) && k < |vm.evaluations|
    ensures VerdictsAt(b, k + 1) == vm.evaluations[k].verdicts
  {
    hide Verdicts, HitOf, BaselinesAt;
    assert EvaluatedAt(b, k, vm.evaluations[k]);
  }

  /** No record was false at the last stop. */
  ghost predicate Flawless(b: Battle, run: nat)
    requires b.Valid() && run > 0
  {
    AllTrue(VerdictsAt(b, run)) && DwOf(b, run) == 0
  }

  lemma SettledFlawless(b: Battle, vm: Vm)
    requires b.Valid() && Settled(b, vm) && vm.runs > 0 && Judgements(b, vm.evaluations)
    ensures Flawless(b, vm.runs)
  {
    hide Shows, DwOf, VerdictsAt, Judgements, AllTrue;
    EvaluationAt(b, vm, vm.runs - 1);
  }

  /** A stop without false records goes by its breakpoint alone. */
  lemma ByKey(b: Battle, run: nat)
    requires b.Valid() && run > 0 && Flawless(b, run)
    ensures var hit := HitOf(b, run);
            EndingAt(b, run) ==
              if hit == 209 then Ends(0)
              else if hit == 210 then Ends(1)
              else if hit == 211 || (hit == 203 && Advances(b, run - 1) < b.Turns()) then NextTurn(b, run)
              else if hit == 203 then Ends(4)
              else GoesOn
  {
    hide NextTurn, HitOf, Advances, VerdictsAt;
    AllTrueMeans(VerdictsAt(b, run));
    hide AllTrue;
  }

  /** A stop that began a turn. */
  lemma ByTurn(b: Battle, run: nat)
    requires b.Valid() && run > 0 && Flawless(b, run) && Leads(b, run)
    ensures EndingAt(b, run) == NextTurn(b, run) && Advances(b, run) >= 1
  {
    ByKey(b, run);
    hide NextTurn, HitOf, Flawless;
  }

  // ---------------------------------------------------------------- only the run operation runs the game

  lemma ReadersStay(setup: Setup, vm: Vm)
    ensures ArmPreds(setup, vm).runs == Eval(setup, vm).runs == ApplyFrames(vm).runs == CaptureInto(setup, vm).runs == vm.runs
    ensures Decodes(setup) ==> Build(setup, vm).runs == vm.runs
  {
    hide Verdicts, TallyOf, Tallied, Strays, PredKeys, FramesIn, Get32, CaptureAll, CaptureStrays, WriteTurn, WithPlan, Failed, Blank;
  }

  lemma OthersStay(b: Battle, vm: Vm, after: Vm)
    requires b.Valid() && BattleStep(b, vm, after) && vm.pc < LENGTH && vm.pc != 14 && !IsJump(OpAt(vm.pc, b.short, b.long))
    ensures after.runs == vm.runs
  {
    hide ArmPreds, Eval, ApplyFrames, Build, RunTo, CaptureInto, GetU32, Wrap32, EnvOf, Decodes;
    ReadersStay(b.setup, vm);
    OnlyRun(b.short, b.long, vm.pc);
    hide OpAt;
  }

  lemma OnlyRun(short: u32, long: u32, pc: nat)
    requires pc < LENGTH
    ensures OpAt(pc, short, long).RunUntilBp? ==> pc == 14
  {
  }

  lemma RunsStay(b: Battle, vm: Vm, after: Vm)
    requires b.Valid() && BattleStep(b, vm, after) && vm.pc < LENGTH && vm.pc != 14
    ensures after.runs == vm.runs
  {
    hide BattleStep, OpAt;
    if IsJump(OpAt(vm.pc, b.short, b.long)) { JumpMoves(b, vm, after); } else { OthersStay(b, vm, after); }
  }

  /** Where a run of the game comes from. */
  lemma BeforeRun(short: u32, long: u32, pc: nat)
    requires Follows(short, long, pc, 14)
    ensures pc in {5, 11, 13, 23}
  {
  }

  lemma AfterRun(b: Battle, vm: Vm, after: Vm)
    requires StepFrom(b, vm, after, 14)
    ensures after.pc == 15 && after.runs == vm.runs + 1
  {
    hide StepFrom, Common, Zone, RunTo;
    StepParts(b, vm, after, 14);
    SimpleOps(b, vm, after);
    RunShape(b.setup, vm);
    RunCounts(b.setup, vm);
  }

  lemma RunCounts(setup: Setup, vm: Vm)
    ensures RunTo(setup, vm).runs == vm.runs + 1
  {
    hide HitKey, GetU32;
  }

  lemma FreshRuns(b: Battle, vm: Vm)
    requires b.Valid() && Zone(b, vm) && (vm.pc == 5 || vm.pc == 13)
    ensures vm.pc == 5 && vm.runs == 0
  {
  }

  /** The number of runs moves with the run operation; before it stands one that lets the game run on. */
  lemma LiveRuns(b: Battle, vm: Vm, after: Vm)
    requires StepFrom(b, vm, after, vm.pc) && after.status.Running?
    ensures vm.pc == 14 ==> after.pc == 15 && after.runs == vm.runs + 1
    ensures vm.pc != 14 ==> after.runs == vm.runs
    ensures after.pc == 14 ==> vm.pc in {11, 23} || vm.runs == 0
  {
    FromInProgram(b, vm, after);
    hide StepFrom, Common, Zone, BattleStep, Follows, OpAt;
    if vm.pc == 14 {
      AfterRun(b, vm, after);
    } else {
      RunsStay(b, vm, after);
      PcMoves(b, vm, after);
      if after.pc == 14 {
        BeforeRun(b.short, b.long, vm.pc);
        if vm.pc in {5, 13} { FreshRuns(b, vm); }
      }
    }
  }

  // ---------------------------------------------------------------- where the game runs on

  /** Between the turns nothing but the stop's breakpoint counts. */
  lemma OnFromNotYet(b: Battle, vm: Vm, after: Vm)
    requires StepFrom(b, vm, after, 23) && Traced(b, vm) && after.pc == 14
    ensures b.Valid() && vm.runs > 0 && after.runs == vm.runs && EndingAt(b, vm.runs) == GoesOn
  {
    hide StepFrom, Traced, Zone, EndingAt, BattleStep, Common;
    NotYetMoves(b, vm, after);
    StepParts(b, vm, after, 23);
    TracedJudged(b, vm);
    NotYetZone(b, vm);
    RunningFlawless(b, vm);
    NotYetGoesOn(b, vm);
  }

  lemma NotYetZone(b: Battle, vm: Vm)
    requires b.Valid() && Zone(b, vm) && vm.pc == 23
    ensures vm.runs > 0 && BattleRuns.Running(b, vm) && HitFits(23, HitOf(b, vm.runs))
  {
    hide BattleRuns.Running, HitFits, HitOf;
  }

  lemma NotYetGoesOn(b: Battle, vm: Vm)
    requires b.Valid() && vm.runs > 0 && Flawless(b, vm.runs) && HitFits(23, HitOf(b, vm.runs))
    requires HitOf(b, vm.runs) != BP_ACCEPT_INPUT && HitOf(b, vm.runs) != BP_LOAD_COMPLETE
    ensures EndingAt(b, vm.runs) == GoesOn
  {
    ByKey(b, vm.runs);
    hide EndingAt, HitOf, Flawless, Advances, NextTurn;
  }

  /** The turn the stop began was written. */
  lemma OnFromInputs(b: Battle, vm: Vm, after: Vm)
    requires StepFrom(b, vm, after, 11) && Traced(b, vm)
    ensures b.Valid() && vm.runs > 0 && after.runs == vm.runs && EndingAt(b, vm.runs) == GoesOn
  {
    hide StepFrom, Traced, BattleStep, Common, Zone, EndingAt, NextTurn;
    StepParts(b, vm, after, 11);
    PcStill(b, vm, after);
    InputsOn(b, vm);
  }

  lemma InputsOn(b: Battle, vm: Vm)
    requires b.Valid() && Zone(b, vm) && vm.pc == 11 && Traced(b, vm)
    ensures vm.runs > 0 && EndingAt(b, vm.runs) == GoesOn
  {
    InputsZone(b, vm);
    hide Zone, EndingAt, BattleRuns.Running;
    TurnWritten(b, vm);
    TracedJudged(b, vm);
    RunningFlawless(b, vm);
    ByTurn(b, vm.runs);
  }

  lemma InputsZone(b: Battle, vm: Vm)
    requires b.Valid() && Zone(b, vm) && vm.pc == 11
    ensures vm.runs > 0 && BattleRuns.Running(b, vm)
  {
    hide BattleRuns.Running;
  }

  lemma RunningFlawless(b: Battle, vm: Vm)
    requires b.Valid() && BattleRuns.Running(b, vm) && vm.runs > 0 && Judgements(b, vm.evaluations)
    ensures Flawless(b, vm.runs)
  {
    hide Settled, Played, Judgements, Flawless;
    SettledFlawless(b, vm);
  }

  lemma PcStill(b: Battle, vm: Vm, after: Vm)
    requires b.Valid() && BattleStep(b, vm, after) && vm.pc == 11
    ensures after.runs == vm.runs
  {
    JumpMoves(b, vm, after);
    hide BattleStep;
  }

  lemma TurnWritten(b: Battle, vm: Vm)
    requires b.Valid() && BattleRuns.Running(b, vm) && vm.pc == 11 && vm.runs > 0 && Traced(b, vm)
    ensures NextTurn(b, vm.runs) == if Advances(b, vm.runs) == 0 then Ends(3) else GoesOn
  {
    hide Settled, Judgements, Words, Seen, Battles, Advances, WriteTurn, Blank, Holding;
    var t := Turn(vm.ctx);
    assert t == Advances(b, vm.runs) && vm.built <= Battles(b, vm.runs);
    if t > 0 { assert Continues(WrittenFor(b, vm.built, t - 1)); }
  }

  lemma OneMore(b: Battle, runs: nat)
    requires b.Valid() && runs > 0 && WentOn(b, runs - 1) && EndingAt(b, runs) == GoesOn
    ensures WentOn(b, runs)
  {
    hide EndingAt;
  }

  lemma NextRunDue(b: Battle, vm: Vm, after: Vm)
    requires StepFrom(b, vm, after, vm.pc) && Traced(b, vm) && after.pc == 14 && vm.pc in {11, 23} && WentOn(b, Clock(vm.runs, true))
    ensures after.runs == vm.runs && WentOn(b, vm.runs)
  {
    hide StepFrom, Traced, EndingAt, WentOn;
    if vm.pc == 23 { OnFromNotYet(b, vm, after); } else { OnFromInputs(b, vm, after); }
    OneMore(b, vm.runs);
  }

  /** Main lemma: every operation keeps it. */
  lemma WentKeeps(b: Battle, vm: Vm, after: Vm)
    requires StepFrom(b, vm, after, vm.pc) && Traced(b, vm) && Went(b, vm) && after.status.Running?
    ensures Went(b, after)
  {
    hide StepFrom, Traced, EndingAt, WentOn;
    LiveRuns(b, vm, after);
    if after.pc == 14 && vm.pc in {11, 23} { NextRunDue(b, vm, after); }
  }

  lemma {:induction false} RunsWent(b: Battle, trace: seq<Vm>, i: nat)
    requires Runs(b, trace) && i < |trace| && (trace[i].status.Running? || trace[i].status.Returned?)
    ensures Went(b, trace[i])
    decreases i
  {
    hide Runs, Traced, StepFrom, EndingAt;
    if i == 0 {
      RunStarts(b, trace);
    } else {
      var vm, after := trace[i - 1], trace[i];
      StillRunning(b, trace, i - 1);
      RunsWent(b, trace, i - 1);
      RunsTraced(b, trace, i - 1);
      OneOperation(b, trace, i - 1);
      hide Went;
      if after.status.Running? { WentKeeps(b, vm, after); } else { ReturnWent(b, vm, after); }
    }
  }

  lemma ReturnWent(b: Battle, vm: Vm, after: Vm)
    requires StepFrom(b, vm, after, vm.pc) && Went(b, vm) && after.status.Returned?
    ensures Went(b, after)
  {
    FromInProgram(b, vm, after);
    hide StepFrom, BattleStep, Common, Zone, EndingAt;
    ReturnsInPlace(b, vm, after);
  }

  // ---------------------------------------------------------------- where the job ends

  lemma EndsByKey(b: Battle, vm: Vm)
    requires b.Valid() && Zone(b, vm) && (vm.pc == 32 || vm.pc == 34)
    ensures vm.runs > 0 && EndingAt(b, vm.runs) == if vm.pc == 32 then Ends(0) else Ends(1)
  {
    HitAt(b, vm);
    hide Zone, VerdictsAt, HitOf, NextTurn;
  }

  lemma EndsFalse(b: Battle, vm: Vm)
    requires b.Valid() && Zone(b, vm) && vm.pc == 36 && Judgements(b, vm.evaluations)
    ensures vm.runs > 0 && EndingAt(b, vm.runs) == Ends(2)
  {
    FailedAt(b, vm);
    FirstFailedJudged(b, vm);
    hide Zone, VerdictsAt, HitOf, NextTurn, Judgements, FirstFailed;
    AllTrueMeans(VerdictsAt(b, vm.runs));
    hide AllTrue;
  }

  lemma FirstFailedJudged(b: Battle, vm: Vm)
    requires b.Valid() && FirstFailed(b, vm, vm.ctx[BATTLE_OUTCOME := U32(PRED_FAILURE)]) && Judgements(b, vm.evaluations)
    ensures vm.runs > 0 && !AllTrue(VerdictsAt(b, vm.runs)) && HitOf(b, vm.runs) != BP_VICTORY && HitOf(b, vm.runs) != BP_DEFEAT
  {
    hide VerdictsAt, HitOf, Judgements, AllTrue, EvaluatedAt, FirstFailure;
    EvaluationAt(b, vm, vm.runs - 1);
  }

  lemma EndsExhausted(b: Battle, vm: Vm)
    requires b.Valid() && Zone(b, vm) && vm.pc == 25 && Traced(b, vm)
    ensures vm.runs > 0 && EndingAt(b, vm.runs) == Ends(4)
  {
    ExhaustedAt(b, vm);
    LastAdvances(b, vm);
    ExhaustedFlawless(b, vm);
    hide Zone, Traced, HitOf, Advances, Flawless, EndingAt, NextTurn;
    ByKey(b, vm.runs);
  }

  lemma LastAdvances(b: Battle, vm: Vm)
    requires b.Valid() && Traced(b, vm) && vm.pc == 25 && vm.runs > 0
    ensures Turn(vm.ctx) == Advances(b, vm.runs - 1) && Judgements(b, vm.evaluations)
  {
    hide Words, Judgements, Seen, Battles, Blank, Advances;
  }

  lemma ExhaustedFlawless(b: Battle, vm: Vm)
    requires b.Valid() && Exhausted(b, vm) && Judgements(b, vm.evaluations) && DwOf(b, vm.runs) == 0
    ensures Flawless(b, vm.runs) && HitOf(b, vm.runs) == 203 && Turn(vm.ctx) == b.Turns()
  {
    hide VerdictsAt, Judgements, AllTrue, DwOf, HitOf, Played;
    EvaluationAt(b, vm, vm.runs - 1);
  }

  lemma EndsUnwritten(b: Battle, vm: Vm)
    requires b.Valid() && Zone(b, vm) && vm.pc == 38 && Traced(b, vm)
    ensures vm.runs > 0 && EndingAt(b, vm.runs) == Ends(3)
  {
    UnwritableAt(b, vm);
    UnwrittenSettled(b, vm);
    hide Zone, EndingAt, Settled;
    UnwrittenTurn(b, vm);
    TracedJudged(b, vm);
    SettledFlawless(b, vm);
    ByTurn(b, vm.runs);
  }

  lemma TracedJudged(b: Battle, vm: Vm)
    requires b.Valid() && Traced(b, vm)
    ensures Judgements(b, vm.evaluations) && (vm.pc in {8, 11, 38} ==> vm.runs > 0 && Leads(b, vm.runs))
  {
    hide Words, Judgements, Seen, Battles, Blank, Advances, Leads;
  }

  lemma UnwrittenSettled(b: Battle, vm: Vm)
    requires b.Valid() && Zone(b, vm) && vm.pc == 38
    ensures Settled(b, vm)
  {
    hide Settled, Played, Holding, WrittenFor, SteppedAs, BuiltFine;
  }

  lemma UnwrittenTurn(b: Battle, vm: Vm)
    requires b.Valid() && Unwritable(b, vm) && vm.pc == 38 && vm.runs > 0 && Traced(b, vm)
    ensures NextTurn(b, vm.runs) == Ends(3)
  {
    hide Judgements, Words, Seen, Battles, Advances, WriteTurn, Blank, Clean;
    var t := Turn(vm.ctx);
    assert t == Advances(b, vm.runs) && vm.built <= Battles(b, vm.runs);
    assert t <= b.Turns() ==> !Continues(WrittenFor(b, vm.built, t - 1));
  }

  lemma EndsBroken(b: Battle, vm: Vm)
    requires b.Valid() && Zone(b, vm) && vm.pc == 40
    ensures vm.runs > 0 && EndingAt(b, vm.runs) == Ends(5)
  {
    DwFailedAt(b, vm);
    hide Zone, VerdictsAt, HitOf, NextTurn;
  }

  /** The outcome of a place of return, in numbers. */
  function Code(pc: nat): u32 {
    match pc case 32 => 0 case 34 => 1 case 36 => 2 case 38 => 3 case 25 => 4 case _ => 5
  }

  lemma EndsAt(b: Battle, vm: Vm)
    requires b.Valid() && Zone(b, vm) && vm.pc in {25, 32, 34, 36, 38, 40} && Traced(b, vm)
    ensures vm.runs > 0 && EndingAt(b, vm.runs) == Ends(Code(vm.pc)) && OutcomeAt(vm.pc) == Code(vm.pc)
  {
    hide Zone, EndingAt, Traced;
    if vm.pc == 25 { EndsExhausted(b, vm); }
    else if vm.pc == 36 { TracedJudged(b, vm); EndsFalse(b, vm); }
    else if vm.pc == 38 { EndsUnwritten(b, vm); }
    else if vm.pc == 40 { EndsBroken(b, vm); }
    else { EndsByKey(b, vm); }
  }

  // ---------------------------------------------------------------- the main result

  /** It ended at its last stop, with that stop's outcome, and the game went on at all stops before. */
  ghost predicate EndedThere(b: Battle, vm: Vm, ok: bool, ctx: Context)
    requires b.Valid()
  {
    && vm.runs > 0 && WentOn(b, vm.runs - 1) && EndingAt(b, vm.runs).Ends?
    && var outcome := EndingAt(b, vm.runs).outcome;
       0 <= outcome <= 5 && Has(ctx, BATTLE_OUTCOME, U32(outcome)) && (ok <==> outcome != 5)
       && Has(ctx, DW_RUN_OUTCOME_CODE, U32(DwOf(b, vm.runs))) && Has(ctx, RUN_HIT_BP_KEY, U32(HitOf(b, vm.runs)))
  }

  lemma EndShows(b: Battle, vm: Vm)
    requires b.Valid() && Zone(b, vm) && vm.pc in {25, 32, 34, 36, 38, 40} && vm.runs > 0
    ensures Shows(b, vm)
  {
    hide Played, Holding, WrittenFor, SteppedAs, BuiltFine, HitFits, DwOf, HitOf, Latched, NoneFailed, Shows;
  }

  lemma EndedAsTold(b: Battle, vm: Vm, ok: bool, ctx: Context)
    requires b.Valid() && Ended(b, vm, ok, ctx) && Traced(b, vm) && Went(b, vm)
    ensures if BATTLE_OUTCOME in ctx then EndedThere(b, vm, ok, ctx)
            else vm.runs == 0 && !ok && ctx == map[] && !(b.setup.firstLoad && b.setup.secondLoad)
  {
    hide Zone, Common, EndingAt, Traced, WentOn, DwOf, HitOf;
    if vm.pc in {25, 32, 34, 36, 38, 40} && Zone(b, vm) {
      EndsAt(b, vm);
      if vm.runs > 0 { EndShows(b, vm); }
      OkUnlessBroken(b, vm);
    }
  }

  lemma OkUnlessBroken(b: Battle, vm: Vm)
    requires b.Valid() && Zone(b, vm) && vm.pc in {25, 32, 34, 36, 38, 40}
    ensures GetU32(vm.ctx, DW_RUN_OUTCOME_CODE, 0) == 0 <==> vm.pc != 40
  {
    hide Zone, Exhausted, FirstFailed, Unwritable, Judgements, DwOf, HitOf;
    if vm.pc == 25 { ExhaustedAt(b, vm); }
    else if vm.pc in {32, 34} { HitAt(b, vm); }
    else if vm.pc == 36 { FailedShows(b, vm); }
    else if vm.pc == 38 { UnwritableAt(b, vm); }
    else { DwFailedAt(b, vm); }
  }

  lemma FailedShows(b: Battle, vm: Vm)
    requires b.Valid() && Zone(b, vm) && vm.pc == 36
    ensures GetU32(vm.ctx, DW_RUN_OUTCOME_CODE, 0) == 0
  {
    hide Played, HitOf, Latched, HitFits;
  }

  /** Main result: a finished run ended at the first stop that ends the job, and returned that stop's outcome; only a
      snapshot that does not load ends it without any. */
  lemma RunsEndAsTold(b: Battle, trace: seq<Vm>)
    requires Runs(b, trace) && trace[|trace| - 1].status.Returned?
    ensures var vm := trace[|trace| - 1];
            var ok, ctx := vm.status.ok, vm.status.ctx;
            if BATTLE_OUTCOME in ctx then EndedThere(b, vm, ok, ctx)
            else vm.runs == 0 && !ok && ctx == map[] && !(b.setup.firstLoad && b.setup.secondLoad)
  {
    hide Runs, Traced, Went, Ended, EndedThere;
    RunStarts(b, trace);
    ReturnedFrom(b, trace);
    RunsTraced(b, trace, |trace| - 1);
    RunsWent(b, trace, |trace| - 1);
    var vm := trace[|trace| - 1];
    EndedAsTold(b, vm, vm.status.ok, vm.status.ctx);
  }

  /** Main result: while a run is under way, no stop so far ended the job, but for one still being dealt with. */
  lemma UnderWay(b: Battle, trace: seq<Vm>, i: nat)
    requires Runs(b, trace) && i < |trace| && trace[i].status.Running?
    ensures forall k | 0 < k < trace[i].runs :: EndingAt(b, k) == GoesOn
    ensures trace[i].pc == 14 && trace[i].runs > 0 ==> EndingAt(b, trace[i].runs) == GoesOn
  {
    hide Runs, EndingAt;
    RunStarts(b, trace);
    RunsWent(b, trace, i);
  }

  // ---------------------------------------------------------------- a run that hangs

  lemma ReadersEnd(setup: Setup, vm: Vm)
    ensures vm.status.Running? ==>
              && !ArmPreds(setup, vm).status.Hung? && !Eval(setup, vm).status.Hung? && !ApplyFrames(vm).status.Hung?
              && !CaptureInto(setup, vm).status.Hung? && !RunTo(setup, vm).status.Hung?
  {
    hide Verdicts, TallyOf, Tallied, Strays, PredKeys, FramesIn, Get32, CaptureAll, CaptureStrays, HitKey;
  }

  lemma OnlyBuild(short: u32, long: u32, pc: nat)
    requires pc < LENGTH
    ensures OpAt(pc, short, long).BuildTurnInputPlan? ==> pc == 8
  {
  }

  lemma OthersEnd(b: Battle, vm: Vm, after: Vm)
    requires b.Valid() && BattleStep(b, vm, after) && vm.pc < LENGTH && vm.status.Running? && after.status.Hung?
    requires !IsJump(OpAt(vm.pc, b.short, b.long))
    ensures OpAt(vm.pc, b.short, b.long).BuildTurnInputPlan?
  {
    hide OpAt, ArmPreds, Eval, ApplyFrames, Build, RunTo, CaptureInto, GetU32, Wrap32, EnvOf, Decodes;
    ReadersEnd(b.setup, vm);
  }

  lemma HangsAtBuild(b: Battle, vm: Vm, after: Vm)
    requires b.Valid() && BattleStep(b, vm, after) && vm.pc < LENGTH && vm.status.Running? && after.status.Hung?
    ensures vm.pc == 8
  {
    hide OpAt, BattleStep;
    OnlyBuild(b.short, b.long, vm.pc);
    if IsJump(OpAt(vm.pc, b.short, b.long)) { JumpMoves(b, vm, after); } else { OthersEnd(b, vm, after); }
  }

  lemma HungIs(b: Battle, vm: Vm, after: Vm)
    requires StepFrom(b, vm, after, 8) && after.status.Hung?
    ensures b.Valid() && vm.runs > 0 && after.runs == vm.runs && Settled(b, vm) && Turn(vm.ctx) <= b.Turns()
    ensures 1 <= Turn(vm.ctx) && b.job.path[Turn(vm.ctx) - 1].fakeAttackCount > 255
  {
    hide StepFrom, Common, Before, Played, Settled, Kept, BuiltFine, Build, BuildsAs;
    StartsBuild(b, vm, after);
    BeforeParts(b, vm);
    BuildCases(b, vm, after);
    BuildHung(b, vm, after);
  }

  lemma BuildHung(b: Battle, vm: Vm, after: Vm)
    requires 1 <= Turn(vm.ctx) && BuildsAs(b, vm, after) && vm.status.Running? && after.status.Hung?
    ensures after.runs == vm.runs && Turn(vm.ctx) <= b.Turns() && b.job.path[Turn(vm.ctx) - 1].fakeAttackCount > 255
  {
    hide WriteTurn, WithPlan, Failed, Counted32, Blank;
  }

  /** Main result: a run that hangs does so in the turn its last stop began. */
  lemma RunsHangAsTold(b: Battle, trace: seq<Vm>)
    requires Runs(b, trace) && trace != [] && trace[|trace| - 1].status.Hung?
    ensures b.Valid()
    ensures var run := trace[|trace| - 1].runs;
            run > 0 && EndingAt(b, run) == Hangs && forall k | 0 < k < run :: EndingAt(b, k) == GoesOn
  {
    hide Runs, StepFrom, Traced, Went, EndingAt, BattleStep, Common, Zone;
    RunStarts(b, trace);
    HungLater(b, trace);
    HungBefore(b, trace);
    var n := |trace| - 1;
    OneOperation(b, trace, n - 1);
    HungAtBuild(b, trace[n - 1], trace[n]);
    HungAt(b, trace[n - 1], trace[n]);
  }

  lemma HungAtBuild(b: Battle, vm: Vm, after: Vm)
    requires StepFrom(b, vm, after, vm.pc) && after.status.Hung?
    ensures StepFrom(b, vm, after, 8)
  {
    hide StepFrom, BattleStep, Common, Zone;
    FromInProgram(b, vm, after);
    HangsAtBuild(b, vm, after);
  }

  /** Before the last operation of a run that hangs. */
  lemma HungBefore(b: Battle, trace: seq<Vm>)
    requires Runs(b, trace) && |trace| >= 2
    ensures b.Valid()
    ensures var vm := trace[|trace| - 2]; Traced(b, vm) && forall k | 0 < k < vm.runs :: EndingAt(b, k) == GoesOn
  {
    hide Runs, EndingAt, Traced, StepFrom;
    RunStarts(b, trace);
    StillRunning(b, trace, |trace| - 2);
    RunsWent(b, trace, |trace| - 2);
    RunsTraced(b, trace, |trace| - 2);
  }

  lemma HungLater(b: Battle, trace: seq<Vm>)
    requires Runs(b, trace) && trace != [] && trace[|trace| - 1].status.Hung?
    ensures |trace| >= 2
  {
    RunStarts(b, trace);
    hide Runs, JobContext;
  }

  lemma HungAt(b: Battle, vm: Vm, after: Vm)
    requires StepFrom(b, vm, after, 8) && after.status.Hung? && Traced(b, vm)
    ensures b.Valid() && vm.runs > 0 && after.runs == vm.runs && EndingAt(b, vm.runs) == Hangs
  {
    HungIs(b, vm, after);
    hide StepFrom, EndingAt, Settled, Leads, Flawless;
    TracedJudged(b, vm);
    SettledFlawless(b, vm);
    ByTurn(b, vm.runs);
    HungTurn(b, vm);
  }

  lemma HungTurn(b: Battle, vm: Vm)
    requires b.Valid() && Traced(b, vm) && vm.pc == 8 && 1 <= Turn(vm.ctx) <= b.Turns() && vm.runs > 0
    requires b.job.path[Turn(vm.ctx) - 1].fakeAttackCount > 255
    ensures NextTurn(b, vm.runs) == Hangs
  {
    hide Judgements, Words, Seen, Battles, Advances, WriteTurn, Blank;
  }
}
