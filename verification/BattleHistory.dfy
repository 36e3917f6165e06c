/** What a run remembers of the hits before it: how many turns they began, the captured baselines, the battles read.
    All of it is a function of what the host reported. */
module BattleHistory {
  import opened Bytes
  import opened ActionTypes
  import opened ScriptContext
  import opened PlanWriter
  import opened PredicateEval
  import opened ScriptVm
  import opened BattleProgram
  import opened BattleRuns
  import opened BattleSteps
  import opened BattleFlow

  // ---------------------------------------------------------------- the history of a host

  /** Whether a clean hit begins the next turn, when that many turns have begun. */
  predicate LeadsOn(hit: u32, turn: nat, last: nat) {
    hit == BP_LOAD_COMPLETE || (hit == BP_ACCEPT_INPUT && turn < last)
  }

  /** The turns begun by the first runs of the game. */
  ghost function Advances(b: Battle, run: nat): nat
    requires b.Valid()
  {
    if run == 0 then 0
    else
      var before := Advances(b, run - 1);
      if LeadsOn(HitOf(b, run), before, b.Turns()) then before + 1 else before
  }

  ghost predicate Leads(b: Battle, run: nat)
    requires b.Valid() && run > 0
  {
    LeadsOn(HitOf(b, run), Advances(b, run - 1), b.Turns())
  }

  /** The baselines after the first runs: those of the job, captured anew at every hit that began a turn. */
  ghost function BaselinesAt(b: Battle, run: nat): (words: seq<u8>)
    requires b.Valid()
    ensures |words| == |b.job.baselines|
  {
    if run == 0 then b.job.baselines
    else
      var before := BaselinesAt(b, run - 1);
      if Leads(b, run) then CaptureAll(b.setup.events(run - 1).env, b.job.predCount, b.job.predTable, before) else before
  }

  /** The battle last read at a hit that began a turn; a hit whose battle cannot be read leaves the earlier one. */
  ghost function Seen(b: Battle, run: nat): BattleContext
    requires b.Valid()
  {
    if run == 0 then EMPTY_BATTLE
    else
      var battle := b.setup.events(run - 1).env.battle;
      if Leads(b, run) && battle.Some? then b.setup.decode(b.setup.encode(battle.value)) else Seen(b, run - 1)
  }

  /** The battle each turn begins in. */
  ghost function Battles(b: Battle, run: nat): (battles: seq<BattleContext>)
    requires b.Valid()
    ensures |battles| == Advances(b, run)
  {
    if run == 0 then [] else if Leads(b, run) then Battles(b, run - 1) + [Seen(b, run)] else Battles(b, run - 1)
  }

  /** Evaluation k belongs to the k-th run of the game (from 1) and judges every record on the game as it stood at that
      hit, with the baselines captured before. */
  ghost predicate EvaluatedAt(b: Battle, k: nat, e: Evaluation)
    requires b.Valid()
  {
    && e.run == k + 1
    && e.verdicts == if b.job.predCount == 0 || HitOf(b, k + 1) == 0 then []
                     else Verdicts(b.setup.events(k).env, b.job.predCount, b.job.predTable, BaselinesAt(b, k), HitOf(b, k + 1))
  }

  // ---------------------------------------------------------------- the machine agrees with the history

  /** Between a run of the game and the decision what it leads to. */
  predicate InRound(pc: nat) { 15 <= pc <= 28 || pc in {32, 34, 36, 40} }

  function Clock(runs: nat, behind: bool): nat { if behind && runs > 0 then runs - 1 else runs }

  ghost predicate Words(b: Battle, ctx: Context, run: nat)
    requires b.Valid()
  {
    Has(ctx, PRED_BASELINES, Str(BaselinesAt(b, run)))
  }

  ghost predicate Begins(b: Battle, pc: nat, runs: nat)
    requires b.Valid()
  {
    27 <= pc <= 30 || pc in {7, 8, 9, 10, 11, 38} ==> runs > 0 && Leads(b, runs)
  }

  ghost predicate Judgements(b: Battle, evaluations: seq<Evaluation>)
    requires b.Valid()
  {
    forall k | 0 <= k < |evaluations| :: EvaluatedAt(b, k, evaluations[k])
  }

  /** Baselines, turn and battle as after that many runs of the game each. */
  ghost predicate Knows(b: Battle, vm: Vm, words: nat, turns: nat, seen: nat)
    requires b.Valid()
  {
    && Words(b, vm.ctx, words) && Turn(vm.ctx) == Advances(b, turns) && Blank(vm, b.setup) == Seen(b, seen)
    && vm.built <= Battles(b, vm.runs) && Judgements(b, vm.evaluations)
  }

  ghost predicate Traced(b: Battle, vm: Vm)
    requires b.Valid()
  {
    && Begins(b, vm.pc, vm.runs)
    && Knows(b, vm, Clock(vm.runs, InRound(vm.pc) || vm.pc == 29), Clock(vm.runs, InRound(vm.pc)),
             Clock(vm.runs, InRound(vm.pc) || vm.pc in {7, 29, 30}))
  }

  /** Nothing of the history moved. */
  ghost predicate Still(vm: Vm, after: Vm) {
    && after.runs == vm.runs && after.built == vm.built && after.evaluations == vm.evaluations
    && Leaves(vm.ctx, after.ctx)
  }

  ghost predicate Leaves(ctx: Context, after: Context) {
    Same(ctx, after, PRED_BASELINES) && Same(ctx, after, ACTIVE_TURN) && Same(ctx, after, CTX_BLOB)
  }

  predicate SameClocks(p: nat, q: nat) {
    InRound(p) == InRound(q) && (p == 29 <==> q == 29) && (p in {7, 30} <==> q in {7, 30})
  }

  lemma StillTraced(b: Battle, vm: Vm, after: Vm)
    requires b.Valid() && Traced(b, vm) && Still(vm, after) && SameClocks(vm.pc, after.pc) && Begins(b, after.pc, after.runs)
    ensures Traced(b, after)
  {
    hide BaselinesAt, Advances, Seen, Battles, Judgements, InRound, Begins;
  }

  // ---------------------------------------------------------------- the operations that leave the history alone

  predicate Idle(op: PsOp) {
    || op.ArmPhaseBps? || op.ArmBpsFromPredTable? || op.LoadSnapshot? || op.ApplyInputFrom? || op.Label?
    || op.RecordProgressAtBp? || op.SetTimeout? || op.ApplyInputPlanFrames?
  }

  lemma AppliedStill(vm: Vm)
    ensures vm.status.Running? ==> Still(vm, ApplyFrames(vm)) && forall setup :: Still(vm, ArmPreds(setup, vm))
  {
    hide FramesIn, Get32, PredKeys, GetU32;
  }

  lemma IdleStill(b: Battle, vm: Vm, after: Vm)
    requires b.Valid() && BattleStep(b, vm, after) && vm.pc < LENGTH && vm.status.Running? && Idle(OpAt(vm.pc, b.short, b.long))
    ensures Still(vm, after)
  {
    AppliedStill(vm);
    hide OpAt, ApplyFrames, ArmPreds;
  }

  lemma JumpStill(b: Battle, vm: Vm, after: Vm)
    requires b.Valid() && BattleStep(b, vm, after) && vm.pc < LENGTH && IsJump(OpAt(vm.pc, b.short, b.long))
    ensures Still(vm, after)
  {
    JumpMoves(b, vm, after);
    hide BattleStep, Follows, OpAt;
  }

  // ---------------------------------------------------------------- the operations that move it

  lemma BattlesGrow(b: Battle, run: nat)
    requires b.Valid()
    ensures Battles(b, run) <= Battles(b, run + 1)
  {
    hide Leads, Seen;
  }

  /** A run of the game. */
  lemma RunTraced(b: Battle, vm: Vm)
    requires b.Valid() && Traced(b, vm) && vm.pc == 14 && vm.status.Running?
    ensures Traced(b, RunTo(b.setup, vm))
  {
    BattlesGrow(b, vm.runs);
    RunStill(b, vm);
    hide BaselinesAt, Advances, Seen, Battles, Judgements, RunTo, Turn, Blank;
  }

  lemma RunStill(b: Battle, vm: Vm)
    ensures var after := RunTo(b.setup, vm);
            && after.pc == vm.pc + 1 && after.runs == vm.runs + 1 && after.built == vm.built && after.evaluations == vm.evaluations
            && Same(vm.ctx, after.ctx, PRED_BASELINES) && Turn(after.ctx) == Turn(vm.ctx) && Blank(after, b.setup) == Blank(vm, b.setup)
  {
    hide HitKey;
  }

  /** An evaluation: of the last run, on the baselines captured before it. */
  lemma EvalTraced(b: Battle, vm: Vm, after: Vm)
    requires StepFrom(b, vm, after, 16) && Traced(b, vm) && after.status.Running?
    ensures Traced(b, after)
  {
    hide StepFrom, BaselinesAt, Advances, Seen, Battles, EvaluatedAt, Judgements, Turn, Blank, HitOf, Verdicts;
    EvalAppends(b, vm, after);
    EvaluationFits(b, vm, after.evaluations[|vm.evaluations|]);
    Extended(b, vm.evaluations, after.evaluations);
  }

  lemma Extended(b: Battle, evaluations: seq<Evaluation>, more: seq<Evaluation>)
    requires b.Valid() && Judgements(b, evaluations) && |more| == |evaluations| + 1 && more[..|evaluations|] == evaluations
    requires EvaluatedAt(b, |evaluations|, more[|evaluations|])
    ensures Judgements(b, more)
  {
    hide EvaluatedAt;
    assert forall k | 0 <= k < |evaluations| :: more[..|evaluations|][k] == more[k];
  }

  lemma EvaluationFits(b: Battle, vm: Vm, e: Evaluation)
    requires b.Valid() && Traced(b, vm) && vm.pc == 16 && vm.runs > 0 && |vm.evaluations| == vm.runs - 1 && e.run == vm.runs
    requires PRED_BASELINES in vm.ctx && vm.ctx[PRED_BASELINES].Str? && |vm.ctx[PRED_BASELINES].bytes| == |b.job.baselines|
    requires e.verdicts == if b.job.predCount == 0 || HitOf(b, vm.runs) == 0 then []
                           else Verdicts(b.setup.events(vm.runs - 1).env, b.job.predCount, b.job.predTable, vm.ctx[PRED_BASELINES].bytes, HitOf(b, vm.runs))
    ensures EvaluatedAt(b, |vm.evaluations|, e)
  {
    hide Verdicts, HitOf, BaselinesAt, Advances, Seen, Battles, Blank;
  }

  lemma EvalAppends(b: Battle, vm: Vm, after: Vm)
    requires StepFrom(b, vm, after, 16) && after.status.Running?
    ensures b.Valid() && vm.pc == 16 && vm.runs > 0 && |vm.evaluations| == vm.runs - 1 && after.pc == 17
    ensures after.runs == vm.runs && after.built == vm.built
    ensures Same(vm.ctx, after.ctx, PRED_BASELINES) && Turn(after.ctx) == Turn(vm.ctx) && Blank(after, b.setup) == Blank(vm, b.setup)
    ensures PRED_BASELINES in vm.ctx && vm.ctx[PRED_BASELINES].Str? && |vm.ctx[PRED_BASELINES].bytes| == |b.job.baselines|
    ensures |after.evaluations| == vm.runs && after.evaluations[..vm.runs - 1] == vm.evaluations && after.evaluations[vm.runs - 1].run == vm.runs
    ensures after.evaluations[vm.runs - 1].verdicts ==
            if b.job.predCount == 0 || HitOf(b, vm.runs) == 0 then []
            else Verdicts(b.setup.events(vm.runs - 1).env, b.job.predCount, b.job.predTable, vm.ctx[PRED_BASELINES].bytes, HitOf(b, vm.runs))
  {
    hide Common, BattleStep, Step, Eval, HitOf, DwOf, Verdicts, Strays, TallyOf, Played, NoneFailed;
    hide Kept;
    SimpleOps(b, vm, after);
    RanParts(b, vm);
    CommonKept(b, vm);
    EvalTallies(b, vm);
  }

  /** The next turn begins. */
  lemma AdvanceTraced(b: Battle, vm: Vm, after: Vm)
    requires StepFrom(b, vm, after, 28) && Traced(b, vm)
    ensures Traced(b, after)
  {
    hide StepFrom, BaselinesAt, Seen, Battles, Judgements, Turn, Blank, HitOf;
    AdvanceMoves(b, vm, after);
  }

  lemma AdvanceMoves(b: Battle, vm: Vm, after: Vm)
    requires StepFrom(b, vm, after, 28)
    ensures b.Valid() && vm.pc == 28 && vm.runs > 0 && after.pc == 29 && Turn(after.ctx) == Turn(vm.ctx) + 1
    ensures after.runs == vm.runs && after.built == vm.built && after.evaluations == vm.evaluations
    ensures Same(vm.ctx, after.ctx, PRED_BASELINES) && Blank(after, b.setup) == Blank(vm, b.setup)
  {
    hide Common, BattleStep, Step, HitOf, DwOf, Played, NoneFailed;
    SimpleOps(b, vm, after);
    CommonKept(b, vm);
    assert Kept(b, vm.ctx) && BattleRuns.Running(b, vm);
    hide Kept;
    AdvanceChanges(b, vm);
  }

  /** Capturing: the words of the history. */
  lemma CaptureTraced(b: Battle, vm: Vm, after: Vm)
    requires StepFrom(b, vm, after, 29) && Traced(b, vm) && after.status.Running?
    ensures Traced(b, after)
  {
    hide StepFrom, Advances, BaselinesAt, Seen, Battles, Judgements, Turn, Blank, HitOf, CaptureAll, Leads;
    CaptureMoves(b, vm, after);
    WordsCaptured(b, vm.runs);
  }

  lemma WordsCaptured(b: Battle, run: nat)
    requires b.Valid() && run > 0 && Leads(b, run)
    ensures BaselinesAt(b, run) == CaptureAll(b.setup.events(run - 1).env, b.job.predCount, b.job.predTable, BaselinesAt(b, run - 1))
  {
    hide CaptureAll, Leads;
  }

  lemma CaptureMoves(b: Battle, vm: Vm, after: Vm)
    requires StepFrom(b, vm, after, 29) && after.status.Running?
    ensures b.Valid() && vm.pc == 29 && vm.runs > 0 && after.pc == 30 && Turn(after.ctx) == Turn(vm.ctx)
    ensures after.runs == vm.runs && after.built == vm.built && after.evaluations == vm.evaluations
    ensures Blank(after, b.setup) == Blank(vm, b.setup)
    ensures PRED_BASELINES in vm.ctx && vm.ctx[PRED_BASELINES].Str? && |vm.ctx[PRED_BASELINES].bytes| == |b.job.baselines|
    ensures var env := b.setup.events(vm.runs - 1).env;
            Has(after.ctx, PRED_BASELINES, Str(CaptureAll(env, b.job.predCount, b.job.predTable, vm.ctx[PRED_BASELINES].bytes)))
  {
    CaptureOp(b, vm, after);
    hide StepFrom, CaptureInto;
    CaptureWords(b, vm, after);
  }

  lemma CaptureOp(b: Battle, vm: Vm, after: Vm)
    requires StepFrom(b, vm, after, 29)
    ensures b.Valid() && vm.pc == 29 && vm.status.Running? && vm.runs > 0 && Kept(b, vm.ctx) && after == CaptureInto(b.setup, vm)
  {
    hide StepFrom, Common, Zone, BattleStep, Step, CaptureInto, Kept;
    StepParts(b, vm, after, 29);
    CapturePlace(b, vm);
    CaptureStep29(b, vm, after);
    CommonKept(b, vm);
  }

  lemma CaptureStep29(b: Battle, vm: Vm, after: Vm)
    requires b.Valid() && vm.pc == 29 && BattleStep(b, vm, after)
    ensures after == CaptureInto(b.setup, vm)
  {
    hide CaptureInto;
  }

  lemma CapturePlace(b: Battle, vm: Vm)
    requires b.Valid() && Zone(b, vm) && vm.pc == 29
    ensures vm.runs > 0
  {
    hide Played, Settled;
  }

  lemma CaptureWords(b: Battle, vm: Vm, after: Vm)
    requires b.Valid() && vm.status.Running? && vm.runs > 0 && Kept(b, vm.ctx) && after == CaptureInto(b.setup, vm) && after.status.Running?
    ensures after.pc == vm.pc + 1 && Turn(after.ctx) == Turn(vm.ctx) && Blank(after, b.setup) == Blank(vm, b.setup)
    ensures after.runs == vm.runs && after.built == vm.built && after.evaluations == vm.evaluations
    ensures PRED_BASELINES in vm.ctx && vm.ctx[PRED_BASELINES].Str? && |vm.ctx[PRED_BASELINES].bytes| == |b.job.baselines|
    ensures var env := b.setup.events(vm.runs - 1).env;
            Has(after.ctx, PRED_BASELINES, Str(CaptureAll(env, b.job.predCount, b.job.predTable, vm.ctx[PRED_BASELINES].bytes)))
  {
    CaptureCases(b, vm);
    hide CaptureInto, CaptureStrays, Captured, PutWord;
  }

  /** Reading the battle. */
  lemma ContextTraced(b: Battle, vm: Vm, after: Vm)
    requires StepFrom(b, vm, after, 7) && Traced(b, vm)
    ensures Traced(b, after)
  {
    hide StepFrom, Advances, BaselinesAt, Battles, Judgements, Turn, Blank, HitOf, Leads;
    ContextMoves(b, vm, after);
  }

  lemma ContextMoves(b: Battle, vm: Vm, after: Vm)
    requires StepFrom(b, vm, after, 7)
    ensures b.Valid() && vm.pc == 7 && vm.runs > 0 && after.pc == 8 && Turn(after.ctx) == Turn(vm.ctx)
    ensures after.runs == vm.runs && after.built == vm.built && after.evaluations == vm.evaluations && Same(vm.ctx, after.ctx, PRED_BASELINES)
    ensures var battle := b.setup.events(vm.runs - 1).env.battle;
            Blank(after, b.setup) == if battle.Some? then b.setup.decode(b.setup.encode(battle.value)) else Blank(vm, b.setup)
  {
    hide Common, Played, Settled;
  }

  /** Building a turn: in the battle just read. */
  lemma BuildTraced(b: Battle, vm: Vm, after: Vm)
    requires StepFrom(b, vm, after, 8) && Traced(b, vm) && after.status.Running?
    ensures Traced(b, after)
  {
    hide StepFrom, Advances, BaselinesAt, Judgements, Turn, Blank, HitOf, Seen, Leads, Battles;
    BuildMoves(b, vm, after);
    if after.built != vm.built { BuiltNext(b, vm); }
  }

  lemma BuiltNext(b: Battle, vm: Vm)
    requires b.Valid() && Traced(b, vm) && vm.pc == 8 && |vm.built| == Turn(vm.ctx) - 1
    ensures vm.built + [Blank(vm, b.setup)] <= Battles(b, vm.runs)
  {
    hide BaselinesAt, Judgements, Turn, Blank, HitOf, Seen;
  }

  lemma BuildMoves(b: Battle, vm: Vm, after: Vm)
    requires StepFrom(b, vm, after, 8) && after.status.Running?
    ensures b.Valid() && vm.pc == 8 && vm.runs > 0 && after.pc == 9 && Turn(after.ctx) == Turn(vm.ctx) && |vm.built| == Turn(vm.ctx) - 1
    ensures after.runs == vm.runs && (after.built == vm.built || after.built == vm.built + [Blank(vm, b.setup)])
    ensures after.evaluations == vm.evaluations && Same(vm.ctx, after.ctx, PRED_BASELINES) && Blank(after, b.setup) == Blank(vm, b.setup)
  {
    StartsBuild(b, vm, after);
    BeforeParts(b, vm);
    hide StepFrom, Common, Before, Played, Settled, Kept, BuiltFine, Build;
    BuildCases(b, vm, after);
    hide BuildsAs;
    BuildLeaves(b, vm, after);
  }

  lemma BuildLeaves(b: Battle, vm: Vm, after: Vm)
    requires 1 <= Turn(vm.ctx) && BuildsAs(b, vm, after) && after.status.Running?
    ensures after.pc == vm.pc + 1 && after.runs == vm.runs && after.evaluations == vm.evaluations && Leaves(vm.ctx, after.ctx)
    ensures after.built == vm.built || after.built == vm.built + [Blank(vm, b.setup)]
  {
    PlansLeave(vm.ctx);
    hide WriteTurn, WithPlan, Failed, Counted32, Blank, Leaves;
  }

  lemma PlansLeave(ctx: Context)
    ensures forall frames: seq<InputFrame> | |frames| < 0x1_0000_0000 :: Leaves(ctx, WithPlan(ctx, frames))
    ensures forall e :: Leaves(ctx, Failed(ctx, e))
  {
    hide FramesBytes, Le32;
  }

  lemma StartTraced(b: Battle, vm: Vm, after: Vm)
    requires StepFrom(b, vm, after, 3) && Traced(b, vm)
    ensures Traced(b, after)
  {
    StartMoves(b, vm, after);
    hide StepFrom, BaselinesAt, Battles, Judgements, Turn, Blank, Seen;
  }

  lemma StartMoves(b: Battle, vm: Vm, after: Vm)
    requires StepFrom(b, vm, after, 3)
    ensures b.Valid() && vm.pc == 3 && vm.runs == 0 && after.pc == 4 && Turn(after.ctx) == 0
    ensures after.runs == vm.runs && after.built == vm.built && after.evaluations == vm.evaluations
    ensures Same(vm.ctx, after.ctx, PRED_BASELINES) && Blank(after, b.setup) == Blank(vm, b.setup)
  {
    hide Common, Holding;
  }

  // ---------------------------------------------------------------- the decisions

  /** A hit that begins no turn leaves the history as it is. */
  lemma NoLead(b: Battle, run: nat)
    requires b.Valid() && run > 0 && !Leads(b, run)
    ensures BaselinesAt(b, run) == BaselinesAt(b, run - 1) && Advances(b, run) == Advances(b, run - 1) && Seen(b, run) == Seen(b, run - 1)
  {
    hide HitOf;
  }

  lemma NotYetTraced(b: Battle, vm: Vm, after: Vm)
    requires StepFrom(b, vm, after, 23) && Traced(b, vm)
    ensures Traced(b, after)
  {
    hide StepFrom, BaselinesAt, Battles, Judgements, Turn, Seen, Advances, HitOf;
    NotYetMoves(b, vm, after);
    assert Knows(b, vm, vm.runs - 1, vm.runs - 1, vm.runs - 1);
    if after.pc == 14 { NoLead(b, vm.runs); } else { StillTraced(b, vm, after); }
  }

  lemma NotYetMoves(b: Battle, vm: Vm, after: Vm)
    requires StepFrom(b, vm, after, 23)
    ensures b.Valid() && vm.pc == 23 && vm.runs > 0 && after == vm.(pc := after.pc) && after.pc in {14, 24}
    ensures after.pc == 14 ==> HitOf(b, vm.runs) != BP_ACCEPT_INPUT && HitOf(b, vm.runs) != BP_LOAD_COMPLETE
  {
    hide Common, BattleStep, Step, BattleRuns.Running;
    GotoIfGoes(b, vm, after, RUN_HIT_BP_KEY, NE, BP_ACCEPT_INPUT, RunTurn);
    RunningShows(b, vm);
  }

  lemma LoadTraced(b: Battle, vm: Vm, after: Vm)
    requires StepFrom(b, vm, after, 21) && Traced(b, vm)
    ensures Traced(b, after)
  {
    LoadMoves(b, vm, after);
    hide StepFrom, Knows, HitOf, Advances;
    hide Traced;
    StillTraced(b, vm, after);
  }

  lemma LoadMoves(b: Battle, vm: Vm, after: Vm)
    requires StepFrom(b, vm, after, 21)
    ensures b.Valid() && vm.pc == 21 && vm.runs > 0 && after == vm.(pc := after.pc) && after.pc in {22, 27}
    ensures after.pc == 27 ==> HitOf(b, vm.runs) == BP_LOAD_COMPLETE
  {
    hide Common, BattleStep, Step, BattleRuns.Running;
    GotoIfGoes(b, vm, after, RUN_HIT_BP_KEY, EQ, BP_LOAD_COMPLETE, Adv);
    RunningShows(b, vm);
  }

  lemma LastTraced(b: Battle, vm: Vm, after: Vm)
    requires StepFrom(b, vm, after, 24) && Traced(b, vm)
    ensures Traced(b, after)
  {
    LastMoves(b, vm, after);
    assert Turn(vm.ctx) == Advances(b, vm.runs - 1) by { hide Words, Judgements, Battles; }
    hide StepFrom, Knows, HitOf, Advances, Turn;
    hide Traced;
    StillTraced(b, vm, after);
  }

  lemma LastMoves(b: Battle, vm: Vm, after: Vm)
    requires StepFrom(b, vm, after, 24)
    ensures b.Valid() && vm.pc == 24 && vm.runs > 0 && after == vm.(pc := after.pc) && after.pc in {25, 27}
    ensures after.pc == 27 ==> HitOf(b, vm.runs) == BP_ACCEPT_INPUT && Turn(vm.ctx) < b.Turns()
  {
    hide Common, BattleStep, Step, BattleRuns.Running;
    GotoIfKeysGoes(b, vm, after);
    CommonKept(b, vm);
  }

  /** Everything else. */
  predicate Quietly(pc: nat) {
    pc < LENGTH && pc !in {3, 6, 7, 8, 12, 13, 14, 16, 21, 23, 24, 25, 26, 28, 29, 31, 32, 33, 34, 35, 36, 37, 38, 39, 40}
  }

  lemma QuietPlaces(short: u32, long: u32, pc: nat, next: nat)
    requires Quietly(pc) && Follows(short, long, pc, next) && next != 12
    ensures SameClocks(pc, next) && (27 <= next <= 30 || next in {7, 8, 9, 10, 11, 38} ==> pc in {9, 10, 27, 30})
    ensures IsJump(OpAt(pc, short, long)) || Idle(OpAt(pc, short, long))
  {
  }

  lemma QuietTraced(b: Battle, vm: Vm, after: Vm)
    requires StepFrom(b, vm, after, vm.pc) && Traced(b, vm) && after.status.Running? && Quietly(vm.pc)
    ensures Traced(b, after)
  {
    hide Common, Zone, Step, Knows, HitOf, Advances, Turn, OpAt, Follows, SameClocks;
    PcMoves(b, vm, after);
    if vm.pc == 11 { StepPlanDone(b, vm, after); } else { OnlyTwelve(b.short, b.long, vm.pc, after.pc); }
    QuietPlaces(b.short, b.long, vm.pc, after.pc);
    if IsJump(OpAt(vm.pc, b.short, b.long)) { JumpStill(b, vm, after); } else { IdleStill(b, vm, after); }
    hide BattleStep;
    assert Begins(b, after.pc, after.runs);
    hide Traced;
    StillTraced(b, vm, after);
  }

  lemma OnlyTwelve(short: u32, long: u32, pc: nat, next: nat)
    requires Quietly(pc) && Follows(short, long, pc, next) && pc != 11
    ensures next != 12
  {
  }

  /** Main lemma: every operation keeps the machine in agreement with the history. */
  lemma TracedKeeps(b: Battle, vm: Vm, after: Vm)
    requires StepFrom(b, vm, after, vm.pc) && Traced(b, vm) && after.status.Running?
    ensures Traced(b, after)
  {
    LivePlace(b, vm, after);
    hide StepFrom, Traced;
    if vm.pc == 3 { StartTraced(b, vm, after); }
    else if vm.pc == 7 { ContextTraced(b, vm, after); }
    else if vm.pc == 8 { BuildTraced(b, vm, after); }
    else if vm.pc == 14 { RunStepTraced(b, vm, after); }
    else if vm.pc == 16 { EvalTraced(b, vm, after); }
    else if vm.pc == 21 { LoadTraced(b, vm, after); }
    else if vm.pc == 23 { NotYetTraced(b, vm, after); }
    else if vm.pc == 24 { LastTraced(b, vm, after); }
    else if vm.pc == 28 { AdvanceTraced(b, vm, after); }
    else if vm.pc == 29 { CaptureTraced(b, vm, after); }
    else { QuietTraced(b, vm, after); }
  }

  lemma LivePlace(b: Battle, vm: Vm, after: Vm)
    requires StepFrom(b, vm, after, vm.pc) && after.status.Running?
    ensures vm.pc in {3, 7, 8, 14, 16, 21, 23, 24, 28, 29} || Quietly(vm.pc)
  {
    PlacesLive(b, vm);
    if vm.pc in {25, 32, 34, 36, 38, 40} { StepReturn(b, vm, after); }
    hide Zone, Common, BattleStep;
  }

  lemma RunStepTraced(b: Battle, vm: Vm, after: Vm)
    requires StepFrom(b, vm, after, 14) && Traced(b, vm)
    ensures Traced(b, after)
  {
    hide Common, BattleRuns.Running, RunTo, Step, Knows;
    SimpleOps(b, vm, after);
    RunTraced(b, vm);
  }
}
