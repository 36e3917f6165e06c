/** Every operation of the battle program keeps what holds at its place. */
module BattleSteps {
  import opened Bytes
  import opened ActionTypes
  import opened ScriptContext
  import opened PredicatePacking
  import opened PayloadCodec
  import opened PlanWriter
  import opened PredicateEval
  import opened ScriptVm
  import opened BattleProgram
  import opened BattleRuns

  /** A step from a good machine at the given place. */
  ghost predicate StepFrom(b: Battle, vm: Vm, after: Vm, pc: nat) {
    b.Valid() && vm.status.Running? && vm.pc == pc && Common(b, vm) && Zone(b, vm) && BattleStep(b, vm, after)
  }

  lemma StepParts(b: Battle, vm: Vm, after: Vm, pc: nat)
    requires StepFrom(b, vm, after, pc)
    ensures b.Valid() && vm.status.Running? && vm.pc == pc && Common(b, vm) && Zone(b, vm) && BattleStep(b, vm, after)
  {
    hide Common, Zone, BattleStep;
  }

  // ---------------------------------------------------------------- places

  lemma PlacesLive(b: Battle, vm: Vm)
    requires b.Valid() && Zone(b, vm)
    ensures vm.pc <= 5 || 7 <= vm.pc <= 11 || 14 <= vm.pc <= 25 || 27 <= vm.pc <= 30 || vm.pc in {32, 34, 36, 38, 40}
  {
    hide Fresh, Before, JustBuilt, BattleRuns.Running, Ran, Evaluated, HitFits;
  }

  // ---------------------------------------------------------------- what other changes leave alone

  /** The same plans and frames, and the same stored plan. */
  ghost predicate SamePlans(vm: Vm, after: Vm) {
    && after.built == vm.built && after.stepped == vm.stepped
    && (INPUTPLAN in after.ctx <==> INPUTPLAN in vm.ctx) && (INPUTPLAN in vm.ctx ==> after.ctx[INPUTPLAN] == vm.ctx[INPUTPLAN])
    && (INPUTPLAN_FRAME_COUNT in after.ctx <==> INPUTPLAN_FRAME_COUNT in vm.ctx)
    && (INPUTPLAN_FRAME_COUNT in vm.ctx ==> after.ctx[INPUTPLAN_FRAME_COUNT] == vm.ctx[INPUTPLAN_FRAME_COUNT])
  }

  lemma PlayedSame(b: Battle, vm: Vm, after: Vm, t: nat)
    requires SamePlans(vm, after)
    ensures Played(b, after, t) <==> Played(b, vm, t)
  {
    hide Planned, WrittenFor, Continues, FramesBytes;
  }

  ghost predicate Same(c: Context, d: Context, k: KeyId) {
    (k in c <==> k in d) && (k in c ==> c[k] == d[k])
  }

  /** The keys of the job, the predicates and the last hit are as they were. */
  ghost predicate Untouched(c: Context, d: Context) {
    && Same(c, d, LAST_TURN) && Same(c, d, TURN_PLANS) && Same(c, d, PRED_COUNT) && Same(c, d, PRED_TABLE)
    && Same(c, d, PRED_BASELINES) && Same(c, d, INITIAL_INPUT) && Same(c, d, ACTIVE_TURN)
    && Same(c, d, PRED_ALL_PASSED) && Same(c, d, PRED_FIRST_FAILED)
    && Same(c, d, DW_RUN_OUTCOME_CODE) && Same(c, d, RUN_HIT_BP_KEY)
  }

  /** Only the context changed, and none of those keys. */
  ghost predicate Quiet(vm: Vm, after: Vm) {
    && Untouched(vm.ctx, after.ctx) && after.predKeys == vm.predKeys && after.evaluations == vm.evaluations
    && after.runs == vm.runs && vm.pc >= 2 && after.pc >= 2
  }

  lemma QuietKeeps(b: Battle, vm: Vm, after: Vm)
    requires b.Valid() && Common(b, vm) && Quiet(vm, after)
    ensures Common(b, after) && Turn(after.ctx) == Turn(vm.ctx)
    ensures Settled(b, vm) ==> Settled(b, after)
    ensures vm.runs > 0 && Shows(b, vm) ==> Shows(b, after)
    ensures Latched(b, vm) ==> Latched(b, after)
  {
    hide Keys, HitOf, DwOf, Clean, RecordAt;
  }

  // ---------------------------------------------------------------- arriving at a place

  lemma ArriveBefore(b: Battle, vm: Vm)
    requires b.Valid() && vm.status.Running? && vm.pc in {7, 8, 29, 30} && Common(b, vm) && Before(b, vm)
    ensures Good(b, vm)
  {
  }

  lemma ArriveBuilt(b: Battle, vm: Vm)
    requires b.Valid() && vm.status.Running? && Common(b, vm) && JustBuilt(b, vm)
    requires vm.pc == 9 || (vm.pc == 10 && GetU32(vm.ctx, PLAN_MATERIALIZE_ERR, 0) == 0) ||
             (vm.pc == 38 && GetU32(vm.ctx, PLAN_MATERIALIZE_ERR, 0) != 0)
    ensures Good(b, vm)
  {
  }

  lemma ArriveRunning(b: Battle, vm: Vm)
    requires b.Valid() && vm.status.Running? && Common(b, vm) && BattleRuns.Running(b, vm)
    requires vm.pc == 14 || (vm.runs > 0 && (vm.pc == 27 || vm.pc == 28 || (vm.pc == 11 && Has(vm.ctx, PLAN_DONE, U32(1)))))
    ensures Good(b, vm)
  {
  }

  lemma ArriveRan(b: Battle, vm: Vm)
    requires b.Valid() && vm.status.Running? && Common(b, vm) && Ran(b, vm)
    requires vm.pc == 15 || (vm.pc == 16 && DwOf(b, vm.runs) == 0) || (vm.pc == 40 && DwOf(b, vm.runs) != 0)
    ensures Good(b, vm)
  {
  }

  lemma ArriveEvaluated(b: Battle, vm: Vm)
    requires b.Valid() && vm.status.Running? && Common(b, vm) && Evaluated(b, vm)
    requires vm.pc in {17, 18, 19, 20, 32, 34, 36} && HitFits(vm.pc, HitOf(b, vm.runs))
    requires vm.pc == 36 ==> Has(vm.ctx, PRED_ALL_PASSED, U32(0))
    ensures Good(b, vm)
  {
  }

  lemma ArrivePassed(b: Battle, vm: Vm)
    requires b.Valid() && vm.status.Running? && Common(b, vm) && BattleRuns.Running(b, vm) && vm.runs > 0
    requires 21 <= vm.pc <= 25 && HitFits(vm.pc, HitOf(b, vm.runs)) && (vm.pc == 25 ==> Turn(vm.ctx) == b.Turns())
    ensures Good(b, vm)
  {
  }

  // ---------------------------------------------------------------- what single operations do

  lemma GotoIfGoes(b: Battle, vm: Vm, after: Vm, key: KeyId, cmp: PsCmp, imm: u32, name: LabelName)
    requires b.Valid() && BattleStep(b, vm, after) && vm.pc < LENGTH && OpAt(vm.pc, b.short, b.long) == GotoIf(key, cmp, imm, name)
    ensures after == vm.(pc := if Holds(GetU32(vm.ctx, key, 0), cmp, imm) then Place(name) + 1 else vm.pc + 1)
  {
    JumpGoes(b.short, b.long, vm, name);
    hide OpAt, Jump, Holds, Place;
  }

  lemma GotoGoes(b: Battle, vm: Vm, after: Vm, name: LabelName)
    requires b.Valid() && BattleStep(b, vm, after) && vm.pc < LENGTH && OpAt(vm.pc, b.short, b.long) == Goto(name)
    ensures after == vm.(pc := Place(name) + 1)
  {
    JumpGoes(b.short, b.long, vm, name);
    hide OpAt, Jump, Place;
  }

  lemma SimpleOps(b: Battle, vm: Vm, after: Vm)
    requires b.Valid() && BattleStep(b, vm, after) && vm.pc < LENGTH
    ensures var op := OpAt(vm.pc, b.short, b.long);
            match op
            case RunUntilBp => after == RunTo(b.setup, vm)
            case ApplyInputPlanFrames => after == ApplyFrames(vm)
            case EvalPredicatesAtHitBp => after == Eval(b.setup, vm)
            case CapturePredBaselines => after == CaptureInto(b.setup, vm)
            case BuildTurnInputPlan => after == Build(b.setup, vm)
            case SetTimeout(ms) => after == Next(vm, vm.ctx[RUN_MS := U32(ms)])
            case AddU32(key, imm) => after == Next(vm, vm.ctx[key := U32(Wrap32(GetU32(vm.ctx, key, 0) as int + imm))])
            case RecordProgressAtBp => after == Next(vm, vm.ctx)
            case ReturnResult(key, imm) => after == ReturnWith(vm, key, imm)
            case _ => true
  {
    hide OpAt, RunTo, ApplyFrames, Eval, CaptureInto, Build, ReturnWith;
  }

  // ---------------------------------------------------------------- the opening

  lemma StepOpening(b: Battle, vm: Vm, after: Vm)
    requires StepFrom(b, vm, after, vm.pc) && vm.pc in {0, 3, 4}
    ensures Good(b, after)
  {
    hide Keys;
  }

  lemma StepLoad(b: Battle, vm: Vm, after: Vm)
    requires StepFrom(b, vm, after, 2)
    ensures Good(b, after)
  {
    hide Keys, Holding;
  }

  lemma StepArm(b: Battle, vm: Vm, after: Vm)
    requires StepFrom(b, vm, after, 1)
    ensures Good(b, after)
  {
    assert after == ArmPreds(b.setup, vm);
    assert vm.predKeys + Keys(b) == Keys(b);
    hide Holding;
  }

  lemma StepToRun(b: Battle, vm: Vm, after: Vm)
    requires StepFrom(b, vm, after, 5)
    ensures Good(b, after)
  {
    JumpGoes(b.short, b.long, vm, RunTurn);
    hide Keys, Jump;
  }

  // ---------------------------------------------------------------- the turn's inputs

  lemma OpContext(b: Battle, vm: Vm, after: Vm)
    requires StepFrom(b, vm, after, 7)
    ensures Common(b, vm) && Before(b, vm) && SamePlans(vm, after) && Quiet(vm, after) && after.pc == 8 && after.status.Running?
  {
    hide Common, Before;
  }

  lemma StepContext(b: Battle, vm: Vm, after: Vm)
    requires StepFrom(b, vm, after, 7)
    ensures Good(b, after)
  {
    OpContext(b, vm, after);
    BeforeKept(b, vm, after);
    hide *;
    ArriveBefore(b, after);
  }

  lemma BeforeKept(b: Battle, vm: Vm, after: Vm)
    requires b.Valid() && Common(b, vm) && Before(b, vm) && SamePlans(vm, after) && Quiet(vm, after)
    ensures Common(b, after) && Before(b, after)
  {
    hide Common, Played, Settled, Untouched;
    QuietKeeps(b, vm, after);
    PlayedSame(b, vm, after, Turn(vm.ctx) - 1);
  }

  /** Past the last turn: reported, nothing built. */
  lemma BuildPastEnd(b: Battle, vm: Vm, after: Vm)
    requires b.Valid() && vm.pc == 8 && Common(b, vm) && Before(b, vm) && Turn(vm.ctx) == b.Turns() + 1
    requires vm.status.Running? && after == Next(vm, Failed(vm.ctx, OutOfTurns))
    ensures Good(b, after)
  {
    hide Good, Before, Common;
    assert SamePlans(vm, after) && Quiet(vm, after) && Has(after.ctx, PLAN_MATERIALIZE_ERR, U32(ErrCode(OutOfTurns)));
    PastEnd(b, vm, after);
  }

  lemma PastEnd(b: Battle, vm: Vm, after: Vm)
    requires b.Valid() && Common(b, vm) && Before(b, vm) && Turn(vm.ctx) == b.Turns() + 1
    requires after.pc == 9 && after.status.Running? && SamePlans(vm, after) && Quiet(vm, after)
    requires Has(after.ctx, PLAN_MATERIALIZE_ERR, U32(ErrCode(OutOfTurns)))
    ensures Good(b, after)
  {
    BeforeKept(b, vm, after);
    assert Turn(after.ctx) == Turn(vm.ctx) by { hide Common, Before; }
    hide Common, Played, Settled, Quiet, SamePlans, Good, Zone;
    ArriveBuilt(b, after);
  }

  lemma PlannedExtends(b: Battle, built: seq<BattleContext>, bc: BattleContext, t: nat)
    requires BuiltFine(b, built + [bc]) && t <= |built|
    ensures BuiltFine(b, built) && Planned(b, built + [bc], t) == Planned(b, built, t)
    ensures forall k | 0 <= k < |built| :: WrittenFor(b, built + [bc], k) == WrittenFor(b, built, k)
    decreases t
  {
    assert forall k | 0 <= k < |built| :: (built + [bc])[k] == built[k];
    if t > 0 { PlannedExtends(b, built, bc, t - 1); }
  }

  lemma BlankValid(b: Battle, vm: Vm)
    requires b.Valid()
    ensures Blank(vm, b.setup).Valid()
  {
  }

  /** One more turn built: the earlier ones are as they were. */
  lemma PlayedExtends(b: Battle, vm: Vm, bc: BattleContext, t: nat)
    requires Played(b, vm, t) && t < b.Turns() && bc.Valid() && b.job.path[t].fakeAttackCount <= 255
    ensures var built := vm.built + [bc];
            && BuiltFine(b, built) && |vm.stepped| == t && (forall k | 0 <= k < t :: vm.stepped[k] == Planned(b, built, k + 1))
            && (forall k | 0 <= k < t :: Continues(WrittenFor(b, built, k)))
            && Holding(vm.ctx, Planned(b, built, t))
  {
    var built := vm.built + [bc];
    assert BuiltFine(b, built);
    hide Planned, WrittenFor, Holding, FramesBytes, Continues;
    forall k | 0 <= k < t ensures vm.stepped[k] == Planned(b, built, k + 1) { PlannedExtends(b, vm.built, bc, k + 1); }
    PlannedExtends(b, vm.built, bc, t);
  }

  /** The outcome of writing the active turn, as the context keeps it. */
  lemma BuildStores(b: Battle, vm: Vm, bc: BattleContext, t: nat, after: Vm)
    requires b.Valid() && Played(b, vm, t) && t < b.Turns() && bc.Valid() && b.job.path[t].fakeAttackCount <= 255
    requires var w := WriteTurn(bc, b.job.path[t]);
             after == Next(vm, if w.ok then WithPlan(vm.ctx, Counted32(w.frames)) else Failed(vm.ctx, w.err)).(built := vm.built + [bc])
    requires BuiltFine(b, vm.built + [bc]) && Holding(vm.ctx, Planned(b, vm.built + [bc], t))
    ensures Holding(after.ctx, Planned(b, after.built, t + 1))
    ensures Has(after.ctx, PLAN_MATERIALIZE_ERR, U32(ErrCode(WrittenFor(b, after.built, t).err)))
    ensures INPUTPLAN in after.ctx || Has(after.ctx, PLAN_DONE, U32(1))
  {
    WriteOk(bc, b.job.path[t]);
    hide WriteTurn, FramesBytes, Counted32;
    assert after.built[t] == bc;
  }

  lemma WriteOk(bc: BattleContext, plan: TurnPlan)
    requires bc.Valid() && plan.fakeAttackCount <= 255
    ensures WriteTurn(bc, plan).ok ==> WriteTurn(bc, plan).err == OK
  {
    ActionsOk(bc, ATTACK_ITEM, plan.spec, 0);
  }

  lemma {:induction false} ActionsOk(bc: BattleContext, item: u8, spec: TurnPlanSpec, i: nat)
    requires bc.Valid() && item <= 6 && i <= |spec|
    ensures WriteActions(bc, item, spec, i).ok ==> WriteActions(bc, item, spec, i).err == OK
    decreases |spec| - i
  {
    hide WriteAction;
    if i < |spec| && WriteAction(bc, item, spec[i]).ok { ActionsOk(bc, WriteAction(bc, item, spec[i]).item, spec, i + 1); }
  }

  lemma BuildIsQuiet(vm: Vm, w: Written)
    requires vm.pc >= 2
    ensures Quiet(vm, Next(vm, if w.ok then WithPlan(vm.ctx, Counted32(w.frames)) else Failed(vm.ctx, w.err)))
  {
    hide Counted32, FramesBytes;
  }

  lemma BuiltAssembled(b: Battle, vm: Vm, after: Vm, t: nat)
    requires b.Valid() && Settled(b, after) && after.runs > 0 && Turn(after.ctx) == t + 1 && t < b.Turns()
    requires BuiltFine(b, after.built) && |after.built| == t + 1 && SteppedAs(b, after, t)
    requires forall k | 0 <= k < t :: Continues(WrittenFor(b, after.built, k))
    requires Holding(after.ctx, Planned(b, after.built, t + 1))
    requires Has(after.ctx, PLAN_MATERIALIZE_ERR, U32(ErrCode(WrittenFor(b, after.built, t).err)))
    requires INPUTPLAN in after.ctx || Has(after.ctx, PLAN_DONE, U32(1))
    ensures JustBuilt(b, after)
  {
    hide Settled, SteppedAs, BuiltFine, Holding, WrittenFor, Continues, Planned, Turn, Played;
  }

  lemma BeforeParts(b: Battle, vm: Vm)
    requires b.Valid() && Before(b, vm)
    ensures Settled(b, vm) && vm.runs > 0 && 1 <= Turn(vm.ctx) <= b.Turns() + 1 && Played(b, vm, Turn(vm.ctx) - 1)
    ensures |vm.built| == Turn(vm.ctx) - 1
  {
    hide Settled, SteppedAs, BuiltFine, Holding, WrittenFor, Continues, Planned, Turn;
  }

  /** A turn of the path: built from its own entry, so the index is in range. */
  lemma BuildTurnOf(b: Battle, vm: Vm, bc: BattleContext, after: Vm)
    requires b.Valid() && vm.pc == 8 && vm.status.Running? && Common(b, vm) && Before(b, vm) && Turn(vm.ctx) <= b.Turns()
    requires bc.Valid() && b.job.path[Turn(vm.ctx) - 1].fakeAttackCount <= 255
    requires var w := WriteTurn(bc, b.job.path[Turn(vm.ctx) - 1]);
             after == Next(vm, if w.ok then WithPlan(vm.ctx, Counted32(w.frames)) else Failed(vm.ctx, w.err)).(built := vm.built + [bc])
    ensures Good(b, after)
  {
    hide Common, Before, Played, Settled, Untouched, Planned, WrittenFor, Holding, WriteTurn, FramesBytes, Counted32, Continues, WithPlan, Failed;
    hide Good, JustBuilt, BuiltFine, Turn;
    var t := Turn(vm.ctx) - 1;
    BeforeParts(b, vm);
    PlayedExtends(b, vm, bc, t);
    BuildStores(b, vm, bc, t, after);
    BuildIsQuiet(vm, WriteTurn(bc, b.job.path[t]));
    assert Quiet(vm, after) && after.stepped == vm.stepped && after.built == vm.built + [bc];
    assert SteppedAs(b, after, t);
    hide Quiet, SteppedAs;
    QuietKeeps(b, vm, after);
    BuiltAssembled(b, vm, after, t);
    ArriveBuilt(b, after);
  }

  /** Past the path's end; endless; or the active turn as written in the battle the context holds. */
  ghost predicate BuildsAs(b: Battle, vm: Vm, after: Vm)
    requires 1 <= Turn(vm.ctx)
  {
    var t, bc := Turn(vm.ctx), Blank(vm, b.setup);
    if t > b.Turns() then after == Next(vm, Failed(vm.ctx, OutOfTurns))
    else if b.job.path[t - 1].fakeAttackCount > 255 then after == vm.(status := Hung)
    else
      && bc.Valid()
      && var w := WriteTurn(bc, b.job.path[t - 1]);
         after == Next(vm, if w.ok then WithPlan(vm.ctx, Counted32(w.frames)) else Failed(vm.ctx, w.err)).(built := vm.built + [bc])
  }

  lemma BuildCases(b: Battle, vm: Vm, after: Vm)
    requires b.Valid() && Kept(b, vm.ctx) && 1 <= Turn(vm.ctx) && vm.status.Running? && after == Build(b.setup, vm)
    ensures BuildsAs(b, vm, after)
  {
    hide WriteTurn, Counted32, WithPlan, Failed, Blank;
    BlankValid(b, vm);
  }

  lemma OpBuild(b: Battle, vm: Vm, after: Vm)
    requires StepFrom(b, vm, after, 8)
    ensures after == Build(b.setup, vm) && Before(b, vm) && Kept(b, vm.ctx) && Common(b, vm) && 1 <= Turn(vm.ctx) <= b.Turns() + 1
  {
    hide Build, Kept;
  }

  lemma HangsGood(b: Battle, vm: Vm)
    requires b.Valid() && vm.status == Hung && 1 <= Turn(vm.ctx) <= b.Turns() && b.job.path[Turn(vm.ctx) - 1].fakeAttackCount > 255
    ensures Good(b, vm)
  {
  }

  lemma StepBuild(b: Battle, vm: Vm, after: Vm)
    requires StepFrom(b, vm, after, 8)
    ensures Good(b, after)
  {
    hide StepFrom, Common, Good, Kept, Before, Turn, WriteTurn, Blank, Counted32, WithPlan, Failed, Build;
    StartsBuild(b, vm, after);
    BuildCases(b, vm, after);
    var t := Turn(vm.ctx);
    if t == b.Turns() + 1 {
      BuildPastEnd(b, vm, after);
    } else if b.job.path[t - 1].fakeAttackCount <= 255 {
      BuildTurnOf(b, vm, Blank(vm, b.setup), after);
    } else {
      assert Turn(after.ctx) == Turn(vm.ctx);
      HangsGood(b, after);
    }
  }

  lemma StartsBuild(b: Battle, vm: Vm, after: Vm)
    requires StepFrom(b, vm, after, 8)
    ensures b.Valid() && vm.pc == 8 && vm.status.Running? && Common(b, vm) && Before(b, vm) && Kept(b, vm.ctx)
    ensures after == Build(b.setup, vm) && 1 <= Turn(vm.ctx) <= b.Turns() + 1
  {
    hide Build;
    OpBuild(b, vm, after);
  }

  // ---------------------------------------------------------------- applying the inputs

  lemma StepCheckPlan(b: Battle, vm: Vm, after: Vm)
    requires StepFrom(b, vm, after, 9)
    ensures Good(b, after)
  {
    hide Common, JustBuilt, BattleStep, Good, Jump, Step;
    GotoIfGoes(b, vm, after, PLAN_MATERIALIZE_ERR, NE, 0, RetPlanMatFailure);
    BuiltMoves(b, vm, after.pc);
    ArriveBuilt(b, after);
  }

  lemma BuiltMoves(b: Battle, vm: Vm, pc: nat)
    requires b.Valid() && Common(b, vm) && vm.pc >= 2 && pc >= 2
    ensures Common(b, vm.(pc := pc)) && (JustBuilt(b, vm) ==> JustBuilt(b, vm.(pc := pc)))
    ensures Before(b, vm) ==> Before(b, vm.(pc := pc))
    ensures BattleRuns.Running(b, vm) ==> BattleRuns.Running(b, vm.(pc := pc))
    ensures Ran(b, vm) ==> Ran(b, vm.(pc := pc))
    ensures Evaluated(b, vm) ==> Evaluated(b, vm.(pc := pc))
  {
    hide Kept, Keys, HitOf, DwOf, Clean, Holding, Planned, WrittenFor, Continues;
  }

  lemma ApplyReads(vm: Vm, frames: seq<InputFrame>)
    requires |frames| < 0x1_0000_0000 && Has(vm.ctx, INPUTPLAN_FRAME_COUNT, Str(Le32(|frames|))) && Has(vm.ctx, INPUTPLAN, Str(FramesBytes(frames)))
    ensures var plans := GetU32(vm.ctx, NUM_TURN_PLANS, 0);
            ApplyFrames(vm) == Next(vm, vm.ctx[PLAN_DONE := U32(1)][NUM_TURN_PLANS := U32(if plans > 0 then plans - 1 else 0)])
                                 .(stepped := vm.stepped + [frames], held := HeldAfter(vm.held, frames))
  {
    hide Get32, GetFrame, FramesBytes, Le32, FramesIn, HeldAfter, GetU32;
    StoredFrames(frames);
    FramesBack(frames);
  }

  lemma FramesBack(frames: seq<InputFrame>)
    requires |frames| < 0x1_0000_0000
    ensures FramesIn(FramesBytes(frames), |frames|) == frames
  {
    StoredFrames(frames);
    hide GetFrame, FramesBytes, Le32;
  }

  /** The stored frames come back as they were stored. */
  lemma ApplySteps(b: Battle, vm: Vm, frames: seq<InputFrame>)
    requires Holding(vm.ctx, frames)
    ensures var after := ApplyFrames(vm);
            && after.status == vm.status && after.pc == vm.pc + 1 && after.stepped == vm.stepped + [frames]
            && after.built == vm.built && Holding(after.ctx, frames)
            && (vm.pc >= 2 ==> Quiet(vm, after))
            && (INPUTPLAN in vm.ctx || Has(vm.ctx, PLAN_DONE, U32(1)) ==> Has(after.ctx, PLAN_DONE, U32(1)))
  {
    hide FramesBytes, Le32;
    if INPUTPLAN in vm.ctx {
      ApplyReads(vm, frames);
      hide ApplyFrames;
    }
  }

  /** A written turn that passed the check continues. */
  lemma BuiltContinues(b: Battle, vm: Vm)
    requires b.Valid() && JustBuilt(b, vm) && GetU32(vm.ctx, PLAN_MATERIALIZE_ERR, 0) == 0
    ensures Turn(vm.ctx) <= b.Turns() && BuiltFine(b, vm.built) && |vm.built| == Turn(vm.ctx)
    ensures forall k | 0 <= k < Turn(vm.ctx) :: Continues(WrittenFor(b, vm.built, k))
  {
    hide Settled, Holding, Planned, WrittenFor, Clean, SteppedAs, Played;
  }

  lemma StepApply(b: Battle, vm: Vm, after: Vm)
    requires StepFrom(b, vm, after, 10)
    ensures Good(b, after)
  {
    hide Common, JustBuilt, BattleStep, Good, ApplyFrames, Step;
    SimpleOps(b, vm, after);
    BuiltContinues(b, vm);
    ApplyPlayed(b, vm, after);
  }

  lemma JustBuiltParts(b: Battle, vm: Vm)
    requires b.Valid() && JustBuilt(b, vm) && Turn(vm.ctx) <= b.Turns()
    ensures var t := Turn(vm.ctx);
            && 1 <= t && Settled(b, vm) && vm.runs > 0 && BuiltFine(b, vm.built) && |vm.built| == t && SteppedAs(b, vm, t - 1)
            && Holding(vm.ctx, Planned(b, vm.built, t)) && (INPUTPLAN in vm.ctx || Has(vm.ctx, PLAN_DONE, U32(1)))
  {
    hide Settled, SteppedAs, BuiltFine, Holding, WrittenFor, Continues, Planned;
  }

  lemma ApplyPlayed(b: Battle, vm: Vm, after: Vm)
    requires b.Valid() && vm.pc == 10 && vm.status.Running? && Common(b, vm) && JustBuilt(b, vm) && after == ApplyFrames(vm)
    requires Turn(vm.ctx) <= b.Turns() && BuiltFine(b, vm.built) && |vm.built| == Turn(vm.ctx)
    requires forall k | 0 <= k < Turn(vm.ctx) :: Continues(WrittenFor(b, vm.built, k))
    ensures Good(b, after)
  {
    var t := Turn(vm.ctx);
    hide JustBuilt, Common, Settled, Untouched, Planned, WrittenFor, Holding, Continues, ApplyFrames, Good;
    JustBuiltParts(b, vm);
    ApplySteps(b, vm, Planned(b, vm.built, t));
    assert Quiet(vm, after);
    hide Quiet;
    QuietKeeps(b, vm, after);
    assert Played(b, after, t);
    hide Played, BuiltFine, SteppedAs;
    ArriveRunning(b, after);
  }

  /** The plan is always done, so the inputs are never applied twice. */
  lemma StepPlanDone(b: Battle, vm: Vm, after: Vm)
    requires StepFrom(b, vm, after, 11)
    ensures Good(b, after) && after.pc == 14
  {
    hide Common, BattleRuns.Running, BattleStep, Good, Jump, Step;
    GotoIfGoes(b, vm, after, PLAN_DONE, EQ, 1, RunTurn);
    BuiltMoves(b, vm, 14);
    ArriveRunning(b, after);
  }

  // ---------------------------------------------------------------- running and evaluating

  lemma RunSees(b: Battle, vm: Vm)
    requires b.Valid() && vm.predKeys == Keys(b)
    ensures Shows(b, RunTo(b.setup, vm)) && RunTo(b.setup, vm).runs == vm.runs + 1
  {
    hide Keys, HitKey, GetU32;
  }

  lemma RunLeaves(b: Battle, vm: Vm)
    requires b.Valid() && Kept(b, vm.ctx)
    ensures var after := RunTo(b.setup, vm);
            && Kept(b, after.ctx) && SamePlans(vm, after) && Turn(after.ctx) == Turn(vm.ctx)
            && Same(vm.ctx, after.ctx, PRED_ALL_PASSED)
  {
    hide Keys, HitKey;
  }

  lemma RunFacts(b: Battle, vm: Vm)
    requires b.Valid() && vm.predKeys == Keys(b) && Kept(b, vm.ctx)
    ensures var after := RunTo(b.setup, vm);
            && Shows(b, after) && Kept(b, after.ctx) && SamePlans(vm, after) && Turn(after.ctx) == Turn(vm.ctx)
            && Same(vm.ctx, after.ctx, PRED_ALL_PASSED) && after.runs == vm.runs + 1
  {
    hide Keys, RunTo, Kept, Shows, SamePlans, Same, Turn;
    RunSees(b, vm);
    RunLeaves(b, vm);
  }

  lemma PassedKept(vm: Vm, after: Vm)
    requires NoneFailed(vm) && after.evaluations == vm.evaluations && Same(vm.ctx, after.ctx, PRED_ALL_PASSED)
    ensures NoneFailed(after)
  {
    hide Clean;
  }

  lemma RunShape(setup: Setup, vm: Vm)
    ensures var after := RunTo(setup, vm);
            after.evaluations == vm.evaluations && after.pc == vm.pc + 1 && after.status == vm.status && after.predKeys == vm.predKeys
  {
    hide HitKey, GetU32;
  }

  lemma RunShows(b: Battle, vm: Vm)
    requires b.Valid() && Common(b, vm) && BattleRuns.Running(b, vm) && vm.pc == 14
    ensures var after := RunTo(b.setup, vm);
            && Common(b, after) && Ran(b, after) && after.pc == 15 && after.status == vm.status
  {
    hide RunTo, Kept, Shows, Keys, SamePlans, Played, Turn, NoneFailed;
    var after := RunTo(b.setup, vm);
    RunShape(b.setup, vm);
    RunFacts(b, vm);
    PassedKept(vm, after);
    PlayedSame(b, vm, after, Turn(vm.ctx));
  }

  lemma StepRun(b: Battle, vm: Vm, after: Vm)
    requires StepFrom(b, vm, after, 14)
    ensures Good(b, after)
  {
    hide Common, BattleRuns.Running, Ran, BattleStep, Good, RunTo, Step;
    SimpleOps(b, vm, after);
    RunShows(b, vm);
    ArriveRan(b, after);
  }

  lemma DwShown(b: Battle, vm: Vm)
    requires b.Valid() && Shows(b, vm)
    ensures GetU32(vm.ctx, DW_RUN_OUTCOME_CODE, 0) == DwOf(b, vm.runs) && GetU32(vm.ctx, RUN_HIT_BP_KEY, 0) == HitOf(b, vm.runs)
  {
    hide DwOf, HitOf;
  }

  lemma StepDwError(b: Battle, vm: Vm, after: Vm)
    requires StepFrom(b, vm, after, 15)
    ensures Good(b, after)
  {
    hide Common, BattleStep, Good, Jump, Step, Shows, NoneFailed, Played, DwOf;
    assert Ran(b, vm);
    GotoIfGoes(b, vm, after, DW_RUN_OUTCOME_CODE, NE, 0, RetDwRunError);
    DwShown(b, vm);
    hide Ran;
    BuiltMoves(b, vm, after.pc);
    ArriveRan(b, after);
  }

  // ---------------------------------------------------------------- predicates

  lemma EvalTallies(b: Battle, vm: Vm)
    requires b.Valid() && Kept(b, vm.ctx) && Shows(b, vm)
    ensures var after := Eval(b.setup, vm);
            if b.job.predCount == 0 || HitOf(b, vm.runs) == 0 then
              after == Next(vm, vm.ctx).(evaluations := vm.evaluations + [Evaluation(vm.runs, [])])
            else
              var baselines := vm.ctx[PRED_BASELINES].bytes;
              var v := Verdicts(b.setup.events(vm.runs - 1).env, b.job.predCount, b.job.predTable, baselines, HitOf(b, vm.runs));
              if Strays(v) then after == vm.(status := Undefined)
              else
                after == Next(vm, Tallied(vm.ctx, TallyOf(v, GetU32(vm.ctx, PRED_TOTAL, 0), GetU32(vm.ctx, PRED_ALL_PASSED, 1), b.job.predTable)))
                           .(evaluations := vm.evaluations + [Evaluation(vm.runs, v)])
  {
    hide HitOf, TallyOf, Verdicts, Tallied, DwOf, Strays;
  }

  lemma TallyFacts(v: seq<Verdict>, total: u32, table: seq<u8>)
    requires |v| * RECORD_SIZE <= |table|
    ensures var t, k := TallyOf(v, total, 1, table), FirstFailure(v);
            if AllTrue(v) then t.allPassed == 1
            else t.allPassed == 0 && (k + 1) * RECORD_SIZE <= |table| && t.firstFailed == Some(RecordAt(table, k).id)
  {
    hide RecordAt, JudgedCount, PassedCount, Wrap32;
  }

  lemma TalliedKeeps(b: Battle, ctx: Context, t: Tally)
    requires Kept(b, ctx)
    ensures var after := Tallied(ctx, t);
            && Kept(b, after) && Turn(after) == Turn(ctx)
            && Same(ctx, after, DW_RUN_OUTCOME_CODE) && Same(ctx, after, RUN_HIT_BP_KEY)
            && Same(ctx, after, INPUTPLAN) && Same(ctx, after, INPUTPLAN_FRAME_COUNT)
            && Has(after, PRED_ALL_PASSED, U32(t.allPassed))
            && (t.firstFailed.Some? ==> Has(after, PRED_FIRST_FAILED, U32(t.firstFailed.value)))
  {
  }

  ghost predicate LatchOf(b: Battle, ctx: Context, v: seq<Verdict>) {
    if AllTrue(v) then Has(ctx, PRED_ALL_PASSED, U32(1))
    else
      && Has(ctx, PRED_ALL_PASSED, U32(0)) && (FirstFailure(v) + 1) * RECORD_SIZE <= |b.job.predTable|
      && Has(ctx, PRED_FIRST_FAILED, U32(RecordAt(b.job.predTable, FirstFailure(v)).id))
  }

  /** One evaluation on top of clean ones. */
  lemma EvaluatedFrom(b: Battle, vm: Vm, after: Vm, v: seq<Verdict>)
    requires b.Valid() && Common(b, vm) && Ran(b, vm) && vm.pc == 16 && DwOf(b, vm.runs) == 0
    requires after.pc == 17 && after.runs == vm.runs && after.predKeys == vm.predKeys && SamePlans(vm, after)
    requires after.evaluations == vm.evaluations + [Evaluation(vm.runs, v)]
    requires LatchOf(b, after.ctx, v)
    requires Kept(b, after.ctx) && Turn(after.ctx) == Turn(vm.ctx) && Shows(b, after)
    ensures Common(b, after) && Evaluated(b, after)
  {
    PlayedSame(b, vm, after, Turn(vm.ctx));
    var n := |vm.evaluations|;
    assert after.evaluations[..n] == vm.evaluations && after.evaluations[n].verdicts == v;
    hide Kept, Keys, DwOf, HitOf, Shows, Played, RecordAt, SamePlans, AllTrue;
  }

  lemma StepEval(b: Battle, vm: Vm, after: Vm)
    requires StepFrom(b, vm, after, 16)
    ensures Good(b, after)
  {
    hide StepFrom, Common, Zone, BattleStep, Good, Step, Eval, Ran, HitOf, DwOf;
    StepParts(b, vm, after, 16);
    EvalPlace(b, vm);
    SimpleOps(b, vm, after);
    RanParts(b, vm);
    EvalJudges(b, vm, after);
  }

  lemma EvalPlace(b: Battle, vm: Vm)
    requires b.Valid() && Zone(b, vm) && vm.pc == 16
    ensures Ran(b, vm) && vm.runs > 0 && DwOf(b, vm.runs) == 0
  {
    hide Played, NoneFailed, DwOf, HitOf;
  }

  lemma RanParts(b: Battle, vm: Vm)
    requires b.Valid() && Ran(b, vm)
    ensures Shows(b, vm) && vm.runs > 0 && GetU32(vm.ctx, PRED_ALL_PASSED, 1) == 1
  {
    hide Played, DwOf, HitOf, Clean;
  }

  lemma EvalJudges(b: Battle, vm: Vm, after: Vm)
    requires b.Valid() && vm.pc == 16 && vm.status.Running? && Common(b, vm) && Ran(b, vm) && vm.runs > 0 && DwOf(b, vm.runs) == 0
    requires after == Eval(b.setup, vm)
    ensures Good(b, after)
  {
    RanParts(b, vm);
    CommonKept(b, vm);
    hide Common, Good, Eval, Ran, Shows, Kept, HitOf, DwOf, Verdicts, TallyOf, Tallied;
    EvalTallies(b, vm);
    if b.job.predCount == 0 || HitOf(b, vm.runs) == 0 {
      EvalNothing(b, vm, after);
    } else if after.status.Undefined? {
      EvalStrays(b, vm, after, vm.ctx[PRED_BASELINES].bytes);
    } else {
      EvalSome(b, vm, after, vm.ctx[PRED_BASELINES].bytes);
    }
  }

  /** An evaluation that leaves the table: the table does not shelter it. */
  lemma EvalStrays(b: Battle, vm: Vm, after: Vm, baselines: seq<u8>)
    requires b.Valid() && vm.runs > 0 && |baselines| == |b.job.baselines| && after.status.Undefined?
    requires Strays(Verdicts(b.setup.events(vm.runs - 1).env, b.job.predCount, b.job.predTable, baselines, HitOf(b, vm.runs)))
    ensures Good(b, after)
  {
    hide HitOf, Verdicts, Strays, Sheltered;
    if Sheltered(b.job.predCount, b.job.predTable) {
      ShelteredStays(b.setup.events(vm.runs - 1).env, b.job.predCount, b.job.predTable, baselines, HitOf(b, vm.runs));
    }
  }

  lemma CommonKept(b: Battle, vm: Vm)
    requires b.Valid() && Common(b, vm)
    ensures Kept(b, vm.ctx)
    ensures PRED_BASELINES in vm.ctx && vm.ctx[PRED_BASELINES].Str? && |vm.ctx[PRED_BASELINES].bytes| == |b.job.baselines|
  {
  }

  lemma PassedSoFar(vm: Vm)
    requires NoneFailed(vm)
    ensures GetU32(vm.ctx, PRED_ALL_PASSED, 1) == 1 && Has(vm.ctx, PRED_ALL_PASSED, U32(1))
  {
  }

  lemma ShowsSame(b: Battle, vm: Vm, after: Vm)
    requires b.Valid() && Shows(b, vm) && after.runs == vm.runs
    requires Same(vm.ctx, after.ctx, DW_RUN_OUTCOME_CODE) && Same(vm.ctx, after.ctx, RUN_HIT_BP_KEY)
    ensures Shows(b, after)
  {
    hide DwOf, HitOf;
  }

  lemma EvalNothing(b: Battle, vm: Vm, after: Vm)
    requires b.Valid() && vm.pc == 16 && vm.status.Running? && Common(b, vm) && Ran(b, vm) && DwOf(b, vm.runs) == 0
    requires b.job.predCount == 0 || HitOf(b, vm.runs) == 0
    requires after == Next(vm, vm.ctx).(evaluations := vm.evaluations + [Evaluation(vm.runs, [])])
    ensures Good(b, after)
  {
    hide Common, Good, Shows, NoneFailed, Played, Kept, HitOf, DwOf, Evaluated;
    CommonKept(b, vm);
    ShowsSame(b, vm, after);
    PassedSoFar(vm);
    assert FirstFailure([]) == 0;
    EvaluatedFrom(b, vm, after, []);
    ArriveEvaluated(b, after);
  }

  lemma EvalSome(b: Battle, vm: Vm, after: Vm, baselines: seq<u8>)
    requires b.Valid() && vm.pc == 16 && vm.status.Running? && Common(b, vm) && Ran(b, vm) && DwOf(b, vm.runs) == 0
    requires b.job.predCount != 0 && HitOf(b, vm.runs) != 0 && |baselines| == |b.job.baselines|
    requires var v := Verdicts(b.setup.events(vm.runs - 1).env, b.job.predCount, b.job.predTable, baselines, HitOf(b, vm.runs));
             after == Next(vm, Tallied(vm.ctx, TallyOf(v, GetU32(vm.ctx, PRED_TOTAL, 0), 1, b.job.predTable)))
                        .(evaluations := vm.evaluations + [Evaluation(vm.runs, v)])
    ensures Good(b, after)
  {
    hide Common, Good, Shows, NoneFailed, Played, Kept, HitOf, DwOf, Evaluated, Verdicts, TallyOf, Tallied;
    CommonKept(b, vm);
    var v := Verdicts(b.setup.events(vm.runs - 1).env, b.job.predCount, b.job.predTable, baselines, HitOf(b, vm.runs));
    var total := GetU32(vm.ctx, PRED_TOTAL, 0);
    TallyFacts(v, total, b.job.predTable);
    TalliedKeeps(b, vm.ctx, TallyOf(v, total, 1, b.job.predTable));
    ShowsSame(b, vm, after);
    hide AllTrue, FirstFailure, RecordAt;
    EvaluatedFrom(b, vm, after, v);
    ArriveEvaluated(b, after);
  }

  lemma StepRecord(b: Battle, vm: Vm, after: Vm)
    requires StepFrom(b, vm, after, 17)
    ensures Good(b, after)
  {
    hide Common, BattleStep, Good, Step, Evaluated;
    SimpleOps(b, vm, after);
    BuiltMoves(b, vm, 18);
    assert after == vm.(pc := 18);
    ArriveEvaluated(b, after);
  }

  // ---------------------------------------------------------------- exits

  lemma EvaluatedShows(b: Battle, vm: Vm)
    requires b.Valid() && Evaluated(b, vm)
    ensures GetU32(vm.ctx, RUN_HIT_BP_KEY, 0) == HitOf(b, vm.runs) && vm.runs > 0
  {
    hide Latched, Played, DwOf, HitOf;
  }

  lemma StepVictory(b: Battle, vm: Vm, after: Vm)
    requires StepFrom(b, vm, after, 18)
    ensures Good(b, after)
  {
    hide Common, BattleStep, Good, Step, Evaluated, Jump;
    GotoIfGoes(b, vm, after, RUN_HIT_BP_KEY, EQ, BP_VICTORY, RetSuccess);
    EvaluatedShows(b, vm);
    BuiltMoves(b, vm, after.pc);
    ArriveEvaluated(b, after);
  }

  lemma StepDefeat(b: Battle, vm: Vm, after: Vm)
    requires StepFrom(b, vm, after, 19)
    ensures Good(b, after)
  {
    hide Common, BattleStep, Good, Step, Evaluated, Jump;
    GotoIfGoes(b, vm, after, RUN_HIT_BP_KEY, EQ, BP_DEFEAT, RetFailure);
    EvaluatedShows(b, vm);
    BuiltMoves(b, vm, after.pc);
    ArriveEvaluated(b, after);
  }

  /** The latch decides: cleared, the run ends; set, nothing has failed so far. */
  lemma LatchDecides(b: Battle, vm: Vm)
    requires b.Valid() && Evaluated(b, vm)
    ensures if GetU32(vm.ctx, PRED_ALL_PASSED, 0) == 0 then Has(vm.ctx, PRED_ALL_PASSED, U32(0)) else BattleRuns.Running(b, vm)
  {
    hide Played, DwOf, HitOf, Shows, RecordAt, AllTrue;
    var n := |vm.evaluations| - 1;
    if GetU32(vm.ctx, PRED_ALL_PASSED, 0) != 0 {
      forall k | 0 <= k < |vm.evaluations| ensures AllTrue(vm.evaluations[k].verdicts) {
        if k < n { assert vm.evaluations[..n][k] == vm.evaluations[k]; }
      }
    }
  }

  lemma StepPredFailure(b: Battle, vm: Vm, after: Vm)
    requires StepFrom(b, vm, after, 20)
    ensures Good(b, after)
  {
    hide Common, BattleStep, Good, Step, Evaluated, Jump, BattleRuns.Running;
    GotoIfGoes(b, vm, after, PRED_ALL_PASSED, EQ, 0, RetPredFailure);
    EvaluatedShows(b, vm);
    LatchDecides(b, vm);
    BuiltMoves(b, vm, after.pc);
    if after.pc == 36 { ArriveEvaluated(b, after); } else { ArrivePassed(b, after); }
  }

  // ---------------------------------------------------------------- on to the next turn

  lemma RunningShows(b: Battle, vm: Vm)
    requires b.Valid() && BattleRuns.Running(b, vm) && vm.runs > 0
    ensures GetU32(vm.ctx, RUN_HIT_BP_KEY, 0) == HitOf(b, vm.runs) && Turn(vm.ctx) <= b.Turns()
  {
    hide NoneFailed, Played, DwOf, HitOf;
  }

  lemma StepLoadComplete(b: Battle, vm: Vm, after: Vm)
    requires StepFrom(b, vm, after, 21)
    ensures Good(b, after)
  {
    hide Common, BattleStep, Good, Step, Jump, BattleRuns.Running;
    GotoIfGoes(b, vm, after, RUN_HIT_BP_KEY, EQ, BP_LOAD_COMPLETE, Adv);
    RunningShows(b, vm);
    BuiltMoves(b, vm, after.pc);
    if after.pc == 27 { ArriveRunning(b, after); } else { ArrivePassed(b, after); }
  }

  lemma TimeoutIsQuiet(vm: Vm, ms: u32)
    requires vm.pc >= 2
    ensures var after := Next(vm, vm.ctx[RUN_MS := U32(ms)]);
            Quiet(vm, after) && SamePlans(vm, after) && after.pc == vm.pc + 1 && after.status == vm.status && after.runs == vm.runs
  {
  }

  lemma RunningKept(b: Battle, vm: Vm, after: Vm)
    requires b.Valid() && Common(b, vm) && BattleRuns.Running(b, vm) && SamePlans(vm, after) && Quiet(vm, after)
    ensures Common(b, after) && BattleRuns.Running(b, after)
  {
    hide Common, Played, Settled, Untouched;
    QuietKeeps(b, vm, after);
    PlayedSame(b, vm, after, Turn(vm.ctx));
  }

  lemma StepLongTimeout(b: Battle, vm: Vm, after: Vm)
    requires StepFrom(b, vm, after, 22)
    ensures Good(b, after)
  {
    hide Common, BattleStep, Good, Step, BattleRuns.Running, Quiet, SamePlans;
    SimpleOps(b, vm, after);
    TimeoutIsQuiet(vm, b.long);
    RunningKept(b, vm, after);
    ArrivePassed(b, after);
  }

  lemma StepNotYet(b: Battle, vm: Vm, after: Vm)
    requires StepFrom(b, vm, after, 23)
    ensures Good(b, after)
  {
    hide Common, BattleStep, Good, Step, Jump, BattleRuns.Running;
    GotoIfGoes(b, vm, after, RUN_HIT_BP_KEY, NE, BP_ACCEPT_INPUT, RunTurn);
    RunningShows(b, vm);
    BuiltMoves(b, vm, after.pc);
    if after.pc == 14 { ArriveRunning(b, after); } else { ArrivePassed(b, after); }
  }

  lemma GotoIfKeysGoes(b: Battle, vm: Vm, after: Vm)
    requires b.Valid() && BattleStep(b, vm, after) && vm.pc == 24
    ensures after == vm.(pc := if GetU32(vm.ctx, ACTIVE_TURN, 0) < GetU32(vm.ctx, LAST_TURN, 0) then 27 else 25)
  {
    JumpGoes(b.short, b.long, vm, Adv);
    hide Jump;
  }

  lemma StepLastTurn(b: Battle, vm: Vm, after: Vm)
    requires StepFrom(b, vm, after, 24)
    ensures Good(b, after)
  {
    hide Common, BattleStep, Good, Step, BattleRuns.Running;
    GotoIfKeysGoes(b, vm, after);
    RunningShows(b, vm);
    assert GetU32(vm.ctx, LAST_TURN, 0) == b.Turns() by { CommonKept(b, vm); }
    BuiltMoves(b, vm, after.pc);
    if after.pc == 27 { ArriveRunning(b, after); } else { ArrivePassed(b, after); }
  }

  lemma StepShortTimeout(b: Battle, vm: Vm, after: Vm)
    requires StepFrom(b, vm, after, 27)
    ensures Good(b, after)
  {
    hide Common, BattleStep, Good, Step, BattleRuns.Running, Quiet, SamePlans;
    SimpleOps(b, vm, after);
    TimeoutIsQuiet(vm, b.short);
    RunningKept(b, vm, after);
    ArriveRunning(b, after);
  }

  lemma AdvanceChanges(b: Battle, vm: Vm)
    requires b.Valid() && Kept(b, vm.ctx) && Turn(vm.ctx) <= b.Turns()
    ensures var after := Next(vm, vm.ctx[ACTIVE_TURN := U32(Wrap32(GetU32(vm.ctx, ACTIVE_TURN, 0) as int + 1))]);
            && Turn(after.ctx) == Turn(vm.ctx) + 1 && SamePlans(vm, after) && Kept(b, after.ctx)
            && Same(vm.ctx, after.ctx, PRED_ALL_PASSED) && Same(vm.ctx, after.ctx, DW_RUN_OUTCOME_CODE)
            && Same(vm.ctx, after.ctx, RUN_HIT_BP_KEY)
  {
  }

  lemma TurnAdvances(b: Battle, vm: Vm, after: Vm)
    requires b.Valid() && Common(b, vm) && BattleRuns.Running(b, vm) && vm.runs > 0 && vm.pc == 28
    requires after == Next(vm, vm.ctx[ACTIVE_TURN := U32(Wrap32(GetU32(vm.ctx, ACTIVE_TURN, 0) as int + 1))])
    ensures Common(b, after) && Before(b, after)
  {
    hide Played, Keys, HitOf, DwOf, Clean, SamePlans, Kept, Wrap32, Turn;
    AdvanceChanges(b, vm);
    PlayedSame(b, vm, after, Turn(vm.ctx));
  }

  lemma StepAdvance(b: Battle, vm: Vm, after: Vm)
    requires StepFrom(b, vm, after, 28)
    ensures Good(b, after)
  {
    hide Common, BattleStep, Good, Step, BattleRuns.Running, Before;
    SimpleOps(b, vm, after);
    TurnAdvances(b, vm, after);
    ArriveBefore(b, after);
  }

  lemma CaptureCases(b: Battle, vm: Vm)
    requires b.Valid() && Kept(b, vm.ctx) && vm.runs > 0
    ensures var env, after := b.setup.events(vm.runs - 1).env, CaptureInto(b.setup, vm);
            var words := vm.ctx[PRED_BASELINES].bytes;
            if b.job.predCount == 0 then after == Next(vm, vm.ctx)
            else if CaptureStrays(env, b.job.predCount, b.job.predTable) then after == vm.(status := Undefined)
            else after == Next(vm, vm.ctx[PRED_BASELINES := Str(CaptureAll(env, b.job.predCount, b.job.predTable, words))])
  {
    hide CaptureAll, CaptureStrays;
  }

  /** Capturing touches only the words of the baselines. */
  lemma CaptureKeeps(b: Battle, vm: Vm, after: Vm)
    requires b.Valid() && Common(b, vm) && Before(b, vm) && vm.pc == 29 && after == CaptureInto(b.setup, vm)
    requires vm.status.Running? && !after.status.Undefined?
    ensures Common(b, after) && Before(b, after) && after.pc == 30 && after.status == vm.status
  {
    hide Played, Keys, HitOf, DwOf, Clean, SamePlans, CaptureInto, Kept, CaptureAll, CaptureStrays;
    CommonKept(b, vm);
    CaptureCases(b, vm);
    CaptureChanges(b, vm, after);
    PlayedSame(b, vm, after, Turn(vm.ctx) - 1);
  }

  lemma CaptureChanges(b: Battle, vm: Vm, after: Vm)
    requires b.Valid() && Kept(b, vm.ctx) && vm.runs > 0 && vm.status.Running? && after == CaptureInto(b.setup, vm) && !after.status.Undefined?
    ensures SamePlans(vm, after) && Kept(b, after.ctx)
  {
    CaptureCases(b, vm);
    hide RecordAt, Captured, CaptureInto, CaptureStrays, CaptureAll;
  }

  lemma CaptureLeaves(b: Battle, vm: Vm, after: Vm)
    requires b.Valid() && Kept(b, vm.ctx) && vm.runs > 0 && vm.status.Running? && after == CaptureInto(b.setup, vm) && after.status.Undefined?
    ensures Good(b, after)
  {
    CaptureCases(b, vm);
    hide CaptureInto, CaptureStrays, CaptureAll, Sheltered;
    if Sheltered(b.job.predCount, b.job.predTable) {
      ShelteredStays(b.setup.events(vm.runs - 1).env, b.job.predCount, b.job.predTable, b.job.baselines, 0);
    }
  }

  lemma StepCapture(b: Battle, vm: Vm, after: Vm)
    requires StepFrom(b, vm, after, 29)
    ensures Good(b, after)
  {
    hide Common, BattleStep, Good, Step, CaptureInto, Settled, Played;
    SimpleOps(b, vm, after);
    CommonKept(b, vm);
    hide Before;
    if after.status.Undefined? {
      CaptureLeaves(b, vm, after);
    } else {
      CaptureKeeps(b, vm, after);
      ArriveBefore(b, after);
    }
  }

  lemma StepToInputs(b: Battle, vm: Vm, after: Vm)
    requires StepFrom(b, vm, after, 30)
    ensures Good(b, after)
  {
    hide Common, BattleStep, Good, Step, Before, Jump;
    GotoGoes(b, vm, after, ApplyInputs);
    BuiltMoves(b, vm, 7);
    ArriveBefore(b, after);
  }

  lemma StepReturn(b: Battle, vm: Vm, after: Vm)
    requires StepFrom(b, vm, after, vm.pc) && vm.pc in {25, 32, 34, 36, 38, 40}
    ensures Good(b, after) && after.status.Returned?
  {
    hide BattleStep, Step, Zone, Common, Good, OutcomeAt;
    SimpleOps(b, vm, after);
    assert after == ReturnWith(vm, BATTLE_OUTCOME, OutcomeAt(vm.pc)) by { OutcomeOp(b, vm.pc); }
    EndsGood(b, vm, after);
  }

  lemma OutcomeOp(b: Battle, pc: nat)
    requires pc in {25, 32, 34, 36, 38, 40}
    ensures OpAt(pc, b.short, b.long) == ReturnResult(BATTLE_OUTCOME, OutcomeAt(pc))
  {
  }

  lemma EndsGood(b: Battle, vm: Vm, after: Vm)
    requires b.Valid() && Common(b, vm) && Zone(b, vm) && vm.pc in {25, 32, 34, 36, 38, 40}
    requires after == ReturnWith(vm, BATTLE_OUTCOME, OutcomeAt(vm.pc))
    ensures Good(b, after)
  {
    hide Zone, Common, OutcomeAt;
    ReturnedSame(b, vm, after);
  }

  lemma ReturnedSame(b: Battle, vm: Vm, after: Vm)
    requires b.Valid() && Common(b, vm) && Zone(b, vm) && after == vm.(status := after.status)
    ensures Common(b, after) && Zone(b, after)
  {
    hide Kept, Keys, Holding, Planned, WrittenFor, Continues, Clean, HitOf, DwOf;
  }
}
