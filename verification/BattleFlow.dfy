/** Where every operation of the battle program can continue. */
module BattleFlow {
  import opened Bytes
  import opened ScriptContext
  import opened PayloadCodec
  import opened PlanWriter
  import opened PredicateEval
  import opened ScriptVm
  import opened BattleProgram
  import opened BattleRuns

  /** Where the operation at a place may continue. */
  ghost predicate Follows(short: u32, long: u32, pc: nat, next: nat) {
    && pc < LENGTH
    && match OpAt(pc, short, long)
       case Goto(name) => next == Place(name) + 1
       case GotoIf(_, _, _, name) => next == Place(name) + 1 || next == pc + 1
       case GotoIfKeys(_, _, _, name) => next == Place(name) + 1 || next == pc + 1
       case ReturnResult(_, _) => false
       case _ => next == pc + 1
  }

  predicate IsJump(op: PsOp) { op.Goto? || op.GotoIf? || op.GotoIfKeys? }

  lemma JumpMoves(b: Battle, vm: Vm, after: Vm)
    requires b.Valid() && BattleStep(b, vm, after) && vm.pc < LENGTH && IsJump(OpAt(vm.pc, b.short, b.long))
    ensures Follows(b.short, b.long, vm.pc, after.pc) && after == vm.(pc := after.pc)
  {
    JumpGoes(b.short, b.long, vm, OpAt(vm.pc, b.short, b.long).target);
    hide OpAt, Jump, Place;
  }

  /** On to the next operation, with no fewer turns built. */
  ghost predicate MovesOn(vm: Vm, after: Vm) {
    && (after.status.Running? ==> after.pc == vm.pc + 1) && |after.built| >= |vm.built|
  }

  lemma ReadersMoveOn(setup: Setup, vm: Vm)
    ensures vm.status.Running? ==> MovesOn(vm, ArmPreds(setup, vm)) && MovesOn(vm, Eval(setup, vm)) && MovesOn(vm, ApplyFrames(vm))
  {
    hide Verdicts, TallyOf, Tallied, Strays, PredKeys, GetFrame, Get32;
  }

  lemma BuildMovesOn(setup: Setup, vm: Vm)
    requires Decodes(setup)
    ensures MovesOn(vm, Build(setup, vm)) && MovesOn(vm, RunTo(setup, vm))
  {
    hide WriteTurn, WithPlan, Failed, Blank, HitKey;
  }

  lemma CaptureMovesOn(setup: Setup, vm: Vm)
    ensures vm.status.Running? ==> MovesOn(vm, CaptureInto(setup, vm))
  {
    hide CaptureAll, CaptureStrays;
  }

  lemma ReturnsOnly(vm: Vm)
    ensures forall key, imm :: ReturnWith(vm, key, imm).built == vm.built && !ReturnWith(vm, key, imm).status.Running?
  {
  }

  predicate IsReader(op: PsOp) {
    op.ArmBpsFromPredTable? || op.EvalPredicatesAtHitBp? || op.ApplyInputPlanFrames? || op.BuildTurnInputPlan? || op.RunUntilBp? ||
    op.CapturePredBaselines?
  }

  lemma ReaderMovesOn(b: Battle, vm: Vm, after: Vm)
    requires b.Valid() && BattleStep(b, vm, after) && vm.pc < LENGTH && vm.status.Running? && IsReader(OpAt(vm.pc, b.short, b.long))
    ensures MovesOn(vm, after)
  {
    ReadersMoveOn(b.setup, vm);
    BuildMovesOn(b.setup, vm);
    CaptureMovesOn(b.setup, vm);
    hide OpAt, ArmPreds, Eval, ApplyFrames, Build, RunTo, CaptureInto, MovesOn;
  }

  lemma OthersMoveOn(b: Battle, vm: Vm, after: Vm)
    requires b.Valid() && BattleStep(b, vm, after) && vm.pc < LENGTH && vm.status.Running? && !IsJump(OpAt(vm.pc, b.short, b.long))
    ensures MovesOn(vm, after)
    ensures OpAt(vm.pc, b.short, b.long).ReturnResult? ==> !after.status.Running?
  {
    if IsReader(OpAt(vm.pc, b.short, b.long)) {
      ReaderMovesOn(b, vm, after);
    } else {
      ReturnsOnly(vm);
      hide OpAt, ArmPreds, Eval, ApplyFrames, Build, RunTo, CaptureInto, ReturnWith, GetU32, Wrap32, EnvOf;
    }
  }

  lemma PcMoves(b: Battle, vm: Vm, after: Vm)
    requires b.Valid() && BattleStep(b, vm, after) && vm.pc < LENGTH && vm.status.Running? && after.status.Running?
    ensures Follows(b.short, b.long, vm.pc, after.pc)
  {
    if IsJump(OpAt(vm.pc, b.short, b.long)) {
      JumpMoves(b, vm, after);
    } else {
      OthersMoveOn(b, vm, after);
      hide OpAt, BattleStep;
    }
  }

  // ---------------------------------------------------------------- returning

  lemma ReadersGoOn(setup: Setup, vm: Vm)
    ensures vm.status.Running? ==>
              && !ArmPreds(setup, vm).status.Returned? && !Eval(setup, vm).status.Returned? && !ApplyFrames(vm).status.Returned?
              && !CaptureInto(setup, vm).status.Returned? && !RunTo(setup, vm).status.Returned?
              && (Decodes(setup) ==> !Build(setup, vm).status.Returned?)
  {
    hide Verdicts, TallyOf, Tallied, Strays, PredKeys, FramesIn, Get32, CaptureAll, CaptureStrays, WriteTurn, WithPlan, Failed, Blank, HitKey;
  }

  lemma ReaderGoesOn(b: Battle, vm: Vm, after: Vm)
    requires b.Valid() && BattleStep(b, vm, after) && vm.pc < LENGTH && vm.status.Running? && IsReader(OpAt(vm.pc, b.short, b.long))
    ensures !after.status.Returned?
  {
    ReadersGoOn(b.setup, vm);
    hide OpAt, ArmPreds, Eval, ApplyFrames, Build, RunTo, CaptureInto;
  }

  /** An operation that returns changes nothing else. */
  lemma ReturnsInPlace(b: Battle, vm: Vm, after: Vm)
    requires b.Valid() && BattleStep(b, vm, after) && vm.pc < LENGTH && vm.status.Running? && after.status.Returned?
    ensures after == vm.(status := after.status)
  {
    var op := OpAt(vm.pc, b.short, b.long);
    if IsJump(op) {
      JumpMoves(b, vm, after);
    } else {
      hide OpAt, IsReader, GetU32, EnvOf, Wrap32, ArmPreds, Eval, ApplyFrames, Build, RunTo, CaptureInto;
      if IsReader(op) { ReaderGoesOn(b, vm, after); } else { OtherReturns(b, vm, after); }
    }
  }

  lemma OtherReturns(b: Battle, vm: Vm, after: Vm)
    requires b.Valid() && BattleStep(b, vm, after) && vm.pc < LENGTH && vm.status.Running? && after.status.Returned?
    requires !IsJump(OpAt(vm.pc, b.short, b.long)) && !IsReader(OpAt(vm.pc, b.short, b.long))
    ensures after == vm.(status := after.status)
  {
    hide OpAt, GetU32, EnvOf, Wrap32;
  }
}
