/** The battle program: the constant script every battle job runs. */
module BattleProgram {
  import opened Bytes
  import opened ScriptContext
  import opened ScriptVm

  const BP_ACCEPT_INPUT: u16 := 203
  const BP_INPUTS_DONE: u16 := 204
  const BP_VICTORY: u16 := 209
  const BP_DEFEAT: u16 := 210
  const BP_LOAD_COMPLETE: u16 := 211

  const CANONICAL: seq<u16> := [BP_ACCEPT_INPUT, BP_INPUTS_DONE, BP_VICTORY, BP_DEFEAT, BP_LOAD_COMPLETE]

  const VICTORY: u32 := 0
  const DEFEAT: u32 := 1
  const PRED_FAILURE: u32 := 2
  const PLAN_MATERIALIZE_FAILURE: u32 := 3
  const TURNS_EXHAUSTED: u32 := 4
  const DW_RUN_ERR: u32 := 5

  const LENGTH: nat := 41

  /** The operation at each place. */
  function OpAt(i: nat, short: u32, long: u32): PsOp
    requires i < LENGTH
  {
    if i == 0 then ArmPhaseBps
    else if i == 1 then ArmBpsFromPredTable
    else if i == 2 then LoadSnapshot
    else if i == 3 then SetU32(ACTIVE_TURN, 0)
    else if i == 4 then ApplyInputFrom(INITIAL_INPUT)
    else if i == 5 then Goto(RunTurn)
    else if i == 6 then Label(ApplyInputs)
    else if i == 7 then GetBattleContext
    else if i == 8 then BuildTurnInputPlan
    else if i == 9 then GotoIf(PLAN_MATERIALIZE_ERR, NE, 0, RetPlanMatFailure)
    else if i == 10 then ApplyInputPlanFrames
    else if i == 11 then GotoIf(PLAN_DONE, EQ, 1, RunTurn)
    else if i == 12 then Goto(ApplyInputs)
    else if i == 13 then Label(RunTurn)
    else if i == 14 then RunUntilBp
    else if i == 15 then GotoIf(DW_RUN_OUTCOME_CODE, NE, 0, RetDwRunError)
    else if i == 16 then EvalPredicatesAtHitBp
    else if i == 17 then RecordProgressAtBp
    else if i == 18 then GotoIf(RUN_HIT_BP_KEY, EQ, BP_VICTORY, RetSuccess)
    else if i == 19 then GotoIf(RUN_HIT_BP_KEY, EQ, BP_DEFEAT, RetFailure)
    else if i == 20 then GotoIf(PRED_ALL_PASSED, EQ, 0, RetPredFailure)
    else if i == 21 then GotoIf(RUN_HIT_BP_KEY, EQ, BP_LOAD_COMPLETE, Adv)
    else if i == 22 then SetTimeout(long)
    else if i == 23 then GotoIf(RUN_HIT_BP_KEY, NE, BP_ACCEPT_INPUT, RunTurn)
    else if i == 24 then GotoIfKeys(ACTIVE_TURN, LT, LAST_TURN, Adv)
    else if i == 25 then ReturnResult(BATTLE_OUTCOME, TURNS_EXHAUSTED)
    else if i == 26 then Label(Adv)
    else if i == 27 then SetTimeout(short)
    else if i == 28 then AddU32(ACTIVE_TURN, 1)
    else if i == 29 then CapturePredBaselines
    else if i == 30 then Goto(ApplyInputs)
    else if i == 31 then Label(RetSuccess)
    else if i == 32 then ReturnResult(BATTLE_OUTCOME, VICTORY)
    else if i == 33 then Label(RetFailure)
    else if i == 34 then ReturnResult(BATTLE_OUTCOME, DEFEAT)
    else if i == 35 then Label(RetPredFailure)
    else if i == 36 then ReturnResult(BATTLE_OUTCOME, PRED_FAILURE)
    else if i == 37 then Label(RetPlanMatFailure)
    else if i == 38 then ReturnResult(BATTLE_OUTCOME, PLAN_MATERIALIZE_FAILURE)
    else if i == 39 then Label(RetDwRunError)
    else ReturnResult(BATTLE_OUTCOME, DW_RUN_ERR)
  }

  function Program(short: u32, long: u32): (ops: seq<PsOp>)
    ensures |ops| == LENGTH
  {
    seq(LENGTH, i requires 0 <= i < LENGTH => OpAt(i, short, long))
  }

  ghost predicate Built(ops: seq<PsOp>, n: nat, short: u32, long: u32) {
    |ops| == n <= LENGTH && forall i | 0 <= i < n :: ops[i] == OpAt(i, short, long)
  }

  /** Building the program operation by operation gives exactly that. */
  method MakeBattleRunnerProgram(short: u32, long: u32) returns (ops: seq<PsOp>)
    ensures ops == Program(short, long)
  {
    ops := [ArmPhaseBps];
    ops := ops + [ArmBpsFromPredTable];
    ops := ops + [LoadSnapshot];
    ops := ops + [SetU32(ACTIVE_TURN, 0)];
    ops := ops + [ApplyInputFrom(INITIAL_INPUT)];
    ops := ops + [Goto(RunTurn)];
    assert Built(ops, 6, short, long);
    ops := AddTurnInputs(ops, short, long);
    ops := AddRunTurn(ops, short, long);
    ops := AddReturns(ops, short, long);
  }

  method AddTurnInputs(before: seq<PsOp>, ghost short: u32, ghost long: u32) returns (ops: seq<PsOp>)
    requires Built(before, 6, short, long)
    ensures Built(ops, 13, short, long)
  {
    ops := before + [Label(ApplyInputs)];
    ops := ops + [GetBattleContext];
    ops := ops + [BuildTurnInputPlan];
    ops := ops + [GotoIf(PLAN_MATERIALIZE_ERR, NE, 0, RetPlanMatFailure)];
    ops := ops + [ApplyInputPlanFrames];
    ops := ops + [GotoIf(PLAN_DONE, EQ, 1, RunTurn)];
    ops := ops + [Goto(ApplyInputs)];
  }

  method AddRunTurn(before: seq<PsOp>, short: u32, long: u32) returns (ops: seq<PsOp>)
    requires Built(before, 13, short, long)
    ensures Built(ops, 31, short, long)
  {
    ops := before + [Label(RunTurn)];
    ops := ops + [RunUntilBp];
    ops := ops + [GotoIf(DW_RUN_OUTCOME_CODE, NE, 0, RetDwRunError)];
    ops := ops + [EvalPredicatesAtHitBp];
    ops := ops + [RecordProgressAtBp];
    ops := ops + [GotoIf(RUN_HIT_BP_KEY, EQ, BP_VICTORY, RetSuccess)];
    ops := ops + [GotoIf(RUN_HIT_BP_KEY, EQ, BP_DEFEAT, RetFailure)];
    ops := ops + [GotoIf(PRED_ALL_PASSED, EQ, 0, RetPredFailure)];
    ops := ops + [GotoIf(RUN_HIT_BP_KEY, EQ, BP_LOAD_COMPLETE, Adv)];
    ops := ops + [SetTimeout(long)];
    assert Built(ops, 23, short, long);
    ops := ops + [GotoIf(RUN_HIT_BP_KEY, NE, BP_ACCEPT_INPUT, RunTurn)];
    ops := ops + [GotoIfKeys(ACTIVE_TURN, LT, LAST_TURN, Adv)];
    ops := ops + [ReturnResult(BATTLE_OUTCOME, TURNS_EXHAUSTED)];
    ops := ops + [Label(Adv)];
    ops := ops + [SetTimeout(short)];
    ops := ops + [AddU32(ACTIVE_TURN, 1)];
    ops := ops + [CapturePredBaselines];
    ops := ops + [Goto(ApplyInputs)];
  }

  method AddReturns(before: seq<PsOp>, ghost short: u32, ghost long: u32) returns (ops: seq<PsOp>)
    requires Built(before, 31, short, long)
    ensures Built(ops, LENGTH, short, long)
  {
    ops := before + [Label(RetSuccess)];
    ops := ops + [ReturnResult(BATTLE_OUTCOME, VICTORY)];
    ops := ops + [Label(RetFailure)];
    ops := ops + [ReturnResult(BATTLE_OUTCOME, DEFEAT)];
    ops := ops + [Label(RetPredFailure)];
    ops := ops + [ReturnResult(BATTLE_OUTCOME, PRED_FAILURE)];
    ops := ops + [Label(RetPlanMatFailure)];
    ops := ops + [ReturnResult(BATTLE_OUTCOME, PLAN_MATERIALIZE_FAILURE)];
    ops := ops + [Label(RetDwRunError)];
    ops := ops + [ReturnResult(BATTLE_OUTCOME, DW_RUN_ERR)];
  }

  // ---------------------------------------------------------------- where the labels are

  function Place(name: LabelName): nat {
    match name
    case ApplyInputs => 6
    case RunTurn => 13
    case Adv => 26
    case RetSuccess => 31
    case RetFailure => 33
    case RetPredFailure => 35
    case RetPlanMatFailure => 37
    case RetDwRunError => 39
  }

  lemma LabelsOnce(short: u32, long: u32, i: nat, name: LabelName)
    requires i < LENGTH
    ensures OpAt(i, short, long) == Label(name) <==> i == Place(name)
  {
  }

  lemma {:induction false} LabelFound(ops: seq<PsOp>, name: LabelName, from: nat, at: nat)
    requires from <= at < |ops| && forall i | 0 <= i < |ops| :: ops[i] == Label(name) <==> i == at
    ensures LabelAt(ops, name, from) == Some(at)
    decreases at - from
  {
    if from < at { LabelFound(ops, name, from + 1, at); } else { NoLabel(ops, name, at + 1); }
  }

  lemma {:induction false} NoLabel(ops: seq<PsOp>, name: LabelName, from: nat)
    requires from <= |ops| && forall i | from <= i < |ops| :: ops[i] != Label(name)
    ensures LabelAt(ops, name, from) == None
    decreases |ops| - from
  {
    if from < |ops| { NoLabel(ops, name, from + 1); }
  }

  /** Every jump of the program finds its label. */
  lemma JumpGoes(short: u32, long: u32, vm: Vm, name: LabelName)
    ensures Jump(Program(short, long), vm, name) == vm.(pc := Place(name) + 1)
  {
    hide OpAt;
    var ops := Program(short, long);
    forall i | 0 <= i < |ops| ensures ops[i] == Label(name) <==> i == Place(name) { LabelsOnce(short, long, i, name); }
    LabelFound(ops, name, 0, Place(name));
  }
}
