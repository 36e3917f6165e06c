/** What holds at every operation of every run of the battle program on a decoded job. */
module BattleRuns {
  import opened Bytes
  import opened ActionTypes
  import opened ScriptContext
  import opened PredicatePacking
  import opened PayloadCodec
  import opened PlanWriter
  import opened PredicateEval
  import opened ScriptVm
  import opened BattleProgram

  /** A decoded job on some machine and host. */
  datatype Battle = Battle(setup: Setup, job: Payload, short: u32, long: u32) {
    ghost predicate Valid() {
      && Decodes(setup) && setup.canonical == CANONICAL
      && |job.path| < 0x2000_0000
      && Enough(job.predCount, job.predTable, job.baselines) && |job.predTable| <= WRAP_START
    }

    function Turns(): nat { |job.path| }
  }

  ghost predicate Has(ctx: Context, k: KeyId, v: Value) { k in ctx && ctx[k] == v }

  function Turn(ctx: Context): u32 { GetU32(ctx, ACTIVE_TURN, 0) }

  // ---------------------------------------------------------------- facts that hold throughout

  /** The job's own keys are never touched; of the baselines only the contents change. */
  ghost predicate Kept(b: Battle, ctx: Context) {
    && Has(ctx, LAST_TURN, U32(b.Turns() % 0x1_0000_0000)) && Has(ctx, TURN_PLANS, Path(b.job.path))
    && Has(ctx, PRED_COUNT, U32(b.job.predCount)) && Has(ctx, PRED_TABLE, Str(b.job.predTable))
    && PRED_BASELINES in ctx && ctx[PRED_BASELINES].Str? && |ctx[PRED_BASELINES].bytes| == |b.job.baselines|
    && Has(ctx, INITIAL_INPUT, Frame(b.job.initial))
  }

  function Keys(b: Battle): seq<u16>
    requires Enough(b.job.predCount, b.job.predTable, b.job.baselines)
  {
    PredKeys(b.setup, b.job.predTable, b.job.predCount)
  }

  /** The breakpoint key of a run of the host; 0 when none was hit. */
  function HitOf(b: Battle, run: nat): u32
    requires run > 0 && Enough(b.job.predCount, b.job.predTable, b.job.baselines)
  {
    var e := b.setup.events(run - 1);
    if e.hit then HitKey(b.setup, Keys(b), e.pc) else 0
  }

  /** Why the run of the host ended; 0 is a hit. */
  function DwOf(b: Battle, run: nat): u32
    requires run > 0
  {
    var e := b.setup.events(run - 1);
    if e.hit then 0 else if e.reason == 0 then 5 else e.reason
  }

  // ---------------------------------------------------------------- the plans

  ghost predicate BuiltFine(b: Battle, built: seq<BattleContext>) {
    && |built| <= b.Turns()
    && forall k | 0 <= k < |built| :: built[k].Valid() && b.job.path[k].fakeAttackCount <= 255
  }

  /** What the writer gives for turn k (counted from 0) on the context read before it. */
  ghost function WrittenFor(b: Battle, built: seq<BattleContext>, k: nat): Written
    requires BuiltFine(b, built) && k < |built|
  {
    WriteTurn(built[k], b.job.path[k])
  }

  /** A turn that does not end the run: it can be written, or an unsupported macro goes unreported. */
  ghost predicate Continues(w: Written) { w.ok || w.err == OK }

  /** The frames stepped in turn t (counted from 1): the turn's own, or, when it could not be written, once more
      those of the turn before. */
  ghost function Planned(b: Battle, built: seq<BattleContext>, t: nat): (f: seq<InputFrame>)
    requires BuiltFine(b, built) && t <= |built|
    ensures |f| < 0x1_0000_0000
    decreases t
  {
    if t == 0 then []
    else if WrittenFor(b, built, t - 1).ok then Counted32(WrittenFor(b, built, t - 1).frames)
    else Planned(b, built, t - 1)
  }

  /** The plan the context holds. */
  ghost predicate Holding(ctx: Context, frames: seq<InputFrame>) {
    || (INPUTPLAN_FRAME_COUNT !in ctx && INPUTPLAN !in ctx && frames == [])
    || (|frames| < 0x1_0000_0000 && Has(ctx, INPUTPLAN_FRAME_COUNT, Str(Le32(|frames|))) && Has(ctx, INPUTPLAN, Str(FramesBytes(frames))))
  }

  ghost predicate SteppedAs(b: Battle, vm: Vm, n: nat) {
    && BuiltFine(b, vm.built) && |vm.stepped| == n <= |vm.built|
    && forall k | 0 <= k < n :: vm.stepped[k] == Planned(b, vm.built, k + 1)
  }

  /** Exactly the first t turns were built and stepped, and the plan of turn t is still stored. */
  ghost predicate Played(b: Battle, vm: Vm, t: nat) {
    && BuiltFine(b, vm.built) && |vm.built| == t && SteppedAs(b, vm, t)
    && (forall k | 0 <= k < t :: Continues(WrittenFor(b, vm.built, k)))
    && Holding(vm.ctx, Planned(b, vm.built, t))
  }

  // ---------------------------------------------------------------- the predicates

  ghost predicate Clean(evaluations: seq<Evaluation>) {
    forall k | 0 <= k < |evaluations| :: AllTrue(evaluations[k].verdicts)
  }

  ghost predicate NoneFailed(vm: Vm) {
    Clean(vm.evaluations) && Has(vm.ctx, PRED_ALL_PASSED, U32(1))
  }

  /** Every evaluation before the last was clean, and the latch says whether the last one was. */
  ghost predicate Latched(b: Battle, vm: Vm) {
    && |vm.evaluations| > 0 && Clean(vm.evaluations[..|vm.evaluations| - 1])
    && var v := vm.evaluations[|vm.evaluations| - 1].verdicts;
       if AllTrue(v) then Has(vm.ctx, PRED_ALL_PASSED, U32(1))
       else
         && Has(vm.ctx, PRED_ALL_PASSED, U32(0))
         && (FirstFailure(v) + 1) * RECORD_SIZE <= |b.job.predTable|
         && Has(vm.ctx, PRED_FIRST_FAILED, U32(RecordAt(b.job.predTable, FirstFailure(v)).id))
  }

  /** The context shows the last run of the host. */
  ghost predicate Shows(b: Battle, vm: Vm)
    requires Enough(b.job.predCount, b.job.predTable, b.job.baselines)
  {
    && vm.runs > 0 && Has(vm.ctx, DW_RUN_OUTCOME_CODE, U32(DwOf(b, vm.runs)))
    && Has(vm.ctx, RUN_HIT_BP_KEY, U32(HitOf(b, vm.runs)))
  }

  // ---------------------------------------------------------------- place by place

  ghost predicate Common(b: Battle, vm: Vm)
    requires b.Valid()
  {
    Kept(b, vm.ctx) && (vm.pc < 2 ==> vm.predKeys == []) && (vm.pc >= 2 ==> vm.predKeys == Keys(b))
  }

  ghost predicate Fresh(b: Battle, vm: Vm) {
    && vm.runs == 0 && vm.built == [] && vm.stepped == [] && vm.evaluations == [] && Holding(vm.ctx, [])
    && Has(vm.ctx, PRED_ALL_PASSED, U32(1)) && (vm.pc >= 4 ==> Turn(vm.ctx) == 0)
  }

  /** All predicates true so far, after the last run of the host was evaluated. */
  ghost predicate Settled(b: Battle, vm: Vm)
    requires b.Valid()
  {
    NoneFailed(vm) && |vm.evaluations| == vm.runs && (vm.runs > 0 ==> Shows(b, vm) && DwOf(b, vm.runs) == 0)
  }

  /** Before the inputs of the active turn: the turns before it were played. */
  ghost predicate Before(b: Battle, vm: Vm)
    requires b.Valid()
  {
    var t := Turn(vm.ctx);
    Settled(b, vm) && vm.runs > 0 && 1 <= t <= b.Turns() + 1 && Played(b, vm, t - 1)
  }

  /** After BUILD: past the last turn, or the active turn was written (or not). */
  ghost predicate JustBuilt(b: Battle, vm: Vm)
    requires b.Valid()
  {
    var t := Turn(vm.ctx);
    && Settled(b, vm) && vm.runs > 0 && 1 <= t <= b.Turns() + 1
    && if t == b.Turns() + 1 then Played(b, vm, t - 1) && Has(vm.ctx, PLAN_MATERIALIZE_ERR, U32(ErrCode(OutOfTurns)))
       else
         && BuiltFine(b, vm.built) && |vm.built| == t && SteppedAs(b, vm, t - 1)
         && (forall k | 0 <= k < t - 1 :: Continues(WrittenFor(b, vm.built, k)))
         && Holding(vm.ctx, Planned(b, vm.built, t))
         && Has(vm.ctx, PLAN_MATERIALIZE_ERR, U32(ErrCode(WrittenFor(b, vm.built, t - 1).err)))
         && (INPUTPLAN in vm.ctx || Has(vm.ctx, PLAN_DONE, U32(1)))
  }

  ghost predicate Running(b: Battle, vm: Vm)
    requires b.Valid()
  {
    Settled(b, vm) && Turn(vm.ctx) <= b.Turns() && Played(b, vm, Turn(vm.ctx))
  }

  ghost predicate Ran(b: Battle, vm: Vm)
    requires b.Valid()
  {
    && NoneFailed(vm) && |vm.evaluations| == vm.runs - 1 && Shows(b, vm)
    && Turn(vm.ctx) <= b.Turns() && Played(b, vm, Turn(vm.ctx))
  }

  ghost predicate Evaluated(b: Battle, vm: Vm)
    requires b.Valid()
  {
    && Latched(b, vm) && |vm.evaluations| == vm.runs && Shows(b, vm) && DwOf(b, vm.runs) == 0
    && Turn(vm.ctx) <= b.Turns() && Played(b, vm, Turn(vm.ctx))
  }

  /** The hits already ruled out, or found, at a place. */
  ghost predicate HitFits(pc: nat, hit: u32) {
    && (pc == 32 ==> hit == BP_VICTORY) && (pc == 34 ==> hit == BP_DEFEAT)
    && (pc in {19, 20, 21, 22, 23, 24, 25, 34, 36} ==> hit != BP_VICTORY)
    && (pc in {20, 21, 22, 23, 24, 25, 36} ==> hit != BP_DEFEAT)
    && (pc in {22, 23, 24, 25} ==> hit != BP_LOAD_COMPLETE) && (pc in {24, 25} ==> hit == BP_ACCEPT_INPUT)
  }

  ghost predicate Zone(b: Battle, vm: Vm)
    requires b.Valid()
  {
    if vm.pc <= 5 then Fresh(b, vm)
    else if vm.pc == 7 || vm.pc == 8 || vm.pc == 29 || vm.pc == 30 then Before(b, vm)
    else if vm.pc == 9 then JustBuilt(b, vm)
    else if vm.pc == 38 then JustBuilt(b, vm) && GetU32(vm.ctx, PLAN_MATERIALIZE_ERR, 0) != 0
    else if vm.pc == 10 then JustBuilt(b, vm) && GetU32(vm.ctx, PLAN_MATERIALIZE_ERR, 0) == 0
    else if vm.pc == 11 then Running(b, vm) && vm.runs > 0 && Has(vm.ctx, PLAN_DONE, U32(1))
    else if vm.pc == 14 then Running(b, vm)
    else if vm.pc == 27 || vm.pc == 28 then Running(b, vm) && vm.runs > 0
    else if vm.pc == 15 || vm.pc == 16 || vm.pc == 40 then
      Ran(b, vm) && (vm.pc == 16 ==> DwOf(b, vm.runs) == 0) && (vm.pc == 40 ==> DwOf(b, vm.runs) != 0)
    else if 17 <= vm.pc <= 20 || vm.pc == 32 || vm.pc == 34 || vm.pc == 36 then
      Evaluated(b, vm) && HitFits(vm.pc, HitOf(b, vm.runs)) && (vm.pc == 36 ==> Has(vm.ctx, PRED_ALL_PASSED, U32(0)))
    else if 21 <= vm.pc <= 25 then
      Running(b, vm) && vm.runs > 0 && HitFits(vm.pc, HitOf(b, vm.runs)) && (vm.pc == 25 ==> Turn(vm.ctx) == b.Turns())
    else false
  }

  function OutcomeAt(pc: nat): u32 {
    if pc == 25 then TURNS_EXHAUSTED
    else if pc == 32 then VICTORY
    else if pc == 34 then DEFEAT
    else if pc == 36 then PRED_FAILURE
    else if pc == 38 then PLAN_MATERIALIZE_FAILURE
    else DW_RUN_ERR
  }

  /** How a run can end: with an outcome; or without one, when a snapshot does not load. */
  ghost predicate Ended(b: Battle, vm: Vm, ok: bool, ctx: Context)
    requires b.Valid()
  {
    || (vm.runs == 0 && !ok && ctx == map[] && !(b.setup.firstLoad && b.setup.secondLoad))
    || (vm.pc in {25, 32, 34, 36, 38, 40} && Common(b, vm) && Zone(b, vm)
        && ok == (GetU32(vm.ctx, DW_RUN_OUTCOME_CODE, 0) == 0) && ctx == vm.ctx[BATTLE_OUTCOME := U32(OutcomeAt(vm.pc))])
  }

  /** The only endless operation: more fake attacks than the 8-bit counter can count. */
  ghost predicate Stuck(b: Battle, vm: Vm) {
    1 <= Turn(vm.ctx) <= b.Turns() && b.job.path[Turn(vm.ctx) - 1].fakeAttackCount > 255
  }

  ghost predicate Good(b: Battle, vm: Vm)
    requires b.Valid()
  {
    match vm.status
    case Running => Common(b, vm) && Zone(b, vm)
    case Returned(ok, ctx) => Ended(b, vm, ok, ctx)
    case Hung => Stuck(b, vm)
    case Undefined => !Sheltered(b.job.predCount, b.job.predTable)
  }

  ghost predicate BattleStep(b: Battle, vm: Vm, after: Vm)
    requires b.Valid()
  {
    Step(b.setup, Program(b.short, b.long), vm, after)
  }
}
