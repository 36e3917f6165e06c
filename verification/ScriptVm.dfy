/** The script machine: a goto program over a key-value context, driven by a host that runs the game to its next
    breakpoint. Only the operations the battle program uses. */
module ScriptVm {
  import opened Bytes
  import opened ActionTypes
  import opened ScriptContext
  import opened PredicatePacking
  import opened PayloadCodec
  import opened PlanWriter
  import opened PredicateEval

  datatype LabelName =
    | ApplyInputs | RunTurn | Adv | RetSuccess | RetFailure | RetPredFailure | RetPlanMatFailure | RetDwRunError

  datatype PsCmp = EQ | NE | LT | LE | GT | GE

  datatype PsOp =
    | ArmPhaseBps
    | ArmBpsFromPredTable
    | LoadSnapshot
    | SetU32(key: KeyId, imm: u32)
    | AddU32(key: KeyId, imm: u32)
    | ApplyInputFrom(key: KeyId)
    | Label(name: LabelName)
    | Goto(target: LabelName)
    | GotoIf(key: KeyId, cmp: PsCmp, imm: u32, target: LabelName)
    | GotoIfKeys(left: KeyId, cmp: PsCmp, right: KeyId, target: LabelName)
    | GetBattleContext
    | BuildTurnInputPlan
    | ApplyInputPlanFrames
    | RunUntilBp
    | EvalPredicatesAtHitBp
    | RecordProgressAtBp
    | CapturePredBaselines
    | SetTimeout(ms: u32)
    | ReturnResult(key: KeyId, imm: u32)

  /** One return of the host: a hit at a program counter, or a reason (1..5) why none came; and the game then. */
  datatype Event = Event(hit: bool, pc: u32, reason: u32, elapsed: u32, fields: u32, env: Env)

  /** What a run of the machine depends on: the breakpoint map, the context codec, the snapshots, the host. */
  datatype Setup = Setup(
    canonical: seq<u16>, bpPc: u16 -> Option<u32>,
    encode: BattleContext -> seq<u8>, decode: seq<u8> -> BattleContext,
    firstLoad: bool, secondLoad: bool, pollMs: u32 -> u32, defaultTimeoutMs: u32,
    start: Env, events: nat -> Event)

  /** Undefined: the C++ code throws or reads outside an object. Hung: an operation that never ends. */
  datatype Status = Running | Returned(ok: bool, ctx: Context) | Hung | Undefined

  /** One evaluation: after which run of the host, and what every record gave. */
  datatype Evaluation = Evaluation(run: nat, verdicts: seq<Verdict>)

  /** The machine, and a record of what it did: what the controller was set to last, runs of the host, turns built, frames
      stepped, evaluations. */
  datatype Vm = Vm(
    pc: nat, ctx: Context, predKeys: seq<u16>, status: Status, held: Option<InputFrame>,
    runs: nat, built: seq<BattleContext>, stepped: seq<seq<InputFrame>>, evaluations: seq<Evaluation>)

  function EnvOf(setup: Setup, vm: Vm): Env {
    if vm.runs == 0 then setup.start else setup.events(vm.runs - 1).env
  }

  // ---------------------------------------------------------------- control flow

  /** The last label of that name, as the map built before the run has it. */
  function LabelAt(ops: seq<PsOp>, name: LabelName, from: nat): (r: Option<nat>)
    requires from <= |ops|
    ensures r.Some? ==> from <= r.value < |ops| && ops[r.value] == Label(name)
    decreases |ops| - from
  {
    if from == |ops| then None
    else
      var later := LabelAt(ops, name, from + 1);
      if later.Some? then later else if ops[from] == Label(name) then Some(from) else None
  }

  /** A jump continues behind its label; an unknown label is ignored. */
  function Jump(ops: seq<PsOp>, vm: Vm, name: LabelName): Vm {
    match LabelAt(ops, name, 0)
    case None => vm.(pc := vm.pc + 1)
    case Some(p) => vm.(pc := p + 1)
  }

  function Holds(a: u32, cmp: PsCmp, b: u32): bool {
    match cmp
    case EQ => a == b
    case NE => a != b
    case LT => a < b
    case LE => a <= b
    case GT => a > b
    case GE => a >= b
  }

  function Next(vm: Vm, ctx: Context): Vm { vm.(pc := vm.pc + 1, ctx := ctx) }

  // ---------------------------------------------------------------- single operations

  /** Keys of the canonical breakpoints, then of the predicates', matched by address; the latter win. */
  function MatchKey(setup: Setup, keys: seq<u16>, pc: u32): Option<u16> {
    if keys == [] then None
    else if setup.bpPc(keys[0]) == Some(pc) then Some(keys[0]) else MatchKey(setup, keys[1..], pc)
  }

  function HitKey(setup: Setup, predKeys: seq<u16>, pc: u32): u32 {
    var p := MatchKey(setup, predKeys, pc);
    if p.Some? then p.value
    else match MatchKey(setup, setup.canonical, pc) case None => 0 case Some(k) => k
  }

  function RunTo(setup: Setup, vm: Vm): Vm {
    var e := setup.events(vm.runs);
    var timeout := GetU32(vm.ctx, RUN_MS, setup.defaultTimeoutMs);
    var ctx := vm.ctx[DW_RUN_OUTCOME_CODE := U32(if e.hit then 0 else if e.reason == 0 then 5 else e.reason)]
                     [ELAPSED_MS := U32(e.elapsed)][RUN_HIT_PC := U32(if e.hit then e.pc else 0)]
                     [VI_LAST := U32(e.fields)][POLL_MS := U32(setup.pollMs(timeout))]
                     [RUN_HIT_BP_KEY := U32(if e.hit then HitKey(setup, vm.predKeys, e.pc) else 0)];
    Next(vm, ctx).(runs := vm.runs + 1)
  }

  /** The keys of the predicates' own breakpoints, as far as the map gives them an address. */
  function PredKeys(setup: Setup, table: seq<u8>, n: nat): seq<u16>
    requires n * RECORD_SIZE <= |table|
  {
    if n == 0 then []
    else
      var bp := RecordAt(table, n - 1).requiredBp;
      var pc := setup.bpPc(bp);
      PredKeys(setup, table, n - 1) + if pc.Some? && pc.value != 0 then [bp] else []
  }

  function ArmPreds(setup: Setup, vm: Vm): Vm {
    if PRED_COUNT !in vm.ctx || PRED_TABLE !in vm.ctx then Next(vm, vm.ctx)
    else if !vm.ctx[PRED_COUNT].U32? then vm.(status := Undefined)
    else
      var n := vm.ctx[PRED_COUNT].v32;
      if n == 0 || !vm.ctx[PRED_TABLE].Str? then Next(vm, vm.ctx)
      else if |vm.ctx[PRED_TABLE].bytes| < n * RECORD_SIZE then vm.(status := Undefined)
      else Next(vm, vm.ctx).(predKeys := vm.predKeys + PredKeys(setup, vm.ctx[PRED_TABLE].bytes, n))
  }

  function ErrCode(e: MaterializeErr): u32 {
    match e
    case OK => 0
    case NoValidTarget => 1
    case NotEnoughResource => 2
    case InvalidNavigation => 3
    case OutOfTurns => 4
    case BadBlob => 5
    case InvalidTurnIdxZero => 6
  }

  const EMPTY_BATTLE: BattleContext := BattleContext(seq(12, i => BattleSlot(0, 0, 0)), 0, 0)

  function Blank(vm: Vm, setup: Setup): BattleContext {
    if CTX_BLOB in vm.ctx && vm.ctx[CTX_BLOB].Str? then setup.decode(vm.ctx[CTX_BLOB].bytes) else EMPTY_BATTLE
  }

  function FramesBytes(frames: seq<InputFrame>): (b: seq<u8>)
    ensures |b| == |frames| * FRAME_SIZE
  {
    if frames == [] then [] else FramesBytes(frames[..|frames| - 1]) + FrameBytes(frames[|frames| - 1])
  }

  /** The frame count is a 32-bit number. */
  function Counted32(frames: seq<InputFrame>): (r: seq<InputFrame>)
    ensures |r| < 0x1_0000_0000 && (|frames| < 0x1_0000_0000 ==> r == frames)
  {
    frames[..Wrap32(|frames|)]
  }

  function Failed(ctx: Context, e: MaterializeErr): Context {
    ctx[PLAN_MATERIALIZE_ERR := U32(ErrCode(e))][PLAN_DONE := U32(1)]
  }

  function WithPlan(ctx: Context, frames: seq<InputFrame>): Context
    requires |frames| < 0x1_0000_0000
  {
    ctx[NUM_TURN_PLANS := U32(1)][INPUTPLAN_FRAME_COUNT := Str(Le32(|frames|))][INPUTPLAN := Str(FramesBytes(frames))]
       [PLAN_MATERIALIZE_ERR := U32(0)][PLAN_DONE := U32(0)]
  }

  /** Turn 0 is reported but not stopped, and then indexes the path below its start. */
  function Build(setup: Setup, vm: Vm): Vm
    requires forall b :: setup.decode(b).Valid()
  {
    var turn := GetU32(vm.ctx, ACTIVE_TURN, 0);
    var ctx := if turn == 0 then Failed(vm.ctx, InvalidTurnIdxZero) else vm.ctx;
    if TURN_PLANS !in ctx || !ctx[TURN_PLANS].Path? then Next(vm, Failed(ctx, BadBlob))
    else
      var path := ctx[TURN_PLANS].path;
      if turn > |path| then Next(vm, Failed(ctx, OutOfTurns))
      else if turn == 0 then vm.(status := Undefined, ctx := ctx)
      else
        var bc := Blank(vm, setup);
        if path[turn - 1].fakeAttackCount > 255 then vm.(status := Hung)
        else
          var w := WriteTurn(bc, path[turn - 1]);
          Next(vm, if w.ok then WithPlan(ctx, Counted32(w.frames)) else Failed(ctx, w.err)).(built := vm.built + [bc])
  }

  function FramesIn(table: seq<u8>, n: nat): (f: seq<InputFrame>)
    requires n * FRAME_SIZE <= |table|
    ensures |f| == n && forall i | 0 <= i < n :: f[i] == GetFrame(table, i * FRAME_SIZE)
  {
    seq(n, i requires 0 <= i < n => GetFrame(table, i * FRAME_SIZE))
  }

  /** Every frame sets the controller. */
  function HeldAfter(before: Option<InputFrame>, frames: seq<InputFrame>): Option<InputFrame> {
    if frames == [] then before else Some(frames[|frames| - 1])
  }

  /** Steps the stored frames; without a stored plan nothing happens. */
  function ApplyFrames(vm: Vm): Vm {
    if INPUTPLAN_FRAME_COUNT !in vm.ctx || INPUTPLAN !in vm.ctx then Next(vm, vm.ctx).(stepped := vm.stepped + [[]])
    else if !vm.ctx[INPUTPLAN_FRAME_COUNT].Str? || !vm.ctx[INPUTPLAN].Str? then Next(vm, vm.ctx).(stepped := vm.stepped + [[]])
    else
      var counts, table := vm.ctx[INPUTPLAN_FRAME_COUNT].bytes, vm.ctx[INPUTPLAN].bytes;
      if |counts| < 4 || |table| < Get32(counts, 0) * FRAME_SIZE then vm.(status := Undefined)
      else
        var plans := GetU32(vm.ctx, NUM_TURN_PLANS, 0);
        var frames := FramesIn(table, Get32(counts, 0));
        Next(vm, vm.ctx[PLAN_DONE := U32(1)][NUM_TURN_PLANS := U32(if plans > 0 then plans - 1 else 0)])
          .(stepped := vm.stepped + [frames], held := HeldAfter(vm.held, frames))
  }

  function Eval(setup: Setup, vm: Vm): Vm {
    var ctx := vm.ctx;
    if PRED_COUNT !in ctx || PRED_TABLE !in ctx || PRED_BASELINES !in ctx || RUN_HIT_BP_KEY !in ctx then
      Next(vm, ctx).(evaluations := vm.evaluations + [Evaluation(vm.runs, [])])
    else if !ctx[PRED_COUNT].U32? || !ctx[RUN_HIT_BP_KEY].U32? then vm.(status := Undefined)
    else
      var n, hit := ctx[PRED_COUNT].v32, ctx[RUN_HIT_BP_KEY].v32;
      if n == 0 || hit == 0 || !ctx[PRED_TABLE].Str? || !ctx[PRED_BASELINES].Str? then
        Next(vm, ctx).(evaluations := vm.evaluations + [Evaluation(vm.runs, [])])
      else
        var table, baselines := ctx[PRED_TABLE].bytes, ctx[PRED_BASELINES].bytes;
        if !Enough(n, table, baselines) then vm.(status := Undefined)
        else
          var v := Verdicts(EnvOf(setup, vm), n, table, baselines, hit);
          if Strays(v) then vm.(status := Undefined)
          else
            Next(vm, Tallied(ctx, TallyOf(v, GetU32(ctx, PRED_TOTAL, 0), GetU32(ctx, PRED_ALL_PASSED, 1), table)))
              .(evaluations := vm.evaluations + [Evaluation(vm.runs, v)])
  }

  function Tallied(ctx: Context, t: Tally): Context {
    (if t.firstFailed.Some? then ctx[PRED_FIRST_FAILED := U32(t.firstFailed.value)] else ctx)
      [PRED_PASSED := U32(t.passed)][PRED_ALL_PASSED := U32(t.allPassed)][PRED_TOTAL := U32(t.total)]
  }

  function CaptureInto(setup: Setup, vm: Vm): Vm {
    var ctx := vm.ctx;
    if PRED_COUNT !in ctx || PRED_TABLE !in ctx || PRED_BASELINES !in ctx then Next(vm, ctx)
    else if !ctx[PRED_COUNT].U32? then vm.(status := Undefined)
    else
      var n := ctx[PRED_COUNT].v32;
      if n == 0 || !ctx[PRED_TABLE].Str? || !ctx[PRED_BASELINES].Str? then Next(vm, ctx)
      else
        var table, baselines := ctx[PRED_TABLE].bytes, ctx[PRED_BASELINES].bytes;
        if !Enough(n, table, baselines) || CaptureStrays(EnvOf(setup, vm), n, table) then vm.(status := Undefined)
        else Next(vm, ctx[PRED_BASELINES := Str(CaptureAll(EnvOf(setup, vm), n, table, baselines))])
  }

  function ReturnWith(vm: Vm, key: KeyId, imm: u32): Vm {
    vm.(status := Returned(GetU32(vm.ctx, DW_RUN_OUTCOME_CODE, 0) == 0, vm.ctx[key := U32(imm)]))
  }

  // ---------------------------------------------------------------- one step

  /** A failed load of the snapshot returns the default result at once. */
  const NOTHING: Status := Returned(false, map[])

  ghost predicate Decodes(setup: Setup) { forall b :: setup.decode(b).Valid() }

  /** The machine after one operation. */
  function After(setup: Setup, ops: seq<PsOp>, vm: Vm): Vm
    requires Decodes(setup)
  {
    if vm.pc >= |ops| then vm.(status := Returned(true, map[]))
    else
      match ops[vm.pc]
      case ArmPhaseBps | Label(_) | RecordProgressAtBp => Next(vm, vm.ctx)
      case ArmBpsFromPredTable => ArmPreds(setup, vm)
      case LoadSnapshot => if setup.secondLoad then Next(vm, vm.ctx) else vm.(status := NOTHING)
      case SetU32(key, imm) => Next(vm, vm.ctx[key := U32(imm)])
      case AddU32(key, imm) => Next(vm, vm.ctx[key := U32(Wrap32(GetU32(vm.ctx, key, 0) as int + imm))])
      case ApplyInputFrom(key) => if key in vm.ctx && vm.ctx[key].Frame? then Next(vm, vm.ctx).(held := Some(vm.ctx[key].frame)) else vm.(status := NOTHING)
      case Goto(name) => Jump(ops, vm, name)
      case GotoIf(key, cmp, imm, name) =>
        if Holds(GetU32(vm.ctx, key, 0), cmp, imm) then Jump(ops, vm, name) else Next(vm, vm.ctx)
      case GotoIfKeys(left, cmp, right, name) =>
        if Holds(GetU32(vm.ctx, left, 0), cmp, GetU32(vm.ctx, right, 0)) then Jump(ops, vm, name) else Next(vm, vm.ctx)
      case GetBattleContext =>
        var bc := EnvOf(setup, vm).battle;
        Next(vm, if bc.Some? then vm.ctx[CTX_BLOB := Str(setup.encode(bc.value))] else vm.ctx)
      case BuildTurnInputPlan => Build(setup, vm)
      case ApplyInputPlanFrames => ApplyFrames(vm)
      case RunUntilBp => RunTo(setup, vm)
      case EvalPredicatesAtHitBp => Eval(setup, vm)
      case CapturePredBaselines => CaptureInto(setup, vm)
      case SetTimeout(ms) => Next(vm, vm.ctx[RUN_MS := U32(ms)])
      case ReturnResult(key, imm) => ReturnWith(vm, key, imm)
  }

  /** The comparisons as numbers: an absent key counts as 0. */
  ghost predicate Compared(a: int, cmp: PsCmp, b: int) {
    match cmp
    case EQ => a == b
    case NE => !(a == b)
    case LT => a < b
    case LE => !(b < a)
    case GT => b < a
    case GE => !(a < b)
  }

  function WordAt(ctx: Context, key: KeyId): int { if key in ctx && ctx[key].U32? then ctx[key].v32 else 0 }

  /** Main result: a conditional jump continues behind its label exactly when the comparison of the word with the constant
      holds, and with the next operation otherwise. */
  lemma JumpsExactlyWhen(setup: Setup, ops: seq<PsOp>, vm: Vm, key: KeyId, cmp: PsCmp, imm: u32, target: LabelName, p: nat)
    requires Decodes(setup) && vm.pc < |ops| && ops[vm.pc] == GotoIf(key, cmp, imm, target) && LabelAt(ops, target, 0) == Some(p)
    ensures After(setup, ops, vm) == vm.(pc := if Compared(WordAt(vm.ctx, key), cmp, imm) then p + 1 else vm.pc + 1)
  {
    hide LabelAt;
  }

  /** Main result: likewise for two words. */
  lemma KeysJumpExactlyWhen(setup: Setup, ops: seq<PsOp>, vm: Vm, left: KeyId, cmp: PsCmp, right: KeyId, target: LabelName, p: nat)
    requires Decodes(setup) && vm.pc < |ops| && ops[vm.pc] == GotoIfKeys(left, cmp, right, target) && LabelAt(ops, target, 0) == Some(p)
    ensures After(setup, ops, vm) == vm.(pc := if Compared(WordAt(vm.ctx, left), cmp, WordAt(vm.ctx, right)) then p + 1 else vm.pc + 1)
  {
    hide LabelAt;
  }

  ghost predicate Step(setup: Setup, ops: seq<PsOp>, vm: Vm, after: Vm)
    requires Decodes(setup)
  {
    after == After(setup, ops, vm)
  }

  function Start(setup: Setup, ctx: Context): Vm {
    Vm(0, ctx, [], if setup.firstLoad then Status.Running else NOTHING, None, 0, [], [], [])
  }

  /** All operations up to here: from the first machine to the last, step by step. */
  ghost predicate Execution(setup: Setup, ops: seq<PsOp>, ctx: Context, trace: seq<Vm>)
    requires Decodes(setup)
  {
    && trace != [] && trace[0] == Start(setup, ctx)
    && forall i | 0 <= i < |trace| - 1 :: trace[i].status.Running? && Step(setup, ops, trace[i], trace[i + 1])
  }

  // ---------------------------------------------------------------- stored frames

  lemma {:induction false} FramesRead(frames: seq<InputFrame>, i: nat, post: seq<u8>)
    requires i < |frames|
    ensures GetFrame(FramesBytes(frames) + post, i * FRAME_SIZE) == frames[i]
  {
    hide GetFrame, FrameBytes;
    var front, last := frames[..|frames| - 1], frames[|frames| - 1];
    if i == |frames| - 1 {
      assert FramesBytes(frames) + post == FramesBytes(front) + FrameBytes(last) + post;
      GetFrameBytes(FramesBytes(front), last, post);
    } else {
      assert FramesBytes(frames) + post == FramesBytes(front) + (FrameBytes(last) + post);
      FramesRead(front, i, FrameBytes(last) + post);
    }
  }

  lemma StoredFrames(frames: seq<InputFrame>)
    requires |frames| < 0x1_0000_0000
    ensures Get32(Le32(|frames|), 0) == |frames|
    ensures forall i | 0 <= i < |frames| :: GetFrame(FramesBytes(frames), i * FRAME_SIZE) == frames[i]
  {
    assert [] + Le32(|frames|) + [] == Le32(|frames|);
    Get32Le32([], |frames|, []);
    forall i | 0 <= i < |frames| ensures GetFrame(FramesBytes(frames), i * FRAME_SIZE) == frames[i] {
      assert FramesBytes(frames) + [] == FramesBytes(frames);
      FramesRead(frames, i, []);
    }
  }
}
