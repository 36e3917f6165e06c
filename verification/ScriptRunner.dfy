/** The script machine's loop as it runs: the switch over the operations, each updating the context in place. */
module ScriptRunner {
  import opened Bytes
  import opened ActionTypes
  import opened ScriptContext
  import opened PredicatePacking
  import opened PayloadCodec
  import PlanWriter
  import opened PredicateEval
  import opened ScriptVm

  class PhaseScriptVm {
    const setup: Setup
    const ops: seq<PsOp>
    var pc: nat
    var ctx: Context
    var predKeys: seq<u16>
    var status: Status
    var labels: map<LabelName, nat>
    var runs: nat
    ghost var held: Option<InputFrame>
    ghost var built: seq<BattleContext>
    ghost var stepped: seq<seq<InputFrame>>
    ghost var evaluations: seq<Evaluation>

    ghost function State(): Vm
      reads this
    {
      Vm(pc, ctx, predKeys, status, held, runs, built, stepped, evaluations)
    }

    /** The label map agrees with the program. */
    ghost predicate Valid()
      reads this
    {
      && Decodes(setup)
      && forall name :: match LabelAt(ops, name, 0)
                        case None => name !in labels
                        case Some(p) => name in labels && labels[name] == p
    }

    constructor (setup: Setup, ops: seq<PsOp>, job: Context)
      ensures this.setup == setup && this.ops == ops && State() == Start(setup, job) && labels == map[]
    {
      this.setup, this.ops := setup, ops;
      pc, ctx, predKeys, runs, labels := 0, job, [], 0, map[];
      status := if setup.firstLoad then Status.Running else NOTHING;
      held, built, stepped, evaluations := None, [], [], [];
    }

    /** Later labels of the same name win. */
    method MapLabels()
      requires labels == map[] && Decodes(setup)
      modifies this`labels
      ensures Valid()
    {
      for i := 0 to |ops|
        invariant forall name :: match LastLabel(ops, name, i)
                                 case None => name !in labels
                                 case Some(p) => name in labels && labels[name] == p
      {
        if ops[i].Label? { labels := labels[ops[i].name := i]; }
      }
      forall name { LastIsAt(ops, name, 0, |ops|); }
    }

    method JumpTo(name: LabelName)
      requires Valid()
      modifies this`pc
      ensures State() == Jump(ops, old(State()), name)
    {
      if name in labels { pc := labels[name] + 1; } else { pc := pc + 1; }
    }

    function Get(k: KeyId, default: u32): u32
      reads this
    {
      GetU32(ctx, k, default)
    }

    method FindKey(keys: seq<u16>, at: u32) returns (r: Option<u16>)
      ensures r == MatchKey(setup, keys, at)
    {
      for i := 0 to |keys|
        invariant MatchKey(setup, keys, at) == MatchKey(setup, keys[i..], at)
      {
        if setup.bpPc(keys[i]) == Some(at) { return Some(keys[i]); }
      }
      return None;
    }

    method RunUntilBreakpoint()
      requires status.Running?
      modifies this
      ensures State() == RunTo(setup, old(State())) && labels == old(labels)
    {
      var timeout := Get(RUN_MS, setup.defaultTimeoutMs);
      var e := setup.events(runs);
      var hit: u32 := 0;
      if e.hit {
        var k := FindKey(setup.canonical, e.pc);
        if k.Some? { hit := k.value; }
        k := FindKey(predKeys, e.pc);
        if k.Some? { hit := k.value; }
      }
      ctx := ctx[DW_RUN_OUTCOME_CODE := U32(if e.hit then 0 else if e.reason == 0 then 5 else e.reason)];
      ctx := ctx[ELAPSED_MS := U32(e.elapsed)];
      ctx := ctx[RUN_HIT_PC := U32(if e.hit then e.pc else 0)];
      ctx := ctx[VI_LAST := U32(e.fields)];
      ctx := ctx[POLL_MS := U32(setup.pollMs(timeout))];
      ctx := ctx[RUN_HIT_BP_KEY := U32(hit)];
      runs := runs + 1;
      pc := pc + 1;
    }

    method ArmPredicates()
      requires status.Running?
      modifies this
      ensures State() == ArmPreds(setup, old(State())) && labels == old(labels)
    {
      hide RecordAt;
      if PRED_COUNT !in ctx || PRED_TABLE !in ctx { pc := pc + 1; return; }
      if !ctx[PRED_COUNT].U32? { status := Undefined; return; }
      var n := ctx[PRED_COUNT].v32;
      if n == 0 || !ctx[PRED_TABLE].Str? { pc := pc + 1; return; }
      var table := ctx[PRED_TABLE].bytes;
      if |table| < n * RECORD_SIZE { status := Undefined; return; }
      for i := 0 to n
        invariant predKeys == old(predKeys) + PredKeys(setup, table, i)
        invariant State() == old(State()).(predKeys := predKeys) && labels == old(labels)
      {
        var bp := RecordAt(table, i).requiredBp;
        var at := setup.bpPc(bp);
        if at.Some? && at.value != 0 { predKeys := predKeys + [bp]; }
      }
      pc := pc + 1;
    }

    method BuildPlan()
      requires Valid() && status.Running?
      modifies this
      ensures State() == Build(setup, old(State())) && labels == old(labels)
    {
      hide PlanWriter.WriteTurn, FramesBytes;
      var turn := Get(ACTIVE_TURN, 0);
      if turn == 0 { ctx := Failed(ctx, PlanWriter.InvalidTurnIdxZero); }
      if TURN_PLANS !in ctx || !ctx[TURN_PLANS].Path? {
        ctx := Failed(ctx, PlanWriter.BadBlob);
        pc := pc + 1;
        return;
      }
      var path := ctx[TURN_PLANS].path;
      if turn > |path| {
        ctx := Failed(ctx, PlanWriter.OutOfTurns);
        pc := pc + 1;
        return;
      }
      if turn == 0 { status := Undefined; return; }
      var bc := EMPTY_BATTLE;
      if CTX_BLOB in ctx && ctx[CTX_BLOB].Str? { bc := setup.decode(ctx[CTX_BLOB].bytes); }
      var writer := new PlanWriter.Writer(bc);
      var ended, ok, err := writer.BuildTurn(path[turn - 1]);
      if !ended { status := Hung; return; }
      if ok {
        ctx := WithPlan(ctx, Counted32(writer.out));
      } else {
        ctx := Failed(ctx, err);
      }
      built := built + [bc];
      pc := pc + 1;
    }

    /** Steps the stored frames one by one; the host sees them in this order. */
    method ApplyPlan()
      requires status.Running?
      modifies this
      ensures State() == ApplyFrames(old(State())) && labels == old(labels)
    {
      hide GetFrame, Get32, FramesIn;
      if INPUTPLAN_FRAME_COUNT !in ctx || INPUTPLAN !in ctx {
        stepped := stepped + [[]];
        pc := pc + 1;
        return;
      }
      if !ctx[INPUTPLAN_FRAME_COUNT].Str? || !ctx[INPUTPLAN].Str? {
        stepped := stepped + [[]];
        pc := pc + 1;
        return;
      }
      var counts, table := ctx[INPUTPLAN_FRAME_COUNT].bytes, ctx[INPUTPLAN].bytes;
      if |counts| < 4 || |table| < Get32(counts, 0) * FRAME_SIZE { status := Undefined; return; }
      var count := Get32(counts, 0);
      ghost var frames := [];
      for i := 0 to count
        invariant |frames| == i && forall k | 0 <= k < i :: frames[k] == GetFrame(table, k * FRAME_SIZE)
        invariant held == HeldAfter(old(held), frames) && State() == old(State()).(held := held) && labels == old(labels)
      {
        var f := GetFrame(table, i * FRAME_SIZE);
        held := Some(f);
        frames := frames + [f];
      }
      assert frames == FramesIn(table, count);
      stepped := stepped + [frames];
      ctx := ctx[PLAN_DONE := U32(1)];
      var plans := Get(NUM_TURN_PLANS, 0);
      ctx := ctx[NUM_TURN_PLANS := U32(if plans > 0 then plans - 1 else 0)];
      pc := pc + 1;
    }

    method EvalPredicates()
      requires status.Running?
      modifies this
      ensures State() == Eval(setup, old(State())) && labels == old(labels)
    {
      hide Verdicts, TallyOf, Tallied, Strays;
      var total, allPassed := Get(PRED_TOTAL, 0), Get(PRED_ALL_PASSED, 1);
      if PRED_COUNT !in ctx || PRED_TABLE !in ctx || PRED_BASELINES !in ctx || RUN_HIT_BP_KEY !in ctx {
        evaluations := evaluations + [Evaluation(runs, [])];
        pc := pc + 1;
        return;
      }
      if !ctx[PRED_COUNT].U32? || !ctx[RUN_HIT_BP_KEY].U32? { status := Undefined; return; }
      var n, hit := ctx[PRED_COUNT].v32, ctx[RUN_HIT_BP_KEY].v32;
      if n == 0 || hit == 0 || !ctx[PRED_TABLE].Str? || !ctx[PRED_BASELINES].Str? {
        evaluations := evaluations + [Evaluation(runs, [])];
        pc := pc + 1;
        return;
      }
      var table, baselines := ctx[PRED_TABLE].bytes, ctx[PRED_BASELINES].bytes;
      if !Enough(n, table, baselines) { status := Undefined; return; }
      var env := if runs == 0 then setup.start else setup.events(runs - 1).env;
      var t := Evaluate(env, n, table, baselines, hit, total, allPassed);
      if t.None? { status := Undefined; return; }
      evaluations := evaluations + [Evaluation(runs, Verdicts(env, n, table, baselines, hit))];
      ctx := Tallied(ctx, t.value);
      pc := pc + 1;
    }

    method CaptureBaselines()
      requires status.Running?
      modifies this
      ensures State() == CaptureInto(setup, old(State())) && labels == old(labels)
    {
      hide CaptureAll, CaptureStrays;
      if PRED_COUNT !in ctx || PRED_TABLE !in ctx || PRED_BASELINES !in ctx { pc := pc + 1; return; }
      if !ctx[PRED_COUNT].U32? { status := Undefined; return; }
      var n := ctx[PRED_COUNT].v32;
      if n == 0 || !ctx[PRED_TABLE].Str? || !ctx[PRED_BASELINES].Str? { pc := pc + 1; return; }
      var table, baselines := ctx[PRED_TABLE].bytes, ctx[PRED_BASELINES].bytes;
      if !Enough(n, table, baselines) { status := Undefined; return; }
      var env := if runs == 0 then setup.start else setup.events(runs - 1).env;
      var after := Capture(env, n, table, baselines);
      if after.None? { status := Undefined; return; }
      ctx := ctx[PRED_BASELINES := Str(after.value)];
      pc := pc + 1;
    }

    method Branch(taken: bool, name: LabelName)
      requires Valid()
      modifies this`pc
      ensures State() == if taken then Jump(ops, old(State()), name) else Next(old(State()), old(ctx))
    {
      if taken { JumpTo(name); } else { pc := pc + 1; }
    }

    /** One round of the loop. */
    method RunOp()
      requires Valid() && status.Running?
      modifies this
      ensures labels == old(labels) && Step(setup, ops, old(State()), State())
    {
      hide ArmPreds, Build, ApplyFrames, RunTo, Eval, CaptureInto, Jump, ReturnWith, LabelAt;
      if pc >= |ops| { status := Returned(true, map[]); return; }
      match ops[pc] {
        case ArmPhaseBps => pc := pc + 1;
        case Label(_) => pc := pc + 1;
        case RecordProgressAtBp => pc := pc + 1;
        case ArmBpsFromPredTable => ArmPredicates();
        case LoadSnapshot => if setup.secondLoad { pc := pc + 1; } else { status := NOTHING; }
        case SetU32(key, imm) => Put(key, imm);
        case AddU32(key, imm) => Put(key, Wrap32(Get(key, 0) as int + imm));
        case ApplyInputFrom(key) =>
          if key in ctx && ctx[key].Frame? {
            held := Some(ctx[key].frame);
            pc := pc + 1;
          } else {
            status := NOTHING;
          }
        case Goto(name) => JumpTo(name);
        case GotoIf(key, cmp, imm, name) => Branch(Holds(Get(key, 0), cmp, imm), name);
        case GotoIfKeys(left, cmp, right, name) => Branch(Holds(Get(left, 0), cmp, Get(right, 0)), name);
        case GetBattleContext => ReadBattle();
        case BuildTurnInputPlan => BuildPlan();
        case ApplyInputPlanFrames => ApplyPlan();
        case RunUntilBp => RunUntilBreakpoint();
        case EvalPredicatesAtHitBp => EvalPredicates();
        case CapturePredBaselines => CaptureBaselines();
        case SetTimeout(ms) => Put(RUN_MS, ms);
        case ReturnResult(key, imm) => Return(key, imm);
      }
    }

    method Put(key: KeyId, v: u32)
      modifies this
      ensures State() == Next(old(State()), old(ctx)[key := U32(v)]) && labels == old(labels)
    {
      ctx := ctx[key := U32(v)];
      pc := pc + 1;
    }

    method ReadBattle()
      modifies this
      ensures labels == old(labels)
      ensures var bc := EnvOf(setup, old(State())).battle;
              State() == Next(old(State()), if bc.Some? then old(ctx)[CTX_BLOB := Str(setup.encode(bc.value))] else old(ctx))
    {
      var env := if runs == 0 then setup.start else setup.events(runs - 1).env;
      if env.battle.Some? { ctx := ctx[CTX_BLOB := Str(setup.encode(env.battle.value))]; }
      pc := pc + 1;
    }

    method Return(key: KeyId, imm: u32)
      modifies this
      ensures State() == ReturnWith(old(State()), key, imm) && labels == old(labels)
    {
      status := Returned(Get(DW_RUN_OUTCOME_CODE, 0) == 0, ctx[key := U32(imm)]);
    }

    /** The loop, for at most the given number of operations: it walks one execution of the program. */
    method Run(limit: nat) returns (ghost trace: seq<Vm>)
      requires labels == map[] && Decodes(setup) && State() == Start(setup, ctx)
      modifies this
      ensures Execution(setup, ops, old(ctx), trace) && trace[|trace| - 1] == State()
      ensures status.Running? ==> |trace| == limit + 1
    {
      hide Step, Start, LabelAt;
      ghost var job := ctx;
      trace := [State()];
      MapLabels();
      var n := 0;
      while n < limit && status.Running?
        invariant Valid() && n <= limit && |trace| == n + 1
        invariant Execution(setup, ops, job, trace) && trace[|trace| - 1] == State()
        decreases limit - n
      {
        RunOp();
        trace := trace + [State()];
        n := n + 1;
      }
    }
  }

  function LastLabel(ops: seq<PsOp>, name: LabelName, n: nat): (r: Option<nat>)
    requires n <= |ops|
    ensures r.Some? ==> r.value < n
  {
    if n == 0 then None else if ops[n - 1] == Label(name) then Some(n - 1) else LastLabel(ops, name, n - 1)
  }

  /** The last label at all: none between from and n, looked for from either end. */
  lemma {:induction false} LastIsAt(ops: seq<PsOp>, name: LabelName, from: nat, n: nat)
    requires from <= n == |ops|
    ensures LabelAt(ops, name, from) == if LastLabel(ops, name, n).Some? && LastLabel(ops, name, n).value >= from then LastLabel(ops, name, n) else None
    decreases n - from
  {
    LastFacts(ops, name, n);
    if from < n { LastIsAt(ops, name, from + 1, n); }
  }

  lemma {:induction false} LastFacts(ops: seq<PsOp>, name: LabelName, n: nat)
    requires n <= |ops|
    ensures match LastLabel(ops, name, n)
            case None => forall i | 0 <= i < n :: ops[i] != Label(name)
            case Some(p) => ops[p] == Label(name) && forall i | p < i < n :: ops[i] != Label(name)
  {
    if n > 0 { LastFacts(ops, name, n - 1); }
  }
}
