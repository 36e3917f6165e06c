/** Which jobs can read outside their predicate table on a given machine: those with a record whose operand leaves the
    table at a breakpoint the machine can report; for each there is a game on which it happens. */
module BattleEscapes {
  import opened Bytes
  import opened ActionTypes
  import opened ScriptContext
  import opened AddrProgram
  import opened PredicatePacking
  import opened PayloadCodec
  import PathCodec
  import opened PlanWriter
  import opened PredicateEval
  import opened ScriptVm
  import opened BattleProgram
  import opened BattleRuns
  import opened BattleSteps
  import opened BattleFlow
  import opened BattleHistory
  import opened BattleOutcomes

  // ---------------------------------------------------------------- what a machine can report

  /** Some stop is reported with that key: the one at the key's own address. */
  ghost predicate Reported(b: Battle, key: u32)
    requires b.Valid()
  {
    0 < key < 0x1_0000 && b.setup.bpPc(key).Some? && HitKey(b.setup, Keys(b), b.setup.bpPc(key).value) == key
  }

  /** Evaluating record i can leave the table, at its own breakpoint or, without one, at any. */
  ghost predicate EvalExposed(b: Battle, i: nat)
    requires b.Valid() && i < b.job.predCount
  {
    var r := RecordAt(b.job.predTable, i);
    !Shelters(r) && exists key: u32 :: Reported(b, key) && r.requiredBp in {0, key}
  }

  /** Capturing it can, at a breakpoint that begins the first turn. */
  ghost predicate CaptureExposed(b: Battle, i: nat)
    requires b.Valid() && i < b.job.predCount
  {
    !SheltersCapture(RecordAt(b.job.predTable, i)) && exists key: u32 :: Reported(b, key) && LeadsOn(key, 0, b.Turns())
  }

  /** A condition on the table, the breakpoint map and whether the path has a turn. */
  ghost predicate Exposed(b: Battle)
    requires b.Valid()
  {
    exists i: nat :: i < b.job.predCount && (EvalExposed(b, i) || CaptureExposed(b, i))
  }

  lemma HitReported(b: Battle, run: nat)
    requires b.Valid() && run > 0 && HitOf(b, run) != 0
    ensures Reported(b, HitOf(b, run))
  {
    var pc := b.setup.events(run - 1).pc;
    var i := MatchedAt(b.setup, Keys(b), pc);
    var j := MatchedAt(b.setup, b.setup.canonical, pc);
    hide Keys, MatchKey;
  }

  /** The same machine and job, on another game. */
  ghost predicate SameMachine(a: Battle, b: Battle) {
    && a.job == b.job && a.short == b.short && a.long == b.long
    && a.setup.bpPc == b.setup.bpPc && a.setup.canonical == b.setup.canonical
  }

  lemma {:induction false} SameMatch(a: Setup, b: Setup, keys: seq<u16>, pc: u32)
    requires a.bpPc == b.bpPc
    ensures MatchKey(a, keys, pc) == MatchKey(b, keys, pc)
  {
    if keys != [] { SameMatch(a, b, keys[1..], pc); }
  }

  lemma {:induction false} SamePredKeys(a: Setup, b: Setup, table: seq<u8>, n: nat)
    requires a.bpPc == b.bpPc && n * RECORD_SIZE <= |table|
    ensures PredKeys(a, table, n) == PredKeys(b, table, n)
  {
    hide RecordAt;
    if n > 0 { SamePredKeys(a, b, table, n - 1); }
  }

  lemma SameReported(a: Battle, b: Battle, key: u32)
    requires a.Valid() && b.Valid() && SameMachine(a, b)
    ensures Reported(a, key) <==> Reported(b, key)
  {
    SamePredKeys(a.setup, b.setup, a.job.predTable, a.job.predCount);
    if 0 < key < 0x1_0000 && a.setup.bpPc(key).Some? {
      SameMatch(a.setup, b.setup, Keys(a), a.setup.bpPc(key).value);
      SameMatch(a.setup, b.setup, a.setup.canonical, a.setup.bpPc(key).value);
    }
    hide PredKeys, MatchKey;
  }

  lemma SameExposed(a: Battle, b: Battle)
    requires a.Valid() && b.Valid() && SameMachine(a, b)
    ensures Exposed(a) ==> Exposed(b)
  {
    hide Reported, RecordAt, Shelters, SheltersCapture;
    forall key: u32 ensures Reported(a, key) <==> Reported(b, key) { SameReported(a, b, key); }
    if Exposed(a) {
      var i: nat :| i < a.job.predCount && (EvalExposed(a, i) || CaptureExposed(a, i));
      assert EvalExposed(b, i) || CaptureExposed(b, i);
    }
  }

  // ---------------------------------------------------------------- a game that always stops at one address

  ghost function HostAt(machine: Setup, pc: u32, env: Env): Setup {
    Setup(CANONICAL, machine.bpPc, (battle: BattleContext) => [], (bytes: seq<u8>) => EMPTY_BATTLE,
          true, true, (ms: u32) => 0, 0, env, (n: nat) => Event(true, pc, 0, 0, 0, env))
  }

  ghost function GameOf(machine: Battle, pc: u32, env: Env): (b: Battle)
    requires machine.Valid()
    ensures b.Valid() && SameMachine(b, machine) && b.setup.firstLoad && b.setup.secondLoad
  {
    Battle(HostAt(machine.setup, pc, env), machine.job, machine.short, machine.long)
  }

  lemma StopsThere(machine: Battle, key: u32, env: Env, run: nat)
    requires machine.Valid() && Reported(machine, key) && run > 0
    ensures var b := GameOf(machine, machine.setup.bpPc(key).value, env);
            HitOf(b, run) == key && DwOf(b, run) == 0 && b.setup.events(run - 1).env == env
  {
    var b := GameOf(machine, machine.setup.bpPc(key).value, env);
    SameReported(machine, b, key);
    hide Keys, MatchKey, HitKey;
  }

  // ---------------------------------------------------------------- runs grow operation by operation

  lemma Grown(b: Battle, trace: seq<Vm>, next: Vm)
    requires Runs(b, trace) && trace[|trace| - 1].status.Running? && BattleStep(b, trace[|trace| - 1], next)
    ensures Runs(b, trace + [next])
  {
    var longer := trace + [next];
    hide ScriptVm.Step, Start, JobContext;
    forall i | 0 <= i < |longer| - 1
      ensures longer[i].status.Running? && ScriptVm.Step(b.setup, Program(b.short, b.long), longer[i], longer[i + 1])
    {
      if i < |trace| - 1 { assert longer[i] == trace[i] && longer[i + 1] == trace[i + 1]; }
    }
  }

  /** The operations that always go on. */
  predicate GoesOn(pc: nat) { pc <= 5 || pc in {14, 15, 17, 18, 19, 20, 21, 22, 23, 24, 27, 28} }

  lemma OnceOn(b: Battle, vm: Vm)
    requires b.Valid() && b.setup.firstLoad && b.setup.secondLoad && vm.status.Running? && Common(b, vm) && GoesOn(vm.pc)
    ensures var next := After(b.setup, Program(b.short, b.long), vm);
            next.status.Running? && next.runs == if vm.pc == 14 then vm.runs + 1 else vm.runs
  {
    if IsJump(OpAt(vm.pc, b.short, b.long)) {
      JumpMoves(b, vm, After(b.setup, Program(b.short, b.long), vm));
    } else {
      OtherOn(b, vm);
    }
  }

  lemma OtherOn(b: Battle, vm: Vm)
    requires b.Valid() && b.setup.secondLoad && vm.status.Running? && Common(b, vm) && GoesOn(vm.pc)
    requires !IsJump(OpAt(vm.pc, b.short, b.long))
    ensures var next := After(b.setup, Program(b.short, b.long), vm);
            next.status.Running? && next.runs == if vm.pc == 14 then vm.runs + 1 else vm.runs
  {
    hide Keys, PredKeys, HitKey, GetU32, Wrap32;
  }

  lemma Onward(b: Battle, trace: seq<Vm>) returns (longer: seq<Vm>)
    requires Runs(b, trace) && b.setup.firstLoad && b.setup.secondLoad
    requires trace[|trace| - 1].status.Running? && GoesOn(trace[|trace| - 1].pc)
    ensures b.Valid() && Runs(b, longer) && longer != [] && longer[|longer| - 1].status.Running?
    ensures Follows(b.short, b.long, trace[|trace| - 1].pc, longer[|longer| - 1].pc)
    ensures longer[|longer| - 1].runs == trace[|trace| - 1].runs + if trace[|trace| - 1].pc == 14 then 1 else 0
  {
    var vm := trace[|trace| - 1];
    var next := After(b.setup, Program(b.short, b.long), vm);
    longer := trace + [next];
    RunsGood(b, trace, |trace| - 1);
    OnceOn(b, vm);
    hide Follows, Zone, Common;
    PcMoves(b, vm, next);
    Grown(b, trace, next);
  }

  function LastOf(trace: seq<Vm>): Vm
    requires trace != []
  {
    trace[|trace| - 1]
  }

  /** A run up to an operation, after that many runs of the game. */
  ghost predicate At(b: Battle, trace: seq<Vm>, pc: nat, runs: nat) {
    && Runs(b, trace) && b.setup.firstLoad && b.setup.secondLoad
    && LastOf(trace).status.Running? && LastOf(trace).pc == pc && LastOf(trace).runs == runs
  }

  lemma AtParts(b: Battle, trace: seq<Vm>, pc: nat, runs: nat)
    requires At(b, trace, pc, runs)
    ensures b.Valid() && Runs(b, trace) && b.setup.firstLoad && b.setup.secondLoad && trace != []
    ensures LastOf(trace).status.Running? && LastOf(trace).pc == pc && LastOf(trace).runs == runs
  {
    RunStarts(b, trace);
    hide Runs;
  }

  lemma One(b: Battle, trace: seq<Vm>, pc: nat, runs: nat, next: nat) returns (longer: seq<Vm>)
    requires At(b, trace, pc, runs) && GoesOn(pc) && pc != 14
    requires forall q :: Follows(b.short, b.long, pc, q) ==> q == next
    ensures At(b, longer, next, runs)
  {
    hide Runs, Follows;
    longer := Onward(b, trace);
  }

  lemma ToRun(b: Battle) returns (trace: seq<Vm>)
    requires b.Valid() && b.setup.firstLoad && b.setup.secondLoad
    ensures At(b, trace, 14, 0)
  {
    trace := [Start(b.setup, JobContext(b))];
    assert At(b, trace, 0, 0);
    hide At;
    trace := One(b, trace, 0, 0, 1);
    trace := One(b, trace, 1, 0, 2);
    trace := One(b, trace, 2, 0, 3);
    trace := One(b, trace, 3, 0, 4);
    trace := One(b, trace, 4, 0, 5);
    trace := One(b, trace, 5, 0, 14);
  }

  /** A first run of the game that stops at a breakpoint is evaluated. */
  lemma ToEval(b: Battle) returns (trace: seq<Vm>)
    requires b.Valid() && b.setup.firstLoad && b.setup.secondLoad && DwOf(b, 1) == 0
    ensures At(b, trace, 16, 1)
  {
    hide DwOf, HitOf, Runs;
    trace := ToRun(b);
    trace := Onward(b, trace);
    assert At(b, trace, 15, 1);
    hide At;
    trace := PastDw(b, trace);
  }

  lemma PastDw(b: Battle, trace: seq<Vm>) returns (longer: seq<Vm>)
    requires At(b, trace, 15, 1) && DwOf(b, 1) == 0
    ensures At(b, longer, 16, 1)
  {
    hide Runs, Good, Zone, DwOf, Common;
    AtParts(b, trace, 15, 1);
    longer := Onward(b, trace);
    assert LastOf(longer).pc in {16, 40};
    hide Follows;
    RunsGood(b, longer, |longer| - 1);
    RunningZone(b, LastOf(longer));
    NotFailed(b, LastOf(longer));
  }

  lemma RunningZone(b: Battle, vm: Vm)
    requires b.Valid() && Good(b, vm) && vm.status.Running?
    ensures Zone(b, vm)
  {
    hide Zone, Common;
  }

  lemma NotFailed(b: Battle, vm: Vm)
    requires b.Valid() && Zone(b, vm)
    ensures vm.pc == 40 ==> vm.runs > 0 && DwOf(b, vm.runs) != 0
  {
    if vm.pc == 40 { DwFailedAt(b, vm); }
  }

  /** The evaluation of that first run. */
  lemma EvalAt(b: Battle, trace: seq<Vm>) returns (longer: seq<Vm>)
    requires At(b, trace, 16, 1) && b.job.predCount != 0 && HitOf(b, 1) != 0
    ensures Runs(b, longer)
    ensures var v := Verdicts(b.setup.events(0).env, b.job.predCount, b.job.predTable, BaselinesAt(b, 0), HitOf(b, 1));
            if Strays(v) then LastOf(longer).status.Undefined? else At(b, longer, 17, 1)
  {
    var vm := LastOf(trace);
    var next := After(b.setup, Program(b.short, b.long), vm);
    longer := trace + [next];
    AtEval(b, trace);
    Grown(b, trace, next);
    hide Runs, Eval, Verdicts, Strays, HitOf, Kept, Shows, BattleStep, After;
    EvalTallies(b, vm);
  }

  lemma AtEval(b: Battle, trace: seq<Vm>)
    requires At(b, trace, 16, 1)
    ensures var vm, next := LastOf(trace), After(b.setup, Program(b.short, b.long), LastOf(trace));
            && next == Eval(b.setup, vm) && BattleStep(b, vm, next) && Kept(b, vm.ctx) && Shows(b, vm)
            && vm.ctx[PRED_BASELINES].bytes == BaselinesAt(b, 0)
  {
    var vm := LastOf(trace);
    RunsGood(b, trace, |trace| - 1);
    RunsTraced(b, trace, |trace| - 1);
    hide Runs;
    WordsAt(b, vm);
    EvalOp(b, vm);
    hide Traced, Eval, Ran, HitOf, DwOf, BattleStep, After;
    CommonKept(b, vm);
    assert Ran(b, vm);
    RanParts(b, vm);
    hide Kept, Zone, Common, Shows;
  }

  lemma EvalOp(b: Battle, vm: Vm)
    requires b.Valid() && vm.pc == 16
    ensures var next := After(b.setup, Program(b.short, b.long), vm); next == Eval(b.setup, vm) && BattleStep(b, vm, next)
  {
    hide Eval;
  }

  lemma WordsAt(b: Battle, vm: Vm)
    requires b.Valid() && Traced(b, vm) && vm.pc == 16 && vm.runs == 1
    ensures Has(vm.ctx, PRED_BASELINES, Str(BaselinesAt(b, 0)))
  {
    hide Judgements, Battles, Seen, Advances, BaselinesAt, Turn, Blank;
  }

  // ---------------------------------------------------------------- an evaluation that leaves the table

  /** Stop the game at the record's own breakpoint. */
  lemma EvalEscape(machine: Battle, i: nat) returns (b: Battle, trace: seq<Vm>)
    requires machine.Valid() && i < machine.job.predCount && EvalExposed(machine, i)
    ensures SameMachine(b, machine) && Runs(b, trace) && LastOf(trace).status.Undefined?
  {
    var table := machine.job.predTable;
    var key: u32 :| Reported(machine, key) && RecordAt(table, i).requiredBp in {0, key};
    b := GameOf(machine, machine.setup.bpPc(key).value, ZEROS);
    StopsThere(machine, key, ZEROS, 1);
    hide Runs, RecordAt, Shelters, HitOf, DwOf, Judge, Reported;
    trace := ToEval(b);
    trace := EvalAt(b, trace);
    UnshelteredStrays(table, BaselinesAt(b, 0), key, i);
    assert Verdicts(ZEROS, machine.job.predCount, table, BaselinesAt(b, 0), key)[i].Strayed?;
  }

  // ---------------------------------------------------------------- a capture that leaves the table

  /** A game that cannot be read. */
  ghost const BLIND: Env := Env(Machine(k => 0, k => Mem1, (va, w) => None, None), (k, w) => None, None)

  lemma BlindReads(table: seq<u8>, offset: u32, width: u8)
    ensures !ReadOperand(table, offset, width, BLIND.machine).Got?
  {
    hide Exec;
  }

  lemma BlindJudges(table: seq<u8>, baselines: seq<u8>, hit: u32, i: nat)
    requires (i + 1) * RECORD_SIZE <= |table| && (i + 1) * 8 <= |baselines|
    ensures !Judge(BLIND, table, baselines, hit, i).Judged?
  {
    var r := RecordAt(table, i);
    BlindReads(table, r.lhsOffset, r.width);
    hide ReadOperand, RecordAt, Get64;
  }

  lemma BlindPasses(n: u32, table: seq<u8>, baselines: seq<u8>, hit: u32)
    requires Enough(n, table, baselines)
    ensures AllTrue(Verdicts(BLIND, n, table, baselines, hit))
  {
    hide Judge;
    forall i | 0 <= i < n ensures !Verdicts(BLIND, n, table, baselines, hit)[i].Judged? { BlindJudges(table, baselines, hit, i); }
  }

  /** Stop the game where the first turn begins, so that its baselines are captured. */
  lemma CaptureEscape(machine: Battle, i: nat) returns (b: Battle, trace: seq<Vm>)
    requires machine.Valid() && i < machine.job.predCount && CaptureExposed(machine, i)
    ensures SameMachine(b, machine) && Runs(b, trace) && LastOf(trace).status.Undefined?
  {
    var key: u32 :| Reported(machine, key) && LeadsOn(key, 0, machine.Turns());
    b := GameOf(machine, machine.setup.bpPc(key).value, BLIND);
    StopsThere(machine, key, BLIND, 1);
    BlindPasses(b.job.predCount, b.job.predTable, BaselinesAt(b, 0), key);
    hide Runs, RecordAt, SheltersCapture, HitOf, DwOf, Verdicts, Strays, AllTrue, Reported;
    trace := ToEval(b);
    trace := EvalAt(b, trace);
    if !LastOf(trace).status.Undefined? {
      trace := ToCapture(b, trace);
      hide At;
      trace := CaptureAt(b, trace, i);
    }
  }

  ghost predicate FirstClean(b: Battle)
    requires b.Valid()
  {
    b.job.predCount != 0 && LeadsOn(HitOf(b, 1), 0, b.Turns()) &&
    AllTrue(Verdicts(b.setup.events(0).env, b.job.predCount, b.job.predTable, BaselinesAt(b, 0), HitOf(b, 1)))
  }

  lemma ZoneHit(b: Battle, vm: Vm)
    requires b.Valid() && Zone(b, vm) && vm.runs > 0
    ensures vm.pc in {32, 34} ==> HitFits(vm.pc, HitOf(b, vm.runs))
    ensures vm.pc == 36 ==> Evaluated(b, vm) && Has(vm.ctx, PRED_ALL_PASSED, U32(0))
  {
    hide HitFits, Evaluated, BattleRuns.Running, HitOf;
  }

  /** A clean stop there is no end. */
  lemma Excluded(b: Battle, vm: Vm)
    requires b.Valid() && Zone(b, vm) && vm.runs == 1 && Judgements(b, vm.evaluations) && FirstClean(b)
    ensures vm.pc !in {32, 34, 36}
  {
    hide Zone, Evaluated, HitOf, Judgements, Verdicts;
    ZoneHit(b, vm);
    if vm.pc == 36 { CleanLatch(b, vm); }
  }

  lemma CleanLatch(b: Battle, vm: Vm)
    requires b.Valid() && Evaluated(b, vm) && vm.runs == 1 && Judgements(b, vm.evaluations) && FirstClean(b)
    ensures Has(vm.ctx, PRED_ALL_PASSED, U32(1))
  {
    hide Verdicts, AllTrue, HitOf, DwOf, Shows, Played, RecordAt;
    assert EvaluatedAt(b, 0, vm.evaluations[0]);
  }

  lemma Choose(b: Battle, trace: seq<Vm>, pc: nat, next: nat) returns (longer: seq<Vm>)
    requires At(b, trace, pc, 1) && GoesOn(pc) && pc != 14 && b.Valid() && FirstClean(b)
    requires forall q :: Follows(b.short, b.long, pc, q) ==> q == next || q in {32, 34, 36}
    ensures At(b, longer, next, 1)
  {
    hide Runs, Follows, FirstClean, Good, Traced;
    AtParts(b, trace, pc, 1);
    longer := Onward(b, trace);
    RunsGood(b, longer, |longer| - 1);
    RunsTraced(b, longer, |longer| - 1);
    CleanOn(b, LastOf(longer));
  }

  lemma CleanOn(b: Battle, vm: Vm)
    requires b.Valid() && vm.status.Running? && Good(b, vm) && Traced(b, vm) && vm.runs == 1 && FirstClean(b)
    ensures vm.pc !in {32, 34, 36}
  {
    hide Zone, Common, Words, Judgements, Battles, FirstClean, Seen, Advances, HitOf;
    Excluded(b, vm);
  }

  lemma ToCapture(b: Battle, trace: seq<Vm>) returns (longer: seq<Vm>)
    requires At(b, trace, 17, 1) && b.Valid() && FirstClean(b)
    ensures At(b, longer, 29, 1)
  {
    hide At, FirstClean;
    longer := Choose(b, trace, 17, 18);
    longer := Choose(b, longer, 18, 19);
    longer := Choose(b, longer, 19, 20);
    longer := Choose(b, longer, 20, 21);
    longer := ToAdvance(b, longer);
    longer := Choose(b, longer, 27, 28);
    longer := Choose(b, longer, 28, 29);
  }

  lemma CleanLeads(b: Battle)
    requires b.Valid() && FirstClean(b)
    ensures LeadsOn(HitOf(b, 1), 0, b.Turns())
  {
    hide HitOf, Verdicts;
  }

  /** From the check for a loaded battle to the next turn: at once, or by way of the checks of the input prompt. */
  lemma ToAdvance(b: Battle, trace: seq<Vm>) returns (longer: seq<Vm>)
    requires At(b, trace, 21, 1) && b.Valid() && FirstClean(b)
    ensures At(b, longer, 27, 1)
  {
    hide At, FirstClean, HitOf;
    CleanLeads(b);
    longer := Checked(b, trace, 21);
    if HitOf(b, 1) != BP_LOAD_COMPLETE {
      longer := Choose(b, longer, 22, 23);
      longer := Checked(b, longer, 23);
      longer := Checked(b, longer, 24);
    }
  }

  /** Where the three checks lead on the first hit. */
  function CheckTo(b: Battle, pc: nat): nat
    requires b.Valid()
  {
    if pc == 21 then if HitOf(b, 1) == BP_LOAD_COMPLETE then 27 else 22
    else if pc == 23 then if HitOf(b, 1) != BP_ACCEPT_INPUT then 14 else 24
    else if 0 < b.Turns() then 27 else 25
  }

  lemma Checked(b: Battle, trace: seq<Vm>, pc: nat) returns (longer: seq<Vm>)
    requires At(b, trace, pc, 1) && pc in {21, 23, 24}
    ensures b.Valid() && At(b, longer, CheckTo(b, pc), 1)
  {
    hide Runs, Good, Traced, BattleStep, After, CheckTo;
    AtParts(b, trace, pc, 1);
    var vm := LastOf(trace);
    var next := After(b.setup, Program(b.short, b.long), vm);
    longer := trace + [next];
    RunsGood(b, trace, |trace| - 1);
    RunsTraced(b, trace, |trace| - 1);
    StepsTo(b, vm, next);
    CheckGoes(b, vm, next);
    Grown(b, trace, next);
  }

  lemma StepsTo(b: Battle, vm: Vm, next: Vm)
    requires b.Valid() && next == After(b.setup, Program(b.short, b.long), vm)
    ensures BattleStep(b, vm, next)
  {
    hide After;
  }

  lemma CheckGoes(b: Battle, vm: Vm, next: Vm)
    requires b.Valid() && Good(b, vm) && Traced(b, vm) && vm.status.Running? && vm.pc in {21, 23, 24} && vm.runs == 1
    requires BattleStep(b, vm, next)
    ensures next == vm.(pc := CheckTo(b, vm.pc))
  {
    hide Common, BattleStep, BattleRuns.Running, HitOf, Knows;
    assert BattleRuns.Running(b, vm);
    RunningShows(b, vm);
    if vm.pc == 21 { GotoIfGoes(b, vm, next, RUN_HIT_BP_KEY, EQ, BP_LOAD_COMPLETE, Adv); }
    else if vm.pc == 23 { GotoIfGoes(b, vm, next, RUN_HIT_BP_KEY, NE, BP_ACCEPT_INPUT, RunTurn); }
    else {
      GotoIfKeysGoes(b, vm, next);
      NoTurnYetBegun(b, vm);
      CommonKept(b, vm);
    }
  }

  lemma NoTurnYetBegun(b: Battle, vm: Vm)
    requires b.Valid() && Traced(b, vm) && vm.pc == 24 && vm.runs == 1
    ensures GetU32(vm.ctx, ACTIVE_TURN, 0) == 0
  {
    hide Words, Judgements, Battles, Seen, Blank;
  }

  lemma CaptureAt(b: Battle, trace: seq<Vm>, i: nat) returns (longer: seq<Vm>)
    requires At(b, trace, 29, 1) && b.Valid() && i < b.job.predCount && !SheltersCapture(RecordAt(b.job.predTable, i))
    ensures Runs(b, longer) && LastOf(longer).status.Undefined?
  {
    var vm := LastOf(trace);
    var next := After(b.setup, Program(b.short, b.long), vm);
    longer := trace + [next];
    RunsGood(b, trace, |trace| - 1);
    Grown(b, trace, next);
    hide Runs, Captured;
    CaptureStep29(b, vm, next);
    hide After, BattleStep, CaptureInto, Zone;
    CommonKept(b, vm);
    hide Common, Kept;
    CaptureCases(b, vm);
    CaptureLeavesTable(b.job.predTable, i, b.setup.events(0).env);
    assert CaptureStrays(b.setup.events(0).env, b.job.predCount, b.job.predTable);
  }

  lemma CaptureLeavesTable(table: seq<u8>, i: nat, env: Env)
    requires (i + 1) * RECORD_SIZE <= |table| <= WRAP_START && !SheltersCapture(RecordAt(table, i))
    ensures Captured(env, table, i).Outside?
  {
    var r := RecordAt(table, i);
    OutsideExactlyWhen(table, r.lhsOffset, r.width, env.machine);
    hide ReadOperand, RecordAt;
  }

  // ---------------------------------------------------------------- only evaluating and capturing can

  lemma ArmDefined(b: Battle, vm: Vm)
    requires b.Valid() && Kept(b, vm.ctx) && vm.status.Running?
    ensures ArmPreds(b.setup, vm).status.Running?
  {
    hide PredKeys;
  }

  lemma ApplyDefined(b: Battle, vm: Vm)
    requires b.Valid() && Zone(b, vm) && vm.pc == 10 && vm.status.Running?
    ensures ApplyFrames(vm).status.Running?
  {
    hide ApplyFrames, JustBuilt, Planned, BuiltFine;
    BuiltContinues(b, vm);
    JustBuiltParts(b, vm);
    ApplySteps(b, vm, Planned(b, vm.built, Turn(vm.ctx)));
  }

  lemma BuildDefined(b: Battle, vm: Vm, after: Vm)
    requires StepFrom(b, vm, after, 8)
    ensures !after.status.Undefined?
  {
    StartsBuild(b, vm, after);
    hide StepFrom, Common, Before, Kept, Build;
    BuildCases(b, vm, after);
    hide WriteTurn, WithPlan, Failed, Counted32, Blank;
  }

  /** Arming, stepping the frames and running the game. */
  lemma HostDefined(b: Battle, vm: Vm, after: Vm)
    requires StepFrom(b, vm, after, vm.pc) && vm.pc in {1, 10, 14}
    ensures !after.status.Undefined?
  {
    hide StepFrom, Zone, Common, Kept, ArmPreds, ApplyFrames, RunTo, BattleStep;
    StepParts(b, vm, after, vm.pc);
    CommonKept(b, vm);
    if vm.pc == 1 { ArmDefined(b, vm); }
    if vm.pc == 10 { ApplyDefined(b, vm); }
    RunShape(b.setup, vm);
    HostOps(b, vm, after);
  }

  lemma HostOps(b: Battle, vm: Vm, after: Vm)
    requires b.Valid() && BattleStep(b, vm, after) && Kept(b, vm.ctx) && vm.pc in {1, 10, 14}
    ensures vm.pc == 1 ==> after == ArmPreds(b.setup, vm)
    ensures vm.pc == 10 ==> after == ApplyFrames(vm)
    ensures vm.pc == 14 ==> after == RunTo(b.setup, vm)
  {
    hide ArmPreds, ApplyFrames, RunTo;
  }

  lemma ReaderDefined(b: Battle, vm: Vm, after: Vm)
    requires StepFrom(b, vm, after, vm.pc) && vm.pc in {1, 8, 10, 14}
    ensures !after.status.Undefined?
  {
    hide StepFrom;
    if vm.pc == 8 { BuildDefined(b, vm, after); } else { HostDefined(b, vm, after); }
  }

  lemma OtherDefined(b: Battle, vm: Vm, after: Vm)
    requires b.Valid() && BattleStep(b, vm, after) && vm.pc < LENGTH && vm.status.Running? && !IsReader(OpAt(vm.pc, b.short, b.long))
    ensures !after.status.Undefined?
  {
    if IsJump(OpAt(vm.pc, b.short, b.long)) {
      JumpMoves(b, vm, after);
    } else {
      hide OpAt, GetU32, EnvOf, Wrap32;
    }
  }

  lemma ReaderPlaces(short: u32, long: u32, pc: nat)
    requires pc < LENGTH && IsReader(OpAt(pc, short, long))
    ensures pc in {1, 8, 10, 14, 16, 29}
  {
  }

  lemma UndefinedPlace(b: Battle, vm: Vm, after: Vm)
    requires StepFrom(b, vm, after, vm.pc) && after.status.Undefined?
    ensures vm.pc in {16, 29}
  {
    FromInProgram(b, vm, after);
    hide StepFrom, Common, Zone, BattleStep, OpAt;
    if IsReader(OpAt(vm.pc, b.short, b.long)) {
      ReaderPlaces(b.short, b.long, vm.pc);
      if vm.pc in {1, 8, 10, 14} { ReaderDefined(b, vm, after); }
    } else {
      OtherDefined(b, vm, after);
    }
  }

  // ---------------------------------------------------------------- and only of exposed records

  lemma JudgeExposes(b: Battle, env: Env, baselines: seq<u8>, hit: u32, i: nat)
    requires b.Valid() && i < b.job.predCount && |baselines| == |b.job.baselines| && Reported(b, hit)
    requires Judge(env, b.job.predTable, baselines, hit, i).Strayed?
    ensures EvalExposed(b, i)
  {
    hide Reported;
    JudgeAtOwn(env, b.job.predTable, baselines, hit, i);
    hide Judge, RecordAt, Shelters;
  }

  lemma JudgeAtOwn(env: Env, table: seq<u8>, baselines: seq<u8>, hit: u32, i: nat)
    requires (i + 1) * RECORD_SIZE <= |table| <= WRAP_START && (i + 1) * 8 <= |baselines|
    requires Judge(env, table, baselines, hit, i).Strayed?
    ensures !Shelters(RecordAt(table, i)) && RecordAt(table, i).requiredBp in {0, hit}
  {
    hide RecordAt, ReadOperand, Get64, Shelters;
    if Shelters(RecordAt(table, i)) { JudgeStays(env, table, baselines, hit, i); }
  }

  lemma EvalExposes(b: Battle, vm: Vm, after: Vm)
    requires StepFrom(b, vm, after, 16) && after.status.Undefined?
    ensures Exposed(b)
  {
    hide StepFrom, Common, Zone, BattleStep, Eval, Ran, HitOf, DwOf, Kept, Shows, Judge, TallyOf, Tallied;
    StepParts(b, vm, after, 16);
    EvalPlace(b, vm);
    SimpleOps(b, vm, after);
    RanParts(b, vm);
    CommonKept(b, vm);
    EvalTallies(b, vm);
    var baselines := vm.ctx[PRED_BASELINES].bytes;
    var v := Verdicts(b.setup.events(vm.runs - 1).env, b.job.predCount, b.job.predTable, baselines, HitOf(b, vm.runs));
    HitReported(b, vm.runs);
    hide Reported, EvalExposed, CaptureExposed;
    var i: nat :| i < |v| && v[i].Strayed?;
    JudgeExposes(b, b.setup.events(vm.runs - 1).env, baselines, HitOf(b, vm.runs), i);
  }

  lemma LeadsReported(b: Battle, vm: Vm)
    requires b.Valid() && Traced(b, vm) && vm.pc == 29
    ensures vm.runs > 0 && exists key: u32 :: Reported(b, key) && LeadsOn(key, 0, b.Turns())
  {
    hide Knows, HitOf, Advances, Reported;
    assert Leads(b, vm.runs);
    HitReported(b, vm.runs);
    assert LeadsOn(HitOf(b, vm.runs), 0, b.Turns());
  }

  lemma OutsideUnsheltered(b: Battle, env: Env, i: nat)
    requires b.Valid() && i < b.job.predCount && Captured(env, b.job.predTable, i).Outside?
    requires exists key: u32 :: Reported(b, key) && LeadsOn(key, 0, b.Turns())
    ensures CaptureExposed(b, i)
  {
    hide Captured, RecordAt, SheltersCapture, Reported;
    if SheltersCapture(RecordAt(b.job.predTable, i)) { CaptureStays(env, b.job.predTable, i); }
  }

  lemma CaptureExposes(b: Battle, vm: Vm, after: Vm)
    requires StepFrom(b, vm, after, 29) && Traced(b, vm) && after.status.Undefined?
    ensures Exposed(b)
  {
    hide StepFrom, Traced, CaptureInto, Kept, Reported, EvalExposed, CaptureExposed, Captured, RecordAt, SheltersCapture;
    CaptureOp(b, vm, after);
    LeadsReported(b, vm);
    CaptureCases(b, vm);
    var env := b.setup.events(vm.runs - 1).env;
    var i: nat :| i < b.job.predCount && Captured(env, b.job.predTable, i).Outside?;
    OutsideUnsheltered(b, env, i);
  }

  lemma EscapeExposes(b: Battle, trace: seq<Vm>)
    requires Runs(b, trace) && trace != [] && LastOf(trace).status.Undefined?
    ensures b.Valid() && Exposed(b)
  {
    RunStarts(b, trace);
    hide Runs, StepFrom, Traced, Exposed;
    var n := |trace| - 1;
    StartDefined(b, trace);
    OneOperation(b, trace, n - 1);
    StillRunning(b, trace, n - 1);
    RunsTraced(b, trace, n - 1);
    var vm, after := trace[n - 1], trace[n];
    UndefinedPlace(b, vm, after);
    if vm.pc == 16 { EvalExposes(b, vm, after); } else { CaptureExposes(b, vm, after); }
  }

  lemma StartDefined(b: Battle, trace: seq<Vm>)
    requires Runs(b, trace) && trace != [] && LastOf(trace).status.Undefined?
    ensures |trace| >= 2
  {
    RunStarts(b, trace);
    hide Runs, JobContext;
  }

  // ---------------------------------------------------------------- the exact condition

  /** On some game the machine's run of the job reads outside an object. */
  ghost predicate CanEscape(machine: Battle) {
    exists b: Battle, trace: seq<Vm> :: SameMachine(b, machine) && Escapes(b, trace)
  }

  ghost predicate Escapes(b: Battle, trace: seq<Vm>) {
    Runs(b, trace) && trace != [] && LastOf(trace).status.Undefined?
  }

  /** Main result: on a given machine, for a given job: there is a game on which a run reads outside its objects exactly
      when the job is exposed to a breakpoint the machine reports. */
  lemma EscapesExactlyWhen(machine: Battle)
    requires machine.Valid()
    ensures CanEscape(machine) <==> Exposed(machine)
  {
    if Exposed(machine) {
      var i: nat :| i < machine.job.predCount && (EvalExposed(machine, i) || CaptureExposed(machine, i));
      hide EvalExposed, CaptureExposed, Exposed, Runs;
      var b: Battle, trace: seq<Vm>;
      if EvalExposed(machine, i) { b, trace := EvalEscape(machine, i); } else { b, trace := CaptureEscape(machine, i); }
      assert SameMachine(b, machine) && Escapes(b, trace);
    }
    if CanEscape(machine) {
      hide Exposed, Runs;
      var b: Battle, trace: seq<Vm> :| SameMachine(b, machine) && Escapes(b, trace);
      EscapeExposes(b, trace);
      SameExposed(b, machine);
    }
  }

  /** A sheltered table is never exposed, whatever the machine. */
  lemma ShelteredStaysIn(machine: Battle)
    requires machine.Valid() && Sheltered(machine.job.predCount, machine.job.predTable)
    ensures !CanEscape(machine)
  {
    EscapesExactlyWhen(machine);
    hide CanEscape, Reported, RecordAt, Shelters, SheltersCapture;
  }

  // ---------------------------------------------------------------- a job that escapes, and the jobs that cannot

  const STRAY: Record := Record(0, 0, 0, 4, 0, 10, 0xFFFF_FFFF, 0, 0, 0xFFFF_FFFF, 0, 0, 0)
  const NO_INPUT: InputFrame := InputFrame(0, 128, 128, 128, 128, 0, 0)

  /** One active record whose left-hand program stands at the last offset of all. */
  function StrayBytes(): seq<u8> {
    HeaderBytes(VERSION, 0, 0, NO_INPUT) + (Counted(1, TableBytes([STRAY])) + (Counted(0, []) + Counted(0, [])))
  }

  /** Main result: the decoder accepts such a job, and any machine that can report a breakpoint at all can read outside
      its table at the job's first evaluation. */
  lemma StrayJobEscapes(machine: Battle)
    requires machine.Valid() && Decode(StrayBytes()) == Accepted(machine.job)
    ensures CanEscape(machine) <==> exists key: u32 :: Reported(machine, key)
  {
    hide CanEscape, Reported, RecordAt, Shelters, SheltersCapture, StrayBytes, Decode, TableBytes, Zeros, PathCodec.DecodePath;
    StrayDecodes();
    StrayUnsheltered(machine.job.predTable, machine.job.baselines);
    EscapesExactlyWhen(machine);
    if key: u32 :| Reported(machine, key) { assert EvalExposed(machine, 0); }
  }

  lemma StrayDecodes()
    ensures Decode(StrayBytes()).Accepted?
    ensures var job := Decode(StrayBytes()).payload;
            && job.predCount == 1 && job.predTable == TableBytes([STRAY]) + [] && job.baselines == Zeros(8)
            && job.path == PathCodec.DecodePath([]).path
  {
    var table := TableBytes([STRAY]);
    HeaderReads(EncodeSpec(0, 0, NO_INPUT, [], []), Counted(1, table) + (Counted(0, []) + Counted(0, [])));
    BlocksRead(HeaderBytes(VERSION, 0, 0, NO_INPUT), 1, table, [], []);
    hide Get32, GetFrame, HeaderBytes, TableBytes, PathCodec.DecodePath, Body, Counted, Zeros;
  }

  lemma StrayUnsheltered(table: seq<u8>, baselines: seq<u8>)
    requires table == TableBytes([STRAY]) + [] && baselines == Zeros(8)
    ensures Enough(1, table, baselines) && |table| <= WRAP_START
    ensures var r := RecordAt(table, 0); !Shelters(r) && SheltersCapture(r) && r.requiredBp == 0
  {
    RecordRoundTrip([STRAY], 0, []);
    hide TableBytes, RecordAt, Zeros;
  }

  /** Main result: no job that the encoder builds below 4 GiB can escape. */
  lemma BuiltJobsStay(s: EncodeSpec, records: seq<Record>)
    requires Fits(s.predicates) && |records| == |s.predicates|
    requires forall i | 0 <= i < |records| ::
               RecordFor(records[i], s.predicates[i], Programs(s.predicates), |s.predicates| * RECORD_SIZE)
    requires |PayloadBytes(s, records, Concat(Programs(s.predicates)))| < 0x1_0000_0000
    ensures Sheltered(|records|, TableBytes(records) + Concat(Programs(s.predicates)))
  {
    hide Concat, Programs, TableBytes, RecordFor, PathCodec.PathBytes, RecordAt, Fits;
    var blob := Concat(Programs(s.predicates));
    forall i | 0 <= i < |records|
      ensures Shelters(RecordAt(TableBytes(records) + blob, i)) && SheltersCapture(RecordAt(TableBytes(records) + blob, i))
    {
      RecordRoundTrip(records, i, blob);
      PackedOffsetsInside(s.predicates, records, i);
    }
  }
}
