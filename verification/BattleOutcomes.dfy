/** Every run of the battle program on a decoded job: it never leaves the path's bounds, works a bounded number of
    operations between two runs of the game, steps exactly the planned frames, and its outcome tells the truth. */
module BattleOutcomes {
  import opened Bytes
  import opened ActionTypes
  import opened ScriptContext
  import opened PredicatePacking
  import PathCodec
  import opened PayloadCodec
  import opened PlanWriter
  import MenuReplay
  import opened PredicateEval
  import opened ScriptVm
  import opened BattleProgram
  import opened BattleRuns
  import opened BattleSteps
  import opened BattleFlow
  import opened BattleHistory

  // ---------------------------------------------------------------- every step, every run

  lemma StepKeeps(b: Battle, vm: Vm, after: Vm)
    requires StepFrom(b, vm, after, vm.pc)
    ensures Good(b, after)
  {
    PlacesLive(b, vm);
    hide Zone, Common, BattleStep, Good;
    if vm.pc <= 5 {
      if vm.pc == 1 { StepArm(b, vm, after); }
      else if vm.pc == 2 { StepLoad(b, vm, after); }
      else if vm.pc == 5 { StepToRun(b, vm, after); }
      else { StepOpening(b, vm, after); }
    }
    else if vm.pc == 7 { StepContext(b, vm, after); }
    else if vm.pc == 8 { StepBuild(b, vm, after); }
    else if vm.pc == 9 { StepCheckPlan(b, vm, after); }
    else if vm.pc == 10 { StepApply(b, vm, after); }
    else if vm.pc == 11 { StepPlanDone(b, vm, after); }
    else if vm.pc == 14 { StepRun(b, vm, after); }
    else if vm.pc == 15 { StepDwError(b, vm, after); }
    else if vm.pc == 16 { StepEval(b, vm, after); }
    else if vm.pc == 17 { StepRecord(b, vm, after); }
    else if vm.pc == 18 { StepVictory(b, vm, after); }
    else if vm.pc == 19 { StepDefeat(b, vm, after); }
    else if vm.pc == 20 { StepPredFailure(b, vm, after); }
    else if vm.pc == 21 { StepLoadComplete(b, vm, after); }
    else if vm.pc == 22 { StepLongTimeout(b, vm, after); }
    else if vm.pc == 23 { StepNotYet(b, vm, after); }
    else if vm.pc == 24 { StepLastTurn(b, vm, after); }
    else if vm.pc == 27 { StepShortTimeout(b, vm, after); }
    else if vm.pc == 28 { StepAdvance(b, vm, after); }
    else if vm.pc == 29 { StepCapture(b, vm, after); }
    else if vm.pc == 30 { StepToInputs(b, vm, after); }
    else { StepReturn(b, vm, after); }
  }

  function JobContext(b: Battle): Context
    requires |b.job.path| < 0x1_0000_0000
  {
    ContextOf(map[], b.job)
  }

  lemma StartGood(b: Battle)
    requires b.Valid()
    ensures Good(b, Start(b.setup, JobContext(b)))
  {
    var vm := Start(b.setup, JobContext(b));
    hide Keys, FramesBytes;
    assert Kept(b, vm.ctx);
    if b.setup.firstLoad { assert Fresh(b, vm); }
  }

  /** All operations of a run of the battle program so far. */
  ghost predicate Runs(b: Battle, trace: seq<Vm>) {
    b.Valid() && Execution(b.setup, Program(b.short, b.long), JobContext(b), trace)
  }

  /** Main lemma: every machine of every run is good. */
  lemma {:induction false} RunsGood(b: Battle, trace: seq<Vm>, i: nat)
    requires Runs(b, trace) && i < |trace|
    ensures Good(b, trace[i])
    decreases i
  {
    hide Good;
    if i == 0 {
      StartGood(b);
    } else {
      RunsGood(b, trace, i - 1);
      var vm, after := trace[i - 1], trace[i];
      assert vm.status.Running? && Step(b.setup, Program(b.short, b.long), vm, after);
      GoodFrom(b, vm, after);
      StepKeeps(b, vm, after);
    }
  }

  lemma GoodFrom(b: Battle, vm: Vm, after: Vm)
    requires b.Valid() && Good(b, vm) && vm.status.Running? && Step(b.setup, Program(b.short, b.long), vm, after)
    ensures StepFrom(b, vm, after, vm.pc)
  {
    hide Common, Zone, Step;
  }

  lemma StartsTraced(b: Battle)
    requires b.Valid()
    ensures Traced(b, Start(b.setup, JobContext(b)))
  {
  }

  /** Main lemma: every machine of every run agrees with what the host reported. */
  lemma {:induction false} RunsTraced(b: Battle, trace: seq<Vm>, i: nat)
    requires Runs(b, trace) && i < |trace| && (trace[i].status.Running? || trace[i].status.Returned?)
    ensures Traced(b, trace[i])
    decreases i
  {
    hide Runs, Good, Traced, StepFrom;
    if i == 0 {
      RunStarts(b, trace);
      StartsTraced(b);
    } else {
      var vm, after := trace[i - 1], trace[i];
      StillRunning(b, trace, i - 1);
      RunsTraced(b, trace, i - 1);
      OneOperation(b, trace, i - 1);
      if after.status.Running? { TracedKeeps(b, vm, after); } else { ReturnTraced(b, vm, after); }
    }
  }

  lemma RunStarts(b: Battle, trace: seq<Vm>)
    requires Runs(b, trace)
    ensures b.Valid() && trace != [] && trace[0] == Start(b.setup, JobContext(b))
  {
    hide JobContext, Start, Step;
  }

  lemma ReturnTraced(b: Battle, vm: Vm, after: Vm)
    requires StepFrom(b, vm, after, vm.pc) && Traced(b, vm) && after.status.Returned?
    ensures Traced(b, after)
  {
    FromInProgram(b, vm, after);
    hide StepFrom, BattleStep, Common, Zone;
    ReturnsInPlace(b, vm, after);
  }

  /** What the decoder guarantees of every job it accepts, so that the results below apply to it. */
  lemma DecodedJobFits(bytes: seq<u8>, b: Battle)
    requires |bytes| < 0x1_0000_0000 && Decode(bytes) == Accepted(b.job)
    requires Decodes(b.setup) && b.setup.canonical == CANONICAL
    ensures b.Valid() && b.job.baselines == Zeros(b.job.predCount * 8)
  {
    hide Get32, PathCodec.DecodePath, GetFrame;
    assert exists plans :: |plans| <= |bytes| && b.job.path == PathCodec.DecodePath(plans).path by { PathPart(bytes); }
    var plans :| |plans| <= |bytes| && b.job.path == PathCodec.DecodePath(plans).path;
  }

  lemma PathPart(bytes: seq<u8>)
    requires Decode(bytes).Accepted?
    ensures exists plans :: |plans| <= |bytes| && Decode(bytes).payload.path == PathCodec.DecodePath(plans).path
  {
    hide Get32, PathCodec.DecodePath, GetFrame;
  }

  // ---------------------------------------------------------------- bounds

  /** Main result: no run reads outside the path or the stored frames, and on a sheltered table none reads outside
      the table. */
  lemma NeverUndefined(b: Battle, trace: seq<Vm>, i: nat)
    requires Runs(b, trace) && i < |trace|
    ensures trace[i].status.Undefined? ==> !Sheltered(b.job.predCount, b.job.predTable)
  {
    RunsGood(b, trace, i);
    hide Common, Zone, Ended, Stuck;
  }

  /** Main result: turns are built from 1 on, run up to the last one, and never more than one past it. */
  lemma TurnInRange(b: Battle, trace: seq<Vm>, i: nat)
    requires Runs(b, trace) && i < |trace| && trace[i].status.Running?
    ensures var t := Turn(trace[i].ctx);
            && (trace[i].pc == 8 ==> 1 <= t <= b.Turns() + 1 && |trace[i].built| == t - 1)
            && (trace[i].pc == 14 ==> t <= b.Turns() && |trace[i].built| == t)
            && (trace[i].pc >= 4 ==> t <= b.Turns() + 1)
    ensures |trace[i].built| <= b.Turns()
  {
    hide Common, Settled, Shows, Latched, Holding, Planned, WrittenFor, Continues, NoneFailed, HitFits;
    RunsGood(b, trace, i);
    var vm := trace[i];
  }

  /** Main result: the inputs of a turn are applied once: the jump back to apply them again is never reached. */
  lemma InputsAppliedOnce(b: Battle, trace: seq<Vm>, i: nat)
    requires Runs(b, trace) && i < |trace| && trace[i].status.Running?
    ensures trace[i].pc != 12 && (trace[i].pc == 11 ==> Has(trace[i].ctx, PLAN_DONE, U32(1)))
  {
    hide Common, Fresh, Before, JustBuilt, BattleRuns.Running, Ran, Evaluated, HitFits;
    RunsGood(b, trace, i);
  }

  /** How far the next run of the game is at most. */
  function Rank(pc: nat): nat {
    if pc <= 5 then 6 - pc
    else if 7 <= pc <= 11 then 12 - pc
    else if pc == 14 then 0
    else if 27 <= pc <= 30 then 36 - pc
    else if 15 <= pc <= 24 then 34 - pc
    else 0
  }

  lemma RankEarly(short: u32, long: u32, pc: nat, next: nat)
    requires Follows(short, long, pc, next) && (pc <= 5 || 7 <= pc <= 10)
    ensures Rank(next) < Rank(pc)
  {
  }

  lemma RankEval(short: u32, long: u32, pc: nat, next: nat)
    requires Follows(short, long, pc, next) && 15 <= pc <= 19
    ensures Rank(next) < Rank(pc)
  {
  }

  lemma RankExit(short: u32, long: u32, pc: nat, next: nat)
    requires Follows(short, long, pc, next) && 20 <= pc <= 24
    ensures Rank(next) < Rank(pc)
  {
  }

  lemma RankLate(short: u32, long: u32, pc: nat, next: nat)
    requires Follows(short, long, pc, next) && 27 <= pc <= 30
    ensures Rank(next) < Rank(pc)
  {
  }

  lemma ReturnsEnd(short: u32, long: u32, pc: nat, next: nat)
    requires Follows(short, long, pc, next)
    ensures pc !in {25, 32, 34, 36, 38, 40}
  {
  }

  lemma RankFalls(b: Battle, vm: Vm, after: Vm)
    requires StepFrom(b, vm, after, vm.pc) && after.status.Running? && vm.pc != 14
    ensures Rank(after.pc) < Rank(vm.pc)
  {
    PlacesLive(b, vm);
    hide Zone, Common, BattleStep, Follows, Good;
    if vm.pc == 11 {
      StepPlanDone(b, vm, after);
    } else {
      PcMoves(b, vm, after);
      ReturnsEnd(b.short, b.long, vm.pc, after.pc);
      if vm.pc <= 10 { RankEarly(b.short, b.long, vm.pc, after.pc); }
      else if vm.pc <= 19 { RankEval(b.short, b.long, vm.pc, after.pc); }
      else if vm.pc <= 24 { RankExit(b.short, b.long, vm.pc, after.pc); }
      else { RankLate(b.short, b.long, vm.pc, after.pc); }
    }
  }

  lemma OneOperation(b: Battle, trace: seq<Vm>, k: nat)
    requires Runs(b, trace) && k + 1 < |trace|
    ensures trace[k].status.Running? && StepFrom(b, trace[k], trace[k + 1], trace[k].pc)
  {
    RunsGood(b, trace, k);
    assert trace[k].status.Running? && Step(b.setup, Program(b.short, b.long), trace[k], trace[k + 1]);
    hide Step, Good, StepFrom;
    GoodFrom(b, trace[k], trace[k + 1]);
  }

  /** Main result: at most twenty operations lie between two runs of the game. */
  lemma {:induction false} BoundedBetweenRuns(b: Battle, trace: seq<Vm>, i: nat, j: nat)
    requires Runs(b, trace) && i <= j < |trace| && trace[j].status.Running?
    requires forall k | i <= k < j :: trace[k].pc != 14
    ensures j - i + Rank(trace[j].pc) <= Rank(trace[i].pc) <= 20
    decreases j - i
  {
    hide Runs, StepFrom;
    if i < j {
      OneOperation(b, trace, j - 1);
      RankFalls(b, trace[j - 1], trace[j]);
      StillRunning(b, trace, j - 1);
      hide Rank;
      BoundedBetweenRuns(b, trace, i, j - 1);
    }
  }

  lemma StillRunning(b: Battle, trace: seq<Vm>, k: nat)
    requires Runs(b, trace) && k + 1 < |trace|
    ensures trace[k].status.Running?
  {
    OneOperation(b, trace, k);
  }

  // ---------------------------------------------------------------- every turn is built once

  lemma BuiltGrows(b: Battle, vm: Vm, after: Vm)
    requires b.Valid() && BattleStep(b, vm, after) && vm.pc < LENGTH && vm.status.Running?
    ensures |after.built| >= |vm.built|
  {
    if IsJump(OpAt(vm.pc, b.short, b.long)) {
      JumpMoves(b, vm, after);
    } else {
      OthersMoveOn(b, vm, after);
    }
  }

  lemma {:induction false} BuiltMonotone(b: Battle, trace: seq<Vm>, i: nat, j: nat)
    requires Runs(b, trace) && i <= j < |trace|
    ensures |trace[i].built| <= |trace[j].built|
    decreases j - i
  {
    hide Runs, StepFrom, BattleStep, Common, Zone;
    if i < j {
      OneOperation(b, trace, j - 1);
      FromInProgram(b, trace[j - 1], trace[j]);
      BuiltGrows(b, trace[j - 1], trace[j]);
      BuiltMonotone(b, trace, i, j - 1);
    }
  }

  lemma FromInProgram(b: Battle, vm: Vm, after: Vm)
    requires StepFrom(b, vm, after, vm.pc)
    ensures b.Valid() && BattleStep(b, vm, after) && vm.pc < LENGTH && vm.status.Running? && Common(b, vm) && Zone(b, vm)
  {
    PlacesLive(b, vm);
    hide Zone, Common, BattleStep;
  }

  /** BUILD writes the active turn, or finds the path ended. */
  lemma BuildsOne(b: Battle, vm: Vm, after: Vm)
    requires StepFrom(b, vm, after, 8) && after.status.Running? && vm.pc == 8
    ensures after.pc == 9 && Turn(after.ctx) == Turn(vm.ctx) && 1 <= Turn(vm.ctx) <= b.Turns() + 1
    ensures |after.built| == if Turn(vm.ctx) <= b.Turns() then Turn(vm.ctx) else b.Turns()
  {
    OpBuild(b, vm, after);
    BuiltBefore(b, vm);
    BuildCases(b, vm, after);
    hide StepFrom;
    BuildResult(b, vm, after);
  }

  lemma BuiltBefore(b: Battle, vm: Vm)
    requires b.Valid() && Before(b, vm)
    ensures |vm.built| == Turn(vm.ctx) - 1
  {
    hide Settled, Holding, Planned, SteppedAs, BuiltFine;
  }

  lemma BuildResult(b: Battle, vm: Vm, after: Vm)
    requires 1 <= Turn(vm.ctx) <= b.Turns() + 1 && |vm.built| == Turn(vm.ctx) - 1 && vm.pc == 8 && after.status.Running?
    requires BuildsAs(b, vm, after)
    ensures after.pc == 9 && Turn(after.ctx) == Turn(vm.ctx)
    ensures |after.built| == if Turn(vm.ctx) <= b.Turns() then Turn(vm.ctx) else b.Turns()
  {
    hide WriteTurn, Blank, FramesBytes, Counted32;
  }

  /** Past the last turn the run returns without another operation on the path. */
  lemma PastEndReturns(b: Battle, vm: Vm, after: Vm)
    requires StepFrom(b, vm, after, 9) && Turn(vm.ctx) == b.Turns() + 1
    ensures after.pc == 38
  {
    hide Common, BattleStep, Step, Jump, Settled, Played;
    assert Has(vm.ctx, PLAN_MATERIALIZE_ERR, U32(ErrCode(OutOfTurns)));
    GotoIfGoes(b, vm, after, PLAN_MATERIALIZE_ERR, NE, 0, RetPlanMatFailure);
  }

  lemma ReturnEnds(b: Battle, vm: Vm, after: Vm)
    requires StepFrom(b, vm, after, 38)
    ensures after.status.Returned?
  {
    hide Common, Zone;
    StepReturn(b, vm, after);
  }

  lemma PastEndStops(b: Battle, trace: seq<Vm>, i: nat, j: nat)
    requires Runs(b, trace) && i < j < |trace| && trace[i].pc == 8 && Turn(trace[i].ctx) == b.Turns() + 1 && trace[j].status.Running?
    ensures trace[j].pc != 8
  {
    hide Runs, StepFrom;
    OneOperation(b, trace, i);
    if i + 1 < j { OneOperation(b, trace, i + 1); }
    if i + 2 < j { OneOperation(b, trace, i + 2); }
    if i + 3 < j { OneOperation(b, trace, i + 3); }
    BuildsOne(b, trace[i], trace[i + 1]);
    if i + 1 < j {
      PastEndReturns(b, trace[i + 1], trace[i + 2]);
      if i + 2 < j { ReturnEnds(b, trace[i + 2], trace[i + 3]); }
    }
  }

  /** Main result: two builds of a run serve different turns, in order, so there are at most one more than turns. */
  lemma EachTurnBuiltOnce(b: Battle, trace: seq<Vm>, i: nat, j: nat)
    requires Runs(b, trace) && i < j < |trace| && trace[i].pc == 8 && trace[j].pc == 8 && trace[j].status.Running?
    ensures 1 <= Turn(trace[i].ctx) < Turn(trace[j].ctx) <= b.Turns() + 1
  {
    StillRunning(b, trace, i);
    StillRunningAfter(b, trace, i, j);
    TurnInRange(b, trace, i);
    TurnInRange(b, trace, j);
    OneOperation(b, trace, i);
    hide Runs, StepFrom;
    BuildsOne(b, trace[i], trace[i + 1]);
    if Turn(trace[i].ctx) == b.Turns() + 1 { PastEndStops(b, trace, i, j); }
    BuiltMonotone(b, trace, i + 1, j);
  }

  lemma StillRunningAfter(b: Battle, trace: seq<Vm>, i: nat, j: nat)
    requires Runs(b, trace) && i < j < |trace| && trace[j].status.Running?
    ensures trace[i + 1].status.Running?
  {
    if i + 1 < j { StillRunning(b, trace, i + 1); }
  }

  // ---------------------------------------------------------------- what was stepped

  /** Every action of the turn has one of the three supported macros. */
  predicate Known(plan: TurnPlan) { forall k | 0 <= k < |plan.spec| :: plan.spec[k].macro <= FOCUS }

  /** Main result: in every run the frames stepped in turn k + 1 are the planned ones; for a turn of supported macros
      exactly those the writer gives for the path's own entry in the battle read just before. */
  lemma FramesAreTurns(b: Battle, trace: seq<Vm>, i: nat, k: nat)
    requires Runs(b, trace) && i < |trace| && trace[i].status.Running? && k < |trace[i].stepped|
    ensures BuiltFine(b, trace[i].built) && k < |trace[i].built| <= |Battles(b, trace[i].runs)|
    ensures trace[i].built[k] == Battles(b, trace[i].runs)[k]
    ensures trace[i].stepped[k] == Planned(b, trace[i].built, k + 1)
    ensures Known(b.job.path[k]) ==>
              var w := WrittenFor(b, trace[i].built, k); w.ok && trace[i].stepped[k] == Counted32(w.frames)
  {
    RunsGood(b, trace, i);
    BuiltInBattles(b, trace, i);
    SteppedFacts(b, trace[i], k);
    hide Runs, Good, Planned, Battles;
    if Known(b.job.path[k]) { KnownContinues(trace[i].built[k], b.job.path[k]); }
    PlannedOwn(b, trace[i].built, k);
  }

  /** Main result: every turn was built in the battle its own hit showed. */
  lemma BuiltInBattles(b: Battle, trace: seq<Vm>, i: nat)
    requires Runs(b, trace) && i < |trace| && (trace[i].status.Running? || trace[i].status.Returned?)
    ensures trace[i].built <= Battles(b, trace[i].runs)
  {
    RunsTraced(b, trace, i);
    hide Runs, Battles, Judgements, Words;
  }

  lemma PlannedOwn(b: Battle, built: seq<BattleContext>, k: nat)
    requires BuiltFine(b, built) && k < |built|
    ensures WrittenFor(b, built, k).ok ==> Planned(b, built, k + 1) == Counted32(WrittenFor(b, built, k).frames)
  {
  }

  lemma SteppedFacts(b: Battle, vm: Vm, k: nat)
    requires b.Valid() && Good(b, vm) && vm.status.Running? && k < |vm.stepped|
    ensures BuiltFine(b, vm.built) && k < |vm.built| && vm.stepped[k] == Planned(b, vm.built, k + 1)
    ensures Continues(WrittenFor(b, vm.built, k))
  {
    hide Common, Settled, Shows, Latched, Holding, Planned, WrittenFor, Continues, NoneFailed, HitFits, HitOf, DwOf, Turn, BuiltFine;
    PlacesLive(b, vm);
  }

  lemma KnownContinues(bc: BattleContext, plan: TurnPlan)
    requires bc.Valid() && plan.fakeAttackCount <= 255 && Known(plan) && Continues(WriteTurn(bc, plan))
    ensures WriteTurn(bc, plan).ok
  {
    hide WriteTurn;
    MenuReplay.TurnFailsExactlyWhen(bc, plan);
  }

  // ---------------------------------------------------------------- outcomes

  /** Key i of the list is the first with that address. */
  ghost predicate FirstAt(setup: Setup, keys: seq<u16>, pc: u32, i: nat) {
    i < |keys| && setup.bpPc(keys[i]) == Some(pc) && forall j | 0 <= j < i :: setup.bpPc(keys[j]) != Some(pc)
  }

  lemma {:induction false} MatchedAt(setup: Setup, keys: seq<u16>, pc: u32) returns (i: nat)
    ensures match MatchKey(setup, keys, pc)
            case Some(k) => FirstAt(setup, keys, pc, i) && keys[i] == k
            case None => forall j | 0 <= j < |keys| :: setup.bpPc(keys[j]) != Some(pc)
  {
    i := 0;
    if keys != [] && setup.bpPc(keys[0]) != Some(pc) {
      var rest := MatchedAt(setup, keys[1..], pc);
      i := rest + 1;
      assert forall j | 0 < j < |keys| :: keys[j] == keys[1..][j - 1];
    }
  }

  ghost predicate Armed(setup: Setup, keys: seq<u16>, pc: u32) {
    exists j | 0 <= j < |keys| :: setup.bpPc(keys[j]) == Some(pc)
  }

  /** Main result: the reported key is that of the first armed predicate breakpoint at the stop's address, else of the
      first canonical one there; it is 0 without a stop, and otherwise only for an address armed under no other key. */
  lemma HitIsThere(b: Battle, run: nat)
    requires b.Valid() && run > 0
    ensures var e, key := b.setup.events(run - 1), HitOf(b, run);
            && (!e.hit ==> key == 0)
            && (e.hit && Armed(b.setup, Keys(b), e.pc) ==> exists i: nat :: FirstAt(b.setup, Keys(b), e.pc, i) && key == Keys(b)[i])
            && (e.hit && !Armed(b.setup, Keys(b), e.pc) && Armed(b.setup, CANONICAL, e.pc) ==>
                 exists i: nat :: FirstAt(b.setup, CANONICAL, e.pc, i) && key == CANONICAL[i])
            && (e.hit && !Armed(b.setup, Keys(b), e.pc) && !Armed(b.setup, CANONICAL, e.pc) ==> key == 0)
  {
    var pc := b.setup.events(run - 1).pc;
    var i := MatchedAt(b.setup, Keys(b), pc);
    var j := MatchedAt(b.setup, b.setup.canonical, pc);
    hide Keys, MatchKey;
  }

  /** Record i has a breakpoint of its own at that address. */
  ghost predicate StopsAt(b: Battle, i: nat, pc: u32)
    requires b.Valid() && i < b.job.predCount
  {
    pc != 0 && b.setup.bpPc(RecordAt(b.job.predTable, i).requiredBp) == Some(pc)
  }

  lemma {:induction false} MatchAppend(setup: Setup, a: seq<u16>, c: seq<u16>, pc: u32)
    ensures MatchKey(setup, a + c, pc) == if MatchKey(setup, a, pc).Some? then MatchKey(setup, a, pc) else MatchKey(setup, c, pc)
  {
    if a == [] {
      assert a + c == c;
    } else {
      assert (a + c)[1..] == a[1..] + c;
      MatchAppend(setup, a[1..], c, pc);
    }
  }

  /** The match among the first n records. */
  ghost function MatchIn(b: Battle, n: nat, pc: u32): Option<u16>
    requires b.Valid() && n <= b.job.predCount
  {
    MatchKey(b.setup, PredKeys(b.setup, b.job.predTable, n), pc)
  }

  lemma MatchStep(b: Battle, n: nat, pc: u32)
    requires b.Valid() && 0 < n <= b.job.predCount && pc != 0
    ensures MatchIn(b, n, pc) ==
              if MatchIn(b, n - 1, pc).Some? then MatchIn(b, n - 1, pc)
              else if StopsAt(b, n - 1, pc) then Some(RecordAt(b.job.predTable, n - 1).requiredBp) else None
  {
    var front, bp := PredKeys(b.setup, b.job.predTable, n - 1), RecordAt(b.job.predTable, n - 1).requiredBp;
    MatchAppend(b.setup, front, [bp], pc);
    MatchAppend(b.setup, front, [], pc);
    MatchOne(b.setup, bp, pc);
    hide RecordAt, MatchKey;
  }

  lemma {:induction false} MatchRecords(b: Battle, n: nat, pc: u32)
    requires b.Valid() && n <= b.job.predCount && pc != 0
    ensures forall i: nat | i < n && StopsAt(b, i, pc) && (forall k: nat | k < i :: !StopsAt(b, k, pc)) ::
              MatchIn(b, n, pc) == Some(RecordAt(b.job.predTable, i).requiredBp)
    ensures (forall i: nat | i < n :: !StopsAt(b, i, pc)) ==> MatchIn(b, n, pc) == None
  {
    if n > 0 {
      hide RecordAt, StopsAt, MatchIn;
      MatchRecords(b, n - 1, pc);
      MatchStep(b, n, pc);
      FirstStop(b, n - 1, pc);
    } else {
      NoMatch(b, pc);
    }
  }

  lemma NoMatch(b: Battle, pc: u32)
    requires b.Valid()
    ensures MatchIn(b, 0, pc) == None
  {
  }

  lemma MatchOne(setup: Setup, bp: u16, pc: u32)
    ensures MatchKey(setup, [bp], pc) == (if setup.bpPc(bp) == Some(pc) then Some(bp) else None) && MatchKey(setup, [], pc) == None
  {
    assert [bp][1..] == [];
  }

  /** Some record is the first of those before n to stop there, or none does. */
  lemma {:induction false} FirstStop(b: Battle, n: nat, pc: u32)
    requires b.Valid() && n <= b.job.predCount
    ensures (forall i: nat | i < n :: !StopsAt(b, i, pc)) ||
            exists i: nat :: i < n && StopsAt(b, i, pc) && forall k: nat | k < i :: !StopsAt(b, k, pc)
  {
    hide StopsAt;
    if n > 0 {
      FirstStop(b, n - 1, pc);
      if StopsAt(b, n - 1, pc) && forall k: nat | k < n - 1 :: !StopsAt(b, k, pc) { assert StopsAt(b, n - 1, pc); }
    }
  }

  /** Main result: the breakpoint a stop is reported under: that of the first record with a breakpoint of its own there, else
      the first of 203, 204, 209, 210 and 211 that lies there, else 0. */
  lemma HitByRecord(b: Battle, run: nat)
    requires b.Valid() && run > 0
    ensures var e, hit := b.setup.events(run - 1), HitOf(b, run);
            && (!e.hit ==> hit == 0)
            && (forall i: nat | e.hit && i < b.job.predCount && StopsAt(b, i, e.pc) && (forall k: nat | k < i :: !StopsAt(b, k, e.pc)) ::
                  hit == RecordAt(b.job.predTable, i).requiredBp)
            && (e.hit && e.pc != 0 && (forall i: nat | i < b.job.predCount :: !StopsAt(b, i, e.pc)) ==>
                  var at := Some(e.pc);
                  hit == if b.setup.bpPc(203) == at then 203 else if b.setup.bpPc(204) == at then 204 else if b.setup.bpPc(209) == at then 209
                         else if b.setup.bpPc(210) == at then 210 else if b.setup.bpPc(211) == at then 211 else 0)
  {
    var pc := b.setup.events(run - 1).pc;
    if pc != 0 { MatchRecords(b, b.job.predCount, pc); }
    MatchPhase(b.setup, pc);
    hide PredKeys, MatchKey, StopsAt, RecordAt;
    assert pc == 0 ==> forall i: nat | i < b.job.predCount :: !StopsAt(b, i, pc) by { NoStopAtZero(b); }
  }

  lemma NoStopAtZero(b: Battle)
    requires b.Valid()
    ensures forall i: nat | i < b.job.predCount :: !StopsAt(b, i, 0)
  {
    hide RecordAt;
  }

  lemma MatchPhase(setup: Setup, pc: u32)
    ensures var at := Some(pc);
            MatchKey(setup, CANONICAL, pc) ==
              if setup.bpPc(203) == at then Some(203) else if setup.bpPc(204) == at then Some(204) else if setup.bpPc(209) == at then Some(209)
              else if setup.bpPc(210) == at then Some(210) else if setup.bpPc(211) == at then Some(211) else None
  {
    var c1: seq<u16>, c2: seq<u16>, c3: seq<u16>, c4: seq<u16> := [204, 209, 210, 211], [209, 210, 211], [210, 211], [211];
    assert CANONICAL[1..] == c1 && c1[1..] == c2 && c2[1..] == c3 && c3[1..] == c4 && c4[1..] == [];
    assert MatchKey(setup, c4, pc) == if setup.bpPc(211) == Some(pc) then Some(211) else None;
    assert MatchKey(setup, c3, pc) == if setup.bpPc(210) == Some(pc) then Some(210) else MatchKey(setup, c4, pc);
    assert MatchKey(setup, c2, pc) == if setup.bpPc(209) == Some(pc) then Some(209) else MatchKey(setup, c3, pc);
    assert MatchKey(setup, c1, pc) == if setup.bpPc(204) == Some(pc) then Some(204) else MatchKey(setup, c2, pc);
  }

  /** What each outcome says about the run that returned it. */
  ghost predicate Faithful(b: Battle, vm: Vm, ok: bool, ctx: Context, outcome: u32)
    requires b.Valid()
  {
    && (ok <==> outcome != DW_RUN_ERR)
    && vm.runs > 0 && (ok <==> DwOf(b, vm.runs) == 0)
    && (outcome == VICTORY ==> HitOf(b, vm.runs) == BP_VICTORY)
    && (outcome == DEFEAT ==> HitOf(b, vm.runs) == BP_DEFEAT)
    && (outcome == TURNS_EXHAUSTED ==> Exhausted(b, vm))
    && (outcome == PRED_FAILURE ==> FirstFailed(b, vm, ctx))
    && (outcome == PLAN_MATERIALIZE_FAILURE ==> Unwritable(b, vm))
    && outcome <= DW_RUN_ERR
  }

  /** The last turn was played, the game asks for the next inputs, and no predicate ever failed. */
  ghost predicate Exhausted(b: Battle, vm: Vm)
    requires b.Valid()
  {
    && vm.runs > 0 && HitOf(b, vm.runs) == BP_ACCEPT_INPUT && Turn(vm.ctx) == b.Turns()
    && Played(b, vm, b.Turns()) && Clean(vm.evaluations) && |vm.evaluations| == vm.runs
  }

  /** All earlier evaluations were clean, the last was not, and the reported record is its first failure; neither
      victory nor defeat was hit. */
  ghost predicate FirstFailed(b: Battle, vm: Vm, ctx: Context)
    requires b.Valid()
  {
    && vm.runs > 0 && |vm.evaluations| == vm.runs && Clean(vm.evaluations[..vm.runs - 1])
    && HitOf(b, vm.runs) != BP_VICTORY && HitOf(b, vm.runs) != BP_DEFEAT
    && var v := vm.evaluations[vm.runs - 1].verdicts;
       && EvaluatedAt(b, vm.runs - 1, vm.evaluations[vm.runs - 1]) && !AllTrue(v) && (FirstFailure(v) + 1) * RECORD_SIZE <= |b.job.predTable|
       && Has(ctx, PRED_FIRST_FAILED, U32(RecordAt(b.job.predTable, FirstFailure(v)).id))
  }

  /** No predicate failed, and the path has ended or an attack of the active turn has no target. */
  ghost predicate Unwritable(b: Battle, vm: Vm)
    requires b.Valid()
  {
    var t := Turn(vm.ctx);
    && Clean(vm.evaluations) && 1 <= t
    && (t == b.Turns() + 1 || (t <= b.Turns() && BuiltFine(b, vm.built) && |vm.built| == t && !Continues(WrittenFor(b, vm.built, t - 1))))
  }

  lemma ReturnedFrom(b: Battle, trace: seq<Vm>)
    requires Runs(b, trace)
    ensures var vm := trace[|trace| - 1]; vm.status.Returned? ==> Ended(b, vm, vm.status.ok, vm.status.ctx)
  {
    RunsGood(b, trace, |trace| - 1);
    hide Ended, Common, Zone;
  }

  lemma ExhaustedAt(b: Battle, vm: Vm)
    requires b.Valid() && Zone(b, vm) && vm.pc == 25
    ensures Exhausted(b, vm) && DwOf(b, vm.runs) == 0 && GetU32(vm.ctx, DW_RUN_OUTCOME_CODE, 0) == 0
  {
    hide Played, DwOf, HitOf, AllTrue;
  }

  lemma HitAt(b: Battle, vm: Vm)
    requires b.Valid() && Zone(b, vm) && (vm.pc == 32 || vm.pc == 34)
    ensures vm.runs > 0 && HitOf(b, vm.runs) == (if vm.pc == 32 then BP_VICTORY else BP_DEFEAT)
    ensures DwOf(b, vm.runs) == 0 && GetU32(vm.ctx, DW_RUN_OUTCOME_CODE, 0) == 0
  {
    hide Played, DwOf, HitOf, AllTrue, Latched;
  }

  lemma FailedAt(b: Battle, vm: Vm)
    requires b.Valid() && Zone(b, vm) && vm.pc == 36 && Judgements(b, vm.evaluations)
    ensures FirstFailed(b, vm, vm.ctx[BATTLE_OUTCOME := U32(PRED_FAILURE)])
    ensures DwOf(b, vm.runs) == 0 && GetU32(vm.ctx, DW_RUN_OUTCOME_CODE, 0) == 0
  {
    hide Played, DwOf, HitOf, AllTrue, RecordAt, EvaluatedAt;
  }

  lemma UnwritableAt(b: Battle, vm: Vm)
    requires b.Valid() && Zone(b, vm) && vm.pc == 38
    ensures Unwritable(b, vm) && vm.runs > 0 && DwOf(b, vm.runs) == 0 && GetU32(vm.ctx, DW_RUN_OUTCOME_CODE, 0) == 0
  {
    assert JustBuilt(b, vm);
    if Turn(vm.ctx) <= b.Turns() { WrittenErr(b, vm.built, Turn(vm.ctx) - 1); }
    hide Played, DwOf, HitOf, AllTrue, WrittenFor, Planned, Holding;
  }

  lemma WrittenErr(b: Battle, built: seq<BattleContext>, k: nat)
    requires BuiltFine(b, built) && k < |built|
    ensures ErrCode(WrittenFor(b, built, k).err) != 0 ==> !Continues(WrittenFor(b, built, k))
  {
    WriteOk(built[k], b.job.path[k]);
    hide WriteTurn;
  }

  lemma DwFailedAt(b: Battle, vm: Vm)
    requires b.Valid() && Zone(b, vm) && vm.pc == 40
    ensures vm.runs > 0 && DwOf(b, vm.runs) != 0 && GetU32(vm.ctx, DW_RUN_OUTCOME_CODE, 0) != 0
  {
    hide Played, HitOf, AllTrue, Clean, DwOf;
  }

  /** Main result: a finished run tells the truth about itself; without an outcome, a snapshot failed to load. */
  lemma OutcomesFaithful(b: Battle, trace: seq<Vm>)
    requires Runs(b, trace) && trace[|trace| - 1].status.Returned?
    ensures var vm := trace[|trace| - 1];
            var ok, ctx := vm.status.ok, vm.status.ctx;
            if BATTLE_OUTCOME in ctx then ctx[BATTLE_OUTCOME].U32? && Faithful(b, vm, ok, ctx, ctx[BATTLE_OUTCOME].v32)
            else !ok && vm.runs == 0 && !(b.setup.firstLoad && b.setup.secondLoad)
  {
    ReturnedFrom(b, trace);
    RunsTraced(b, trace, |trace| - 1);
    var vm := trace[|trace| - 1];
    hide Runs, Judgements, Battles, Words, Ended, Faithful;
    EndedFaithful(b, vm, vm.status.ok, vm.status.ctx);
  }

  lemma EndedFaithful(b: Battle, vm: Vm, ok: bool, ctx: Context)
    requires b.Valid() && Ended(b, vm, ok, ctx) && Judgements(b, vm.evaluations)
    ensures if BATTLE_OUTCOME in ctx then ctx[BATTLE_OUTCOME].U32? && Faithful(b, vm, ok, ctx, ctx[BATTLE_OUTCOME].v32)
            else !ok && vm.runs == 0 && !(b.setup.firstLoad && b.setup.secondLoad)
  {
    hide Common, Zone, Exhausted, FirstFailed, Unwritable, DwOf, HitOf, Judgements;
    if BATTLE_OUTCOME in ctx {
      if vm.pc == 25 { ExhaustedAt(b, vm); ExhaustedRan(b, vm); }
      else if vm.pc == 32 || vm.pc == 34 { HitAt(b, vm); }
      else if vm.pc == 36 { FailedAt(b, vm); FirstFailedRan(b, vm, ctx); }
      else if vm.pc == 38 { UnwritableAt(b, vm); }
      else { DwFailedAt(b, vm); }
    }
  }

  lemma ExhaustedRan(b: Battle, vm: Vm)
    requires b.Valid() && Exhausted(b, vm)
    ensures vm.runs > 0
  {
  }

  lemma FirstFailedRan(b: Battle, vm: Vm, ctx: Context)
    requires b.Valid() && FirstFailed(b, vm, ctx)
    ensures vm.runs > 0
  {
  }

  /** Main result: every evaluation of a run judged the records on the game as it stood at its own hit, with the
      baselines captured at the hits before it that began a turn. */
  lemma EvaluationsAreOfTheHit(b: Battle, trace: seq<Vm>, i: nat, k: nat)
    requires Runs(b, trace) && i < |trace| && (trace[i].status.Running? || trace[i].status.Returned?) && k < |trace[i].evaluations|
    ensures EvaluatedAt(b, k, trace[i].evaluations[k])
  {
    RunsTraced(b, trace, i);
    hide Runs, EvaluatedAt, Battles, Words;
  }

  /** Main result: a run that hangs does so at a turn of more fake attacks than the writer's counter can count. */
  lemma HangsAtLongTurn(b: Battle, trace: seq<Vm>, i: nat)
    requires Runs(b, trace) && i < |trace| && trace[i].status.Hung?
    ensures var t := Turn(trace[i].ctx); 1 <= t <= b.Turns() && b.job.path[t - 1].fakeAttackCount > 255
  {
    RunsGood(b, trace, i);
    hide Runs;
  }
}
