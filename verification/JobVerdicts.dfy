/** From the game to the books: what the caller of the runner reads in a job's result, and under which heading it files the
    path, in terms of the breakpoints the game stopped at. */
module JobVerdicts {
  import opened Bytes
  import opened ScriptContext
  import opened ContextCodec
  import opened ScriptVm
  import opened BattleRuns
  import opened BattleHistory
  import opened BattleOutcomes
  import opened BattleEndings
  import L = RunLedger
  import opened PathStories

  /** What a caller reads in the result of a run: key 0x302 is the outcome of the battle, key 2 why the last run of the game
      ended. A missing reason stays unset, so it may read as anything. */
  ghost predicate ReadFrom(r: L.Reply, ok: bool, ctx: Context) {
    && r.accepted && r.ok == ok
    && (2 in ctx && ctx[2].U32? ==> r.runOutcome == ctx[2].v32)
    && r.battleOutcome == if 0x302 in ctx && ctx[0x302].U32? then Some(ctx[0x302].v32) else None
  }

  /** The caller reads the same from the wire form. */
  lemma WireReads(r: L.Reply, ok: bool, ctx: Context, order: seq<KeyId>)
    requires Sized(ctx) && WalkOrder(ctx, order) && DecodeContext(ContextBytes(ctx, order)).Some?
    requires ReadFrom(r, ok, DecodeContext(ContextBytes(ctx, order)).value)
    ensures ReadFrom(r, ok, ctx)
  {
    ContextRoundTrip(ctx, order);
    hide DecodeContext, ContextBytes;
  }

  /** A record that was evaluated at a stop was false. */
  ghost predicate SomeFalse(b: Battle, run: nat)
    requires b.Valid() && run > 0
  {
    exists i :: 0 <= i < |VerdictsAt(b, run)| && VerdictsAt(b, run)[i].Judged? && !VerdictsAt(b, run)[i].ok
  }

  /** The outcome codes by the last stop of a run: 0 exactly at breakpoint 209, 1 exactly at 210, 5 exactly when the
      emulator stopped by itself, 2 exactly when a record was false at another breakpoint, 4 exactly when the inputs of a
      turn behind the last were asked for at 203, 3 exactly when the turn that begins, at 211 or 203, cannot be written. */
  ghost predicate ByStop(b: Battle, run: nat, outcome: Option<u32>)
    requires b.Valid() && run > 0
  {
    var hit, broke := HitOf(b, run), DwOf(b, run) != 0;
    && (outcome == Some(0) <==> hit == 209)
    && (outcome == Some(1) <==> hit == 210)
    && (outcome == Some(5) <==> broke)
    && (outcome == Some(2) <==> !broke && hit != 209 && hit != 210 && SomeFalse(b, run))
    && (outcome == Some(4) <==> !SomeFalse(b, run) && hit == 203 && Advances(b, run - 1) >= b.Turns())
    && (outcome == Some(3) <==>
          !SomeFalse(b, run) && (hit == 211 || (hit == 203 && Advances(b, run - 1) < b.Turns())) && NextTurn(b, run) == Ends(3))
  }

  lemma StopDecides(b: Battle, run: nat, outcome: u32)
    requires b.Valid() && run > 0 && EndingAt(b, run) == Ends(outcome)
    ensures ByStop(b, run, Some(outcome))
  {
    BrokenHits(b, run);
    hide HitOf, DwOf, Advances, VerdictsAt, NextTurn;
    assert SomeFalse(b, run) <==> exists i | 0 <= i < |VerdictsAt(b, run)| :: VerdictsAt(b, run)[i].Judged? && !VerdictsAt(b, run)[i].ok;
    NextTurnEnds(b, run);
  }

  lemma BrokenHits(b: Battle, run: nat)
    requires b.Valid() && run > 0
    ensures DwOf(b, run) != 0 <==> !b.setup.events(run - 1).hit
    ensures DwOf(b, run) != 0 ==> HitOf(b, run) == 0
  {
    hide HitKey, Keys;
  }

  lemma NextTurnEnds(b: Battle, run: nat)
    requires b.Valid() && run > 0
    ensures NextTurn(b, run).Ends? ==> NextTurn(b, run) == Ends(3)
  {
    hide Advances, Battles;
  }

  /** Main result: what the caller reads of a finished run says at which stop it ended and why; a run without any stop (no
      snapshot loaded) has no outcome and failed. */
  lemma VerdictTold(b: Battle, trace: seq<Vm>, r: L.Reply)
    requires Runs(b, trace) && trace[|trace| - 1].status.Returned?
    requires ReadFrom(r, trace[|trace| - 1].status.ok, trace[|trace| - 1].status.ctx)
    ensures var run := trace[|trace| - 1].runs;
            if run == 0 then r.battleOutcome == None && !r.ok
            else
              && ByStop(b, run, r.battleOutcome) && r.battleOutcome.Some? && r.battleOutcome.value <= 5
              && r.runOutcome == DwOf(b, run) && (r.ok <==> DwOf(b, run) == 0)
              && forall k | 0 < k < run :: EndingAt(b, k) == GoesOn
  {
    RunsEndAsTold(b, trace);
    var vm := trace[|trace| - 1];
    hide Runs, EndingAt, DwOf, HitOf, ByStop;
    if BATTLE_OUTCOME in vm.status.ctx {
      var run := vm.runs;
      StopDecides(b, run, EndingAt(b, run).outcome);
      FiveIsBroken(b, run, EndingAt(b, run).outcome);
    }
  }

  lemma FiveIsBroken(b: Battle, run: nat, outcome: int)
    requires b.Valid() && run > 0 && 0 <= outcome < 0x1_0000_0000 && ByStop(b, run, Some(outcome))
    ensures outcome == 5 <==> DwOf(b, run) != 0
  {
    hide DwOf, HitOf, Advances, NextTurn, SomeFalse;
  }

  /** Main result: the caller counts a run as a success exactly when it ended at breakpoint 209, the victory. */
  lemma SuccessIsVictory(b: Battle, trace: seq<Vm>, r: L.Reply)
    requires Runs(b, trace) && trace[|trace| - 1].status.Returned?
    requires ReadFrom(r, trace[|trace| - 1].status.ok, trace[|trace| - 1].status.ctx)
    ensures var run := trace[|trace| - 1].runs; L.IsSuccess(r) <==> run > 0 && HitOf(b, run) == 209
  {
    VerdictTold(b, trace, r);
    hide Runs, DwOf, HitOf, Advances, NextTurn, SomeFalse, EndingAt;
  }

  /** Main result: a path's last answer, read from a run of its job, puts it among the successes exactly when the game ended
      at the victory; any other end of the battle puts it among the failures; it is given up only after a run that broke
      off, or began without a snapshot; and earlier runs all broke off. */
  lemma PathFiledByGame(cfg: L.RunConfig, l: L.Ledger, log: seq<Told>, path: nat, b: Battle, trace: seq<Vm>)
    requires path < |l.submissions| && Story(cfg.maxRetryCount, l, log, path) && !IsOut(l, path)
    requires Runs(b, trace) && trace[|trace| - 1].status.Returned?
    requires var rs := RepliesOf(log, path);
             rs != [] ==> ReadFrom(rs[|rs| - 1], trace[|trace| - 1].status.ok, trace[|trace| - 1].status.ctx)
    ensures var rs, run := RepliesOf(log, path), trace[|trace| - 1].runs;
            && rs != [] && l.submissions[path] == |rs| && (forall k | 0 <= k < |rs| - 1 :: BrokeOff(rs[k]))
            && if run > 0 && HitOf(b, run) == 209 then FiledIn(l.successes, path, rs[|rs| - 1])
               else if run > 0 && DwOf(b, run) == 0 then FiledIn(l.fails, path, rs[|rs| - 1])
               else path in l.abandoned
  {
    var rs, run := RepliesOf(log, path), trace[|trace| - 1].runs;
    VerdictTold(b, trace, rs[|rs| - 1]);
    if run > 0 { BrokenHits(b, run); VictoryCode(b, run, rs[|rs| - 1].battleOutcome); }
    hide Runs, DwOf, HitOf, ByStop, EndingAt, FiledIn, IsOut;
  }

  lemma VictoryCode(b: Battle, run: nat, outcome: Option<u32>)
    requires b.Valid() && run > 0 && ByStop(b, run, outcome)
    ensures outcome == Some(0) <==> HitOf(b, run) == 209
  {
    hide DwOf, HitOf, Advances, NextTurn, SomeFalse;
  }
}
