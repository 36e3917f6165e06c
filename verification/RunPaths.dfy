/** Submitting the enumerated paths and collecting the answers, on the runner as its caller sees it. */
module RunPaths {
  import opened Bytes
  import opened ActionTypes
  import opened PredicatePacking
  import opened PayloadCodec
  import opened RunLedger
  import opened PathStories

  // ---------------------------------------------------------------- the runner and the collector

  /** One poll of the runner: nothing yet, or one of the outstanding jobs (chosen by pick) answers. */
  datatype Event = Nothing | Answer(pick: nat, reply: Reply)

  /** The runner as its caller sees it: jobs go in, each comes back once, in any order. */
  class Runner {
    var nextId: nat
    var outstanding: seq<nat>
    ghost var payloads: map<nat, seq<u8>>

    constructor (firstId: nat)
      ensures nextId == firstId && outstanding == [] && payloads == map[]
    {
      nextId, outstanding, payloads := firstId, [], map[];
    }

    method Submit(payload: seq<u8>) returns (jid: nat)
      modifies this
      ensures jid == old(nextId) && nextId == jid + 1
      ensures outstanding == old(outstanding) + [jid] && payloads == old(payloads)[jid := payload]
    {
      jid := nextId;
      outstanding, payloads, nextId := outstanding + [jid], payloads[jid := payload], nextId + 1;
    }

    method TryGetResult(e: Event) returns (r: Option<nat>)
      modifies this
      ensures nextId == old(nextId) && payloads == old(payloads)
      ensures r.None? <==> old(outstanding) == [] || e.Nothing?
      ensures r.None? ==> outstanding == old(outstanding)
      ensures r.Some? ==> r.value == old(outstanding)[e.pick % |old(outstanding)|] &&
                          outstanding == Without(old(outstanding), e.pick % |old(outstanding)|)
    {
      if outstanding == [] || e.Nothing? { return None; }
      var k := e.pick % |outstanding|;
      r := Some(outstanding[k]);
      outstanding := outstanding[..k] + outstanding[k + 1..];
    }
  }

  class Collector {
    const cfg: RunConfig
    const runner: Runner
    var pendings: map<nat, Pending>
    var remaining: nat
    var successes: seq<JobResult>
    var fails: seq<JobResult>
    ghost var rejected: seq<nat>
    ghost var abandoned: seq<nat>
    ghost var submissions: seq<nat>
    ghost var delivered: nat

    constructor (cfg: RunConfig, runner: Runner)
      ensures this.cfg == cfg && this.runner == runner && Books(0) == Empty(0).(
                nextId := runner.nextId, outstanding := runner.outstanding, payloads := runner.payloads)
    {
      this.cfg, this.runner := cfg, runner;
      pendings, remaining, successes, fails := map[], 0, [], [];
      rejected, abandoned, submissions, delivered := [], [], [], 0;
    }

    /** The ledger, with the given number of jobs to wait for. */
    ghost function Books(remaining: nat): Ledger
      reads this, runner
    {
      Ledger(runner.nextId, runner.outstanding, runner.payloads, pendings, remaining, successes, fails,
             rejected, abandoned, submissions, delivered)
    }

    /** Every path went out once and nothing came back. */
    ghost predicate Untold()
      reads this
    {
      successes == fails == [] && rejected == abandoned == [] && forall p | 0 <= p < |submissions| :: submissions[p] == 1
    }

    /** Encodes a specification and hands it to the runner. */
    method Send(spec: EncodeSpec, hash: seq<u8> -> nat) returns (jid: nat, ghost payload: seq<u8>)
      requires Fits(spec.predicates)
      modifies runner
      ensures jid == old(runner.nextId) && runner.nextId == jid + 1 && Encodes(payload, spec)
      ensures runner.outstanding == old(runner.outstanding) + [jid] && runner.payloads == old(runner.payloads)[jid := payload]
    {
      hide Fits, PayloadBytes, RecordFor;
      ghost var records;
      var buf;
      buf, records := EncodePayload(spec, hash);
      assert EncodedWith(buf, spec, records);
      payload := buf;
      jid := runner.Submit(buf);
    }

    method SubmitPath(initial: InputFrame, path: BattlePath, pathId: nat, hash: seq<u8> -> nat)
      requires Inv(cfg, Books(|runner.outstanding|)) && pathId == |submissions| < cfg.JobCount() && Fits(cfg.predicates)
      requires JobSpec(cfg, pathId) == EncodeSpec(RUN_MS, VI_STALL_MS, initial, cfg.predicates, path)
      requires pendings.Keys == JobSet(runner.outstanding)
      modifies this, runner
      ensures Inv(cfg, Books(|runner.outstanding|)) && |submissions| == pathId + 1 && delivered == old(delivered)
      ensures old(Untold()) ==> Untold()
      ensures pendings.Keys == JobSet(runner.outstanding)
    {
      hide Inv, Encodes, JobSpec, Fits;
      ghost var l := Books(|runner.outstanding|);
      var spec := EncodeSpec(RUN_MS, VI_STALL_MS, initial, cfg.predicates, path);
      var jid;
      ghost var payload;
      jid, payload := Send(spec, hash);
      var p := Pending(pathId, cfg.maxRetryCount, spec);
      pendings := pendings[jid := p];
      submissions := submissions + [1];
      assert Books(|runner.outstanding|) == FirstSubmitted(l, p, payload);
      FirstSubmittedKeeps(cfg, l, p, payload);
    }

    /** One job per initial frame and path. */
    method SubmitAll(hash: seq<u8> -> nat)
      requires Books(0) == Empty(runner.nextId) && Fits(cfg.predicates)
      modifies this, runner
      ensures Inv(cfg, Books(remaining)) && |submissions| == cfg.JobCount() && delivered == 0
      ensures Stories(cfg, Books(remaining), [])
    {
      hide Inv, JobSpec, Fits;
      NothingYet(cfg, runner.nextId);
      ghost var frames, paths := |cfg.initialFrames|, |cfg.paths|;
      var pathId := 0;
      for f := 0 to |cfg.initialFrames|
        invariant pathId == |submissions| == f * paths && delivered == 0 && Untold()
        invariant Inv(cfg, Books(|runner.outstanding|)) && pendings.Keys == JobSet(runner.outstanding)
      {
        for p := 0 to |cfg.paths|
          invariant pathId == |submissions| == f * paths + p && delivered == 0 && Untold()
          invariant Inv(cfg, Books(|runner.outstanding|)) && pendings.Keys == JobSet(runner.outstanding)
        {
          SpecAt(cfg, f, p);
          SubmitPath(cfg.initialFrames[f], cfg.paths[p], pathId, hash);
          pathId := pathId + 1;
        }
        assert f * paths + paths == (f + 1) * paths;
      }
      remaining := |pendings|;
      OpenCount(cfg, Books(|runner.outstanding|));
      StoriesBegin(cfg, Books(remaining));
    }

    /** What one result does: reject, retry, abandon, or file. */
    method Handle(ghost k: nat, jid: nat, reply: Reply, hash: seq<u8> -> nat, ghost l: Ledger) returns (ghost payload: seq<u8>)
      requires CanDeliver(l, k) && jid == l.outstanding[k] && Fits(l.pendings[jid].spec.predicates)
      requires Books(remaining) == l.(outstanding := Without(l.outstanding, k), delivered := l.delivered + 1)
      modifies this, runner
      ensures Books(remaining) == Delivered(l, k, reply, payload)
      ensures Retries(l, k, reply) ==> Encodes(payload, l.pendings[jid].spec)
    {
      hide Encodes, Without, Fits;
      payload := [];
      if !reply.accepted {
        remaining := remaining - 1;
        rejected := rejected + [l.pendings[jid].pathId];
        return;
      }
      var p := pendings[jid];
      if !reply.ok {
        pendings := pendings - {jid};
        var doRetry := false;
        if reply.runOutcome != HIT {
          if p.retryCount < 0 {
            doRetry := true;
          } else if p.retryCount > 0 {
            p := p.(retryCount := p.retryCount - 1);
            doRetry := true;
          }
        }
        if doRetry {
          var again;
          again, payload := Send(p.spec, hash);
          pendings := pendings[again := p];
          submissions := submissions[p.pathId := submissions[p.pathId] + 1];
        } else {
          remaining := remaining - 1;
          abandoned := abandoned + [p.pathId];
        }
        return;
      }
      remaining := remaining - 1;
      if IsSuccess(reply) {
        successes := successes + [ResultOf(p, reply)];
      } else {
        fails := fails + [ResultOf(p, reply)];
      }
    }

    /** The collection loop, fed with what each poll of the runner finds; it stops when nothing remains or the
        events end. The log says which path each answer was for. */
    method Collect(events: seq<Event>, hash: seq<u8> -> nat) returns (ghost log: seq<Told>)
      requires Inv(cfg, Books(remaining)) && delivered == 0 && Fits(cfg.predicates) && Stories(cfg, Books(remaining), [])
      modifies this, runner
      ensures Inv(cfg, Books(remaining)) && |submissions| == old(|submissions|)
      ensures Stories(cfg, Books(remaining), log) && delivered == |log|
      ensures Replies(log) <= Given(events) && (remaining == 0 || Replies(log) == Given(events))
    {
      hide Fits, Inv, Stories, CanDeliver, Delivered, Retries, Encodes, Given, Replies, Without, JobSet;
      log := [];
      var i := 0;
      NoneGiven(events);
      while remaining > 0 && i < |events|
        invariant i <= |events| && Inv(cfg, Books(remaining)) && |submissions| == old(|submissions|)
        invariant Stories(cfg, Books(remaining), log) && delivered == |log| && Replies(log) == Given(events[..i])
        decreases |events| - i
      {
        ghost var l := Books(remaining);
        OpenCount(cfg, l);
        var e := events[i];
        GivenNext(events, i);
        i := i + 1;
        var r := runner.TryGetResult(e);
        if r == None { continue; }
        delivered := delivered + 1;
        ghost var k := e.pick % |l.outstanding|;
        InvCanDeliver(cfg, l, k);
        DeliverParts(l, k);
        SpecFits(cfg, l, k);
        ghost var payload := Handle(k, r.value, e.reply, hash, l);
        DeliveredKeeps(cfg, l, k, e.reply, payload);
        DeliveredCounts(l, k, e.reply, payload);
        StoriesGoOn(cfg, l, k, e.reply, payload, log);
        RepliesNext(log, Told(l.pendings[l.outstanding[k]].pathId, e.reply));
        log := log + [Told(l.pendings[l.outstanding[k]].pathId, e.reply)];
      }
      assert events[..|events|] == events;
      GivenPrefix(events, i);
    }
  }

  /** The answers that were polled. */
  function Given(events: seq<Event>): seq<Reply> {
    if events == [] then []
    else
      var last := events[|events| - 1];
      Given(events[..|events| - 1]) + if last.Answer? then [last.reply] else []
  }

  function Replies(log: seq<Told>): (r: seq<Reply>)
    ensures |r| == |log|
  {
    seq(|log|, i requires 0 <= i < |log| => log[i].reply)
  }

  lemma NoneGiven(events: seq<Event>)
    ensures Replies([]) == Given(events[..0])
  {
  }

  lemma GivenNext(events: seq<Event>, i: nat)
    requires i < |events|
    ensures Given(events[..i + 1]) == Given(events[..i]) + if events[i].Answer? then [events[i].reply] else []
  {
    assert events[..i + 1][..i] == events[..i];
  }

  lemma RepliesNext(log: seq<Told>, t: Told)
    ensures Replies(log + [t]) == Replies(log) + [t.reply]
  {
  }

  lemma DeliverParts(l: Ledger, k: nat)
    requires CanDeliver(l, k)
    ensures k < |l.outstanding| && l.outstanding[k] in l.pendings && l.remaining > 0
    ensures l.pendings[l.outstanding[k]].pathId < |l.submissions|
  {
  }

  lemma {:induction false} GivenPrefix(events: seq<Event>, i: nat)
    requires i <= |events|
    ensures Given(events[..i]) <= Given(events)
    decreases |events| - i
  {
    if i < |events| {
      assert events[..i + 1][..i] == events[..i];
      GivenPrefix(events, i + 1);
    } else {
      assert events[..i] == events;
    }
  }
}
