/** What becomes of every path, in terms of its answers alone: it is sent again after every run that broke off, as often
    as the limit allows, and filed by its last answer. */
module PathStories {
  import opened Bytes
  import opened RunLedger

  /** An answer, and the path it was for. */
  datatype Told = Told(path: nat, reply: Reply)

  /** The answers of a path, oldest first. */
  function RepliesOf(log: seq<Told>, path: nat): seq<Reply> {
    if log == [] then []
    else
      var last := log[|log| - 1];
      RepliesOf(log[..|log| - 1], path) + if last.path == path then [last.reply] else []
  }

  /** The run was delivered and broke off: the script failed, and the game had not stopped at a breakpoint (0). */
  predicate BrokeOff(r: Reply) { r.accepted && !r.ok && r.runOutcome != 0 }

  ghost predicate IsOut(l: Ledger, path: nat) {
    exists j :: j in l.outstanding && j in l.pendings && l.pendings[j].pathId == path
  }

  /** The path's result stands in the list, with this reply and its outcome cut to 16 bits. */
  ghost predicate FiledIn(rs: seq<JobResult>, path: nat, r: Reply) {
    exists x :: x in rs && x.pathId == path && x.reply == r && x.outcome == match r.battleOutcome case None => 0 case Some(v) => v % 65536
  }

  /** Where the last of n answers leaves a path: refused, successful when the outcome is 0 (victory), failed with any other
      or none, or given up, which takes a failure that is no break-off or a limit used up. */
  ghost predicate Filed(limit: int, l: Ledger, path: nat, r: Reply, n: nat) {
    if !r.accepted then path in l.rejected
    else if r.ok && r.battleOutcome == Some(0) then FiledIn(l.successes, path, r)
    else if r.ok then FiledIn(l.fails, path, r)
    else path in l.abandoned && (r.runOutcome == 0 || (limit >= 0 && n == limit + 1))
  }

  /** Every answer but the last of a finished path was of a run that broke off, and was followed by another attempt. */
  ghost predicate Story(limit: int, l: Ledger, log: seq<Told>, path: nat)
    requires path < |l.submissions|
  {
    var rs := RepliesOf(log, path);
    && (forall k | 0 <= k < |rs| - 1 :: BrokeOff(rs[k]))
    && if IsOut(l, path)
       then l.submissions[path] == |rs| + 1 && (rs != [] ==> BrokeOff(rs[|rs| - 1])) && (limit >= 0 ==> |rs| <= limit)
       else rs != [] && l.submissions[path] == |rs| && Filed(limit, l, path, rs[|rs| - 1], |rs|)
  }

  ghost predicate Stories(cfg: RunConfig, l: Ledger, log: seq<Told>) {
    forall path: nat | path < |l.submissions| :: Story(cfg.maxRetryCount, l, log, path)
  }

  lemma RepliesSnoc(log: seq<Told>, t: Told, path: nat)
    ensures RepliesOf(log + [t], path) == RepliesOf(log, path) + if t.path == path then [t.reply] else []
  {
    assert (log + [t])[..|log|] == log;
  }

  // ---------------------------------------------------------------- before the first answer

  lemma {:induction false} NoReplies(path: nat)
    ensures RepliesOf([], path) == []
  {
  }

  /** Every path that has no place among the finished ones is out. */
  lemma AllOut(cfg: RunConfig, l: Ledger, path: nat)
    requires Inv(cfg, l) && l.successes == l.fails == [] && l.rejected == l.abandoned == [] && path < |l.submissions|
    ensures IsOut(l, path)
  {
    WorkConserved(cfg, l);
    var places := Places(l);
    assert path in places && places == OpenIds(l.pendings, l.outstanding);
    var i :| 0 <= i < |places| && places[i] == path;
    assert l.outstanding[i] in l.outstanding;
  }

  lemma StoriesBegin(cfg: RunConfig, l: Ledger)
    requires Inv(cfg, l) && l.successes == l.fails == [] && l.rejected == l.abandoned == []
    requires forall p | 0 <= p < |l.submissions| :: l.submissions[p] == 1
    ensures Stories(cfg, l, [])
  {
    forall path: nat | path < |l.submissions| ensures Story(cfg.maxRetryCount, l, [], path) {
      AllOut(cfg, l, path);
      NoReplies(path);
    }
  }

  // ---------------------------------------------------------------- an answer

  /** Only the answered job moves: the others stay out. */
  lemma OthersOut(cfg: RunConfig, l: Ledger, k: nat, reply: Reply, payload: seq<u8>, path: nat)
    requires Inv(cfg, l) && CanDeliver(l, k) && path != l.pendings[l.outstanding[k]].pathId
    ensures IsOut(Delivered(l, k, reply, payload), path) <==> IsOut(l, path)
  {
    hide Inv, Encodes;
    OutstandingParts(cfg, l);
    var m := Delivered(l, k, reply, payload);
    WithoutFacts(l.outstanding, k);
    if j :| j in l.outstanding && j in l.pendings && l.pendings[j].pathId == path {
      StaysIn(l.outstanding, k, j);
      hide Without;
      assert j in m.outstanding && j in m.pendings && m.pendings[j] == l.pendings[j];
    }
    hide Without;
    if j :| j in m.outstanding && j in m.pendings && m.pendings[j].pathId == path {
      assert j in l.outstanding && l.pendings[j].pathId == path;
    }
  }

  lemma OutstandingParts(cfg: RunConfig, l: Ledger)
    requires Inv(cfg, l)
    ensures Outstanding(cfg, l) && Placed(l) && Known(l.pendings, l.outstanding)
    ensures forall j | j in l.outstanding :: j < l.nextId && j in l.pendings
  {
    hide JobSound, Limited, Bounded, FiledRight, Placed;
  }

  lemma StaysIn(s: seq<nat>, k: nat, j: nat)
    requires k < |s| && j in s && j != s[k]
    ensures j in Without(s, k)
  {
    WithoutCounts(s, k);
    hide Without;
    assert multiset(s)[j] > 0;
    assert multiset(Without(s, k))[j] > 0;
  }

  /** The answered path's other jobs: there are none. */
  lemma OwnOut(cfg: RunConfig, l: Ledger, k: nat, reply: Reply, payload: seq<u8>)
    requires Inv(cfg, l) && CanDeliver(l, k)
    ensures var path := l.pendings[l.outstanding[k]].pathId; IsOut(Delivered(l, k, reply, payload), path) <==> Retries(l, k, reply)
    ensures IsOut(l, l.pendings[l.outstanding[k]].pathId)
  {
    hide Inv, Encodes;
    OutstandingParts(cfg, l);
    var path, m := l.pendings[l.outstanding[k]].pathId, Delivered(l, k, reply, payload);
    assert l.outstanding[k] in l.outstanding;
    WithoutFacts(l.outstanding, k);
    hide Without;
    if Retries(l, k, reply) {
      assert l.nextId in m.outstanding && m.pendings[l.nextId].pathId == path;
    } else if j :| j in m.outstanding && j in m.pendings && m.pendings[j].pathId == path {
      assert j in l.outstanding && l.pendings[j].pathId == path && j != l.outstanding[k];
      var i :| 0 <= i < |l.outstanding| && l.outstanding[i] == j;
      OneJobPerPath(cfg, l, i, k);
    }
  }

  lemma OthersFiled(limit: int, l: Ledger, k: nat, reply: Reply, payload: seq<u8>, path: nat, r: Reply, n: nat)
    requires CanDeliver(l, k) && path != l.pendings[l.outstanding[k]].pathId && Filed(limit, l, path, r, n)
    ensures Filed(limit, Delivered(l, k, reply, payload), path, r, n)
  {
    hide Without;
    var m := Delivered(l, k, reply, payload);
    assert l.successes <= m.successes && l.fails <= m.fails && l.rejected <= m.rejected && l.abandoned <= m.abandoned;
    StillFiled(l.successes, m.successes, path, r);
    StillFiled(l.fails, m.fails, path, r);
    assert path in l.rejected ==> path in m.rejected;
    assert path in l.abandoned ==> path in m.abandoned;
  }

  lemma StillFiled(a: seq<JobResult>, b: seq<JobResult>, path: nat, r: Reply)
    requires a <= b
    ensures FiledIn(a, path, r) ==> FiledIn(b, path, r)
  {
    if x :| x in a && x.pathId == path && x.reply == r && x.outcome == match r.battleOutcome case None => 0 case Some(v) => v % 65536 {
      assert x in b;
    }
  }

  lemma OtherStory(cfg: RunConfig, l: Ledger, k: nat, reply: Reply, payload: seq<u8>, log: seq<Told>, path: nat)
    requires Inv(cfg, l) && CanDeliver(l, k) && path < |l.submissions| && path != l.pendings[l.outstanding[k]].pathId
    requires Story(cfg.maxRetryCount, l, log, path)
    ensures var m := Delivered(l, k, reply, payload);
            |m.submissions| == |l.submissions| &&
            Story(cfg.maxRetryCount, m, log + [Told(l.pendings[l.outstanding[k]].pathId, reply)], path)
  {
    hide Inv, Delivered, IsOut, Filed, RepliesOf, Retries;
    OthersOut(cfg, l, k, reply, payload, path);
    RepliesSnoc(log, Told(l.pendings[l.outstanding[k]].pathId, reply), path);
    var rs := RepliesOf(log, path);
    if !IsOut(l, path) { OthersFiled(cfg.maxRetryCount, l, k, reply, payload, path, rs[|rs| - 1], |rs|); }
    SubmissionsOf(l, k, reply, payload, path);
  }

  lemma SubmissionsOf(l: Ledger, k: nat, reply: Reply, payload: seq<u8>, path: nat)
    requires CanDeliver(l, k) && path < |l.submissions|
    ensures var m, own := Delivered(l, k, reply, payload), l.pendings[l.outstanding[k]].pathId;
            && |m.submissions| == |l.submissions|
            && m.submissions[path] == l.submissions[path] + if Retries(l, k, reply) && path == own then 1 else 0
  {
    hide Without;
  }

  lemma OwnFiled(cfg: RunConfig, l: Ledger, k: nat, reply: Reply, payload: seq<u8>, n: nat)
    requires Inv(cfg, l) && CanDeliver(l, k) && !Retries(l, k, reply) && l.submissions[l.pendings[l.outstanding[k]].pathId] == n
    ensures Filed(cfg.maxRetryCount, Delivered(l, k, reply, payload), l.pendings[l.outstanding[k]].pathId, reply, n)
  {
    assert JobSound(cfg, l, l.outstanding[k]);
    var p, m := l.pendings[l.outstanding[k]], Delivered(l, k, reply, payload);
    hide Inv, Without, Encodes, JobSpec;
    if reply.accepted && reply.ok {
      var x := ResultOf(p, reply);
      assert x in (if reply.battleOutcome == Some(0) then m.successes else m.fails);
      assert x.pathId == p.pathId && x.reply == reply;
    }
  }

  lemma OwnStory(cfg: RunConfig, l: Ledger, k: nat, reply: Reply, payload: seq<u8>, log: seq<Told>)
    requires Inv(cfg, l) && CanDeliver(l, k) && Story(cfg.maxRetryCount, l, log, l.pendings[l.outstanding[k]].pathId)
    ensures var m, path := Delivered(l, k, reply, payload), l.pendings[l.outstanding[k]].pathId;
            |m.submissions| == |l.submissions| && Story(cfg.maxRetryCount, m, log + [Told(path, reply)], path)
  {
    hide Inv, Delivered, IsOut, Filed, RepliesOf, Retries, BrokeOff;
    var path := l.pendings[l.outstanding[k]].pathId;
    OwnOut(cfg, l, k, reply, payload);
    RepliesSnoc(log, Told(path, reply), path);
    SubmissionsOf(l, k, reply, payload, path);
    RetriesMeans(cfg, l, k, reply);
    var rs := RepliesOf(log, path);
    if !Retries(l, k, reply) { OwnFiled(cfg, l, k, reply, payload, |rs| + 1); }
  }

  /** Another attempt is made exactly after a run that broke off, while the limit allows it. */
  lemma RetriesMeans(cfg: RunConfig, l: Ledger, k: nat, reply: Reply)
    requires Inv(cfg, l) && CanDeliver(l, k)
    ensures var sent := l.submissions[l.pendings[l.outstanding[k]].pathId];
            Retries(l, k, reply) <==> BrokeOff(reply) && (cfg.maxRetryCount >= 0 ==> sent <= cfg.maxRetryCount)
  {
    assert JobSound(cfg, l, l.outstanding[k]);
    hide Encodes, JobSpec;
  }

  /** Main lemma: every answer carries the stories on. */
  lemma StoriesGoOn(cfg: RunConfig, l: Ledger, k: nat, reply: Reply, payload: seq<u8>, log: seq<Told>)
    requires Inv(cfg, l) && CanDeliver(l, k) && Stories(cfg, l, log)
    ensures Stories(cfg, Delivered(l, k, reply, payload), log + [Told(l.pendings[l.outstanding[k]].pathId, reply)])
  {
    hide Inv, Story, Delivered;
    var m, own := Delivered(l, k, reply, payload), l.pendings[l.outstanding[k]].pathId;
    OwnStory(cfg, l, k, reply, payload, log);
    forall path: nat | path < |m.submissions| ensures Story(cfg.maxRetryCount, m, log + [Told(own, reply)], path) {
      if path != own { OtherStory(cfg, l, k, reply, payload, log, path); }
    }
  }
}
