/** Running the enumerated paths: one job per path and initial frame, collected, retried and filed until none
    remains. The ledger is the collector's state together with the runner's outstanding jobs. */
module RunLedger {
  import opened Bytes
  import opened Sequences
  import opened ActionTypes
  import MR = MixedRadix
  import opened PredicatePacking
  import opened PayloadCodec

  const HIT: u32 := 0
  const VICTORY: u32 := 0
  const RUN_MS: u32 := 60000
  const VI_STALL_MS: u32 := 2000

  datatype RunConfig = RunConfig(
    initialFrames: seq<InputFrame>, predicates: seq<Spec>, maxRetryCount: i32, paths: seq<BattlePath>)
  {
    function JobCount(): nat { |initialFrames| * |paths| }
  }

  /** What a worker's result says: delivered for the current epoch, script finished, and two context values. */
  datatype Reply = Reply(accepted: bool, ok: bool, runOutcome: u32, battleOutcome: Option<u32>)

  datatype Pending = Pending(pathId: nat, retryCount: i32, spec: EncodeSpec)

  datatype JobResult = JobResult(outcome: u16, pathId: nat, spec: EncodeSpec, reply: Reply)

  /** Result by result: what is outstanding and where every finished path went. */
  datatype Ledger = Ledger(
    nextId: nat, outstanding: seq<nat>, payloads: map<nat, seq<u8>>,
    pendings: map<nat, Pending>, remaining: nat, successes: seq<JobResult>, fails: seq<JobResult>,
    rejected: seq<nat>, abandoned: seq<nat>, submissions: seq<nat>, delivered: nat)

  function Empty(nextId: nat): Ledger { Ledger(nextId, [], map[], map[], 0, [], [], [], [], [], 0) }

  // ---------------------------------------------------------------- what each event does

  /** The payload is an encoding of the specification, whatever hash the packer uses. */
  ghost predicate Encodes(payload: seq<u8>, s: EncodeSpec) {
    exists records: seq<Record> :: EncodedWith(payload, s, records)
  }

  ghost predicate EncodedWith(payload: seq<u8>, s: EncodeSpec, records: seq<Record>) {
    && Fits(s.predicates) && |records| == |s.predicates|
    && (forall i | 0 <= i < |records| ::
          RecordFor(records[i], s.predicates[i], Programs(s.predicates), |s.predicates| * RECORD_SIZE))
    && payload == PayloadBytes(s, records, Concat(Programs(s.predicates)))
  }

  function Submitted(l: Ledger, p: Pending, payload: seq<u8>): Ledger {
    l.(nextId := l.nextId + 1, outstanding := l.outstanding + [l.nextId],
       payloads := l.payloads[l.nextId := payload], pendings := l.pendings[l.nextId := p])
  }

  function FirstSubmitted(l: Ledger, p: Pending, payload: seq<u8>): Ledger {
    Submitted(l, p, payload).(remaining := l.remaining + 1, submissions := l.submissions + [1])
  }

  function Without(s: seq<nat>, k: nat): (r: seq<nat>)
    requires k < |s|
    ensures |r| == |s| - 1
  {
    s[..k] + s[k + 1..]
  }

  predicate Retryable(p: Pending, reply: Reply) {
    reply.runOutcome != HIT && p.retryCount != 0
  }

  function Retried(p: Pending): Pending {
    if p.retryCount < 0 then p else p.(retryCount := p.retryCount - 1)
  }

  predicate IsSuccess(reply: Reply) { reply.battleOutcome == Some(VICTORY) }

  function ResultOf(p: Pending, reply: Reply): JobResult {
    var oc := if reply.battleOutcome.Some? then reply.battleOutcome.value else 0;
    JobResult(oc % 0x1_0000, p.pathId, p.spec, reply)
  }

  function Filed(l: Ledger, p: Pending, reply: Reply): Ledger
    requires l.remaining > 0
  {
    if IsSuccess(reply) then l.(remaining := l.remaining - 1, successes := l.successes + [ResultOf(p, reply)])
    else l.(remaining := l.remaining - 1, fails := l.fails + [ResultOf(p, reply)])
  }

  /** The k-th outstanding job answers; payload is what a retry would send. */
  function Delivered(l: Ledger, k: nat, reply: Reply, payload: seq<u8>): Ledger
    requires k < |l.outstanding| && l.outstanding[k] in l.pendings && l.remaining > 0
    requires l.pendings[l.outstanding[k]].pathId < |l.submissions|
  {
    var jid := l.outstanding[k];
    var p := l.pendings[jid];
    var got := l.(outstanding := Without(l.outstanding, k), delivered := l.delivered + 1);
    if !reply.accepted then got.(remaining := l.remaining - 1, rejected := l.rejected + [p.pathId])
    else if reply.ok then Filed(got, p, reply)
    else
      var erased := got.(pendings := l.pendings - {jid});
      if Retryable(p, reply)
      then Submitted(erased, Retried(p), payload).(submissions := l.submissions[p.pathId := l.submissions[p.pathId] + 1])
      else erased.(remaining := l.remaining - 1, abandoned := l.abandoned + [p.pathId])
  }

  // ---------------------------------------------------------------- the invariant

  /** Job number i: the frames are the outer loop, the paths the inner one. */
  function JobSpec(cfg: RunConfig, i: nat): EncodeSpec
    requires i < cfg.JobCount()
  {
    JobIndex(|cfg.initialFrames|, |cfg.paths|, i);
    EncodeSpec(RUN_MS, VI_STALL_MS, cfg.initialFrames[i / |cfg.paths|], cfg.predicates, cfg.paths[i % |cfg.paths|])
  }

  lemma JobIndex(frames: nat, paths: nat, i: nat)
    requires i < frames * paths
    ensures paths > 0 && i / paths < frames
  {
    MR.MulStrict(paths, frames, 0);
    MR.DivBound(i, paths, frames);
  }

  lemma JobAt(frames: nat, paths: nat, f: nat, p: nat)
    requires f < frames && p < paths
    ensures f * paths + p < frames * paths
    ensures (f * paths + p) / paths == f && (f * paths + p) % paths == p
  {
    MR.SumBound(frames, f, paths, p);
    MR.DivModUnique(paths, f, p);
  }

  function ResultIds(rs: seq<JobResult>): (ids: seq<nat>)
    ensures |ids| == |rs|
  {
    seq(|rs|, i requires 0 <= i < |rs| => rs[i].pathId)
  }

  ghost predicate Known(pendings: map<nat, Pending>, jids: seq<nat>) {
    forall i | 0 <= i < |jids| :: jids[i] in pendings
  }

  function OpenIds(pendings: map<nat, Pending>, jids: seq<nat>): (ids: seq<nat>)
    requires Known(pendings, jids)
    ensures |ids| == |jids|
  {
    seq(|jids|, i requires 0 <= i < |jids| => pendings[jids[i]].pathId)
  }

  /** Where every path is: succeeded, failed, rejected, abandoned or still outstanding. */
  function Places(l: Ledger): seq<nat>
    requires Known(l.pendings, l.outstanding)
  {
    ResultIds(l.successes) + ResultIds(l.fails) + l.rejected + l.abandoned + OpenIds(l.pendings, l.outstanding)
  }

  function UpTo(n: nat): (s: seq<nat>)
    ensures |s| == n && forall i | 0 <= i < n :: s[i] == i
  {
    seq(n, i => i)
  }

  /** The submissions the outstanding jobs may still take, counting the present one. */
  function Left(pendings: map<nat, Pending>, jids: seq<nat>): int
    requires Known(pendings, jids)
  {
    if jids == [] then 0 else Left(pendings, jids[..|jids| - 1]) + pendings[jids[|jids| - 1]].retryCount + 1
  }

  ghost predicate Outstanding(cfg: RunConfig, l: Ledger) {
    && Known(l.pendings, l.outstanding) && Distinct(l.outstanding)
    && (forall j | j in l.outstanding :: j < l.nextId)
    && l.remaining == |l.outstanding|
  }

  /** An outstanding job carries its own path, and has used up what its retry counter lacks. */
  ghost predicate JobSound(cfg: RunConfig, l: Ledger, jid: nat) {
    && jid in l.pendings && jid in l.payloads
    && var p := l.pendings[jid];
       && p.pathId < |l.submissions| <= cfg.JobCount() && p.spec == JobSpec(cfg, p.pathId)
       && Encodes(l.payloads[jid], p.spec)
       && (cfg.maxRetryCount >= 0 ==> p.retryCount >= 0 && l.submissions[p.pathId] + p.retryCount == cfg.maxRetryCount + 1)
       && (cfg.maxRetryCount < 0 ==> p.retryCount == cfg.maxRetryCount)
  }

  /** Every path so far is in exactly one place. */
  ghost predicate Placed(l: Ledger)
    requires Known(l.pendings, l.outstanding)
  {
    multiset(Places(l)) == multiset(UpTo(|l.submissions|))
  }

  /** No path is submitted more often than the retry limit allows. */
  ghost predicate Limited(cfg: RunConfig, l: Ledger) {
    forall i | 0 <= i < |l.submissions| ::
      1 <= l.submissions[i] && (cfg.maxRetryCount >= 0 ==> l.submissions[i] <= cfg.maxRetryCount + 1)
  }

  function MaxAnswers(cfg: RunConfig, paths: nat): int { paths * (cfg.maxRetryCount as int + 1) }

  /** With a retry limit, the answers given and those still possible stay within the limit. */
  ghost predicate Bounded(cfg: RunConfig, l: Ledger)
    requires Known(l.pendings, l.outstanding)
  {
    cfg.maxRetryCount >= 0 ==> l.delivered + Left(l.pendings, l.outstanding) <= MaxAnswers(cfg, |l.submissions|)
  }

  ghost predicate FiledRight(cfg: RunConfig, rs: seq<JobResult>, count: nat, success: bool) {
    forall r | r in rs ::
      && r.pathId < count <= cfg.JobCount() && r.spec == JobSpec(cfg, r.pathId)
      && r.reply.accepted && r.reply.ok && IsSuccess(r.reply) == success
  }

  ghost predicate Inv(cfg: RunConfig, l: Ledger) {
    && Outstanding(cfg, l)
    && (forall j | j in l.outstanding :: JobSound(cfg, l, j))
    && Placed(l) && Limited(cfg, l) && Bounded(cfg, l)
    && FiledRight(cfg, l.successes, |l.submissions|, true) && FiledRight(cfg, l.fails, |l.submissions|, false)
  }

  // ---------------------------------------------------------------- every event keeps it

  lemma WithoutIs(s: seq<nat>, k: nat, i: nat)
    requires k < |s| && i < |s| - 1
    ensures Without(s, k)[i] == s[if i < k then i else i + 1]
  {
  }

  lemma WithoutCounts(s: seq<nat>, k: nat)
    requires k < |s|
    ensures multiset(s) == multiset(Without(s, k)) + multiset{s[k]}
  {
    assert s == s[..k] + ([s[k]] + s[k + 1..]);
  }

  lemma WithoutFacts(s: seq<nat>, k: nat)
    requires k < |s|
    ensures multiset(s) == multiset(Without(s, k)) + multiset{s[k]}
    ensures Distinct(s) ==> Distinct(Without(s, k)) && s[k] !in Without(s, k)
    ensures forall x | x in Without(s, k) :: x in s
  {
    WithoutCounts(s, k);
    forall i: nat | i < |s| - 1 ensures Without(s, k)[i] == s[if i < k then i else i + 1] { WithoutIs(s, k, i); }
    hide Without;
  }

  lemma OpenWithout(pendings: map<nat, Pending>, jids: seq<nat>, k: nat)
    requires Known(pendings, jids) && k < |jids|
    ensures Known(pendings, Without(jids, k))
    ensures multiset(OpenIds(pendings, jids)) == multiset(OpenIds(pendings, Without(jids, k))) + multiset{pendings[jids[k]].pathId}
  {
    WithoutFacts(OpenIds(pendings, jids), k);
    assert OpenIds(pendings, Without(jids, k)) == Without(OpenIds(pendings, jids), k);
  }

  lemma OpenSame(a: map<nat, Pending>, b: map<nat, Pending>, jids: seq<nat>)
    requires Known(a, jids) && forall j | j in jids :: j in b && b[j] == a[j]
    ensures Known(b, jids) && OpenIds(b, jids) == OpenIds(a, jids)
  {
  }

  lemma {:induction false} LeftSame(a: map<nat, Pending>, b: map<nat, Pending>, jids: seq<nat>)
    requires Known(a, jids) && forall j | j in jids :: j in b && b[j] == a[j]
    ensures Known(b, jids) && Left(b, jids) == Left(a, jids)
  {
    if jids != [] { LeftSame(a, b, jids[..|jids| - 1]); }
  }

  lemma {:induction false} LeftWithout(pendings: map<nat, Pending>, jids: seq<nat>, k: nat)
    requires Known(pendings, jids) && k < |jids|
    ensures Known(pendings, Without(jids, k))
    ensures Left(pendings, jids) == Left(pendings, Without(jids, k)) + pendings[jids[k]].retryCount + 1
  {
    var last := |jids| - 1;
    if k == last {
      assert Without(jids, k) == jids[..last];
    } else {
      LeftWithout(pendings, jids[..last], k);
      assert Without(jids, k)[..last - 1] == Without(jids[..last], k);
    }
  }

  lemma LeftSnoc(pendings: map<nat, Pending>, jids: seq<nat>, j: nat)
    requires Known(pendings, jids + [j])
    ensures Known(pendings, jids) && j in pendings
    ensures Left(pendings, jids + [j]) == Left(pendings, jids) + pendings[j].retryCount + 1
  {
    assert (jids + [j])[..|jids|] == jids && (jids + [j])[|jids|] == j;
    forall i | 0 <= i < |jids| ensures jids[i] in pendings { assert (jids + [j])[i] == jids[i]; }
  }

  /** The next unnumbered path goes out for the first time. */
  lemma FirstSubmittedKeeps(cfg: RunConfig, l: Ledger, p: Pending, payload: seq<u8>)
    requires Inv(cfg, l) && |l.submissions| < cfg.JobCount()
    requires p == Pending(|l.submissions|, cfg.maxRetryCount, JobSpec(cfg, |l.submissions|)) && Encodes(payload, p.spec)
    ensures Inv(cfg, FirstSubmitted(l, p, payload))
  {
    hide JobSpec, Encodes, Placed, Bounded, MaxAnswers;
    var m := FirstSubmitted(l, p, payload);
    DistinctAppend(l.outstanding, [l.nextId]);
    forall j | j in m.outstanding ensures JobSound(cfg, m, j) {
      if j != l.nextId { assert JobSound(cfg, l, j); }
    }
    hide JobSound, IsSuccess, Distinct;
    FirstPlaced(cfg, l, p, payload);
    FirstBounded(cfg, l, p, payload);
  }

  lemma FirstPlaced(cfg: RunConfig, l: Ledger, p: Pending, payload: seq<u8>)
    requires Outstanding(cfg, l) && Placed(l) && p.pathId == |l.submissions|
    ensures Known(l.pendings[l.nextId := p], l.outstanding + [l.nextId])
    ensures Placed(FirstSubmitted(l, p, payload))
  {
    var m := FirstSubmitted(l, p, payload);
    var n := |l.submissions|;
    OpenSame(l.pendings, m.pendings, l.outstanding);
    assert OpenIds(m.pendings, m.outstanding) == OpenIds(l.pendings, l.outstanding) + [n];
    assert Places(m) == Places(l) + [n];
    assert UpTo(n + 1) == UpTo(n) + [n];
  }

  lemma FirstBounded(cfg: RunConfig, l: Ledger, p: Pending, payload: seq<u8>)
    requires Outstanding(cfg, l) && Bounded(cfg, l) && p.retryCount == cfg.maxRetryCount
    ensures Known(l.pendings[l.nextId := p], l.outstanding + [l.nextId])
    ensures Bounded(cfg, FirstSubmitted(l, p, payload))
  {
    var m := FirstSubmitted(l, p, payload);
    LeftSame(l.pendings, m.pendings, l.outstanding);
    LeftSnoc(m.pendings, l.outstanding, l.nextId);
    MoreAnswers(cfg, |l.submissions|);
    hide Left, MaxAnswers, Distinct;
  }

  lemma MoreAnswers(cfg: RunConfig, n: nat)
    ensures MaxAnswers(cfg, n + 1) == MaxAnswers(cfg, n) + cfg.maxRetryCount + 1
  {
    assert (n + 1) * (cfg.maxRetryCount as int + 1) == n * (cfg.maxRetryCount as int + 1) + (cfg.maxRetryCount as int + 1);
  }

  /** Job k is taken off the list of outstanding jobs. */
  lemma AnswerTaken(cfg: RunConfig, l: Ledger, k: nat)
    requires Outstanding(cfg, l) && k < |l.outstanding|
    ensures var jid, rest := l.outstanding[k], Without(l.outstanding, k);
            && Known(l.pendings, rest) && Distinct(rest) && jid !in rest && |rest| + 1 == l.remaining && jid < l.nextId
            && (forall j | j in rest :: j < l.nextId && j in l.outstanding)
  {
    assert l.outstanding[k] in l.outstanding;
    WithoutFacts(l.outstanding, k);
    hide Distinct;
    forall i | 0 <= i < |Without(l.outstanding, k)| ensures Without(l.outstanding, k)[i] in l.pendings {
      assert Without(l.outstanding, k)[i] in Without(l.outstanding, k);
    }
  }

  lemma PlacesCount(l: Ledger)
    requires Known(l.pendings, l.outstanding)
    ensures multiset(Places(l)) ==
            multiset(ResultIds(l.successes)) + multiset(ResultIds(l.fails)) + multiset(l.rejected) + multiset(l.abandoned) +
            multiset(OpenIds(l.pendings, l.outstanding))
  {
  }

  /** The path of the answered job is filed, rejected or abandoned. */
  ghost predicate Settles(l: Ledger, m: Ledger, id: nat) {
    || (m.rejected == l.rejected + [id] && m.successes == l.successes && m.fails == l.fails && m.abandoned == l.abandoned)
    || (m.abandoned == l.abandoned + [id] && m.successes == l.successes && m.fails == l.fails && m.rejected == l.rejected)
    || (ResultIds(m.successes) == ResultIds(l.successes) + [id] && m.fails == l.fails && m.rejected == l.rejected && m.abandoned == l.abandoned)
    || (ResultIds(m.fails) == ResultIds(l.fails) + [id] && m.successes == l.successes && m.rejected == l.rejected && m.abandoned == l.abandoned)
  }

  lemma SettledPlaced(cfg: RunConfig, l: Ledger, k: nat, m: Ledger)
    requires Outstanding(cfg, l) && Placed(l) && k < |l.outstanding|
    requires Settles(l, m, l.pendings[l.outstanding[k]].pathId)
    requires m.outstanding == Without(l.outstanding, k) && m.submissions == l.submissions
    requires forall j | j in m.outstanding :: j in l.pendings && j in m.pendings && m.pendings[j] == l.pendings[j]
    ensures Known(m.pendings, m.outstanding) && Placed(m)
  {
    hide Distinct;
    OpenWithout(l.pendings, l.outstanding, k);
    OpenSame(l.pendings, m.pendings, m.outstanding);
    hide OpenIds, Places, Without, ResultIds;
    PlacesCount(l);
    PlacesCount(m);
  }

  lemma SettledBounded(cfg: RunConfig, l: Ledger, k: nat, m: Ledger)
    requires Outstanding(cfg, l) && Bounded(cfg, l) && k < |l.outstanding|
    requires cfg.maxRetryCount >= 0 ==> l.pendings[l.outstanding[k]].retryCount >= 0
    requires m.outstanding == Without(l.outstanding, k) && m.submissions == l.submissions && m.delivered == l.delivered + 1
    requires forall j | j in m.outstanding :: j in l.pendings && j in m.pendings && m.pendings[j] == l.pendings[j]
    ensures Known(m.pendings, m.outstanding) && Bounded(cfg, m)
  {
    hide Distinct, MaxAnswers;
    LeftWithout(l.pendings, l.outstanding, k);
    LeftSame(l.pendings, m.pendings, m.outstanding);
    hide Left, Without;
  }

  ghost predicate CanDeliver(l: Ledger, k: nat) {
    && k < |l.outstanding| && l.outstanding[k] in l.pendings && l.remaining > 0
    && l.pendings[l.outstanding[k]].pathId < |l.submissions|
  }

  lemma InvCanDeliver(cfg: RunConfig, l: Ledger, k: nat)
    requires Inv(cfg, l) && k < |l.outstanding|
    ensures CanDeliver(l, k)
  {
    assert JobSound(cfg, l, l.outstanding[k]);
  }

  predicate Retries(l: Ledger, k: nat, reply: Reply)
    requires k < |l.outstanding| && l.outstanding[k] in l.pendings
  {
    reply.accepted && !reply.ok && Retryable(l.pendings[l.outstanding[k]], reply)
  }

  lemma ResultIdsSnoc(rs: seq<JobResult>, r: JobResult)
    ensures ResultIds(rs + [r]) == ResultIds(rs) + [r.pathId]
  {
  }

  /** From l to m, job k is gone, its path is settled, and every other job is as before. */
  ghost predicate SettledBy(l: Ledger, k: nat, m: Ledger)
    requires CanDeliver(l, k)
  {
    && Settles(l, m, l.pendings[l.outstanding[k]].pathId) && m.outstanding == Without(l.outstanding, k)
    && m.submissions == l.submissions && m.delivered == l.delivered + 1 && m.payloads == l.payloads
    && m.nextId == l.nextId && m.remaining == l.remaining - 1
    && forall j | j in l.pendings && j != l.outstanding[k] :: j in m.pendings && m.pendings[j] == l.pendings[j]
  }

  lemma FinalSettles(l: Ledger, k: nat, reply: Reply, payload: seq<u8>)
    requires CanDeliver(l, k) && !Retries(l, k, reply)
    ensures SettledBy(l, k, Delivered(l, k, reply, payload))
  {
    var p := l.pendings[l.outstanding[k]];
    ResultIdsSnoc(l.successes, ResultOf(p, reply));
    ResultIdsSnoc(l.fails, ResultOf(p, reply));
    hide ResultIds, Without;
  }

  lemma FinalFiled(cfg: RunConfig, l: Ledger, k: nat, reply: Reply, payload: seq<u8>)
    requires CanDeliver(l, k) && !Retries(l, k, reply) && JobSound(cfg, l, l.outstanding[k])
    requires FiledRight(cfg, l.successes, |l.submissions|, true) && FiledRight(cfg, l.fails, |l.submissions|, false)
    ensures var m := Delivered(l, k, reply, payload);
            FiledRight(cfg, m.successes, |m.submissions|, true) && FiledRight(cfg, m.fails, |m.submissions|, false)
  {
    hide JobSpec, Encodes, Without, IsSuccess;
  }

  lemma SettledOutstanding(cfg: RunConfig, l: Ledger, k: nat, m: Ledger)
    requires Outstanding(cfg, l) && CanDeliver(l, k) && SettledBy(l, k, m)
    ensures Outstanding(cfg, m)
    ensures forall j | j in m.outstanding :: j in l.outstanding && j in l.pendings && j in m.pendings && m.pendings[j] == l.pendings[j]
  {
    AnswerTaken(cfg, l, k);
    hide Without, Distinct, Settles;
  }

  lemma SettledJobs(cfg: RunConfig, l: Ledger, k: nat, m: Ledger, j: nat)
    requires Inv(cfg, l) && CanDeliver(l, k) && SettledBy(l, k, m) && j in m.outstanding
    ensures JobSound(cfg, m, j)
  {
    SettledOutstanding(cfg, l, k, m);
    hide Settles, JobSound, Placed, Bounded, Without, Outstanding, Limited, FiledRight;
    StillSound(cfg, l, m, j);
  }

  lemma SettledCounts(cfg: RunConfig, l: Ledger, k: nat, m: Ledger)
    requires Outstanding(cfg, l) && Placed(l) && Limited(cfg, l) && Bounded(cfg, l)
    requires CanDeliver(l, k) && SettledBy(l, k, m)
    requires cfg.maxRetryCount >= 0 ==> l.pendings[l.outstanding[k]].retryCount >= 0
    ensures Known(m.pendings, m.outstanding) && Placed(m) && Limited(cfg, m) && Bounded(cfg, m)
  {
    SettledOutstanding(cfg, l, k, m);
    hide Settles, Placed, Bounded, Without, Distinct;
    SettledPlaced(cfg, l, k, m);
    SettledBounded(cfg, l, k, m);
  }

  lemma SettledKeeps(cfg: RunConfig, l: Ledger, k: nat, m: Ledger)
    requires Inv(cfg, l) && CanDeliver(l, k) && SettledBy(l, k, m)
    requires FiledRight(cfg, m.successes, |m.submissions|, true) && FiledRight(cfg, m.fails, |m.submissions|, false)
    ensures Inv(cfg, m)
  {
    SettledOutstanding(cfg, l, k, m);
    assert l.outstanding[k] in l.outstanding;
    RetriesLeft(cfg, l, l.outstanding[k]);
    SettledCounts(cfg, l, k, m);
    hide SettledBy, JobSound, FiledRight, Placed, Limited, Bounded, Outstanding;
    forall j | j in m.outstanding ensures JobSound(cfg, m, j) { SettledJobs(cfg, l, k, m, j); }
  }

  lemma RetriesLeft(cfg: RunConfig, l: Ledger, j: nat)
    requires j in l.outstanding ==> JobSound(cfg, l, j)
    ensures j in l.outstanding && cfg.maxRetryCount >= 0 ==> j in l.pendings && l.pendings[j].retryCount >= 0
  {
  }

  /** A final answer keeps the invariant. */
  lemma FinalKeeps(cfg: RunConfig, l: Ledger, k: nat, reply: Reply, payload: seq<u8>)
    requires Inv(cfg, l) && CanDeliver(l, k) && !Retries(l, k, reply)
    ensures Inv(cfg, Delivered(l, k, reply, payload))
  {
    assert JobSound(cfg, l, l.outstanding[k]);
    hide Delivered, Retries, JobSound, Placed, FiledRight, SettledBy, Limited, Bounded;
    FinalFiled(cfg, l, k, reply, payload);
    FinalSettles(l, k, reply, payload);
    SettledKeeps(cfg, l, k, Delivered(l, k, reply, payload));
  }

  lemma StillSound(cfg: RunConfig, l: Ledger, m: Ledger, j: nat)
    requires JobSound(cfg, l, j) && j in m.pendings && m.pendings[j] == l.pendings[j]
    requires m.payloads == l.payloads && m.submissions == l.submissions
    ensures JobSound(cfg, m, j)
  {
  }

  // ---------------------------------------------------------------- a retry keeps it

  lemma RetryPlaced(cfg: RunConfig, l: Ledger, k: nat, m: Ledger, p: Pending)
    requires Outstanding(cfg, l) && Placed(l) && k < |l.outstanding|
    requires p.pathId == l.pendings[l.outstanding[k]].pathId && m.pendings == (l.pendings - {l.outstanding[k]})[l.nextId := p]
    requires m.outstanding == Without(l.outstanding, k) + [l.nextId] && |m.submissions| == |l.submissions|
    requires m.successes == l.successes && m.fails == l.fails && m.rejected == l.rejected && m.abandoned == l.abandoned
    ensures Known(m.pendings, m.outstanding) && Placed(m)
  {
    AnswerTaken(cfg, l, k);
    OpenWithout(l.pendings, l.outstanding, k);
    var rest := Without(l.outstanding, k);
    hide Without, Distinct;
    OpenSame(l.pendings, m.pendings, rest);
    assert OpenIds(m.pendings, m.outstanding) == OpenIds(m.pendings, rest) + [p.pathId];
    hide OpenIds, Places, ResultIds;
    PlacesCount(l);
    PlacesCount(m);
  }

  lemma RetryBounded(cfg: RunConfig, l: Ledger, k: nat, m: Ledger, p: Pending)
    requires Outstanding(cfg, l) && Bounded(cfg, l) && k < |l.outstanding|
    requires cfg.maxRetryCount >= 0 ==> p.retryCount < l.pendings[l.outstanding[k]].retryCount
    requires m.pendings == (l.pendings - {l.outstanding[k]})[l.nextId := p]
    requires m.outstanding == Without(l.outstanding, k) + [l.nextId]
    requires |m.submissions| == |l.submissions| && m.delivered == l.delivered + 1
    ensures Known(m.pendings, m.outstanding) && Bounded(cfg, m)
  {
    AnswerTaken(cfg, l, k);
    LeftWithout(l.pendings, l.outstanding, k);
    var rest := Without(l.outstanding, k);
    hide Without, Distinct, MaxAnswers;
    LeftSame(l.pendings, m.pendings, rest);
    LeftSnoc(m.pendings, rest, l.nextId);
    hide Left;
  }

  /** No two outstanding jobs are of the same path. */
  lemma OneJobPerPath(cfg: RunConfig, l: Ledger, i: nat, k: nat)
    requires Outstanding(cfg, l) && Placed(l) && i < |l.outstanding| && k < |l.outstanding| && i != k
    ensures l.pendings[l.outstanding[i]].pathId != l.pendings[l.outstanding[k]].pathId
  {
    var ids, places := OpenIds(l.pendings, l.outstanding), Places(l);
    var off := |places| - |ids|;
    assert places[off + i] == ids[i] && places[off + k] == ids[k];
    PlacesDistinct(l);
  }

  lemma UpToOnce(n: nat, x: nat)
    ensures multiset(UpTo(n))[x] == if x < n then 1 else 0
  {
    if n > 0 {
      UpToOnce(n - 1, x);
      assert UpTo(n) == UpTo(n - 1) + [n - 1];
    }
  }

  lemma PlacesDistinct(l: Ledger)
    requires Known(l.pendings, l.outstanding) && Placed(l)
    ensures Distinct(Places(l))
  {
    hide Places, UpTo;
    var s := Places(l);
    forall i, j | 0 <= i < j < |s| ensures s[i] != s[j] {
      UpToOnce(|l.submissions|, s[i]);
      if s[i] == s[j] { CountedTwice(s, i, j); }
    }
  }

  lemma CountedTwice(s: seq<nat>, i: nat, j: nat)
    requires i < j < |s| && s[i] == s[j]
    ensures multiset(s)[s[i]] >= 2
  {
    assert s == s[..i] + [s[i]] + s[i + 1..];
    assert s[i + 1..][j - i - 1] == s[j];
  }

  lemma RetryOutstanding(cfg: RunConfig, l: Ledger, k: nat)
    requires Outstanding(cfg, l) && k < |l.outstanding|
    ensures var outstanding := Without(l.outstanding, k) + [l.nextId];
            && Distinct(outstanding) && |outstanding| == l.remaining
            && forall j | j in outstanding :: j == l.nextId || (j < l.nextId && j in l.pendings && j != l.outstanding[k])
  {
    AnswerTaken(cfg, l, k);
    hide Without;
    DistinctAppend(Without(l.outstanding, k), [l.nextId]);
  }

  lemma RetryLimited(cfg: RunConfig, l: Ledger, j: nat)
    requires JobSound(cfg, l, j) && Limited(cfg, l) && l.pendings[j].retryCount != 0
    ensures var id := l.pendings[j].pathId;
            Limited(cfg, l.(submissions := l.submissions[id := l.submissions[id] + 1]))
  {
    hide JobSpec, Encodes;
  }

  /** From l to m, job k is replaced by a fresh job p of the same path. */
  ghost predicate ReplacedBy(l: Ledger, k: nat, m: Ledger, p: Pending)
    requires CanDeliver(l, k)
  {
    var old' := l.pendings[l.outstanding[k]];
    && m.payloads.Keys == l.payloads.Keys + {l.nextId}
    && (forall j | j in l.payloads && j != l.nextId :: m.payloads[j] == l.payloads[j])
    && p.pathId == old'.pathId && m.pendings == (l.pendings - {l.outstanding[k]})[l.nextId := p]
    && m.outstanding == Without(l.outstanding, k) + [l.nextId] && m.nextId == l.nextId + 1
    && m.submissions == l.submissions[p.pathId := l.submissions[p.pathId] + 1] && m.delivered == l.delivered + 1
    && m.successes == l.successes && m.fails == l.fails && m.rejected == l.rejected && m.abandoned == l.abandoned
    && m.remaining == l.remaining
  }

  lemma RetryReplaces(l: Ledger, k: nat, reply: Reply, payload: seq<u8>)
    requires CanDeliver(l, k) && Retries(l, k, reply)
    ensures ReplacedBy(l, k, Delivered(l, k, reply, payload), Retried(l.pendings[l.outstanding[k]]))
  {
    hide Without;
  }

  lemma ReplacedOutstanding(cfg: RunConfig, l: Ledger, k: nat, m: Ledger, p: Pending)
    requires Outstanding(cfg, l) && CanDeliver(l, k) && ReplacedBy(l, k, m, p)
    ensures Outstanding(cfg, m)
  {
    RetryOutstanding(cfg, l, k);
    hide Without, Distinct;
  }

  /** Another outstanding job serves another path. */
  lemma OtherPath(cfg: RunConfig, l: Ledger, k: nat, j: nat)
    requires Inv(cfg, l) && CanDeliver(l, k) && j in l.outstanding && j != l.outstanding[k] && j in l.pendings
    ensures l.pendings[j].pathId != l.pendings[l.outstanding[k]].pathId
  {
    hide Placed, Limited, Bounded, FiledRight, Distinct, JobSound;
    var i :| 0 <= i < |l.outstanding| && l.outstanding[i] == j;
    OneJobPerPath(cfg, l, i, k);
  }

  /** Every other job keeps its entry and its payload. */
  lemma OtherKept(l: Ledger, k: nat, m: Ledger, p: Pending, j: nat)
    requires CanDeliver(l, k) && ReplacedBy(l, k, m, p)
    requires j in l.pendings && j in l.payloads && j != l.outstanding[k] && j != l.nextId
    ensures j in m.pendings && m.pendings[j] == l.pendings[j] && j in m.payloads && m.payloads[j] == l.payloads[j]
  {
    hide Without;
  }

  /** Every other path keeps its submissions. */
  lemma OtherSubmissions(l: Ledger, k: nat, m: Ledger, p: Pending, path: nat)
    requires CanDeliver(l, k) && ReplacedBy(l, k, m, p)
    requires path < |l.submissions| && path != l.pendings[l.outstanding[k]].pathId
    ensures |m.submissions| == |l.submissions| && m.submissions[path] == l.submissions[path]
  {
    hide Without;
  }

  lemma StaysOutstanding(cfg: RunConfig, l: Ledger, k: nat, m: Ledger, p: Pending, j: nat)
    requires Inv(cfg, l) && CanDeliver(l, k) && ReplacedBy(l, k, m, p) && j in m.outstanding && j != l.nextId
    ensures j in l.outstanding && j != l.outstanding[k] && JobSound(cfg, l, j)
  {
    hide JobSound, Placed, Limited, Bounded, FiledRight, Distinct, Without;
    AnswerTaken(cfg, l, k);
    assert j in Without(l.outstanding, k);
  }

  /** So every other job stays sound. */
  lemma OtherSound(cfg: RunConfig, l: Ledger, k: nat, m: Ledger, p: Pending, j: nat)
    requires Inv(cfg, l) && CanDeliver(l, k) && ReplacedBy(l, k, m, p)
    requires j in m.outstanding && j != l.nextId
    ensures JobSound(cfg, m, j)
  {
    hide Inv, CanDeliver, ReplacedBy, Encodes, JobSpec;
    StaysOutstanding(cfg, l, k, m, p, j);
    OtherPath(cfg, l, k, j);
    OtherKept(l, k, m, p, j);
    OtherSubmissions(l, k, m, p, l.pendings[j].pathId);
  }

  /** The next attempt of the path: one submission more, one retry less. */
  lemma NextSound(cfg: RunConfig, l: Ledger, k: nat, reply: Reply, payload: seq<u8>)
    requires CanDeliver(l, k) && Retries(l, k, reply) && JobSound(cfg, l, l.outstanding[k])
    requires Encodes(payload, l.pendings[l.outstanding[k]].spec)
    ensures JobSound(cfg, Delivered(l, k, reply, payload), l.nextId)
  {
    hide Encodes, JobSpec, Without;
  }

  lemma ReplacedCounts(cfg: RunConfig, l: Ledger, k: nat, m: Ledger, p: Pending)
    requires Outstanding(cfg, l) && Placed(l) && Bounded(cfg, l) && CanDeliver(l, k) && ReplacedBy(l, k, m, p)
    requires cfg.maxRetryCount >= 0 ==> p.retryCount < l.pendings[l.outstanding[k]].retryCount
    ensures Known(m.pendings, m.outstanding) && Placed(m) && Bounded(cfg, m)
  {
    hide Placed, Bounded, Without, Distinct;
    RetryPlaced(cfg, l, k, m, p);
    RetryBounded(cfg, l, k, m, p);
  }

  lemma ReplacedSound(cfg: RunConfig, l: Ledger, k: nat, m: Ledger, p: Pending)
    requires Inv(cfg, l) && CanDeliver(l, k) && ReplacedBy(l, k, m, p) && JobSound(cfg, m, l.nextId)
    ensures forall j | j in m.outstanding :: JobSound(cfg, m, j)
  {
    hide Inv, CanDeliver, ReplacedBy, JobSound;
    forall j | j in m.outstanding ensures JobSound(cfg, m, j) {
      if j != l.nextId { OtherSound(cfg, l, k, m, p, j); }
    }
  }

  lemma LimitStands(cfg: RunConfig, l: Ledger, k: nat, m: Ledger, p: Pending)
    requires Inv(cfg, l) && CanDeliver(l, k) && ReplacedBy(l, k, m, p)
    requires l.pendings[l.outstanding[k]].retryCount != 0
    ensures Limited(cfg, m) && FiledRight(cfg, m.successes, |m.submissions|, true) && FiledRight(cfg, m.fails, |m.submissions|, false)
  {
    assert l.outstanding[k] in l.outstanding;
    RetryLimited(cfg, l, l.outstanding[k]);
    hide JobSound, Placed, Bounded, Outstanding, Limited, FiledRight;
    SamePath(l, k, m, p);
    ReplacedRest(cfg, l, k, m, p);
  }

  lemma SamePath(l: Ledger, k: nat, m: Ledger, p: Pending)
    requires CanDeliver(l, k) && ReplacedBy(l, k, m, p)
    ensures p.pathId == l.pendings[l.outstanding[k]].pathId
  {
    hide Without;
  }

  lemma ReplacedKeeps(cfg: RunConfig, l: Ledger, k: nat, m: Ledger, p: Pending)
    requires Inv(cfg, l) && CanDeliver(l, k) && ReplacedBy(l, k, m, p)
    requires l.pendings[l.outstanding[k]].retryCount != 0
    requires cfg.maxRetryCount >= 0 ==> p.retryCount < l.pendings[l.outstanding[k]].retryCount
    requires JobSound(cfg, m, l.nextId)
    ensures Inv(cfg, m)
  {
    hide FiledRight, JobSound, Placed, Bounded, ReplacedBy, Outstanding, Limited, CanDeliver, Known;
    ReplacedOutstanding(cfg, l, k, m, p);
    ReplacedCounts(cfg, l, k, m, p);
    LimitStands(cfg, l, k, m, p);
    ReplacedSound(cfg, l, k, m, p);
  }

  lemma ReplacedRest(cfg: RunConfig, l: Ledger, k: nat, m: Ledger, p: Pending)
    requires CanDeliver(l, k) && ReplacedBy(l, k, m, p)
    requires Limited(cfg, l.(submissions := l.submissions[p.pathId := l.submissions[p.pathId] + 1]))
    requires FiledRight(cfg, l.successes, |l.submissions|, true) && FiledRight(cfg, l.fails, |l.submissions|, false)
    ensures Limited(cfg, m)
    ensures FiledRight(cfg, m.successes, |m.submissions|, true) && FiledRight(cfg, m.fails, |m.submissions|, false)
  {
    hide JobSpec;
  }

  /** A retry keeps the invariant. */
  lemma RetryKeeps(cfg: RunConfig, l: Ledger, k: nat, reply: Reply, payload: seq<u8>)
    requires Inv(cfg, l) && CanDeliver(l, k) && Retries(l, k, reply)
    requires Encodes(payload, l.pendings[l.outstanding[k]].spec)
    ensures Inv(cfg, Delivered(l, k, reply, payload))
  {
    var m := Delivered(l, k, reply, payload);
    assert l.outstanding[k] in l.outstanding;
    NextSound(cfg, l, k, reply, payload);
    RetriesLeft(cfg, l, l.outstanding[k]);
    RetryReplaces(l, k, reply, payload);
    hide JobSound, Inv, Delivered, ReplacedBy, Encodes;
    ReplacedKeeps(cfg, l, k, m, Retried(l.pendings[l.outstanding[k]]));
  }

  /** Whatever an answer says, the books stay in order. */
  lemma DeliveredKeeps(cfg: RunConfig, l: Ledger, k: nat, reply: Reply, payload: seq<u8>)
    requires Inv(cfg, l) && CanDeliver(l, k)
    requires Retries(l, k, reply) ==> Encodes(payload, l.pendings[l.outstanding[k]].spec)
    ensures Inv(cfg, Delivered(l, k, reply, payload))
  {
    hide Inv, Delivered, Encodes;
    if Retries(l, k, reply) { RetryKeeps(cfg, l, k, reply, payload); } else { FinalKeeps(cfg, l, k, reply, payload); }
  }

  // ---------------------------------------------------------------- what the invariant gives

  /** Main result: at every point every job is accounted for exactly once. */
  lemma WorkConserved(cfg: RunConfig, l: Ledger)
    requires Inv(cfg, l)
    ensures |l.successes| + |l.fails| + |l.rejected| + |l.abandoned| + l.remaining == |l.submissions|
    ensures Distinct(Places(l)) && forall x: nat :: x in Places(l) <==> x < |l.submissions|
  {
    hide JobSound, FiledRight, Bounded, Limited;
    PlacesDistinct(l);
    assert |Places(l)| == |multiset(Places(l))| == |multiset(UpTo(|l.submissions|))| == |l.submissions|;
    forall x: nat ensures x in Places(l) <==> x < |l.submissions| {
      UpToOnce(|l.submissions|, x);
      assert x in Places(l) <==> multiset(Places(l))[x] > 0;
    }
  }

  lemma {:induction false} LeftAtLeast(cfg: RunConfig, l: Ledger, jids: seq<nat>)
    requires Known(l.pendings, jids) && forall j | j in jids :: l.pendings[j].retryCount >= 0
    ensures Left(l.pendings, jids) >= |jids|
  {
    if jids != [] { LeftAtLeast(cfg, l, jids[..|jids| - 1]); }
  }

  /** Main result: with a retry limit the number of answers is bounded, so the collection ends once the runner has
      answered that often; no path goes out more than limit + 1 times. */
  lemma CollectionEnds(cfg: RunConfig, l: Ledger)
    requires Inv(cfg, l) && cfg.maxRetryCount >= 0
    ensures l.delivered + l.remaining <= MaxAnswers(cfg, |l.submissions|)
    ensures l.delivered >= MaxAnswers(cfg, |l.submissions|) ==> l.remaining == 0
    ensures forall i | 0 <= i < |l.submissions| :: l.submissions[i] <= cfg.maxRetryCount + 1
  {
    forall j | j in l.outstanding ensures j in l.pendings && l.pendings[j].retryCount >= 0 {
      assert JobSound(cfg, l, j);
    }
    LeftAtLeast(cfg, l, l.outstanding);
  }

  lemma NothingYet(cfg: RunConfig, nextId: nat)
    ensures Inv(cfg, Empty(nextId))
  {
    var l := Empty(nextId);
    assert Places(l) == [] && UpTo(0) == [];
    assert cfg.maxRetryCount >= 0 ==> MaxAnswers(cfg, 0) == 0;
  }

  lemma SpecAt(cfg: RunConfig, f: nat, p: nat)
    requires f < |cfg.initialFrames| && p < |cfg.paths|
    ensures f * |cfg.paths| + p < cfg.JobCount()
    ensures JobSpec(cfg, f * |cfg.paths| + p) == EncodeSpec(60000, 2000, cfg.initialFrames[f], cfg.predicates, cfg.paths[p])
  {
    JobAt(|cfg.initialFrames|, |cfg.paths|, f, p);
  }

  function JobSet(jids: seq<nat>): set<nat> { set j | j in jids }

  lemma {:induction false} DistinctSize(s: seq<nat>)
    requires Distinct(s)
    ensures |JobSet(s)| == |s|
  {
    if s != [] {
      DistinctSize(s[1..]);
      assert s == [s[0]] + s[1..];
      assert s[0] !in JobSet(s[1..]);
      assert JobSet(s) == {s[0]} + JobSet(s[1..]);
    }
  }

  lemma OpenCount(cfg: RunConfig, l: Ledger)
    requires Inv(cfg, l)
    ensures |JobSet(l.outstanding)| == |l.outstanding| == l.remaining
  {
    DistinctSize(l.outstanding);
  }

  lemma SpecFits(cfg: RunConfig, l: Ledger, k: nat)
    requires Inv(cfg, l) && k < |l.outstanding|
    ensures l.outstanding[k] in l.pendings && l.pendings[l.outstanding[k]].spec.predicates == cfg.predicates
  {
    assert JobSound(cfg, l, l.outstanding[k]);
  }

  lemma DeliveredCounts(l: Ledger, k: nat, reply: Reply, payload: seq<u8>)
    requires CanDeliver(l, k)
    ensures var m := Delivered(l, k, reply, payload); m.delivered == l.delivered + 1 && |m.submissions| == |l.submissions|
  {
  }
}
