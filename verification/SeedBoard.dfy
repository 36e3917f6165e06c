/** The books of the delta-combination search: targets, jobs in flight, combinations tried, and the catalogue of
    observed deltas, with what every submission and every answer does to them. */
module SeedBoard {
  import opened Sequences
  import opened FairCombos

  type DeltaMap = map<int, seq<Pair>>

  /** The probe's inputs by family and delta. */
  datatype Inputs = Inputs(j: DeltaMap, c: DeltaMap, t: DeltaMap)

  datatype TargetState = TargetState(t: int, satisfied: bool, attempts: nat, inFlight: nat)

  datatype JobMeta = JobMeta(target: int, key: Key)

  datatype Found = Found(delta: int, key: Key)

  datatype Board = Board(
    states: seq<TargetState>, tried: set<Key>, submitted: seq<JobMeta>, jobs: map<nat, JobMeta>, nextId: nat,
    found: seq<Found>, catalogue: set<int>)

  /** The cast of an observed difference to a 32-bit signed integer. */
  function Int32(x: int): (r: int)
    ensures -0x8000_0000 <= r < 0x8000_0000
    ensures -0x8000_0000 <= x < 0x8000_0000 ==> r == x
  {
    (x + 0x8000_0000) % 0x1_0000_0000 - 0x8000_0000
  }

  /** The key is built from inputs of each family whose deltas sum to the target. */
  ghost predicate Sums(inputs: Inputs, key: Key, target: int) {
    exists jd, cd, td :: SumsBy(inputs, key, target, jd, cd, td)
  }

  ghost predicate SumsBy(inputs: Inputs, key: Key, target: int, jd: int, cd: int, td: int) {
    && jd in inputs.j && cd in inputs.c && td in inputs.t && jd + cd + td == target
    && key.j in inputs.j[jd] && key.c in inputs.c[cd] && key.t in inputs.t[td]
  }

  function OpenJobs(jobs: map<nat, JobMeta>, t: int): set<nat> {
    set id | id in jobs && jobs[id].target == t
  }

  function AttemptsFor(submitted: seq<JobMeta>, t: int): nat {
    if submitted == [] then 0
    else AttemptsFor(submitted[..|submitted| - 1], t) + if submitted[|submitted| - 1].target == t then 1 else 0
  }

  function Keys(submitted: seq<JobMeta>): (k: seq<Key>)
    ensures |k| == |submitted|
  {
    seq(|submitted|, i requires 0 <= i < |submitted| => submitted[i].key)
  }

  function CatalogueKeys(found: seq<Found>): (k: seq<int>)
    ensures |k| == |found|
  {
    seq(|found|, i requires 0 <= i < |found| => Int32(found[i].delta))
  }

  function InFlight(states: seq<TargetState>): nat {
    if states == [] then 0 else states[0].inFlight + InFlight(states[1..])
  }

  // ---------------------------------------------------------------- the invariant

  ghost predicate DistinctTargets(states: seq<TargetState>) {
    forall i, j | 0 <= i < j < |states| :: states[i].t != states[j].t
  }

  /** The counters of every target say what they are for. */
  ghost predicate Counted(b: Board, cap: nat) {
    forall i | 0 <= i < |b.states| ::
      && b.states[i].inFlight == |OpenJobs(b.jobs, b.states[i].t)|
      && b.states[i].attempts == AttemptsFor(b.submitted, b.states[i].t) <= cap
  }

  /** No combination goes out twice, and each sums to its target. */
  ghost predicate Fresh(b: Board, inputs: Inputs) {
    && Distinct(Keys(b.submitted))
    && (forall key :: key in b.tried <==> key in Keys(b.submitted))
    && (forall s | s in b.submitted :: Sums(inputs, s.key, s.target))
  }

  ghost predicate KnownJobs(b: Board) {
    && (forall id | id in b.jobs :: id < b.nextId && b.jobs[id] in b.submitted)
    && (forall id | id in b.jobs :: exists i :: 0 <= i < |b.states| && b.states[i].t == b.jobs[id].target)
  }

  /** One representative per catalogued delta; the neutral delta 0 has none. */
  ghost predicate Catalogued(b: Board) {
    && Distinct(CatalogueKeys(b.found)) && 0 !in CatalogueKeys(b.found)
    && (forall d :: d in b.catalogue <==> d == 0 || d in CatalogueKeys(b.found))
    && (forall i | 0 <= i < |b.states| && b.states[i].satisfied :: Int32(b.states[i].t) in b.catalogue)
  }

  ghost predicate Inv(b: Board, inputs: Inputs, cap: nat) {
    DistinctTargets(b.states) && Counted(b, cap) && Fresh(b, inputs) && KnownJobs(b) && Catalogued(b)
  }

  // ---------------------------------------------------------------- a submission

  function Submitted(b: Board, i: nat, key: Key): Board
    requires i < |b.states|
  {
    var s := b.states[i];
    var job := JobMeta(s.t, key);
    b.(states := b.states[i := s.(attempts := s.attempts + 1, inFlight := s.inFlight + 1)],
       tried := b.tried + {key}, submitted := b.submitted + [job], jobs := b.jobs[b.nextId := job], nextId := b.nextId + 1)
  }

  lemma AttemptsSnoc(submitted: seq<JobMeta>, job: JobMeta, t: int)
    ensures AttemptsFor(submitted + [job], t) == AttemptsFor(submitted, t) + if job.target == t then 1 else 0
  {
    assert (submitted + [job])[..|submitted|] == submitted;
  }

  lemma OpenAdd(jobs: map<nat, JobMeta>, id: nat, job: JobMeta, t: int)
    requires id !in jobs
    ensures |OpenJobs(jobs[id := job], t)| == |OpenJobs(jobs, t)| + if job.target == t then 1 else 0
  {
    if job.target == t {
      assert OpenJobs(jobs[id := job], t) == OpenJobs(jobs, t) + {id};
    } else {
      assert OpenJobs(jobs[id := job], t) == OpenJobs(jobs, t);
    }
  }

  lemma OpenRemove(jobs: map<nat, JobMeta>, id: nat, t: int)
    requires id in jobs
    ensures |OpenJobs(jobs - {id}, t)| == |OpenJobs(jobs, t)| - if jobs[id].target == t then 1 else 0
  {
    if jobs[id].target == t {
      assert OpenJobs(jobs, t) == OpenJobs(jobs - {id}, t) + {id};
    } else {
      assert OpenJobs(jobs, t) == OpenJobs(jobs - {id}, t);
    }
  }

  lemma SubmittedCounted(b: Board, i: nat, key: Key, cap: nat)
    requires i < |b.states| && DistinctTargets(b.states) && Counted(b, cap) && b.nextId !in b.jobs && b.states[i].attempts < cap
    ensures Counted(Submitted(b, i, key), cap)
  {
    var job := JobMeta(b.states[i].t, key);
    hide OpenJobs, AttemptsFor;
    forall k | 0 <= k < |b.states|
      ensures var s := Submitted(b, i, key).states[k];
              && s.inFlight == |OpenJobs(b.jobs[b.nextId := job], s.t)|
              && s.attempts == AttemptsFor(b.submitted + [job], s.t) <= cap
    {
      OpenAdd(b.jobs, b.nextId, job, b.states[k].t);
      AttemptsSnoc(b.submitted, job, b.states[k].t);
    }
  }

  lemma SubmittedFresh(b: Board, i: nat, key: Key, inputs: Inputs)
    requires i < |b.states| && Fresh(b, inputs) && key !in b.tried && Sums(inputs, key, b.states[i].t)
    ensures Fresh(Submitted(b, i, key), inputs)
  {
    hide Sums;
    var job := JobMeta(b.states[i].t, key);
    assert Keys(b.submitted + [job]) == Keys(b.submitted) + [key];
    DistinctAppend(Keys(b.submitted), [key]);
  }

  ghost predicate SameTargets(a: seq<TargetState>, b: seq<TargetState>) {
    |a| == |b| && forall k | 0 <= k < |a| :: a[k].t == b[k].t
  }

  lemma StillKnown(a: Board, b: Board)
    requires KnownJobs(a) && SameTargets(a.states, b.states) && a.nextId <= b.nextId
    requires forall s | s in a.submitted :: s in b.submitted
    requires forall id | id in b.jobs :: (id in a.jobs && b.jobs[id] == a.jobs[id]) || NewJob(b, id)
    ensures KnownJobs(b)
  {
    forall id | id in b.jobs ensures exists k :: 0 <= k < |b.states| && b.states[k].t == b.jobs[id].target {
      if id in a.jobs && b.jobs[id] == a.jobs[id] {
        var k :| 0 <= k < |a.states| && a.states[k].t == a.jobs[id].target;
        assert b.states[k].t == b.jobs[id].target;
      }
    }
  }

  ghost predicate NewJob(b: Board, id: nat) {
    && id in b.jobs && id < b.nextId && b.jobs[id] in b.submitted
    && exists k :: 0 <= k < |b.states| && b.states[k].t == b.jobs[id].target
  }

  lemma SubmittedKnown(b: Board, i: nat, key: Key)
    requires i < |b.states| && KnownJobs(b)
    ensures KnownJobs(Submitted(b, i, key)) && SameTargets(b.states, Submitted(b, i, key).states)
  {
    var m := Submitted(b, i, key);
    assert m.states[i].t == m.jobs[b.nextId].target;
    assert m.submitted[|b.submitted|] == m.jobs[b.nextId];
    assert NewJob(m, b.nextId);
    StillKnown(b, m);
  }

  lemma SubmittedKeeps(b: Board, i: nat, key: Key, inputs: Inputs, cap: nat)
    requires Inv(b, inputs, cap) && i < |b.states| && b.states[i].attempts < cap
    requires key !in b.tried && Sums(inputs, key, b.states[i].t)
    ensures Inv(Submitted(b, i, key), inputs, cap)
  {
    SubmittedCounted(b, i, key, cap);
    SubmittedFresh(b, i, key, inputs);
    SubmittedKnown(b, i, key);
    hide Counted, Fresh, Sums, KnownJobs, CatalogueKeys, Distinct;
  }

  // ---------------------------------------------------------------- an answer

  function StateOf(states: seq<TargetState>, t: int): (i: nat)
    ensures i <= |states| && (i < |states| ==> states[i].t == t)
    ensures forall k | 0 <= k < i :: states[k].t != t
  {
    if states == [] || states[0].t == t then 0 else 1 + StateOf(states[1..], t)
  }

  /** Job id answers: the script failed, or the given delta was observed. Unknown ids change nothing. */
  function Answered(b: Board, id: nat, ok: bool, obs: int): Board {
    if id !in b.jobs then b
    else
      var job := b.jobs[id];
      var i := StateOf(b.states, job.target);
      if i == |b.states| then b
      else
        var s := b.states[i];
        var less := s.(inFlight := if s.inFlight > 0 then s.inFlight - 1 else 0);
        if !ok then b.(states := b.states[i := less], jobs := b.jobs - {id})
        else
          var known := Int32(obs) in b.catalogue;
          b.(states := b.states[i := less.(satisfied := s.satisfied || obs == s.t)], jobs := b.jobs - {id},
             found := if known then b.found else b.found + [Found(obs, job.key)],
             catalogue := b.catalogue + {Int32(obs)})
  }

  lemma JobState(b: Board, id: nat)
    requires KnownJobs(b) && id in b.jobs
    ensures StateOf(b.states, b.jobs[id].target) < |b.states|
  {
  }

  lemma AnsweredCounted(b: Board, id: nat, ok: bool, obs: int, cap: nat)
    requires DistinctTargets(b.states) && Counted(b, cap) && KnownJobs(b) && id in b.jobs
    ensures Counted(Answered(b, id, ok, obs), cap) && DistinctTargets(Answered(b, id, ok, obs).states)
  {
    JobState(b, id);
    var i := StateOf(b.states, b.jobs[id].target);
    var m := Answered(b, id, ok, obs);
    assert id in OpenJobs(b.jobs, b.states[i].t);
    hide OpenJobs, AttemptsFor, KnownJobs, StateOf;
    forall k | 0 <= k < |m.states|
      ensures && m.states[k].inFlight == |OpenJobs(m.jobs, m.states[k].t)|
              && m.states[k].attempts == AttemptsFor(m.submitted, m.states[k].t) <= cap && m.states[k].t == b.states[k].t
    {
      OpenRemove(b.jobs, id, b.states[k].t);
    }
  }

  lemma AnsweredCatalogued(b: Board, id: nat, ok: bool, obs: int)
    requires Catalogued(b) && KnownJobs(b) && id in b.jobs
    ensures Catalogued(Answered(b, id, ok, obs))
  {
    JobState(b, id);
    var m := Answered(b, id, ok, obs);
    hide Int32, StateOf;
    if ok && Int32(obs) !in b.catalogue {
      assert CatalogueKeys(m.found) == CatalogueKeys(b.found) + [Int32(obs)];
      DistinctAppend(CatalogueKeys(b.found), [Int32(obs)]);
    }
  }

  lemma AnsweredKnown(b: Board, id: nat, ok: bool, obs: int)
    requires KnownJobs(b) && id in b.jobs
    ensures KnownJobs(Answered(b, id, ok, obs)) && SameTargets(b.states, Answered(b, id, ok, obs).states)
  {
    JobState(b, id);
    hide Int32;
    var m := Answered(b, id, ok, obs);
    assert m.jobs == b.jobs - {id};
    StillKnown(b, m);
  }

  lemma AnsweredFresh(b: Board, id: nat, ok: bool, obs: int, inputs: Inputs)
    requires Fresh(b, inputs)
    ensures Fresh(Answered(b, id, ok, obs), inputs)
  {
    hide Int32, Sums, Keys, Distinct;
  }

  lemma AnsweredKeeps(b: Board, id: nat, ok: bool, obs: int, inputs: Inputs, cap: nat)
    requires Inv(b, inputs, cap)
    ensures Inv(Answered(b, id, ok, obs), inputs, cap)
  {
    if id in b.jobs {
      AnsweredCounted(b, id, ok, obs, cap);
      AnsweredCatalogued(b, id, ok, obs);
      AnsweredKnown(b, id, ok, obs);
      AnsweredFresh(b, id, ok, obs, inputs);
      hide Answered, Counted, Catalogued, KnownJobs, Fresh, DistinctTargets;
    }
  }

  // ---------------------------------------------------------------- rounds

  /** A job for the target at that place. */
  datatype Send = Send(place: nat, key: Key)

  /** It may go out: the target is open and below its cap, and the inputs are new and sum to it. */
  ghost predicate MaySend(b: Board, s: Send, inputs: Inputs, cap: nat) {
    && s.place < |b.states| && !b.states[s.place].satisfied && b.states[s.place].attempts < cap
    && s.key !in b.tried && Sums(inputs, s.key, b.states[s.place].t)
  }

  function AfterSends(b: Board, sends: seq<Send>): (r: Board)
    ensures |r.states| == |b.states|
  {
    if sends == [] then b
    else
      var last := sends[|sends| - 1];
      var r := AfterSends(b, sends[..|sends| - 1]);
      if last.place < |r.states| then Submitted(r, last.place, last.key) else r
  }

  ghost predicate MaySendAll(b: Board, sends: seq<Send>, inputs: Inputs, cap: nat) {
    forall n | 0 <= n < |sends| :: MaySend(AfterSends(b, sends[..n]), sends[n], inputs, cap)
  }

  lemma AfterSnoc(b: Board, sends: seq<Send>, s: Send)
    requires s.place < |b.states|
    ensures AfterSends(b, sends + [s]) == Submitted(AfterSends(b, sends), s.place, s.key)
  {
    hide Submitted;
    var more := sends + [s];
    assert more[..|more| - 1] == sends && more[|more| - 1] == s;
  }

  lemma SendsSnoc(b: Board, sends: seq<Send>, s: Send, inputs: Inputs, cap: nat)
    requires MaySendAll(b, sends, inputs, cap) && MaySend(AfterSends(b, sends), s, inputs, cap)
    ensures MaySendAll(b, sends + [s], inputs, cap)
  {
    hide MaySend, AfterSends;
    var more := sends + [s];
    assert more[..|sends|] == sends;
    forall n | 0 <= n < |more| ensures MaySend(AfterSends(b, more[..n]), more[n], inputs, cap) {
      if n < |sends| { assert more[..n] == sends[..n] && more[n] == sends[n]; }
    }
  }

  /** One poll of the runner: nothing yet, or some job (known or not) failed or observed a seed delta. */
  datatype Event = Idle | Result(jobId: nat, ok: bool, obs: int)

  /** The poll brought no result of a known job. */
  predicate Nothing(b: Board, e: Event) { e.Idle? || e.jobId !in b.jobs }

  // ---------------------------------------------------------------- consequences

  ghost predicate NoneTwice(b: Board, inputs: Inputs) {
    && (forall i, j | 0 <= i < j < |b.submitted| :: b.submitted[i].key != b.submitted[j].key)
    && (forall i | 0 <= i < |b.submitted| :: Sums(inputs, b.submitted[i].key, b.submitted[i].target))
  }

  /** Whatever was submitted, on whichever target, no two jobs carry the same inputs, and every job's inputs have
      deltas that sum to its target. */
  lemma NoTripleTwice(b: Board, inputs: Inputs, cap: nat)
    requires Inv(b, inputs, cap)
    ensures NoneTwice(b, inputs)
  {
    hide Sums, Counted, KnownJobs, Catalogued;
    forall i, j | 0 <= i < j < |b.submitted| ensures b.submitted[i].key != b.submitted[j].key {
      assert Keys(b.submitted)[i] != Keys(b.submitted)[j];
    }
    forall i | 0 <= i < |b.submitted| ensures Sums(inputs, b.submitted[i].key, b.submitted[i].target) {
      assert b.submitted[i] in b.submitted;
    }
  }

  lemma {:induction false} SendsKeep(b: Board, sends: seq<Send>, inputs: Inputs, cap: nat)
    requires Inv(b, inputs, cap) && MaySendAll(b, sends, inputs, cap)
    ensures Inv(AfterSends(b, sends), inputs, cap)
  {
    hide Inv, Submitted, Sums;
    if sends != [] {
      var n := |sends| - 1;
      var front := sends[..n];
      forall k | 0 <= k < n ensures MaySend(AfterSends(b, front[..k]), front[k], inputs, cap) {
        assert front[..k] == sends[..k];
      }
      SendsKeep(b, front, inputs, cap);
      SubmittedKeeps(AfterSends(b, front), sends[n].place, sends[n].key, inputs, cap);
    }
  }
}
