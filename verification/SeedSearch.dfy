/** The combination search: one job per target first, then topping up to one job per worker after every result,
    until every target was observed or nothing is in flight. */
module SeedSearch {
  import opened Bytes
  import opened Sequences
  import opened FairCombos
  import opened SeedBoard
  import opened SeedDraws
  import opened SeedStory
  import opened SeedInputs

  // ---------------------------------------------------------------- sums over the targets

  lemma {:induction false} InFlightUpdate(states: seq<TargetState>, i: nat, s: TargetState)
    requires i < |states|
    ensures InFlight(states[i := s]) == InFlight(states) - states[i].inFlight + s.inFlight
  {
    if i > 0 {
      assert states[i := s][1..] == states[1..][i - 1 := s];
      InFlightUpdate(states[1..], i - 1, s);
    }
  }

  lemma {:induction false} InFlightZero(states: seq<TargetState>)
    ensures InFlight(states) == 0 <==> forall i | 0 <= i < |states| :: states[i].inFlight == 0
  {
    if states != [] {
      InFlightZero(states[1..]);
      assert states == [states[0]] + states[1..];
    }
  }

  lemma {:induction false} InFlightSnoc(states: seq<TargetState>, i: nat)
    requires i < |states|
    ensures InFlight(states[..i + 1]) == InFlight(states[..i]) + states[i].inFlight
  {
    if i > 0 {
      assert states[..i + 1][1..] == states[1..][..i] && states[..i][1..] == states[1..][..i - 1];
      InFlightSnoc(states[1..], i - 1);
    }
  }

  /** The input of the probe entry with all else at rest: sticks at 128, triggers at 0. */
  ghost predicate HoldsOnly(e: ProbeEntry, key: Key) {
    && key.j == (if e.family == MainStick then e.input else (128, 128))
    && key.c == (if e.family == CStick then e.input else (128, 128))
    && key.t == (if e.family == Triggers then e.input else (0, 0))
  }

  /** The i-th probe entry is good, and the first good one with its delta, which is not the neutral one. */
  ghost predicate FirstWith(entries: seq<ProbeEntry>, i: nat)
    requires i < |entries|
  {
    && entries[i].ok && Int32(entries[i].delta) != 0
    && forall k | 0 <= k < i && entries[k].ok :: Int32(entries[k].delta) != Int32(entries[i].delta)
  }

  /** Each representative is the probe's own first input with that delta. */
  ghost predicate Represents(entries: seq<ProbeEntry>, found: seq<Found>) {
    forall f | f in found :: exists i: nat :: i < |entries| && FirstWith(entries, i) && f.delta == entries[i].delta && HoldsOnly(entries[i], f.key)
  }

  lemma RepresentsNext(entries: seq<ProbeEntry>, found: seq<Found>, e: ProbeEntry)
    requires Represents(entries, found)
    ensures Represents(entries + [e], found)
    ensures e.ok && Int32(e.delta) != 0 && (forall x | x in entries && x.ok :: Int32(x.delta) != Int32(e.delta)) ==>
              Represents(entries + [e], found + [Found(e.delta, SingletonKey(e))])
  {
    hide Int32;
    var more := entries + [e];
    forall f | f in found
      ensures exists i: nat :: i < |more| && FirstWith(more, i) && f.delta == more[i].delta && HoldsOnly(more[i], f.key)
    {
      var i: nat :| i < |entries| && FirstWith(entries, i) && f.delta == entries[i].delta && HoldsOnly(entries[i], f.key);
      assert FirstWith(more, i);
    }
    if e.ok && Int32(e.delta) != 0 && forall x | x in entries && x.ok :: Int32(x.delta) != Int32(e.delta) {
      assert FirstWith(more, |entries|) && HoldsOnly(more[|entries|], SingletonKey(e));
    }
  }

  /** Representatives for the deltas the probe observed. */
  method SeedCatalogue(entries: seq<ProbeEntry>) returns (found: seq<Found>, catalogue: set<int>)
    ensures Represents(entries, found)
    ensures Distinct(CatalogueKeys(found)) && 0 !in CatalogueKeys(found)
    ensures forall d :: d in catalogue <==> d == 0 || d in CatalogueKeys(found)
    ensures forall d :: d in catalogue <==> d == 0 || exists e :: e in entries && e.ok && Int32(e.delta) == d
  {
    hide Int32, Represents;
    found, catalogue := [], {0};
    assert Represents([], []) by { NoneRepresented(); }
    for i := 0 to |entries|
      invariant Represents(entries[..i], found)
      invariant Distinct(CatalogueKeys(found)) && 0 !in CatalogueKeys(found)
      invariant forall d :: d in catalogue <==> d == 0 || d in CatalogueKeys(found)
      invariant forall d :: d in catalogue <==> d == 0 || exists e :: e in entries[..i] && e.ok && Int32(e.delta) == d
    {
      var e := entries[i];
      assert entries[..i + 1] == entries[..i] + [e];
      assert e in entries[..i + 1];
      RepresentsNext(entries[..i], found, e);
      if Int32(e.delta) in catalogue || !e.ok { continue; }
      var entry := Found(e.delta, SingletonKey(e));
      assert CatalogueKeys(found + [entry]) == CatalogueKeys(found) + [Int32(e.delta)];
      DistinctAppend(CatalogueKeys(found), [Int32(e.delta)]);
      found := found + [entry];
      catalogue := catalogue + {Int32(e.delta)};
    }
    assert entries[..|entries|] == entries;
  }

  lemma NoneRepresented()
    ensures Represents([], [])
  {
  }

  /** The probe input alone, everything else neutral. */
  function SingletonKey(e: ProbeEntry): Key {
    Key(if e.family.MainStick? then e.input else (128, 128), if e.family.CStick? then e.input else (128, 128),
        if e.family.Triggers? then e.input else (0, 0))
  }

  function NewStates(targets: seq<int>): (s: seq<TargetState>)
    ensures |s| == |targets|
  {
    seq(|targets|, i requires 0 <= i < |targets| => TargetState(targets[i], false, 0, 0))
  }

  lemma StartKeeps(targets: seq<int>, nextId: nat, found: seq<Found>, catalogue: set<int>, inputs: Inputs, cap: nat)
    requires Increasing(targets) && Distinct(CatalogueKeys(found)) && 0 !in CatalogueKeys(found)
    requires forall d :: d in catalogue <==> d == 0 || d in CatalogueKeys(found)
    ensures Inv(Board(NewStates(targets), {}, [], map[], nextId, found, catalogue), inputs, cap)
  {
    hide Int32, CatalogueKeys;
    forall t ensures OpenJobs(map[], t) == {} {}
  }

  class Search {
    const inputs: Inputs
    const cap: nat
    const tries: nat
    const workers: nat
    const its: seq<FairComboIterator>
    var states: seq<TargetState>
    var tried: set<Key>
    var jobs: map<nat, JobMeta>
    var nextId: nat
    var found: seq<Found>
    var catalogue: set<int>
    ghost var submitted: seq<JobMeta>
    /** The triples of every target before any draw, and the draws in order. */
    ghost const initial: seq<seq<TripleState>>
    ghost var draws: seq<Drawing>

    ghost function Books(): Board
      reads this
    {
      Board(states, tried, submitted, jobs, nextId, found, catalogue)
    }

    ghost function Targets(): (t: seq<int>)
      ensures |t| == |its|
    {
      seq(|its|, i requires 0 <= i < |its| => its[i].target)
    }

    /** The iterator of target i holds every triple that sums to it, and stands where its last draw left it. */
    ghost predicate Draws(i: nat)
      requires i < |its| == |states| == |initial|
      reads this, its[i]
    {
      && its[i].Valid() && its[i].target == states[i].t && Complete(inputs, states[i].t, its[i].triples)
      && its[i].triples == TriplesAfter(initial[i], draws, i) && its[i].cur == CursorAfter(draws, i)
    }

    ghost predicate Valid()
      reads this, its
    {
      && Inv(Books(), inputs, cap) && |its| == |states| == |initial| && workers > 0
      && (forall i, j | 0 <= i < j < |its| :: its[i] != its[j])
      && (forall i: nat | i < |its| :: Draws(i))
      && Chained(Targets(), initial, tries, draws) && tried == FoundKeys(draws)
    }

    constructor (inputs: Inputs, cap: nat, tries: nat, workers: nat, targets: seq<int>, its: seq<FairComboIterator>,
                 found: seq<Found>, catalogue: set<int>, nextId: nat)
      ensures this.inputs == inputs && this.cap == cap && this.tries == tries && this.its == its
      ensures this.workers == if workers > 0 then workers else 1
      ensures Books() == Board(NewStates(targets), {}, [], map[], nextId, found, catalogue)
      ensures draws == [] && initial == TriplesOf(its)
    {
      this.inputs, this.cap, this.tries, this.its := inputs, cap, tries, its;
      this.workers := if workers > 0 then workers else 1;
      states, tried, jobs, this.nextId, this.found, this.catalogue := NewStates(targets), {}, map[], nextId, found, catalogue;
      submitted, draws, initial := [], [], TriplesOf(its);
    }

    /** The next untried combination for target i, and what the draw did. */
    method Draw(i: nat) returns (key: Option<Key>, tried': set<Key>, ghost d: Drawing)
      requires Valid() && i < |states|
      modifies its[i]
      ensures its[i].Valid() && Complete(inputs, states[i].t, its[i].triples)
      ensures d == Drawing(i, old(its[i].triples), old(its[i].cur), its[i].triples, its[i].cur, tried, key)
      ensures Continues(Targets(), initial, tries, draws, d)
      ensures key.None? ==> tried' == tried && AllSpent(old(its[i].triples), its[i].triples, its[i].target, tried, tries)
      ensures key.Some? ==> key.value !in tried && tried' == tried + {key.value} && Sums(inputs, key.value, states[i].t)
    {
      hide Inv, FairComboIterator.Valid, Complete, Sums, AllSpent, DrawnAt, TriplesAfter, CursorAfter, FoundKeys, Chained;
      assert Draws(i);
      key, tried' := its[i].Next(tried, tries);
      d := Drawing(i, old(its[i].triples), old(its[i].cur), its[i].triples, its[i].cur, tried, key);
      CompleteSame(inputs, states[i].t, old(its[i].triples), its[i].triples);
      if key.Some? { DrawnSums(i, key.value); }
    }

    /** The books after a submission for target i. */
    method Submit(i: nat, key: Key)
      requires i < |states|
      modifies this
      ensures Books() == Submitted(old(Books()), i, key) && draws == old(draws)
    {
      var job := JobMeta(states[i].t, key);
      states := states[i := states[i].(attempts := states[i].attempts + 1, inFlight := states[i].inFlight + 1)];
      tried, submitted := tried + {key}, submitted + [job];
      jobs := jobs[nextId := job];
      nextId := nextId + 1;
    }

    /** The draw goes on the record; the iterators then stand where the record says. */
    ghost method Record(d: Drawing)
      requires |its| == |states| == |initial| && d.place < |its| && (forall i, j | 0 <= i < j < |its| :: its[i] != its[j])
      requires its[d.place].Valid() && its[d.place].target == states[d.place].t && Complete(inputs, states[d.place].t, its[d.place].triples)
      requires d.after == its[d.place].triples && d.next == its[d.place].cur
      requires forall k: nat | k < |its| && k != d.place :: Draws(k)
      requires Chained(Targets(), initial, tries, draws) && Continues(Targets(), initial, tries, draws, d)
      modifies this`draws
      ensures draws == old(draws) + [d] && Chained(Targets(), initial, tries, draws)
      ensures FoundKeys(draws) == FoundKeys(old(draws)) + if d.found.Some? then {d.found.value} else {}
      ensures forall k: nat | k < |its| :: Draws(k)
    {
      hide FairComboIterator.Valid, Complete, TriplesAfter, CursorAfter, FoundKeys, Chained, Continues, LastAt;
      ChainedSnoc(Targets(), initial, tries, draws, d);
      label before:
      draws := draws + [d];
      forall k: nat | k < |its| ensures Draws(k) {
        AfterDraw(initial[k], old@before(draws), d, k);
        if k != d.place { assert old@before(Draws(k)); }
      }
      AfterDraw([], old@before(draws), d, 0);
    }

    /** Draws a combination for target i, if it can be helped, and submits what it finds; a draw that finds nothing
        leaves every triple of the target spent. */
    method EnqueueFor(i: nat) returns (sent: bool, ghost d: Drawing)
      requires Valid() && i < |states|
      modifies this, its[i]
      ensures Valid() && SameTargets(old(states), states)
      ensures draws == old(draws) + (if Open(old(states)[i], cap) then [d] else [])
      ensures Open(old(states)[i], cap) ==> d.place == i && (sent <==> d.found.Some?)
      ensures !sent ==> Books() == old(Books())
      ensures !sent && Open(old(states)[i], cap) ==> AllSpent(old(its[i].triples), its[i].triples, its[i].target, tried, tries)
      ensures sent ==>
        && Open(old(states)[i], cap) && MaySend(old(Books()), Send(i, d.found.value), inputs, cap)
        && Books() == Submitted(old(Books()), i, d.found.value)
    {
      hide Inv, FairComboIterator.Valid, Complete, Sums, AllSpent, TriplesAfter, CursorAfter, FoundKeys, Chained, Continues;
      d := Drawing(i, [], 0, [], 0, {}, None);
      if states[i].satisfied { return false, d; }
      if states[i].attempts >= cap { return false, d; }
      var key, tried';
      key, tried', d := Draw(i);
      assert old(Draws(i));
      forall k: nat | k < |its| && k != i ensures Draws(k) { assert old(Draws(k)); }
      Record(d);
      if key.None? { return false, d; }
      SubmittedKeeps(Books(), i, key.value, inputs, cap);
      label drawn:
      Submit(i, key.value);
      forall k: nat | k < |its| ensures Draws(k) { assert old@drawn(Draws(k)); }
      return true, d;
    }

    lemma DrawnSums(i: nat, key: Key)
      requires i < |its| == |states| && its[i].Valid() && its[i].target == states[i].t
      requires Complete(inputs, states[i].t, its[i].triples) && SomeOffers(its[i].triples, key)
      ensures Sums(inputs, key, states[i].t)
    {
      var k: nat :| k < |its[i].triples| && Offers(its[i].triples[k], key);
      OffersSums(inputs, its[i].triples[k], its[i].target, key);
    }

    method SumInFlight() returns (n: nat)
      ensures n == InFlight(states)
    {
      n := 0;
      for i := 0 to |states|
        invariant n == InFlight(states[..i])
      {
        InFlightSnoc(states, i);
        n := n + states[i].inFlight;
      }
      assert states[..|states|] == states;
    }

    method AllSatisfied() returns (all: bool)
      ensures all == forall i | 0 <= i < |states| :: states[i].satisfied
    {
      for i := 0 to |states|
        invariant forall k | 0 <= k < i :: states[k].satisfied
      {
        if !states[i].satisfied { return false; }
      }
      return true;
    }

    /** Every target that can be helped is asked once, in order, and what the draws find goes out. */
    method InitialWave() returns (ghost wave: seq<Drawing>)
      requires Valid()
      modifies this, its
      ensures Valid() && draws == old(draws) + wave && Places(wave) == Opens(old(states), cap, |old(states)|)
      ensures Books() == AfterSends(old(Books()), SendsOf(wave)) && MaySendAll(old(Books()), SendsOf(wave), inputs, cap)
      ensures InFlight(states) == InFlight(old(states)) + |SendsOf(wave)| && SameTargets(old(states), states)
    {
      hide Inv, FairComboIterator.Valid, Complete, Chained, FoundKeys, AfterSends, MaySend, MaySendAll, Places, SendsOf, Open, AllSpent;
      wave := [];
      NoSends(Books(), inputs, cap);
      NoDraws();
      for i := 0 to |states|
        invariant Valid() && SameTargets(old(states), states) && draws == old(draws) + wave
        invariant Places(wave) == Opens(old(states), cap, i) && forall k | i <= k < |states| :: states[k] == old(states)[k]
        invariant Books() == AfterSends(old(Books()), SendsOf(wave)) && MaySendAll(old(Books()), SendsOf(wave), inputs, cap)
        invariant InFlight(states) == InFlight(old(states)) + |SendsOf(wave)|
      {
        ghost var b, was := Books(), wave;
        var sent; ghost var d;
        sent, d := EnqueueFor(i);
        if Open(b.states[i], cap) {
          wave := wave + [d];
          PlacesSnoc(was, d);
          assert draws == old(draws) + wave;
          if sent {
            Sent(old(Books()), SendsOf(was), Send(i, d.found.value));
            SubmittedInFlight(b, i, d.found.value);
          } else {
            assert SendsOf(was) + [] == SendsOf(was);
          }
        } else {
          assert Opens(old(states), cap, i) + [] == Opens(old(states), cap, i);
        }
      }
    }

    lemma Sent(b: Board, sends: seq<Send>, send: Send)
      requires MaySendAll(b, sends, inputs, cap) && MaySend(AfterSends(b, sends), send, inputs, cap)
      ensures MaySendAll(b, sends + [send], inputs, cap)
      ensures send.place < |AfterSends(b, sends).states|
      ensures AfterSends(b, sends + [send]) == Submitted(AfterSends(b, sends), send.place, send.key)
    {
      SendsSnoc(b, sends, send, inputs, cap);
      assert send.place < |b.states| by { hide AfterSends; }
      AfterSnoc(b, sends, send);
    }

    /** One sweep over the targets that can be helped, up to the first that has something to offer. */
    method SweepOnce() returns (any: bool, ghost sweep: seq<Drawing>)
      requires Valid()
      modifies this, its
      ensures Valid() && draws == old(draws) + sweep && SameTargets(old(states), states)
      ensures !any ==> Books() == old(Books()) && RefusedSweep(states, cap, sweep)
      ensures any ==>
        && SentSweep(old(states), cap, sweep)
        && var last := sweep[|sweep| - 1];
           && MaySend(old(Books()), Send(last.place, last.found.value), inputs, cap)
           && Books() == Submitted(old(Books()), last.place, last.found.value)
    {
      hide Inv, FairComboIterator.Valid, Complete, Chained, FoundKeys, MaySend, Places, SendsOf, Open, AllSpent;
      sweep := [];
      NoDraws();
      for i := 0 to |states|
        invariant Valid() && SameTargets(old(states), states) && draws == old(draws) + sweep && Books() == old(Books())
        invariant Places(sweep) == Opens(old(states), cap, i) && SendsOf(sweep) == []
      {
        OpenIs(states[i], cap);
        if states[i].satisfied { assert Opens(old(states), cap, i) + [] == Opens(old(states), cap, i); continue; }
        if states[i].attempts >= cap { assert Opens(old(states), cap, i) + [] == Opens(old(states), cap, i); continue; }
        ghost var was := sweep;
        ghost var d;
        any, d := EnqueueFor(i);
        sweep := was + [d];
        PlacesSnoc(was, d);
        assert draws == old(draws) + sweep;
        if any {
          assert sweep[..|sweep| - 1] == was;
          return;
        }
      }
      any := false;
    }

    /** New jobs until every worker has one, or a whole sweep over the targets finds nothing. */
    method TopUp() returns (ghost log: TopUpLog)
      requires Valid()
      modifies this, its
      ensures Valid() && SameTargets(old(states), states)
      ensures draws == old(draws) + (Flat(log.sweeps) + log.rest)
      ensures LogsTopUp(log, old(Books()), Flat(log.sweeps) + log.rest, Books(), inputs, cap, workers)
    {
      hide Inv, FairComboIterator.Valid, Complete, Chained, FoundKeys, AfterSends, MaySend, Sweeps, SentSweep, RefusedSweep;
      log := TopUpLog([], [], []);
      NoSweeps(Books(), inputs, cap, workers);
      var inflight := SumInFlight();
      while inflight < workers
        invariant Valid() && SameTargets(old(states), states) && inflight == InFlight(states) && log.rest == []
        invariant draws == old(draws) + Flat(log.sweeps) && Books() == AfterSends(old(Books()), log.sends)
        invariant Sweeps(old(Books()), log, inputs, cap, workers)
        decreases workers - inflight
      {
        ghost var b := Books();
        var any; ghost var sweep;
        any, sweep := SweepOnce();
        if !any {
          log := log.(rest := sweep);
          SweepsSame(old(Books()), log, inputs, cap, workers);
          assert draws == old(draws) + (Flat(log.sweeps) + log.rest);
          return;
        }
        ghost var send := SendOf(b.states, cap, sweep);
        SweepsOn(old(Books()), log, sweep, send, inputs, cap, workers);
        AfterLog(old(Books()), log.sends, send, inputs, cap);
        SubmittedInFlight(b, send.place, send.key);
        assert draws == old(draws) + (Flat(log.sweeps) + sweep);
        log := TopUpLog(log.sweeps + [sweep], log.sends + [send], []);
        inflight := SumInFlight();
      }
      assert Flat(log.sweeps) + [] == Flat(log.sweeps);
    }

    /** Where the job's target is kept. */
    method FindState(t: int) returns (i: nat)
      ensures i == StateOf(states, t)
    {
      i := 0;
      while i < |states| && states[i].t != t
        invariant i <= StateOf(states, t) <= |states|
      {
        i := i + 1;
      }
    }

    /** The observed delta gets a representative unless it has one. */
    method Catalogue(obs: int, key: Key)
      modifies this
      ensures Books() == old(Books()).(catalogue := old(catalogue) + {Int32(obs)},
                found := if Int32(obs) in old(catalogue) then old(found) else old(found) + [Found(obs, key)])
      ensures draws == old(draws)
    {
      hide Int32;
      if Int32(obs) !in catalogue {
        found := found + [Found(obs, key)];
        catalogue := catalogue + {Int32(obs)};
      } else {
        assert catalogue + {Int32(obs)} == catalogue;
      }
    }

    /** The books after a known job's result. */
    method Settle(id: nat, ok: bool, obs: int)
      requires id in jobs && StateOf(states, jobs[id].target) < |states|
      modifies this
      ensures Books() == Answered(old(Books()), id, ok, obs) && draws == old(draws)
    {
      hide Int32;
      var job := jobs[id];
      var i := FindState(job.target);
      var s := states[i];
      if s.inFlight > 0 { s := s.(inFlight := s.inFlight - 1); }
      if ok {
        Catalogue(obs, job.key);
        if obs == s.t { s := s.(satisfied := true); }
      }
      states := states[i := s];
      jobs := jobs - {id};
    }

    /** A known job's result leaves the search in order. */
    method Book(id: nat, ok: bool, obs: int)
      requires Valid() && id in jobs
      modifies this
      ensures Valid() && Books() == Answered(old(Books()), id, ok, obs) && SameTargets(old(states), states) && draws == old(draws)
    {
      JobState(Books(), id);
      AnsweredKeeps(Books(), id, ok, obs, inputs, cap);
      AnsweredKnown(Books(), id, ok, obs);
      hide Inv, FairComboIterator.Valid, Complete, Answered, StateOf, Chained, FoundKeys, TriplesAfter, CursorAfter;
      Settle(id, ok, obs);
      forall k: nat | k < |its| ensures Draws(k) {
        assert old(Draws(k));
        assert states[k].t == old(states[k].t);
      }
    }

    /** One result: catalogue what was observed, satisfy the target if it is the one, and top up; a failed job only
        leaves its slot; a job that is not known changes nothing. */
    method HandleResult(id: nat, ok: bool, obs: int) returns (ghost drawn: seq<Drawing>)
      requires Valid()
      modifies this, its
      ensures Valid() && draws == old(draws) + drawn && SameTargets(old(states), states)
      ensures Round(old(Books()), Result(id, ok, obs), drawn, Books(), inputs, cap, workers)
      ensures id in old(jobs) && ok ==> InFlight(states) >= workers || GaveUp(states, cap, draws)
    {
      hide Inv, FairComboIterator.Valid, Complete, Answered, LogsTopUp, Valid, RefusedSweep;
      drawn := [];
      if id !in jobs { return; }
      Book(id, ok, obs);
      if ok {
        ghost var answered := Books();
        ghost var log := TopUp();
        drawn := Flat(log.sweeps) + log.rest;
        TopUpEnds(log, answered, old(draws), Books(), inputs, cap, workers);
        assert TopsUp(answered, drawn, Books(), inputs, cap, workers);
      }
    }

    /** Why the loop may stop: everything observed; or nothing in flight, and then either the last known result was a
        failure, or the last thing done was a sweep over all targets that can be helped, which found nothing. */
    ghost predicate MayStop(stages: seq<Stage>, events: seq<Event>)
      requires |stages| <= |events| + 1
      reads this
    {
      || (forall i | 0 <= i < |states| :: states[i].satisfied)
      || (InFlight(states) == 0 && (LastFailed(stages, events) || GaveUp(states, cap, draws)))
    }

    /** The collection loop, fed with what each poll of the runner finds: the books go from round to round. */
    method Collect(events: seq<Event>, ghost wave: seq<Drawing>) returns (done: bool, ghost stages: seq<Stage>)
      requires Valid() && draws == wave && (InFlight(states) == 0 ==> GaveUp(states, cap, draws))
      modifies this, its
      ensures Valid() && Rounds(stages, events, inputs, cap, workers) && draws == AllDraws(stages)
      ensures stages[0] == Stage(old(Books()), wave) && stages[|stages| - 1].board == Books()
      ensures if done then MayStop(stages, events) else |stages| == |events| + 1
      ensures SameTargets(old(states), states)
    {
      hide Inv, FairComboIterator.Valid, Complete, Answered, TopsUp, LastFailed, GaveUp, AllDraws, Chained, FoundKeys;
      stages := [Stage(Books(), wave)];
      OneStage(Books(), wave);
      for n := 0 to |events|
        invariant Valid() && |stages| == n + 1 && Rounds(stages, events, inputs, cap, workers) && draws == AllDraws(stages)
        invariant stages[0] == Stage(old(Books()), wave) && stages[n].board == Books() && SameTargets(old(states), states)
        invariant InFlight(states) == 0 ==> LastFailed(stages, events) || GaveUp(states, cap, draws)
      {
        var all := AllSatisfied();
        var inflight := SumInFlight();
        if all || inflight == 0 { return true, stages; }
        var e := events[n];
        ghost var was, drawn := stages, [];
        if !e.Idle? { drawn := HandleResult(e.jobId, e.ok, e.obs); }
        ghost var next := Stage(Books(), drawn);
        LastFailedOn(was, events, next);
        AllDrawsSnoc(was, next);
        stages := was + [next];
        assert forall m | 0 <= m <= n :: stages[m] == was[m];
      }
      return false, stages;
    }
  }

  ghost function TriplesOf(its: seq<FairComboIterator>): (t: seq<seq<TripleState>>)
    reads its
    ensures |t| == |its|
  {
    seq(|its|, i requires 0 <= i < |its| reads its => its[i].triples)
  }

  lemma NoDraws()
    ensures Places([]) == [] && SendsOf([]) == []
  {
  }

  lemma OpenIs(s: TargetState, cap: nat)
    ensures Open(s, cap) <==> !s.satisfied && s.attempts < cap
  {
  }

  lemma NoSweeps(b: Board, inputs: Inputs, cap: nat, workers: nat)
    ensures Sweeps(b, TopUpLog([], [], []), inputs, cap, workers) && AfterSends(b, []) == b && Flat([]) == []
  {
  }

  lemma SweepsSame(b: Board, log: TopUpLog, inputs: Inputs, cap: nat, workers: nat)
    requires Sweeps(b, log.(rest := []), inputs, cap, workers)
    ensures Sweeps(b, log, inputs, cap, workers)
  {
    hide SentSweep, AfterSends, MaySend;
    forall k: nat | k < |log.sweeps| ensures SendsAt(b, log, k, inputs, cap, workers) {
      assert SendsAt(b, log.(rest := []), k, inputs, cap, workers);
    }
  }

  /** The job a sweep ends with. */
  ghost function SendOf(states: seq<TargetState>, cap: nat, sweep: seq<Drawing>): (s: Send)
    requires SentSweep(states, cap, sweep)
    ensures s.place < |states| && s == Send(sweep[|sweep| - 1].place, sweep[|sweep| - 1].found.value)
  {
    Send(sweep[|sweep| - 1].place, sweep[|sweep| - 1].found.value)
  }

  lemma AfterLog(b: Board, sends: seq<Send>, send: Send, inputs: Inputs, cap: nat)
    requires MaySend(AfterSends(b, sends), send, inputs, cap)
    ensures send.place < |AfterSends(b, sends).states|
    ensures AfterSends(b, sends + [send]) == Submitted(AfterSends(b, sends), send.place, send.key)
  {
    assert send.place < |b.states| by { hide AfterSends; }
    AfterSnoc(b, sends, send);
  }

  /** Topping up ends with a job per worker, or having given up. */
  lemma TopUpEnds(log: TopUpLog, b: Board, earlier: seq<Drawing>, after: Board, inputs: Inputs, cap: nat, workers: nat)
    requires LogsTopUp(log, b, Flat(log.sweeps) + log.rest, after, inputs, cap, workers)
    ensures InFlight(after.states) >= workers || GaveUp(after.states, cap, earlier + (Flat(log.sweeps) + log.rest))
  {
    hide Sweeps, AfterSends, RefusedSweep, Flat;
    if InFlight(after.states) < workers {
      var all, n := earlier + (Flat(log.sweeps) + log.rest), |earlier + Flat(log.sweeps)|;
      assert all[n..] == log.rest;
      assert SweptSince(after.states, cap, all, n);
    }
  }

  lemma OneStage(b: Board, wave: seq<Drawing>)
    ensures AllDraws([Stage(b, wave)]) == wave
  {
    assert [Stage(b, wave)][..0] == [];
  }

  lemma NoSends(b: Board, inputs: Inputs, cap: nat)
    ensures MaySendAll(b, [], inputs, cap) && AfterSends(b, []) == b
  {
  }

  lemma SubmittedInFlight(b: Board, i: nat, key: Key)
    requires i < |b.states|
    ensures InFlight(Submitted(b, i, key).states) == InFlight(b.states) + 1
  {
    InFlightUpdate(b.states, i, Submitted(b, i, key).states[i]);
  }

  // ---------------------------------------------------------------- the whole search

  method Singletons(entries: seq<ProbeEntry>) returns (s: set<int>)
    ensures forall d :: d in s <==> d == 0 || exists e :: e in entries && Int32(e.delta) == d
  {
    hide Int32;
    s := {0};
    for i := 0 to |entries|
      invariant forall d :: d in s <==> d == 0 || exists e :: e in entries[..i] && Int32(e.delta) == d
    {
      assert entries[..i + 1] == entries[..i] + [entries[i]];
      s := s + {Int32(entries[i].delta)};
    }
    assert entries[..|entries|] == entries;
  }

  method NewIterators(inputs: Inputs, targets: seq<int>, jKeys: seq<int>, cKeys: seq<int>, seeds: int -> Seeds)
    returns (its: seq<FairComboIterator>)
    requires Increasing(jKeys) && forall x :: x in jKeys <==> x in inputs.j
    requires Increasing(cKeys) && forall x :: x in cKeys <==> x in inputs.c
    requires forall d | d in inputs.j :: inputs.j[d] != []
    requires forall d | d in inputs.c :: inputs.c[d] != []
    requires forall d | d in inputs.t :: inputs.t[d] != []
    ensures |its| == |targets| && fresh(its)
    ensures forall i, k | 0 <= i < k < |its| :: its[i] != its[k]
    ensures forall i | 0 <= i < |its| ::
              && its[i].Valid() && its[i].target == targets[i] && its[i].cur == 0
              && Listed(inputs, targets[i], its[i].triples) && Complete(inputs, targets[i], its[i].triples)
  {
    hide Listed, Complete;
    its := [];
    for i := 0 to |targets|
      invariant |its| == i && fresh(its)
      invariant forall a, b | 0 <= a < b < i :: its[a] != its[b]
      invariant forall k | 0 <= k < i ::
                  && its[k].Valid() && its[k].target == targets[k] && its[k].cur == 0
                  && Listed(inputs, targets[k], its[k].triples) && Complete(inputs, targets[k], its[k].triples)
    {
      var triples := TriplesFor(inputs, targets[i], jKeys, cKeys, seeds(targets[i]));
      ListedComplete(inputs, targets[i], triples);
      var it := new FairComboIterator(targets[i], triples);
      its := its + [it];
    }
  }

  lemma ListedComplete(inputs: Inputs, target: int, triples: seq<TripleState>)
    requires Listed(inputs, target, triples)
    requires forall jd, cd | IsSumBy(inputs, target, jd, cd) :: HasTriple(triples, jd, cd, target - jd - cd)
    ensures Complete(inputs, target, triples) && forall k | 0 <= k < |triples| :: triples[k].Valid(target)
  {
    hide IsSumBy, HasTriple, FromInputs, Before;
  }

  /** The delta was observed for some single input, or is the neutral one. */
  ghost predicate Alone(entries: seq<ProbeEntry>, d: int) {
    d == 0 || exists e :: e in entries && Int32(e.delta) == d
  }

  ghost predicate HasTarget(states: seq<TargetState>, t: int) {
    exists i :: 0 <= i < |states| && states[i].t == t
  }

  /** The targets are exactly the sums that no single input gave, ascending. */
  ghost predicate TargetsOf(states: seq<TargetState>, inputs: Inputs, entries: seq<ProbeEntry>) {
    && (forall t :: HasTarget(states, t) <==> IsSum(inputs, t) && !Alone(entries, t))
    && (forall i, k | 0 <= i < k < |states| :: states[i].t < states[k].t)
  }

  /** The books before any job: nothing tried, the probe's own observations catalogued. */
  ghost predicate Opening(b: Board, inputs: Inputs, entries: seq<ProbeEntry>, nextId: nat) {
    && TargetsOf(b.states, inputs, entries) && (forall i | 0 <= i < |b.states| :: b.states[i] == TargetState(b.states[i].t, false, 0, 0))
    && b.tried == {} && b.submitted == [] && b.jobs == map[] && b.nextId == nextId
    && (forall d :: d in b.catalogue <==> d == 0 || exists e :: e in entries && e.ok && Int32(e.delta) == d)
    && Represents(entries, b.found)
  }

  /** How the books came about: the opening, one wave over the targets, then round by round. */
  datatype History = History(opening: Board, stages: seq<Stage>)

  ghost predicate Explains(h: History, search: Search, entries: seq<ProbeEntry>, nextId: nat, events: seq<Event>)
    reads search
  {
    && Opening(h.opening, search.inputs, entries, nextId)
    && Rounds(h.stages, events, search.inputs, search.cap, search.workers)
    && FirstWave(h.opening, h.stages[0].draws, h.stages[0].board, search.inputs, search.cap)
    && h.stages[|h.stages| - 1].board == search.Books() && AllDraws(h.stages) == search.draws
  }

  /** At the end the books tell what the polls brought: which ids are awaited, what stands in the catalogue and why, which
      targets were reached, and that the jobs are those of the draws. */
  ghost predicate TellsAll(h: History, events: seq<Event>) {
    && 0 < |h.stages| <= |events| + 1
    && Told(h.opening, h.stages, events, |h.stages| - 1) && SentTold(h.opening, h.stages, |h.stages| - 1)
  }

  lemma AllTold(h: History, search: Search, entries: seq<ProbeEntry>, nextId: nat, events: seq<Event>)
    requires Explains(h, search, entries, nextId, events) && Inv(h.opening, search.inputs, search.cap)
    ensures TellsAll(h, events)
  {
    hide Inv, Rounds, AfterSends, MaySendAll, Told, SentTold, TargetsOf, Represents, Int32, AllDraws, SendsOf;
    assert 0 < |h.stages| <= |events| + 1 by { RoundsSize(h.stages, events, search.inputs, search.cap, search.workers); }
    StoryTold(h.opening, h.stages, events, search.inputs, search.cap, search.workers, |h.stages| - 1);
  }

  lemma RoundsSize(stages: seq<Stage>, events: seq<Event>, inputs: Inputs, cap: nat, workers: nat)
    requires Rounds(stages, events, inputs, cap, workers)
    ensures 0 < |stages| <= |events| + 1
  {
    hide Round;
  }

  /** Every target was asked once, in order, and what the draws found went out. */
  ghost predicate FirstWave(opening: Board, wave: seq<Drawing>, after: Board, inputs: Inputs, cap: nat) {
    && Places(wave) == Opens(opening.states, cap, |opening.states|)
    && MaySendAll(opening, SendsOf(wave), inputs, cap) && after == AfterSends(opening, SendsOf(wave))
  }

  /** The draws start from every triple of every target, none of which has emitted anything. */
  ghost predicate StartsFrom(initial: seq<seq<TripleState>>, states: seq<TargetState>, inputs: Inputs) {
    |initial| == |states| && forall i | 0 <= i < |states| ::
      Listed(inputs, states[i].t, initial[i]) && Complete(inputs, states[i].t, initial[i])
  }

  lemma TargetsFound(targets: seq<int>, inputs: Inputs, entries: seq<ProbeEntry>)
    requires Increasing(targets) && forall t :: t in targets <==> IsSum(inputs, t) && !Alone(entries, t)
    ensures TargetsOf(NewStates(targets), inputs, entries)
  {
    hide IsSum, Alone;
    var states := NewStates(targets);
    forall t ensures HasTarget(states, t) <==> t in targets {
      if t in targets {
        var i :| 0 <= i < |targets| && targets[i] == t;
        assert states[i].t == t;
      }
    }
  }

  /** None when a family has no input at all; otherwise the search, which may have nothing to look for. No two of its
      jobs carry the same inputs, whatever their targets. */
  method FindSeedDeltaCombos(entries: seq<ProbeEntry>, cap: nat, tries: nat, workers: nat, nextId: nat, seeds: int -> Seeds,
                             events: seq<Event>)
    returns (search: Search?, done: bool, ghost h: History)
    ensures search == null <==>
      forall d, e, f, p, q, r :: !(Observed(entries, MainStick, d, p) && Observed(entries, CStick, e, q) && Observed(entries, Triggers, f, r))
    ensures search != null ==>
      && search.cap == cap && search.tries == tries && search.workers == (if workers > 0 then workers else 1)
      && IsInverse(search.inputs.j, entries, MainStick) && IsInverse(search.inputs.c, entries, CStick)
      && IsInverse(search.inputs.t, entries, Triggers)
    ensures search != null ==>
      && search.Valid() && TargetsOf(search.states, search.inputs, entries)
      && StartsFrom(search.initial, search.states, search.inputs)
    ensures search != null ==> Explains(h, search, entries, nextId, events) && (done ==> search.MayStop(h.stages, events))
    ensures search != null ==> TellsAll(h, events)
    ensures search != null && done && !LastFailed(h.stages, events) ==>
      forall i: nat | i < |search.states| :: Settled(search.states[i], search.cap, search.draws, i)
    ensures search != null && !done ==> |h.stages| == |events| + 1
    ensures search != null ==> NoneTwice(search.Books(), search.inputs)
  {
    hide TellsAll, Inv, Int32, Observed, Listed, Round, NoneTwice, Alone, IsSum, Chained, FoundKeys, FirstWave, Complete, LastFailed;
    h := History(Board([], {}, [], map[], 0, [], {}), []);
    var j := InverseMap(entries, MainStick);
    var c := InverseMap(entries, CStick);
    var t := InverseMap(entries, Triggers);
    EmptyInverse(j, entries, MainStick);
    EmptyInverse(c, entries, CStick);
    EmptyInverse(t, entries, Triggers);
    if j == map[] || c == map[] || t == map[] { return null, true, h; }
    hide IsInverse;
    search, done, h := SearchOver(entries, Inputs(j, c, t), cap, tries, workers, nextId, seeds, events);
    NoTripleTwice(search.Books(), search.inputs, cap);
    if done && !LastFailed(h.stages, events) {
      StopsSettled(search.states, cap, search.draws);
    }
  }

  /** All satisfied, or given up: either way every target is satisfied, at its cap, or its last draw found nothing. */
  lemma StopsSettled(states: seq<TargetState>, cap: nat, draws: seq<Drawing>)
    requires (forall i | 0 <= i < |states| :: states[i].satisfied) || GaveUp(states, cap, draws)
    ensures forall i: nat | i < |states| :: Settled(states[i], cap, draws, i)
  {
    hide GaveUp;
    forall i: nat | i < |states| ensures Settled(states[i], cap, draws, i) {
      if GaveUp(states, cap, draws) { GaveUpSettles(states, cap, draws, i); }
    }
  }

  /** The search before any job. */
  method Prepare(entries: seq<ProbeEntry>, inputs: Inputs, cap: nat, tries: nat, workers: nat, nextId: nat, seeds: int -> Seeds)
    returns (search: Search)
    requires IsInverse(inputs.j, entries, MainStick) && IsInverse(inputs.c, entries, CStick) && IsInverse(inputs.t, entries, Triggers)
    ensures search.inputs == inputs && search.cap == cap && search.tries == tries && search.workers == if workers > 0 then workers else 1
    ensures fresh(search) && fresh(search.its) && search.Valid() && search.draws == [] && Inv(search.Books(), inputs, cap)
    ensures Opening(search.Books(), inputs, entries, nextId) && StartsFrom(search.initial, search.states, inputs)
  {
    hide Inv, Int32, Observed, IsSum, Complete, Listed, Chained, FoundKeys;
    var singletons := Singletons(entries);
    var found, catalogue := SeedCatalogue(entries);
    var jKeys := Sorted(inputs.j.Keys);
    var cKeys := Sorted(inputs.c.Keys);
    var tKeys := Sorted(inputs.t.Keys);
    var targets := FindTargets(inputs, jKeys, cKeys, tKeys, singletons);
    TargetsFound(targets, inputs, entries);
    var its := NewIterators(inputs, targets, jKeys, cKeys, seeds);
    hide IsInverse, TargetsOf;
    search := new Search(inputs, cap, tries, workers, targets, its, found, catalogue, nextId);
    StartKeeps(targets, nextId, found, catalogue, inputs, cap);
    NothingDrawn(search.Targets(), search.initial, tries);
  }

  method SearchOver(entries: seq<ProbeEntry>, inputs: Inputs, cap: nat, tries: nat, workers: nat, nextId: nat, seeds: int -> Seeds,
                    events: seq<Event>)
    returns (search: Search, done: bool, ghost h: History)
    requires IsInverse(inputs.j, entries, MainStick) && IsInverse(inputs.c, entries, CStick) && IsInverse(inputs.t, entries, Triggers)
    ensures search.inputs == inputs && search.cap == cap && search.tries == tries && search.workers == if workers > 0 then workers else 1
    ensures search.Valid() && TargetsOf(search.states, inputs, entries) && StartsFrom(search.initial, search.states, inputs)
    ensures Explains(h, search, entries, nextId, events) && (done ==> search.MayStop(h.stages, events)) && TellsAll(h, events)
    ensures !done ==> |h.stages| == |events| + 1
  {
    hide Inv, IsInverse, Round, MaySend, Complete, Listed, Chained, FoundKeys, GaveUp, AllDraws, AfterSends, TargetsOf, StartsFrom, Search.Valid;
    hide TellsAll;
    search := Prepare(entries, inputs, cap, tries, workers, nextId, seeds);
    ghost var opening := search.Books();
    OpeningTargets(opening, inputs, entries, nextId);
    hide Opening;
    NoSends(opening, inputs, cap);
    NoDraws();
    if search.states == [] {
      OneStage(opening, []);
      h := History(opening, [Stage(opening, [])]);
      AllTold(h, search, entries, nextId, events);
      return search, true, h;
    }
    ghost var wave := search.InitialWave();
    WaveGivesUp(opening, wave, search.Books(), cap);
    ghost var stages;
    done, stages := search.Collect(events, wave);
    h := History(opening, stages);
    AllTold(h, search, entries, nextId, events);
    TargetsSame(opening.states, search.states, inputs, entries);
    SameStart(search.initial, opening.states, search.states, inputs);
  }

  lemma OpeningTargets(b: Board, inputs: Inputs, entries: seq<ProbeEntry>, nextId: nat)
    requires Opening(b, inputs, entries, nextId)
    ensures TargetsOf(b.states, inputs, entries)
  {
    hide TargetsOf, Int32;
  }

  lemma NothingDrawn(targets: seq<int>, initial: seq<seq<TripleState>>, tries: nat)
    ensures Chained(targets, initial, tries, []) && FoundKeys([]) == {}
  {
  }

  /** A wave that sends nothing was a whole sweep that found nothing. */
  lemma WaveGivesUp(opening: Board, wave: seq<Drawing>, after: Board, cap: nat)
    requires Places(wave) == Opens(opening.states, cap, |opening.states|) && after == AfterSends(opening, SendsOf(wave))
    requires InFlight(after.states) == InFlight(opening.states) + |SendsOf(wave)|
    ensures InFlight(after.states) == 0 ==> GaveUp(after.states, cap, wave)
  {
    if SendsOf(wave) == [] {
      assert wave[0..] == wave;
      assert SweptSince(after.states, cap, wave, 0);
    }
  }

  lemma SameStart(initial: seq<seq<TripleState>>, a: seq<TargetState>, b: seq<TargetState>, inputs: Inputs)
    requires StartsFrom(initial, a, inputs) && SameTargets(a, b)
    ensures StartsFrom(initial, b, inputs)
  {
    hide Listed, Complete;
    forall i | 0 <= i < |b| ensures Listed(inputs, b[i].t, initial[i]) && Complete(inputs, b[i].t, initial[i]) {
      assert a[i].t == b[i].t;
    }
  }

  lemma TargetsSame(a: seq<TargetState>, b: seq<TargetState>, inputs: Inputs, entries: seq<ProbeEntry>)
    requires TargetsOf(a, inputs, entries) && SameTargets(a, b)
    ensures TargetsOf(b, inputs, entries)
  {
    hide IsSum, Alone;
    forall t ensures HasTarget(a, t) <==> HasTarget(b, t) {
      if i :| 0 <= i < |a| && a[i].t == t { assert b[i].t == t; }
      if i :| 0 <= i < |b| && b[i].t == t { assert a[i].t == t; }
    }
  }

  lemma EmptyInverse(m: DeltaMap, entries: seq<ProbeEntry>, family: Family)
    requires IsInverse(m, entries, family)
    ensures m == map[] <==> forall d, p :: !Observed(entries, family, d, p)
  {
    hide Observed;
    if m != map[] {
      var d := Member(m.Keys);
      assert m[d][0] in m[d];
      assert Observed(entries, family, d, m[d][0]);
    }
  }
}
