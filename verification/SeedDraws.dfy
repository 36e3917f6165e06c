/** The search's draws in order: each continues where the last draw for its target stood, and the rounds of the search
    are exactly sweeps of draws over the targets that can still be helped. */
module SeedDraws {
  import opened Bytes
  import opened FairCombos
  import opened SeedBoard

  /** One draw: for which target, its triples and cursor before and after, what had been tried, and what was found. */
  datatype Drawing = Drawing(
    place: nat, before: seq<TripleState>, first: nat, after: seq<TripleState>, next: nat, tried: set<Key>, found: Option<Key>)

  // ---------------------------------------------------------------- the chain of draws

  /** Everything found so far. */
  function FoundKeys(draws: seq<Drawing>): set<Key> {
    if draws == [] then {}
    else
      var last := draws[|draws| - 1].found;
      FoundKeys(draws[..|draws| - 1]) + if last.Some? then {last.value} else {}
  }

  /** The last draw for a target. */
  function LastAt(draws: seq<Drawing>, place: nat): (d: Option<Drawing>)
    ensures d.Some? ==> d.value.place == place
  {
    if draws == [] then None
    else if draws[|draws| - 1].place == place then Some(draws[|draws| - 1])
    else LastAt(draws[..|draws| - 1], place)
  }

  /** The triples and the cursor of a target after its draws so far. */
  function TriplesAfter(start: seq<TripleState>, draws: seq<Drawing>, place: nat): seq<TripleState> {
    match LastAt(draws, place) case None => start case Some(d) => d.after
  }

  function CursorAfter(draws: seq<Drawing>, place: nat): nat {
    match LastAt(draws, place) case None => 0 case Some(d) => d.next
  }

  /** A draw continues where the last one for its target stood, and knows all that was found before it. */
  ghost predicate Continues(targets: seq<int>, initial: seq<seq<TripleState>>, tries: nat, earlier: seq<Drawing>, d: Drawing) {
    && d.place < |initial| == |targets|
    && d.before == TriplesAfter(initial[d.place], earlier, d.place) && d.first == CursorAfter(earlier, d.place)
    && d.tried == FoundKeys(earlier)
    && Drawn(d.before, d.first, d.after, d.next, targets[d.place], d.tried, tries, d.found)
  }

  ghost predicate Chained(targets: seq<int>, initial: seq<seq<TripleState>>, tries: nat, draws: seq<Drawing>) {
    forall n | 0 <= n < |draws| :: Continues(targets, initial, tries, draws[..n], draws[n])
  }

  lemma ChainedSnoc(targets: seq<int>, initial: seq<seq<TripleState>>, tries: nat, draws: seq<Drawing>, d: Drawing)
    requires Chained(targets, initial, tries, draws) && Continues(targets, initial, tries, draws, d)
    ensures Chained(targets, initial, tries, draws + [d])
  {
    hide Continues;
    var more := draws + [d];
    forall n | 0 <= n < |more| ensures Continues(targets, initial, tries, more[..n], more[n]) {
      assert more[..n] == draws[..n];
      if n == |draws| { assert draws[..n] == draws; }
    }
  }

  lemma AfterDraw(start: seq<TripleState>, draws: seq<Drawing>, d: Drawing, place: nat)
    ensures TriplesAfter(start, draws + [d], place) == if d.place == place then d.after else TriplesAfter(start, draws, place)
    ensures CursorAfter(draws + [d], place) == if d.place == place then d.next else CursorAfter(draws, place)
    ensures LastAt(draws + [d], place) == if d.place == place then Some(d) else LastAt(draws, place)
    ensures FoundKeys(draws + [d]) == FoundKeys(draws) + if d.found.Some? then {d.found.value} else {}
  {
    assert (draws + [d])[..|draws|] == draws;
  }

  /** Main result: from the same triples the chain of draws is determined by the targets that are asked, so what the
      search finds does not depend on anything but the answers to its jobs. */
  lemma {:induction false} ChainIsDetermined(targets: seq<int>, initial: seq<seq<TripleState>>, tries: nat, a: seq<Drawing>, b: seq<Drawing>)
    requires Chained(targets, initial, tries, a) && Chained(targets, initial, tries, b) && Places(a) == Places(b)
    ensures a == b
    decreases |a|
  {
    hide Continues;
    if a != [] {
      var n := |a| - 1;
      assert Places(a)[..n] == Places(a[..n]) && Places(b)[..n] == Places(b[..n]);
      PrefixChained(targets, initial, tries, a, n);
      PrefixChained(targets, initial, tries, b, n);
      ChainIsDetermined(targets, initial, tries, a[..n], b[..n]);
      assert Places(a)[n] == Places(b)[n];
      NextIsDetermined(targets, initial, tries, a[..n], a[n], b[n]);
      assert a == a[..n] + [a[n]] && b == b[..n] + [b[n]];
    }
  }

  lemma PrefixChained(targets: seq<int>, initial: seq<seq<TripleState>>, tries: nat, draws: seq<Drawing>, n: nat)
    requires Chained(targets, initial, tries, draws) && n <= |draws|
    ensures Chained(targets, initial, tries, draws[..n])
  {
    hide Continues;
    forall k | 0 <= k < n ensures Continues(targets, initial, tries, draws[..n][..k], draws[..n][k]) {
      assert draws[..n][..k] == draws[..k];
    }
  }

  lemma NextIsDetermined(targets: seq<int>, initial: seq<seq<TripleState>>, tries: nat, earlier: seq<Drawing>, d: Drawing, e: Drawing)
    requires Continues(targets, initial, tries, earlier, d) && Continues(targets, initial, tries, earlier, e) && d.place == e.place
    ensures d == e
  {
    hide Drawn;
    DrawIsDetermined(d.before, d.first, d.after, d.next, e.after, e.next, targets[d.place], d.tried, tries, d.found, e.found);
  }

  // ---------------------------------------------------------------- sweeps over the targets

  function Places(draws: seq<Drawing>): (p: seq<nat>)
    ensures |p| == |draws|
  {
    seq(|draws|, n requires 0 <= n < |draws| => draws[n].place)
  }

  /** The jobs of the draws that found something. */
  function SendsOf(draws: seq<Drawing>): seq<Send> {
    if draws == [] then []
    else
      var last := draws[|draws| - 1];
      SendsOf(draws[..|draws| - 1]) + if last.found.Some? then [Send(last.place, last.found.value)] else []
  }

  predicate Open(s: TargetState, cap: nat) { !s.satisfied && s.attempts < cap }

  /** The first n targets that can still be helped, in order. */
  function Opens(states: seq<TargetState>, cap: nat, n: nat): seq<nat>
    requires n <= |states|
  {
    if n == 0 then [] else Opens(states, cap, n - 1) + if Open(states[n - 1], cap) then [n - 1] else []
  }

  /** Main result: these are the places of the unsatisfied targets below the cap, in ascending order, each once. */
  lemma {:induction false} OpensMean(states: seq<TargetState>, cap: nat, n: nat)
    requires n <= |states|
    ensures var p := Opens(states, cap, n);
            && (forall i: nat :: i in p <==> i < n && !states[i].satisfied && states[i].attempts < cap)
            && (forall x, y | 0 <= x < y < |p| :: p[x] < p[y])
  {
    if n > 0 {
      OpensMean(states, cap, n - 1);
      var front := Opens(states, cap, n - 1);
      forall x | 0 <= x < |front| ensures front[x] < n - 1 { assert front[x] in front; }
    }
  }

  /** Every target that can be helped was asked once, in order, and none had anything to offer. */
  ghost predicate RefusedSweep(states: seq<TargetState>, cap: nat, sweep: seq<Drawing>) {
    Places(sweep) == Opens(states, cap, |states|) && SendsOf(sweep) == []
  }

  /** They were asked in order up to the first that had something to offer. */
  ghost predicate SentSweep(states: seq<TargetState>, cap: nat, sweep: seq<Drawing>) {
    && sweep != []
    && var last := sweep[|sweep| - 1];
       && last.place < |states| && Open(states[last.place], cap) && last.found.Some?
       && Places(sweep[..|sweep| - 1]) == Opens(states, cap, last.place) && SendsOf(sweep[..|sweep| - 1]) == []
  }

  function Flat(sweeps: seq<seq<Drawing>>): seq<Drawing> {
    if sweeps == [] then [] else Flat(sweeps[..|sweeps| - 1]) + sweeps[|sweeps| - 1]
  }

  /** Topping up: the sweeps that ended with a job, the jobs, and the draws of the last sweep if it found nothing. */
  datatype TopUpLog = TopUpLog(sweeps: seq<seq<Drawing>>, sends: seq<Send>, rest: seq<Drawing>)

  /** The k-th sweep found too few jobs out and sent one. */
  ghost predicate SendsAt(b: Board, log: TopUpLog, k: nat, inputs: Inputs, cap: nat, workers: nat)
    requires k < |log.sweeps| == |log.sends|
  {
    var at, sweep := AfterSends(b, log.sends[..k]), log.sweeps[k];
    && InFlight(at.states) < workers && SentSweep(at.states, cap, sweep)
    && log.sends[k] == Send(sweep[|sweep| - 1].place, sweep[|sweep| - 1].found.value) && MaySend(at, log.sends[k], inputs, cap)
  }

  ghost predicate Sweeps(b: Board, log: TopUpLog, inputs: Inputs, cap: nat, workers: nat) {
    |log.sweeps| == |log.sends| && forall k: nat | k < |log.sweeps| :: SendsAt(b, log, k, inputs, cap, workers)
  }

  /** Sweep after sweep sends one job, until there is a job per worker or a whole sweep found nothing. */
  ghost predicate LogsTopUp(log: TopUpLog, b: Board, draws: seq<Drawing>, after: Board, inputs: Inputs, cap: nat, workers: nat) {
    && Sweeps(b, log, inputs, cap, workers) && draws == Flat(log.sweeps) + log.rest && after == AfterSends(b, log.sends)
    && if InFlight(after.states) < workers then RefusedSweep(after.states, cap, log.rest) else log.rest == []
  }

  ghost predicate TopsUp(b: Board, draws: seq<Drawing>, after: Board, inputs: Inputs, cap: nat, workers: nat) {
    exists log :: LogsTopUp(log, b, draws, after, inputs, cap, workers)
  }

  lemma SweepsOn(b: Board, log: TopUpLog, sweep: seq<Drawing>, send: Send, inputs: Inputs, cap: nat, workers: nat)
    requires Sweeps(b, log, inputs, cap, workers)
    requires var at := AfterSends(b, log.sends);
             && InFlight(at.states) < workers && SentSweep(at.states, cap, sweep) && MaySend(at, send, inputs, cap)
             && send == Send(sweep[|sweep| - 1].place, sweep[|sweep| - 1].found.value)
    ensures Sweeps(b, log.(sweeps := log.sweeps + [sweep], sends := log.sends + [send]), inputs, cap, workers)
    ensures Flat(log.sweeps + [sweep]) == Flat(log.sweeps) + sweep
  {
    hide SentSweep, AfterSends, MaySend, InFlight;
    var more := log.(sweeps := log.sweeps + [sweep], sends := log.sends + [send]);
    forall k: nat | k < |more.sweeps| ensures SendsAt(b, more, k, inputs, cap, workers) {
      assert more.sends[..k] == log.sends[..k];
      if k < |log.sweeps| { assert SendsAt(b, log, k, inputs, cap, workers); } else { assert log.sends[..k] == log.sends; }
    }
    assert (log.sweeps + [sweep])[..|log.sweeps|] == log.sweeps;
  }

  lemma SweepsMaySend(b: Board, log: TopUpLog, inputs: Inputs, cap: nat, workers: nat)
    requires Sweeps(b, log, inputs, cap, workers)
    ensures MaySendAll(b, log.sends, inputs, cap)
  {
    hide SentSweep, AfterSends, MaySend, InFlight;
    forall k: nat | k < |log.sends| ensures MaySend(AfterSends(b, log.sends[..k]), log.sends[k], inputs, cap) {
      assert SendsAt(b, log, k, inputs, cap, workers);
    }
  }

  lemma PlacesSnoc(draws: seq<Drawing>, d: Drawing)
    ensures Places(draws + [d]) == Places(draws) + [d.place]
    ensures SendsOf(draws + [d]) == SendsOf(draws) + if d.found.Some? then [Send(d.place, d.found.value)] else []
  {
    assert (draws + [d])[..|draws|] == draws;
  }

  // ---------------------------------------------------------------- rounds

  /** What one poll does: nothing; book a failure; or book the observation and top up. */
  ghost predicate Round(b: Board, e: Event, draws: seq<Drawing>, after: Board, inputs: Inputs, cap: nat, workers: nat) {
    if Nothing(b, e) then after == b && draws == []
    else if !e.ok then after == Answered(b, e.jobId, false, e.obs) && draws == []
    else TopsUp(Answered(b, e.jobId, true, e.obs), draws, after, inputs, cap, workers)
  }

  /** The books after a poll, and the draws made in it. */
  datatype Stage = Stage(board: Board, draws: seq<Drawing>)

  /** The books from poll to poll. */
  ghost predicate Rounds(stages: seq<Stage>, events: seq<Event>, inputs: Inputs, cap: nat, workers: nat) {
    && 0 < |stages| <= |events| + 1
    && forall n | 0 <= n < |stages| - 1 ::
         Round(stages[n].board, events[n], stages[n + 1].draws, stages[n + 1].board, inputs, cap, workers)
  }

  function AllDraws(stages: seq<Stage>): seq<Drawing> {
    if stages == [] then [] else AllDraws(stages[..|stages| - 1]) + stages[|stages| - 1].draws
  }

  lemma AllDrawsSnoc(stages: seq<Stage>, s: Stage)
    ensures AllDraws(stages + [s]) == AllDraws(stages) + s.draws
  {
    assert (stages + [s])[..|stages|] == stages;
  }

  ghost predicate FailedAt(stages: seq<Stage>, events: seq<Event>, n: nat)
    requires |stages| <= |events| + 1
  {
    n < |stages| - 1 && !Nothing(stages[n].board, events[n]) && !events[n].ok
  }

  /** The last result of a known job was a failure. */
  ghost predicate LastFailed(stages: seq<Stage>, events: seq<Event>)
    requires |stages| <= |events| + 1
  {
    exists n: nat :: FailedAt(stages, events, n) && forall m | n < m < |stages| - 1 :: Nothing(stages[m].board, events[m])
  }

  lemma LastFailedOn(stages: seq<Stage>, events: seq<Event>, next: Stage)
    requires |stages| <= |events| && stages != []
    ensures var n := |stages| - 1;
            (if Nothing(stages[n].board, events[n]) then LastFailed(stages, events) else !events[n].ok) ==>
              LastFailed(stages + [next], events)
  {
    var more, last := stages + [next], |stages| - 1;
    if Nothing(stages[last].board, events[last]) {
      if LastFailed(stages, events) {
        var n: nat :| FailedAt(stages, events, n) && forall m | n < m < |stages| - 1 :: Nothing(stages[m].board, events[m]);
        assert FailedAt(more, events, n);
      }
    } else if !events[last].ok {
      assert FailedAt(more, events, last);
    }
  }

  /** Main result: every round keeps the books. */
  lemma RoundKeeps(b: Board, e: Event, draws: seq<Drawing>, after: Board, inputs: Inputs, cap: nat, workers: nat)
    requires Inv(b, inputs, cap) && Round(b, e, draws, after, inputs, cap, workers)
    ensures Inv(after, inputs, cap)
  {
    hide Inv, Answered, AfterSends, Sweeps;
    if !Nothing(b, e) {
      AnsweredKeeps(b, e.jobId, e.ok, e.obs, inputs, cap);
      if e.ok {
        var answered := Answered(b, e.jobId, true, e.obs);
        var log :| LogsTopUp(log, answered, draws, after, inputs, cap, workers);
        SweepsMaySend(answered, log, inputs, cap, workers);
        SendsKeep(answered, log.sends, inputs, cap);
      }
    }
  }

  // ---------------------------------------------------------------- giving up

  /** The last thing drawn was one whole sweep that found nothing. */
  ghost predicate GaveUp(states: seq<TargetState>, cap: nat, draws: seq<Drawing>) {
    exists n: nat :: SweptSince(states, cap, draws, n)
  }

  ghost predicate SweptSince(states: seq<TargetState>, cap: nat, draws: seq<Drawing>, n: nat) {
    n <= |draws| && RefusedSweep(states, cap, draws[n..])
  }

  /** Satisfied, at its cap, or its last draw found nothing. */
  ghost predicate Settled(s: TargetState, cap: nat, draws: seq<Drawing>, place: nat) {
    Open(s, cap) ==> var last := LastAt(draws, place); last.Some? && last.value.found.None?
  }

  lemma {:induction false} OpenListed(states: seq<TargetState>, cap: nat, n: nat, i: nat)
    requires i < n <= |states| && Open(states[i], cap)
    ensures i in Opens(states, cap, n)
  {
    if i < n - 1 { OpenListed(states, cap, n - 1, i); }
  }

  lemma {:induction false} LastInSweep(before: seq<Drawing>, sweep: seq<Drawing>, place: nat)
    requires SendsOf(sweep) == [] && place in Places(sweep)
    ensures var last := LastAt(before + sweep, place); last.Some? && last.value.found.None?
    decreases |sweep|
  {
    var n := |sweep| - 1;
    var front, d := sweep[..n], sweep[n];
    assert sweep == front + [d];
    PlacesSnoc(front, d);
    assert before + sweep == before + front + [d];
    AfterDraw([], before + front, d, place);
    if d.place != place { LastInSweep(before, front, place); }
  }

  /** Main result: then every target is satisfied, at its cap, or its last draw found nothing. */
  lemma GaveUpSettles(states: seq<TargetState>, cap: nat, draws: seq<Drawing>, i: nat)
    requires GaveUp(states, cap, draws) && i < |states|
    ensures Settled(states[i], cap, draws, i)
  {
    var n: nat :| SweptSince(states, cap, draws, n);
    if Open(states[i], cap) {
      OpenListed(states, cap, |states|, i);
      LastInSweep(draws[..n], draws[n..], i);
      assert draws[..n] + draws[n..] == draws;
    }
  }
}
