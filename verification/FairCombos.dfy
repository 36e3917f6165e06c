/** Drawing stick, C-stick and trigger inputs whose seed deltas sum to a target: every triple of deltas walks its
    three input lists axis by axis, and the triples take turns. */
module FairCombos {
  import opened Bytes
  import opened Strides
  import opened MixedRadix

  type Pair = (u8, u8)

  function Combinations(lists: seq<seq<Pair>>): nat
    requires |lists| == 3
  {
    |lists[0]| * |lists[1]| * |lists[2]|
  }

  datatype Key = Key(j: Pair, c: Pair, t: Pair)

  /** One triple of deltas; axis 0, 1, 2 is the stick, the C-stick, the triggers. */
  datatype TripleState = TripleState(
    deltas: seq<int>, lists: seq<seq<Pair>>, index: seq<nat>, stride: seq<nat>, axis: nat,
    emitted: nat, total: nat, exhausted: bool)
  {
    ghost predicate Shaped() {
      && |deltas| == |lists| == |index| == |stride| == 3 && axis < 3
      && total == Combinations(lists)
    }

    /** The invariant of a triple for a target. */
    ghost predicate Valid(target: int) {
      && Shaped() && deltas[0] + deltas[1] + deltas[2] == target
      && (exhausted <==> emitted >= total)
      && (!exhausted ==> forall a | 0 <= a < 3 :: index[a] < |lists[a]|)
    }
  }

  /** The axes in cyclic order. */
  function AxisAfter(axis: nat, steps: nat): (a: nat)
    requires axis < 3 && steps <= 3
    ensures a < 3
  {
    if axis + steps < 3 then axis + steps else axis + steps - 3
  }

  /** The axis the next advance moves: the first one from the cursor on with more than one entry. */
  function Mover(ts: TripleState): (a: Option<nat>)
    requires ts.Shaped()
    ensures a.Some? ==> a.value < 3 && |ts.lists[a.value]| > 1
  {
    if |ts.lists[ts.axis]| > 1 then Some(ts.axis)
    else if |ts.lists[AxisAfter(ts.axis, 1)]| > 1 then Some(AxisAfter(ts.axis, 1))
    else if |ts.lists[AxisAfter(ts.axis, 2)]| > 1 then Some(AxisAfter(ts.axis, 2))
    else None
  }

  function Moved(ts: TripleState, a: nat): TripleState
    requires ts.Shaped() && a < 3 && |ts.lists[a]| > 1
  {
    ts.(index := ts.index[a := (ts.index[a] + ts.stride[a]) % |ts.lists[a]|], axis := AxisAfter(a, 1))
  }

  function Advanced(ts: TripleState): TripleState
    requires ts.Shaped()
  {
    match Mover(ts)
    case None => ts
    case Some(a) => Moved(ts, a)
  }

  lemma AxisNext(axis: nat, steps: nat)
    requires axis < 3 && steps < 3
    ensures AxisAfter(axis, steps + 1) == AxisAfter(AxisAfter(axis, steps), 1)
    ensures AxisAfter(axis, 0) == axis == AxisAfter(axis, 3)
    ensures AxisAfter(axis, 1) == if axis == 2 then 0 else axis + 1
  {
  }

  /** The first n axes from the cursor on have at most one entry. */
  ghost predicate NoneMoves(ts: TripleState, n: nat)
    requires ts.Shaped() && n <= 3
  {
    forall x | 0 <= x < n :: |ts.lists[AxisAfter(ts.axis, x)]| <= 1
  }

  method AdvanceAxis(start: TripleState) returns (ts: TripleState)
    requires start.Shaped()
    ensures ts == Advanced(start)
  {
    hide Combinations, AxisAfter;
    ts := start;
    AxisNext(start.axis, 0);
    for step := 0 to 3
      invariant ts == start.(axis := AxisAfter(start.axis, step)) && NoneMoves(start, step)
    {
      var a := ts.axis;
      AxisNext(start.axis, step);
      AxisNext(a, 0);
      if |ts.lists[a]| > 1 { MoverIs(start, step); }
      ts := ts.(axis := if a == 2 then 0 else a + 1);
      if |ts.lists[a]| > 1 {
        ts := ts.(index := ts.index[a := (ts.index[a] + ts.stride[a]) % |ts.lists[a]|]);
        return;
      }
    }
    NoMover(start);
  }

  lemma NoMover(ts: TripleState)
    requires ts.Shaped() && NoneMoves(ts, 3)
    ensures Mover(ts) == None && AxisAfter(ts.axis, 3) == ts.axis
  {
    assert |ts.lists[AxisAfter(ts.axis, 0)]| <= 1 && |ts.lists[AxisAfter(ts.axis, 1)]| <= 1 && |ts.lists[AxisAfter(ts.axis, 2)]| <= 1;
  }

  lemma MoverIs(ts: TripleState, step: nat)
    requires ts.Shaped() && step < 3 && |ts.lists[AxisAfter(ts.axis, step)]| > 1 && NoneMoves(ts, step)
    ensures Mover(ts) == Some(AxisAfter(ts.axis, step))
  {
    assert step >= 1 ==> |ts.lists[AxisAfter(ts.axis, 0)]| <= 1;
    assert step >= 2 ==> |ts.lists[AxisAfter(ts.axis, 1)]| <= 1;
  }

  // ---------------------------------------------------------------- emitting

  function KeyAt(ts: TripleState): Key
    requires ts.Shaped() && forall a | 0 <= a < 3 :: ts.index[a] < |ts.lists[a]|
  {
    Key(ts.lists[0][ts.index[0]], ts.lists[1][ts.index[1]], ts.lists[2][ts.index[2]])
  }

  /** Emission counts whether or not the combination is new. */
  function Emit(ts: TripleState): TripleState
    requires ts.Shaped()
  {
    var n := Advanced(ts);
    n.(emitted := ts.emitted + 1, exhausted := ts.emitted + 1 >= ts.total)
  }

  lemma EmitKeeps(ts: TripleState, target: int)
    requires ts.Valid(target) && !ts.exhausted
    ensures Emit(ts).Valid(target) && Same(ts, Emit(ts))
  {
  }

  /** Everything but the walk is unchanged. */
  ghost predicate Same(a: TripleState, b: TripleState) {
    a.deltas == b.deltas && a.lists == b.lists && a.stride == b.stride && a.total == b.total
  }

  /** The combination is built from the triple's own lists. */
  ghost predicate Offers(ts: TripleState, key: Key) {
    |ts.lists| == 3 && key.j in ts.lists[0] && key.c in ts.lists[1] && key.t in ts.lists[2]
  }

  ghost function Emits(ts: TripleState, target: int, m: nat): (r: Option<TripleState>)
    requires ts.Valid(target)
    ensures r.Some? ==> r.value.Valid(target) && Same(ts, r.value)
  {
    if m == 0 then Some(ts)
    else
      var before := Emits(ts, target, m - 1);
      if before.None? || before.value.exhausted then None
      else
        EmitKeeps(before.value, target);
        Some(Emit(before.value))
  }

  /** The m-th emission of the triple is a combination already tried. */
  ghost predicate Stale(ts: TripleState, target: int, m: nat, tried: set<Key>)
    requires ts.Valid(target)
  {
    var at := Emits(ts, target, m);
    at.Some? && !at.value.exhausted && KeyAt(at.value) in tried
  }

  /** Looking at one triple: m stale emissions, and then a new combination, exhaustion or the try limit. */
  ghost predicate Looked(before: TripleState, after: TripleState, target: int, m: nat, tried: set<Key>, cap: nat, found: Option<Key>)
    requires before.Valid(target)
  {
    && m <= cap && (forall x | 0 <= x < m :: Stale(before, target, x, tried))
    && match found
       case None => Emits(before, target, m) == Some(after) && (after.exhausted || m == cap)
       case Some(key) =>
         && m < cap && Emits(before, target, m + 1) == Some(after) && key !in tried
         && !Emits(before, target, m).value.exhausted && key == KeyAt(Emits(before, target, m).value)
  }

  lemma LookedAgain(start: TripleState, ts: TripleState, target: int, inner: nat, tried: set<Key>)
    requires start.Valid(target) && Emits(start, target, inner) == Some(ts) && !ts.exhausted
    ensures Emits(start, target, inner + 1) == Some(Emit(ts)) && Emit(ts).Valid(target) && Same(start, Emit(ts))
    ensures Offers(ts, KeyAt(ts)) && Same(start, ts)
    ensures KeyAt(ts) in tried ==> Stale(start, target, inner, tried)
  {
    hide Emit;
    EmitKeeps(ts, target);
  }

  lemma OffersSame(a: TripleState, b: TripleState, key: Key)
    requires Same(a, b)
    ensures Offers(a, key) <==> Offers(b, key)
  {
  }

  /** One emission. */
  method EmitOne(ts: TripleState, target: int) returns (key: Key, next: TripleState)
    requires ts.Valid(target) && !ts.exhausted
    ensures key == KeyAt(ts) && next == Emit(ts)
  {
    hide Advanced;
    key := Key(ts.lists[0][ts.index[0]], ts.lists[1][ts.index[1]], ts.lists[2][ts.index[2]]);
    next := AdvanceAxis(ts);
    next := next.(emitted := ts.emitted + 1);
    AdvancedKeeps(ts);
    if next.emitted >= next.total { next := next.(exhausted := true); }
  }

  lemma AdvancedKeeps(ts: TripleState)
    requires ts.Shaped()
    ensures Same(ts, Advanced(ts)) && Advanced(ts).emitted == ts.emitted && Advanced(ts).exhausted == ts.exhausted
  {
  }

  method TryTriple(start: TripleState, target: int, tried: set<Key>, cap: nat) returns (ts: TripleState, found: Option<Key>)
    requires start.Valid(target)
    ensures ts.Valid(target) && Same(start, ts)
    ensures found.Some? ==> found.value !in tried && Offers(start, found.value)
    ensures exists m: nat :: m <= cap && Looked(start, ts, target, m, tried, cap, found)
  {
    ts, found := start, None;
    var inner := 0;
    hide TripleState.Valid, Emit, Offers, Same;
    SameSelf(start);
    while inner < cap && !ts.exhausted
      invariant inner <= cap && Emits(start, target, inner) == Some(ts) && ts.Valid(target) && Same(start, ts)
      invariant forall x | 0 <= x < inner :: Stale(start, target, x, tried)
      decreases cap - inner
    {
      hide Emits, Stale;
      var key, next := EmitOne(ts, target);
      LookedAgain(start, ts, target, inner, tried);
      OffersSame(start, ts, key);
      ts := next;
      if key !in tried {
        found := Some(key);
        assert Looked(start, ts, target, inner, tried, cap, found);
        return;
      }
      inner := inner + 1;
    }
    assert Looked(start, ts, target, inner, tried, cap, found);
  }

  lemma SameSelf(ts: TripleState)
    ensures Same(ts, ts)
  {
  }

  /** After some turns from the first triple: the triples looked at are spent, the others untouched. */
  ghost predicate Swept(before: seq<TripleState>, now: seq<TripleState>, first: nat, turns: nat, target: int, tried: set<Key>, cap: nat)
    requires first < |before|
  {
    && |now| == |before|
    && (forall k | 0 <= k < |now| :: now[k].Valid(target) && Same(before[k], now[k]))
    && (forall k: nat | k < |now| && Away(first, k, |now|) < turns :: Spent(before[k], now[k], target, tried, cap))
    && (forall k: nat | k < |now| && Away(first, k, |now|) >= turns :: now[k] == before[k])
  }

  lemma SweepOn(before: seq<TripleState>, now: seq<TripleState>, first: nat, turns: nat, target: int, tried: set<Key>, cap: nat, ts: TripleState)
    requires first < |before| && turns < |before| && Swept(before, now, first, turns, target, tried, cap)
    requires var k := Turn(first, turns, |before|);
             k < |now| && Spent(now[k], ts, target, tried, cap) && ts.Valid(target) && Same(now[k], ts)
    ensures var k := Turn(first, turns, |before|);
            Swept(before, now[k := ts], first, turns + 1, target, tried, cap)
  {
    hide TripleState.Valid, Same, Spent;
    var n := |before|;
    var k := Turn(first, turns, n);
    var later := now[k := ts];
    TurnAway(first, turns, n);
    assert now[k] == before[k];
    forall i: nat | i < n && Away(first, i, n) < turns + 1 ensures Spent(before[i], later[i], target, tried, cap) {
      if i != k { assert Away(first, i, n) < turns; }
    }
  }

  class FairComboIterator {
    const target: int
    var triples: seq<TripleState>
    var cur: nat

    ghost predicate Valid() reads this {
      && (triples != [] ==> cur < |triples|)
      && forall k | 0 <= k < |triples| :: triples[k].Valid(target)
    }

    constructor (target: int, triples: seq<TripleState>)
      requires forall k | 0 <= k < |triples| :: triples[k].Valid(target)
      ensures Valid() && this.target == target && this.triples == triples && cur == 0
    {
      this.target, this.triples, cur := target, triples, 0;
    }

    /** The next untried combination, taking the triples in turn; adds it to the tried ones. None when every triple
        is exhausted or offered only tried combinations. */
    method Next(tried: set<Key>, cap: nat) returns (found: Option<Key>, tried': set<Key>)
      requires Valid()
      modifies this
      ensures Valid() && |triples| == |old(triples)|
      ensures forall k | 0 <= k < |triples| :: Same(old(triples)[k], triples[k])
      ensures Drawn(old(triples), old(cur), triples, cur, target, tried, cap, found)
      ensures found.None? ==> tried' == tried
      ensures found.Some? ==> found.value !in tried && tried' == tried + {found.value} && SomeOffers(triples, found.value)
    {
      hide TripleState.Valid, Spent, Struck, Same, Offers, Swept, Turn, Following, Looked, DrawnAt;
      found, tried' := None, tried;
      if triples == [] { return; }
      ghost var before, first := triples, cur;
      var n := |triples|;
      StartSweep(triples, first, target, tried, cap);
      TurnAway(first, 0, n);
      NoTurnYet(first, n);
      for checked := 0 to n
        invariant |triples| == n && cur == Turn(first, checked, n) && cur < n
        invariant Swept(before, triples, first, checked, target, tried, cap)
      {
        TurnAway(first, checked, n);
        NextTurn(first, checked, n);
        SweptFacts(before, triples, first, checked, target, tried, cap);
        if !triples[cur].exhausted {
          var ts, key := TryTriple(triples[cur], target, tried, cap);
          if key.Some? {
            found, tried' := key, tried + {key.value};
            OffersSame(triples[cur], ts, key.value);
            UpdateKeeps(before, triples, first, checked, target, tried, cap, cur, ts);
            LookedIsStruck(triples[cur], ts, target, tried, cap, key.value);
            StrikesAt(before, triples, first, checked, target, tried, cap, ts, key.value);
            triples := triples[cur := ts];
            cur := Following(cur, n);
            return;
          }
          LookedIsSpent(triples[cur], ts, target, tried, cap);
          SweepOn(before, triples, first, checked, target, tried, cap, ts);
          triples := triples[cur := ts];
        } else {
          AlreadySpent(triples[cur], target, tried, cap);
          SweepOn(before, triples, first, checked, target, tried, cap, triples[cur]);
          assert triples[cur := triples[cur]] == triples;
        }
        cur := Following(cur, n);
      }
      SweptFacts(before, triples, first, n, target, tried, cap);
      FullTurn(first, n);
    }
  }

  /** What one draw does. Found: the triples from the cursor on are looked at in turn, those before the one that offers
      something new are spent, that one stands right behind it, and the cursor moves on behind the triple. Not found:
      all are spent, and the cursor is back where it was. */
  ghost predicate Drawn(before: seq<TripleState>, first: nat, now: seq<TripleState>, next: nat, target: int, tried: set<Key>,
                        cap: nat, found: Option<Key>)
  {
    match found
    case None => AllSpent(before, now, target, tried, cap) && next == first
    case Some(key) => exists turns: nat :: DrawnAt(before, first, now, next, target, tried, cap, key, turns)
  }

  ghost predicate DrawnAt(before: seq<TripleState>, first: nat, now: seq<TripleState>, next: nat, target: int, tried: set<Key>,
                          cap: nat, key: Key, turns: nat)
  {
    && first < |before| == |now| && turns < |before|
    && var k := Turn(first, turns, |before|);
       && k < |before| && next == Following(k, |before|) && Struck(before[k], now[k], target, tried, cap, key)
       && forall i: nat | i < |before| && i != k ::
            if Away(first, i, |before|) < turns then Spent(before[i], now[i], target, tried, cap) else now[i] == before[i]
  }

  /** The triple offered the new combination after only stale ones within the limit. */
  ghost predicate Struck(before: TripleState, after: TripleState, target: int, tried: set<Key>, cap: nat, key: Key) {
    before.Valid(target) && exists m: nat :: Looked(before, after, target, m, tried, cap, Some(key))
  }

  lemma LookedIsStruck(before: TripleState, after: TripleState, target: int, tried: set<Key>, cap: nat, key: Key)
    requires before.Valid(target) && exists m: nat :: m <= cap && Looked(before, after, target, m, tried, cap, Some(key))
    ensures Struck(before, after, target, tried, cap, key)
  {
  }

  lemma StrikesAt(before: seq<TripleState>, now: seq<TripleState>, first: nat, turns: nat, target: int, tried: set<Key>, cap: nat,
                  ts: TripleState, key: Key)
    requires first < |before| && turns < |before| && Swept(before, now, first, turns, target, tried, cap)
    requires var k := Turn(first, turns, |before|); k < |now| && Struck(now[k], ts, target, tried, cap, key)
    ensures var k := Turn(first, turns, |before|);
            Drawn(before, first, now[k := ts], Following(k, |before|), target, tried, cap, Some(key))
  {
    hide TripleState.Valid, Same, Spent, Struck;
    var k := Turn(first, turns, |before|);
    TurnAway(first, turns, |before|);
    assert DrawnAt(before, first, now[k := ts], Following(k, |before|), target, tried, cap, key, turns);
  }

  /** Two looks at the same triple go equally far. */
  lemma LookIsDetermined(before: TripleState, a: TripleState, b: TripleState, target: int, m: nat, n: nat, tried: set<Key>, cap: nat,
                         x: Option<Key>, y: Option<Key>)
    requires before.Valid(target) && Looked(before, a, target, m, tried, cap, x) && Looked(before, b, target, n, tried, cap, y)
    ensures m == n && a == b && x == y
  {
    hide Emits;
    assert m < n ==> Stale(before, target, m, tried);
    assert n < m ==> Stale(before, target, n, tried);
  }

  lemma SpentIsDetermined(before: TripleState, a: TripleState, b: TripleState, target: int, tried: set<Key>, cap: nat)
    requires Spent(before, a, target, tried, cap)
    ensures Spent(before, b, target, tried, cap) ==> a == b
    ensures forall key :: !Struck(before, b, target, tried, cap, key)
  {
    var m: nat :| Looked(before, a, target, m, tried, cap, None);
    if Spent(before, b, target, tried, cap) {
      var n: nat :| Looked(before, b, target, n, tried, cap, None);
      LookIsDetermined(before, a, b, target, m, n, tried, cap, None, None);
    }
    forall key ensures !Struck(before, b, target, tried, cap, key) {
      if Struck(before, b, target, tried, cap, key) {
        var n: nat :| Looked(before, b, target, n, tried, cap, Some(key));
        LookIsDetermined(before, a, b, target, m, n, tried, cap, None, Some(key));
      }
    }
  }

  lemma StruckIsDetermined(before: TripleState, a: TripleState, b: TripleState, target: int, tried: set<Key>, cap: nat, x: Key, y: Key)
    requires Struck(before, a, target, tried, cap, x) && Struck(before, b, target, tried, cap, y)
    ensures a == b && x == y
  {
    var m: nat :| Looked(before, a, target, m, tried, cap, Some(x));
    var n: nat :| Looked(before, b, target, n, tried, cap, Some(y));
    LookIsDetermined(before, a, b, target, m, n, tried, cap, Some(x), Some(y));
  }

  /** The triple that offers something new comes no later in one draw than in another. */
  lemma NoLater(before: seq<TripleState>, first: nat, a: seq<TripleState>, next: nat, b: seq<TripleState>, next': nat, target: int,
                tried: set<Key>, cap: nat, x: Key, y: Key, s: nat, t: nat)
    requires DrawnAt(before, first, a, next, target, tried, cap, x, s) && DrawnAt(before, first, b, next', target, tried, cap, y, t)
    ensures s >= t
  {
    hide Spent, Struck, Following;
    if s < t {
      var k := Turn(first, s, |before|);
      TurnAway(first, s, |before|);
      TurnAway(first, t, |before|);
      SpentIsDetermined(before[k], b[k], a[k], target, tried, cap);
    }
  }

  /** Main result: a draw is determined by the triples, the cursor, the tried combinations and the limit. */
  lemma DrawIsDetermined(before: seq<TripleState>, first: nat, a: seq<TripleState>, next: nat, b: seq<TripleState>, next': nat, target: int,
                         tried: set<Key>, cap: nat, x: Option<Key>, y: Option<Key>)
    requires Drawn(before, first, a, next, target, tried, cap, x) && Drawn(before, first, b, next', target, tried, cap, y)
    ensures a == b && next == next' && x == y
  {
    hide Spent, Struck, DrawnAt, Following;
    match (x, y) {
      case (None, None) => SpentAlike(before, a, b, target, tried, cap);
      case (Some(key), None) => NotBoth(before, first, a, next, b, target, tried, cap, key);
      case (None, Some(key)) => NotBoth(before, first, b, next', a, target, tried, cap, key);
      case (Some(key), Some(other)) =>
        var s: nat :| DrawnAt(before, first, a, next, target, tried, cap, key, s);
        var t: nat :| DrawnAt(before, first, b, next', target, tried, cap, other, t);
        NoLater(before, first, a, next, b, next', target, tried, cap, key, other, s, t);
        NoLater(before, first, b, next', a, next, target, tried, cap, other, key, t, s);
        DrawnAlike(before, first, a, next, b, next', target, tried, cap, key, other, s);
    }
  }

  lemma SpentAlike(before: seq<TripleState>, a: seq<TripleState>, b: seq<TripleState>, target: int, tried: set<Key>, cap: nat)
    requires AllSpent(before, a, target, tried, cap) && AllSpent(before, b, target, tried, cap)
    ensures a == b
  {
    hide Spent;
    forall k: nat | k < |a| ensures a[k] == b[k] {
      assert Spent(before[k], a[k], target, tried, cap) && Spent(before[k], b[k], target, tried, cap);
      SpentIsDetermined(before[k], a[k], b[k], target, tried, cap);
    }
  }

  lemma NotBoth(before: seq<TripleState>, first: nat, a: seq<TripleState>, next: nat, b: seq<TripleState>, target: int,
                tried: set<Key>, cap: nat, key: Key)
    requires Drawn(before, first, a, next, target, tried, cap, Some(key))
    ensures !AllSpent(before, b, target, tried, cap)
  {
    hide Spent, Struck, Following;
    var s: nat :| DrawnAt(before, first, a, next, target, tried, cap, key, s);
    var k := Turn(first, s, |before|);
    if AllSpent(before, b, target, tried, cap) { SpentIsDetermined(before[k], b[k], a[k], target, tried, cap); }
  }

  lemma DrawnAlike(before: seq<TripleState>, first: nat, a: seq<TripleState>, next: nat, b: seq<TripleState>, next': nat, target: int,
                   tried: set<Key>, cap: nat, x: Key, y: Key, s: nat)
    requires DrawnAt(before, first, a, next, target, tried, cap, x, s) && DrawnAt(before, first, b, next', target, tried, cap, y, s)
    ensures a == b && next == next' && x == y
  {
    hide Spent, Struck, Following, Away;
    var k := Turn(first, s, |before|);
    StruckIsDetermined(before[k], a[k], b[k], target, tried, cap, x, y);
    forall i: nat | i < |a| && i != k ensures a[i] == b[i] {
      if Away(first, i, |before|) < s { SpentIsDetermined(before[i], a[i], b[i], target, tried, cap); }
    }
  }

  lemma FullTurn(first: nat, n: nat)
    requires first < n
    ensures Turn(first, n, n) == first
  {
  }

  ghost predicate SomeOffers(triples: seq<TripleState>, key: Key) {
    exists k: nat :: k < |triples| && Offers(triples[k], key)
  }

  ghost predicate AllSpent(before: seq<TripleState>, now: seq<TripleState>, target: int, tried: set<Key>, cap: nat) {
    |before| == |now| && forall k: nat | k < |now| :: Spent(before[k], now[k], target, tried, cap)
  }

  /** The triple has nothing new to offer within the limit. */
  ghost predicate Spent(before: TripleState, after: TripleState, target: int, tried: set<Key>, cap: nat) {
    before.Valid(target) && exists m: nat :: Looked(before, after, target, m, tried, cap, None)
  }

  lemma AlreadySpent(ts: TripleState, target: int, tried: set<Key>, cap: nat)
    requires ts.Valid(target) && ts.exhausted
    ensures Spent(ts, ts, target, tried, cap) && Same(ts, ts)
  {
    assert Looked(ts, ts, target, 0, tried, cap, None);
  }

  lemma StartSweep(triples: seq<TripleState>, first: nat, target: int, tried: set<Key>, cap: nat)
    requires first < |triples| && forall k | 0 <= k < |triples| :: triples[k].Valid(target)
    ensures Swept(triples, triples, first, 0, target, tried, cap)
  {
  }

  lemma LookedIsSpent(before: TripleState, after: TripleState, target: int, tried: set<Key>, cap: nat)
    requires before.Valid(target) && exists m: nat :: m <= cap && Looked(before, after, target, m, tried, cap, None)
    ensures Spent(before, after, target, tried, cap)
  {
  }

  lemma AllAway(first: nat, n: nat)
    requires first < n
    ensures forall k | 0 <= k < n :: Away(first, k, n) < n
  {
  }

  lemma SweptFacts(before: seq<TripleState>, now: seq<TripleState>, first: nat, turns: nat, target: int, tried: set<Key>, cap: nat)
    requires first < |before| && turns <= |before| && Swept(before, now, first, turns, target, tried, cap)
    ensures |now| == |before| && forall k | 0 <= k < |now| :: now[k].Valid(target) && Same(before[k], now[k])
    ensures turns == |before| ==> AllSpent(before, now, target, tried, cap)
  {
    hide TripleState.Valid, Spent, Same;
    AllAway(first, |now|);
  }

  lemma UpdateKeeps(before: seq<TripleState>, now: seq<TripleState>, first: nat, turns: nat, target: int, tried: set<Key>, cap: nat,
                    k: nat, ts: TripleState)
    requires first < |before| && turns < |before| && Swept(before, now, first, turns, target, tried, cap)
    requires k < |now| && ts.Valid(target) && Same(now[k], ts)
    ensures forall i | 0 <= i < |now| :: now[k := ts][i].Valid(target) && Same(before[i], now[k := ts][i])
  {
    assert Same(before[k], now[k]);
    hide TripleState.Valid, Spent;
  }

  /** The triple looked at after some turns, and how many turns away a triple is. */
  function Turn(first: nat, turns: nat, n: nat): (k: nat)
    requires first < n && turns <= n
  {
    if first + turns < n then first + turns else first + turns - n
  }

  function Following(k: nat, n: nat): (r: nat)
    requires n > 0
    ensures r < n
  {
    (k + 1) % n
  }

  function Away(first: nat, k: nat, n: nat): nat
    requires first < n && k < n
  {
    if k >= first then k - first else k + n - first
  }

  lemma TurnAway(first: nat, turns: nat, n: nat)
    requires first < n && turns < n
    ensures Turn(first, turns, n) < n && Away(first, Turn(first, turns, n), n) == turns
    ensures forall k | 0 <= k < n :: Away(first, k, n) < n && (Away(first, k, n) == turns <==> k == Turn(first, turns, n))
  {
  }

  lemma NoTurnYet(first: nat, n: nat)
    requires first < n
    ensures Turn(first, 0, n) == first
  {
  }

  lemma NextTurn(first: nat, turns: nat, n: nat)
    requires first < n && turns < n
    ensures Following(Turn(first, turns, n), n) == Turn(first, turns + 1, n)
  {
    var k := Turn(first, turns, n);
    if k + 1 < n { SmallMod(k + 1, n); } else { WrapOnce(k + 1, n); }
  }
}
