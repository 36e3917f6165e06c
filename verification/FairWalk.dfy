/** What a triple's walk covers: the axes take fair turns and each axis sees all its entries; exactly when that makes
    every combination come up before the triple counts as exhausted. */
module FairWalk {
  import opened Bytes
  import opened Strides
  import opened FairCombos
  import opened TurnCover

  /** Every index in range and every stride coprime to its list, as the search sets triples up. */
  ghost predicate Ready(ts: TripleState) {
    && ts.Shaped()
    && forall a | 0 <= a < 3 :: ts.index[a] < |ts.lists[a]| && (|ts.lists[a]| > 1 ==> Gcd(ts.stride[a], |ts.lists[a]|) == 1)
  }

  ghost predicate Active(ts: TripleState, a: nat)
    requires ts.Shaped() && a < 3
  {
    |ts.lists[a]| > 1
  }

  /** The state after m advances. */
  ghost function Walk(ts: TripleState, m: nat): (r: TripleState)
    requires ts.Shaped()
    ensures r.Shaped() && Same(ts, r)
    decreases m
  {
    if m == 0 then ts else Walk(Advanced(ts), m - 1)
  }

  /** How many of the m advances moved axis a. */
  ghost function Turns(ts: TripleState, m: nat, a: nat): nat
    requires ts.Shaped() && a < 3
    decreases m
  {
    if m == 0 then 0 else (if Mover(ts) == Some(a) then 1 else 0) + Turns(Advanced(ts), m - 1, a)
  }

  lemma AdvancedReady(ts: TripleState)
    requires Ready(ts)
    ensures Ready(Advanced(ts)) && Same(ts, Advanced(ts))
  {
    hide Gcd, Combinations;
  }

  lemma {:induction false} VisitFirst(n: nat, s: nat, i: nat, k: nat)
    requires i < n
    ensures Visit(n, s, i, k + 1) == Visit(n, s, (i + s) % n, k)
  {
    if k > 0 { VisitFirst(n, s, i, k - 1); }
  }

  ghost predicate Follows(ts: TripleState, m: nat, a: nat)
    requires ts.Shaped() && a < 3
  {
    ts.index[a] < |ts.lists[a]| && Walk(ts, m).index[a] == Visit(|ts.lists[a]|, ts.stride[a], ts.index[a], Turns(ts, m, a))
  }

  lemma FollowsStep(ts: TripleState, m: nat, a: nat)
    requires ts.Shaped() && a < 3 && Active(ts, a) && ts.index[a] < |ts.lists[a]| && m > 0
    requires Advanced(ts).Shaped() && Same(ts, Advanced(ts)) && Follows(Advanced(ts), m - 1, a)
    ensures Follows(ts, m, a)
  {
    AdvancedIndex(ts, a);
    hide Advanced, Mover, Gcd, Visit, Combinations;
    VisitFirst(|ts.lists[a]|, ts.stride[a], ts.index[a], Turns(Advanced(ts), m - 1, a));
  }

  /** Along the walk every axis follows its own stride. */
  lemma {:induction false} AxisFollowsStride(ts: TripleState, m: nat, a: nat)
    requires Ready(ts) && a < 3 && Active(ts, a)
    ensures Follows(ts, m, a)
    decreases m
  {
    if m > 0 {
      AdvancedReady(ts);
      hide Advanced, Gcd, Combinations, Follows;
      AxisFollowsStride(Advanced(ts), m - 1, a);
      FollowsStep(ts, m, a);
    }
  }

  lemma AdvancedIndex(ts: TripleState, a: nat)
    requires ts.Shaped() && a < 3 && Active(ts, a)
    ensures Advanced(ts).Shaped()
    ensures Advanced(ts).index[a] == if Mover(ts) == Some(a) then (ts.index[a] + ts.stride[a]) % |ts.lists[a]| else ts.index[a]
  {
    hide Combinations;
  }

  /** How far axis a is ahead of the cursor. */
  function Ahead(cursor: nat, a: nat): nat
    requires cursor < 3 && a < 3
  {
    if a >= cursor then a - cursor else a + 3 - cursor
  }

  lemma MoverIsNearest(ts: TripleState)
    requires ts.Shaped()
    ensures match Mover(ts)
            case None => forall a | 0 <= a < 3 :: !Active(ts, a)
            case Some(c) => Active(ts, c) && Advanced(ts).axis == AxisAfter(c, 1) &&
                            forall a | 0 <= a < 3 && Active(ts, a) :: Ahead(ts.axis, c) <= Ahead(ts.axis, a)
  {
  }

  /** Fairness: of two moving axes the one nearer to the cursor is at most one turn ahead. */
  lemma {:induction false} FairTurns(ts: TripleState, m: nat, a: nat, b: nat)
    requires ts.Shaped() && a < 3 && b < 3 && Active(ts, a) && Active(ts, b) && Ahead(ts.axis, a) <= Ahead(ts.axis, b)
    ensures Turns(ts, m, b) <= Turns(ts, m, a) <= Turns(ts, m, b) + 1
    decreases m
  {
    if m > 0 {
      MoverIsNearest(ts);
      hide Mover, Advanced;
      var next := Advanced(ts);
      AdvancedKeepsShape(ts);
      if Mover(ts) == Some(a) && a != b {
        FairTurns(next, m - 1, b, a);
      } else {
        FairTurns(next, m - 1, a, b);
      }
    }
  }

  lemma AdvancedKeepsShape(ts: TripleState)
    requires ts.Shaped()
    ensures Advanced(ts).Shaped() && Same(ts, Advanced(ts))
  {
    hide Combinations;
  }

  lemma ActiveKept(ts: TripleState)
    requires ts.Shaped()
    ensures Advanced(ts).Shaped() && Same(ts, Advanced(ts)) && forall a: nat | a < 3 :: Active(Advanced(ts), a) <==> Active(ts, a)
  {
    AdvancedKeepsShape(ts);
    hide Advanced, Combinations;
  }

  // ---------------------------------------------------------------- turns, counted

  /** Axes a and b move, a first, and the third does not. */
  ghost predicate TwoMove(ts: TripleState, a: nat, b: nat)
    requires ts.Shaped()
  {
    && a < 3 && b < 3 && a != b && Active(ts, a) && Active(ts, b) && Ahead(ts.axis, a) < Ahead(ts.axis, b)
    && forall c | 0 <= c < 3 && c != a && c != b :: !Active(ts, c)
  }

  lemma {:induction false} TwoTurns(ts: TripleState, t: nat, a: nat, b: nat)
    requires ts.Shaped() && TwoMove(ts, a, b)
    ensures Turns(ts, t, a) == (t + 1) / 2 && Turns(ts, t, b) == t / 2
    decreases t
  {
    if t > 0 {
      FirstMoves(ts, a, b);
      hide Mover, Advanced, TwoMove;
      TwoTurns(Advanced(ts), t - 1, b, a);
    }
  }

  lemma FirstMoves(ts: TripleState, a: nat, b: nat)
    requires ts.Shaped() && TwoMove(ts, a, b)
    ensures Mover(ts) == Some(a) && Advanced(ts).Shaped() && TwoMove(Advanced(ts), b, a)
  {
    MoverIsNearest(ts);
    ActiveKept(ts);
    hide Mover, Advanced, Combinations;
    assert Active(ts, a) && Active(ts, b);
  }

  lemma {:induction false} ThreeTurns(ts: TripleState, t: nat, a: nat, b: nat, c: nat)
    requires ts.Shaped() && (forall x | 0 <= x < 3 :: Active(ts, x)) && a == ts.axis && b == AxisAfter(a, 1) && c == AxisAfter(a, 2)
    ensures Turns(ts, t, a) == (t + 2) / 3 && Turns(ts, t, b) == (t + 1) / 3 && Turns(ts, t, c) == t / 3
    decreases t
  {
    if t > 0 {
      assert Active(ts, a) && Active(ts, b) && Active(ts, c);
      assert Mover(ts) == Some(a) && Advanced(ts).axis == b by { hide Combinations; }
      ActiveKept(ts);
      hide Mover, Advanced, Combinations;
      ThreeTurns(Advanced(ts), t - 1, b, c, a);
    }
  }

  lemma {:induction false} IdleAxis(ts: TripleState, t: nat, a: nat)
    requires ts.Shaped() && a < 3 && !Active(ts, a)
    ensures Walk(ts, t).index[a] == ts.index[a]
    decreases t
  {
    if t > 0 {
      AdvancedKeepsShape(ts);
      assert Advanced(ts).index[a] == ts.index[a] by { hide Combinations; }
      hide Advanced, Combinations;
      IdleAxis(Advanced(ts), t - 1, a);
    }
  }

  // ---------------------------------------------------------------- which combinations come up

  /** The index of axis a after x turns of it. */
  function IndexAt(ts: TripleState, a: nat, x: nat): (v: nat)
    requires ts.Shaped() && a < 3 && ts.index[a] < |ts.lists[a]|
    ensures v < |ts.lists[a]|
  {
    Visit(|ts.lists[a]|, ts.stride[a], ts.index[a], x)
  }

  lemma SameVisit(n: nat, s: nat, i: nat, j: nat, k: nat)
    requires i < n && Gcd(s, n) == 1 && Visit(n, s, i, j) == Visit(n, s, i, k)
    ensures Multiple(n, j - k)
  {
    VisitIs(n, s, i, j);
    VisitIs(n, s, i, k);
    var p: int :| Visit(n, s, i, j) == i + j * s + n * p;
    var q: int :| Visit(n, s, i, k) == i + k * s + n * q;
    hide Gcd;
    assert (j - k) * s == j * s - k * s == n * q - n * p == n * (q - p);
    Cancels(n, s, j - k);
  }

  lemma ShiftTimes(j: int, k: int, s: int, n: int, q: int)
    requires j - k == n * q
    ensures j * s == k * s + n * (q * s)
  {
    assert (j - k) * s == j * s - k * s;
    assert n * q * s == n * (q * s);
  }

  lemma AgainVisit(n: nat, s: nat, i: nat, j: nat, k: nat)
    requires i < n && Multiple(n, j - k)
    ensures Visit(n, s, i, j) == Visit(n, s, i, k)
  {
    VisitIs(n, s, i, j);
    VisitIs(n, s, i, k);
    var q: int :| j - k == n * q;
    ShiftTimes(j, k, s, n, q);
    hide Visit;
    assert i + j * s == i + k * s + n * (q * s);
    assert Congruent(n, i + j * s, i + k * s);
    CongruentTrans(n, Visit(n, s, i, j), i + j * s, i + k * s);
    CongruentShift(n, Visit(n, s, i, k), i + k * s, 0);
    CongruentTrans(n, Visit(n, s, i, j), i + k * s, Visit(n, s, i, k));
    CongruentSmall(n, Visit(n, s, i, j), Visit(n, s, i, k));
  }

  /** A moving axis stands at its x-th index exactly when its turns differ from x by a multiple of its length. */
  lemma AxisIs(ts: TripleState, t: nat, a: nat, x: nat)
    requires Ready(ts) && a < 3 && Active(ts, a)
    ensures Walk(ts, t).index[a] == IndexAt(ts, a, x) <==> Multiple(|ts.lists[a]|, Turns(ts, t, a) - x)
  {
    AxisFollowsStride(ts, t, a);
    hide Gcd, Visit, Multiple, Combinations;
    if Walk(ts, t).index[a] == IndexAt(ts, a, x) {
      SameVisit(|ts.lists[a]|, ts.stride[a], ts.index[a], Turns(ts, t, a), x);
    }
    if Multiple(|ts.lists[a]|, Turns(ts, t, a) - x) {
      AgainVisit(|ts.lists[a]|, ts.stride[a], ts.index[a], Turns(ts, t, a), x);
    }
  }

  /** The combination with these indices comes up within the triple's total. */
  ghost predicate ComesUp(ts: TripleState, index: seq<nat>)
    requires ts.Shaped()
  {
    exists m: nat :: m < ts.total && Walk(ts, m).index == index
  }

  // ---------------------------------------------------------------- the walk is what is emitted

  lemma {:induction false} WalkLast(ts: TripleState, m: nat)
    requires ts.Shaped()
    ensures Walk(ts, m + 1) == Advanced(Walk(ts, m))
    decreases m
  {
    hide Combinations, Advanced;
    if m > 0 {
      AdvancedKeepsShape(ts);
      WalkLast(Advanced(ts), m - 1);
    } else {
      AdvancedKeepsShape(ts);
      assert Walk(Advanced(ts), 0) == Advanced(ts);
    }
  }

  /** A state of the walk as the iterator keeps it. */
  function Marked(ts: TripleState, m: nat): TripleState { ts.(emitted := m, exhausted := m >= ts.total) }

  lemma MarkedMoves(ts: TripleState, m: nat)
    requires ts.Shaped()
    ensures Marked(ts, m).Shaped() && Mover(Marked(ts, m)) == Mover(ts)
  {
    hide Combinations;
  }

  lemma MarkedAdvances(ts: TripleState, m: nat)
    requires ts.Shaped()
    ensures Marked(ts, m).Shaped() && Emit(Marked(ts, m)) == Marked(Advanced(ts), m + 1)
  {
    hide Combinations, Mover;
    MarkedMoves(ts, m);
  }

  /** The m-th emission of a new triple is the walk's m-th state, up to the total. */
  lemma {:induction false} EmitsWalk(ts: TripleState, target: int, m: nat)
    requires ts.Valid(target) && ts.emitted == 0 && !ts.exhausted && m <= ts.total
    ensures Emits(ts, target, m) == Some(Marked(Walk(ts, m), m))
  {
    hide Combinations, Advanced, Emit;
    if m > 0 {
      EmitsWalk(ts, target, m - 1);
      WalkLast(ts, m - 1);
      MarkedAdvances(Walk(ts, m - 1), m - 1);
    }
  }

  ghost predicate Emitted(ts: TripleState, target: int, index: seq<nat>, m: nat)
    requires ts.Valid(target)
  {
    var at := Emits(ts, target, m);
    at.Some? && !at.value.exhausted && at.value.index == index
  }

  lemma {:induction false} EmitsEnd(ts: TripleState, target: int, m: nat)
    requires ts.Valid(target) && ts.emitted == 0 && !ts.exhausted && m >= ts.total
    ensures Emits(ts, target, m).Some? ==> Emits(ts, target, m).value.exhausted
  {
    hide Combinations, Advanced;
    if m == ts.total { EmitsWalk(ts, target, m); } else { EmitsEnd(ts, target, m - 1); }
  }

  /** What comes up is exactly what a new triple emits before it is exhausted. */
  lemma ComesUpIsEmitted(ts: TripleState, target: int, index: seq<nat>)
    requires ts.Valid(target) && ts.emitted == 0 && !ts.exhausted
    ensures ComesUp(ts, index) <==> exists m: nat :: Emitted(ts, target, index, m)
  {
    hide Combinations, Advanced, Emits, Walk;
    if m: nat :| m < ts.total && Walk(ts, m).index == index {
      EmitsWalk(ts, target, m);
      assert Emitted(ts, target, index, m);
    }
    if m: nat :| Emitted(ts, target, index, m) {
      if m < ts.total { EmitsWalk(ts, target, m); } else { EmitsEnd(ts, target, m); }
    }
  }

  ghost predicate InLists(ts: TripleState, index: seq<nat>)
    requires ts.Shaped()
  {
    |index| == 3 && forall a | 0 <= a < 3 :: index[a] < |ts.lists[a]|
  }

  ghost predicate Covers(ts: TripleState)
    requires ts.Shaped()
  {
    forall index :: InLists(ts, index) ==> ComesUp(ts, index)
  }

  /** Which walks do: whenever two axes move, the third does not, and the one that moves first has two entries or
      shares exactly the factor 2 with the other. */
  ghost predicate Coverable(ts: TripleState)
    requires ts.Shaped()
  {
    forall a: nat, b: nat | a < 3 && b < 3 && a != b && Active(ts, a) && Active(ts, b) && Ahead(ts.axis, a) < Ahead(ts.axis, b) ::
      TwoMove(ts, a, b) && (|ts.lists[a]| == 2 || Gcd(|ts.lists[a]|, |ts.lists[b]|) == 2)
  }

  // ---------------------------------------------------------------- at most one moving axis

  ghost predicate OnlyMoves(ts: TripleState, a: nat)
    requires ts.Shaped() && a < 3
  {
    forall b | 0 <= b < 3 && b != a :: !Active(ts, b)
  }

  lemma {:induction false} OnlyTurns(ts: TripleState, m: nat, a: nat)
    requires ts.Shaped() && a < 3 && OnlyMoves(ts, a) && Active(ts, a)
    ensures Turns(ts, m, a) == m
    decreases m
  {
    if m > 0 {
      ActiveKept(ts);
      MoverIsNearest(ts);
      hide Mover, Advanced, Combinations;
      OnlyTurns(Advanced(ts), m - 1, a);
    }
  }

  lemma Singles(ts: TripleState, a: nat, b: nat)
    requires Ready(ts) && a < 3 && b < 3 && forall c | 0 <= c < 3 && c != a && c != b :: !Active(ts, c)
    ensures ts.total == if a == b then |ts.lists[a]| else |ts.lists[a]| * |ts.lists[b]|
  {
    hide Gcd;
    forall c | 0 <= c < 3 && c != a && c != b ensures |ts.lists[c]| == 1 { assert !Active(ts, c) && ts.index[c] < |ts.lists[c]|; }
    var x, y, z := |ts.lists[0]|, |ts.lists[1]|, |ts.lists[2]|;
    ProductsOfOne(x, y, z);
  }

  lemma ProductsOfOne(x: nat, y: nat, z: nat)
    ensures x == 1 ==> x * y * z == y * z == z * y
    ensures y == 1 ==> x * y * z == x * z == z * x
    ensures z == 1 ==> x * y * z == x * y == y * x
    ensures x == 1 && y == 1 ==> x * y * z == z
    ensures x == 1 && z == 1 ==> x * y * z == y
    ensures y == 1 && z == 1 ==> x * y * z == x
  {
  }

  lemma OneAxisCovers(ts: TripleState, a: nat, index: seq<nat>)
    requires Ready(ts) && a < 3 && OnlyMoves(ts, a) && InLists(ts, index)
    ensures ComesUp(ts, index)
  {
    Singles(ts, a, a);
    var n := |ts.lists[a]|;
    var m := 0;
    if Active(ts, a) {
      m := StrideReaches(n, ts.stride[a], ts.index[a], index[a]);
      OnlyTurns(ts, m, a);
      AxisFollowsStride(ts, m, a);
    }
    hide Gcd, Combinations;
    forall b | 0 <= b < 3 && b != a ensures Walk(ts, m).index[b] == index[b] { IdleAxis(ts, m, b); }
    assert Walk(ts, m).index == index;
  }

  // ---------------------------------------------------------------- two moving axes

  lemma TwoAt(ts: TripleState, t: nat, a: nat, b: nat, x: nat, y: nat)
    requires Ready(ts) && TwoMove(ts, a, b)
    ensures PairAt(|ts.lists[a]|, |ts.lists[b]|, x, y, t) <==>
              Walk(ts, t).index[a] == IndexAt(ts, a, x) && Walk(ts, t).index[b] == IndexAt(ts, b, y)
  {
    hide Gcd, Visit, Multiple, Combinations, Walk, Turns, IndexAt, PairAt, Ahead;
    TwoTurns(ts, t, a, b);
    PairTurns(|ts.lists[a]|, |ts.lists[b]|, x, y, t, Turns(ts, t, a), Turns(ts, t, b));
    AxisIs(ts, t, a, x);
    AxisIs(ts, t, b, y);
  }

  lemma PairTurns(n: nat, m: nat, x: int, y: int, t: nat, p: nat, q: nat)
    requires p == (t + 1) / 2 && q == t / 2
    ensures PairAt(n, m, x, y, t) <==> Multiple(n, p - x) && Multiple(m, q - y)
  {
    hide Multiple;
  }

  lemma TwoIndex(ts: TripleState, t: nat, a: nat, b: nat, index: seq<nat>)
    requires Ready(ts) && TwoMove(ts, a, b) && InLists(ts, index)
    ensures Walk(ts, t).index == index <==> Walk(ts, t).index[a] == index[a] && Walk(ts, t).index[b] == index[b]
  {
    hide Gcd, Combinations;
    forall c | 0 <= c < 3 && c != a && c != b ensures Walk(ts, t).index[c] == index[c] { IdleAxis(ts, t, c); }
  }

  lemma TwoCover(ts: TripleState, a: nat, b: nat)
    requires Ready(ts) && TwoMove(ts, a, b)
    ensures Covers(ts) <==> PairsCovered(|ts.lists[a]|, |ts.lists[b]|, ts.total)
  {
    var n, m := |ts.lists[a]|, |ts.lists[b]|;
    hide Gcd, Visit, Multiple, Combinations, PairAt, Walk, InLists;
    if Covers(ts) {
      forall x: nat, y: nat ensures PairComes(n, m, ts.total, x, y) {
        var index := ts.index[a := IndexAt(ts, a, x)][b := IndexAt(ts, b, y)];
        assert InLists(ts, index);
        var t: nat :| t < ts.total && Walk(ts, t).index == index;
        TwoAt(ts, t, a, b, x, y);
      }
    }
    if PairsCovered(n, m, ts.total) {
      forall index | InLists(ts, index) ensures ComesUp(ts, index) {
        var x := StrideReaches(n, ts.stride[a], ts.index[a], index[a]);
        var y := StrideReaches(m, ts.stride[b], ts.index[b], index[b]);
        assert PairComes(n, m, ts.total, x, y);
        var t: nat :| t < ts.total && PairAt(n, m, x, y, t);
        TwoAt(ts, t, a, b, x, y);
        TwoIndex(ts, t, a, b, index);
      }
    }
  }

  /** However long one draws: when two moving axes share a factor of 3 or more, the combination two turns ahead on the
      one that moves first never comes up, whether or not the third axis moves. */
  lemma TwoAheadNeverComes(ts: TripleState, a: nat, b: nat, t: nat)
    requires Ready(ts) && a < 3 && b < 3 && a != b && Ahead(ts.axis, a) <= Ahead(ts.axis, b) && Active(ts, a) && Active(ts, b)
    requires Gcd(|ts.lists[a]|, |ts.lists[b]|) >= 3
    ensures !(Walk(ts, t).index[a] == IndexAt(ts, a, 2) && Walk(ts, t).index[b] == IndexAt(ts, b, 0))
  {
    FairTurns(ts, t, a, b);
    hide Gcd, Visit, Multiple, Combinations;
    AxisIs(ts, t, a, 2);
    AxisIs(ts, t, b, 0);
    TooFar(|ts.lists[a]|, |ts.lists[b]|, Turns(ts, t, a), Turns(ts, t, b));
  }

  // ---------------------------------------------------------------- three moving axes

  ghost predicate AllMove(ts: TripleState)
    requires ts.Shaped()
  {
    forall a | 0 <= a < 3 :: Active(ts, a)
  }

  lemma ThreeAt(ts: TripleState, t: nat, a: nat, b: nat, c: nat, x: nat, y: nat, z: nat)
    requires Ready(ts) && AllMove(ts) && a == ts.axis && b == AxisAfter(a, 1) && c == AxisAfter(a, 2)
    requires Walk(ts, t).index[a] == IndexAt(ts, a, x) && Walk(ts, t).index[b] == IndexAt(ts, b, y) && Walk(ts, t).index[c] == IndexAt(ts, c, z)
    ensures TripleAt(|ts.lists[a]|, |ts.lists[b]|, |ts.lists[c]|, x, y, z, t)
  {
    ThreeTurns(ts, t, a, b, c);
    hide Gcd, Visit, Multiple, Combinations;
    AxisIs(ts, t, a, x);
    AxisIs(ts, t, b, y);
    AxisIs(ts, t, c, z);
  }

  lemma ThreeTotal(ts: TripleState, a: nat, b: nat, c: nat)
    requires ts.Shaped() && a == ts.axis && b == AxisAfter(a, 1) && c == AxisAfter(a, 2)
    ensures ts.total == Product(|ts.lists[a]|, |ts.lists[b]|, |ts.lists[c]|)
  {
    var x, y, z := |ts.lists[0]|, |ts.lists[1]|, |ts.lists[2]|;
    assert x * y * z == y * z * x == z * x * y;
  }

  lemma ThreeNever(ts: TripleState)
    requires Ready(ts) && AllMove(ts)
    ensures !Covers(ts)
  {
    var a, b, c := ts.axis, AxisAfter(ts.axis, 1), AxisAfter(ts.axis, 2);
    var n, m, l := |ts.lists[a]|, |ts.lists[b]|, |ts.lists[c]|;
    ThreeTotal(ts, a, b, c);
    assert Active(ts, a) && Active(ts, b) && Active(ts, c);
    TriplesNever(n, m, l);
    hide Gcd, Visit, Multiple, Combinations, TripleAt, Walk, InLists, Product;
    if Covers(ts) {
      forall x: nat, y: nat, z: nat ensures TripleComes(n, m, l, ts.total, x, y, z) {
        var index := ts.index[a := IndexAt(ts, a, x)][b := IndexAt(ts, b, y)][c := IndexAt(ts, c, z)];
        assert InLists(ts, index);
        var t: nat :| t < ts.total && Walk(ts, t).index == index;
        ThreeAt(ts, t, a, b, c, x, y, z);
      }
    }
  }

  // ---------------------------------------------------------------- the exact condition

  /** Main result: a triple set up by the search shows every combination before it counts as exhausted exactly when
      at most one axis moves, or two do of which the first has two entries or shares exactly the factor 2. */
  lemma CoversExactlyWhen(ts: TripleState)
    requires Ready(ts)
    ensures Covers(ts) <==> Coverable(ts)
  {
    hide Gcd, Combinations, Covers, Coverable;
    if AllMove(ts) {
      ThreeNever(ts);
      ThreeNotCoverable(ts);
    } else {
      var a, b := MovingPair(ts);
      if a == b { OneExact(ts, a); } else { TwoExact(ts, a, b); }
    }
  }

  lemma ThreeNotCoverable(ts: TripleState)
    requires Ready(ts) && AllMove(ts)
    ensures !Coverable(ts)
  {
    var a, b, c := ts.axis, AxisAfter(ts.axis, 1), AxisAfter(ts.axis, 2);
    hide Gcd, Combinations;
    assert Active(ts, a) && Active(ts, b) && Active(ts, c) && Ahead(ts.axis, a) < Ahead(ts.axis, b);
    assert !TwoMove(ts, a, b);
  }

  /** The two axes that move, the first first, or twice the one that may. */
  lemma MovingPair(ts: TripleState) returns (a: nat, b: nat)
    requires ts.Shaped() && !AllMove(ts)
    ensures a < 3 && b < 3 && if a == b then OnlyMoves(ts, a) else TwoMove(ts, a, b)
  {
    hide Combinations;
    var x, y, z := ts.axis, AxisAfter(ts.axis, 1), AxisAfter(ts.axis, 2);
    if !Active(ts, x) && !Active(ts, y) { return z, z; }
    if !Active(ts, x) && !Active(ts, z) { return y, y; }
    if !Active(ts, y) && !Active(ts, z) { return x, x; }
    if !Active(ts, x) { return y, z; }
    if !Active(ts, y) { return x, z; }
    return x, y;
  }

  lemma OneExact(ts: TripleState, a: nat)
    requires Ready(ts) && a < 3 && OnlyMoves(ts, a)
    ensures Covers(ts) && Coverable(ts)
  {
    hide Gcd, Combinations, ComesUp, InLists;
    forall index | InLists(ts, index) ensures ComesUp(ts, index) { OneAxisCovers(ts, a, index); }
  }

  lemma TwoExact(ts: TripleState, a: nat, b: nat)
    requires Ready(ts) && TwoMove(ts, a, b)
    ensures Covers(ts) <==> Coverable(ts)
  {
    TwoCover(ts, a, b);
    Singles(ts, a, b);
    PairsExactlyWhen(|ts.lists[a]|, |ts.lists[b]|);
    hide Gcd, Combinations, Covers, PairsCovered;
  }
}
