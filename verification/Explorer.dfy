/** Enumerating battle paths: the product of the per-turn choices, times the fake-attack vectors; and the two
    estimators that predict how many jobs that makes. */
module Explorer {
  import opened Bytes
  import opened ActionTypes
  import opened MixedRadix
  import opened FakeAttacks
  import opened TurnCompiler
  import CompileTurn

  datatype UiConfig = UiConfig(turns: seq<UiTurn>, fakeAttackBudget: i32, initialFrames: seq<InputFrame>)

  // ---------------------------------------------------------------- the odometer

  ghost predicate ZerosUpTo(d: seq<nat>, i: nat) {
    i <= |d| && forall j | 0 <= j < i :: d[j] == 0
  }

  lemma SuccessorUnfold(sizes: seq<nat>, d: seq<nat>, i: nat)
    requires |d| == |sizes| && i < |d|
    ensures Successor(sizes[i..], d[i..]) ==
            if d[i] + 1 < sizes[i] then [d[i] + 1] + d[i + 1..] else [0] + Successor(sizes[i + 1..], d[i + 1..])
  {
    assert d[i..][1..] == d[i + 1..] && sizes[i..][1..] == sizes[i + 1..];
  }

  class Odometer {
    const sizes: seq<nat>
    var idx: seq<nat>

    constructor (sizes: seq<nat>)
      ensures this.sizes == sizes && |idx| == |sizes| && forall i | 0 <= i < |idx| :: idx[i] == 0
    {
      this.sizes := sizes;
      idx := seq(|sizes|, i => 0);
    }

    /** Advances to the next tuple; false when the carry runs off the end. */
    method Bump() returns (more: bool)
      requires InRange(sizes, idx)
      modifies this
      ensures idx == Successor(sizes, old(idx)) && more == !Last(sizes, old(idx))
    {
      ghost var d := idx;
      hide Successor;
      assert d[0..] == d && sizes[0..] == sizes;
      for i := 0 to |sizes|
        invariant |idx| == |sizes| && ZerosUpTo(idx, i) && idx[i..] == d[i..]
        invariant Successor(sizes, d) == idx[..i] + Successor(sizes[i..], d[i..])
        invariant forall j | 0 <= j < i :: d[j] + 1 >= sizes[j]
      {
        SuccessorUnfold(sizes, d, i);
        assert idx[i] == idx[i..][0] == d[i];
        assert d[i + 1..] == d[i..][1..] == idx[i..][1..] == idx[i + 1..];
        idx := idx[i := idx[i] + 1];
        if idx[i] < sizes[i] {
          assert idx == idx[..i] + ([d[i] + 1] + d[i + 1..]);
          return true;
        }
        idx := idx[i := 0];
        assert idx[..i + 1] == idx[..i] + [0];
      }
      assert idx == idx[..|sizes|] + Successor(sizes[|sizes|..], d[|sizes|..]);
      return false;
    }
  }

  // ---------------------------------------------------------------- the product of the turns

  function Sizes(choices: seq<seq<TurnPlanSpec>>): (s: seq<nat>)
    ensures |s| == |choices|
  {
    seq(|choices|, t requires 0 <= t < |choices| => |choices[t]|)
  }

  /** The path that takes choice d[t] in turn t, without fake attacks. */
  function BasePath(choices: seq<seq<TurnPlanSpec>>, d: seq<nat>): (p: BattlePath)
    requires InRange(Sizes(choices), d)
    ensures |p| == |choices|
  {
    seq(|choices|, t requires 0 <= t < |choices| => TurnPlan(0, choices[t][d[t]]))
  }

  /** The base paths: the k-th takes the digits of k. */
  ghost predicate IsProduct(choices: seq<seq<TurnPlanSpec>>, paths: seq<BattlePath>, count: nat) {
    && Positive(Sizes(choices)) && count <= Product(Sizes(choices))
    && |paths| == count
    && forall k | 0 <= k < count :: HasDigits(choices, paths[k], k)
  }

  ghost predicate HasDigits(choices: seq<seq<TurnPlanSpec>>, p: BattlePath, k: nat)
    requires Positive(Sizes(choices)) && k < Product(Sizes(choices))
  {
    var d := Digits(Sizes(choices), k);
    InRange(Sizes(choices), d) && p == BasePath(choices, d)
  }

  method PathOf(choices: seq<seq<TurnPlanSpec>>, idx: seq<nat>) returns (p: BattlePath)
    requires InRange(Sizes(choices), idx)
    ensures p == BasePath(choices, idx)
  {
    p := [];
    for t := 0 to |choices|
      invariant p == BasePath(choices, idx)[..t]
    {
      p := p + [TurnPlan(0, choices[t][idx[t]])];
    }
  }

  lemma PathDigits(choices: seq<seq<TurnPlanSpec>>, d: seq<nat>)
    requires InRange(Sizes(choices), d)
    ensures Positive(Sizes(choices)) && Value(Sizes(choices), d) < Product(Sizes(choices))
    ensures HasDigits(choices, BasePath(choices, d), Value(Sizes(choices), d))
  {
    DigitsOfValue(Sizes(choices), d);
  }

  method ProductTurnsToBasePaths(choices: seq<seq<TurnPlanSpec>>) returns (paths: seq<BattlePath>)
    requires Positive(Sizes(choices))
    ensures IsProduct(choices, paths, Product(Sizes(choices)))
  {
    var n := |choices|;
    var sizes := Sizes(choices);
    if n == 0 {
      paths := [[]];
      assert HasDigits(choices, [], 0);
      return;
    }
    var odometer := new Odometer(sizes);
    ValueOfZeros(sizes, odometer.idx);
    PathDigits(choices, odometer.idx);
    var p := PathOf(choices, odometer.idx);
    paths := [p];
    hide Value, Product, Digits, Successor, InRange, Last, HasDigits, Sizes;
    SuccessorCounts(sizes, odometer.idx);
    var more := odometer.Bump();
    while more
      invariant odometer.sizes == sizes && fresh(odometer) && sizes == Sizes(choices)
      invariant |odometer.idx| == |sizes| && InRange(sizes, odometer.idx)
      invariant if more then IsProduct(choices, paths, Value(sizes, odometer.idx))
                else IsProduct(choices, paths, Product(sizes))
      decreases Product(sizes) - |paths|, more
    {
      PathDigits(choices, odometer.idx);
      p := PathOf(choices, odometer.idx);
      paths := paths + [p];
      SuccessorCounts(sizes, odometer.idx);
      more := odometer.Bump();
    }
  }

  // ---------------------------------------------------------------- fake attacks on top

  /** Every vector has n entries that fit the count field. */
  ghost predicate Usable(n: nat, fvs: seq<seq<nat>>) {
    forall j | 0 <= j < |fvs| :: |fvs[j]| == n && forall i | 0 <= i < n :: fvs[j][i] < 0x8000_0000
  }

  function WithFakes(base: BattlePath, fv: seq<nat>): (p: BattlePath)
    requires |fv| == |base| && forall i | 0 <= i < |fv| :: fv[i] < 0x8000_0000
    ensures |p| == |base|
  {
    seq(|base|, i requires 0 <= i < |base| => base[i].(fakeAttackCount := fv[i]))
  }

  function Expand(base: BattlePath, fvs: seq<seq<nat>>): (r: seq<BattlePath>)
    requires Usable(|base|, fvs)
    ensures |r| == |fvs|
  {
    seq(|fvs|, j requires 0 <= j < |fvs| => WithFakes(base, fvs[j]))
  }

  function ExpandAll(n: nat, bases: seq<BattlePath>, fvs: seq<seq<nat>>): seq<BattlePath>
    requires Usable(n, fvs) && forall k | 0 <= k < |bases| :: |bases[k]| == n
  {
    if bases == [] then [] else ExpandAll(n, bases[..|bases| - 1], fvs) + Expand(bases[|bases| - 1], fvs)
  }

  lemma {:induction false} TermBelowSum(v: seq<nat>, i: nat)
    requires i < |v|
    ensures v[i] <= Sum(v)
  {
    if i > 0 { TermBelowSum(v[1..], i - 1); }
  }

  lemma VectorsUsable(n: nat, budget: nat)
    requires budget < 0x8000_0000
    ensures Usable(n, Vectors(n, budget))
  {
    VectorsExact(n, budget);
    forall j, i | 0 <= j < |Vectors(n, budget)| && 0 <= i < |Vectors(n, budget)[j]|
      ensures Vectors(n, budget)[j][i] < 0x8000_0000
    {
      assert Vectors(n, budget)[j] in Vectors(n, budget);
      TermBelowSum(Vectors(n, budget)[j], i);
    }
  }

  /** One base path: overwrite every turn's count, vector by vector. */
  method ExpandOne(base: BattlePath, fvs: seq<seq<nat>>) returns (out: seq<BattlePath>)
    requires Usable(|base|, fvs)
    ensures out == Expand(base, fvs)
  {
    out := [];
    for j := 0 to |fvs|
      invariant out == Expand(base, fvs)[..j]
    {
      var p := base;
      for i := 0 to |base|
        invariant |p| == |base|
        invariant forall t | 0 <= t < |base| :: p[t] == if t < i then base[t].(fakeAttackCount := fvs[j][t]) else base[t]
      {
        p := p[i := p[i].(fakeAttackCount := fvs[j][i])];
      }
      assert p == WithFakes(base, fvs[j]);
      out := out + [p];
    }
  }

  function Budget(ui: UiConfig): nat {
    if ui.fakeAttackBudget > 0 then ui.fakeAttackBudget else 0
  }

  ghost function Choices(bc: BattleContext, turns: seq<UiTurn>): (c: seq<seq<TurnPlanSpec>>)
    requires bc.Valid()
    ensures |c| == |turns|
  {
    seq(|turns|, t requires 0 <= t < |turns| => Compile(turns[t], bc))
  }

  /** Compiles turn after turn; stops at the first turn without a choice. */
  method CompileTurns(bc: BattleContext, turns: seq<UiTurn>) returns (choices: seq<seq<TurnPlanSpec>>, ok: bool)
    requires bc.Valid()
    ensures ok == Positive(Sizes(Choices(bc, turns)))
    ensures ok ==> choices == Choices(bc, turns)
  {
    hide Compile;
    choices, ok := [], true;
    for t := 0 to |turns|
      invariant choices == Choices(bc, turns)[..t]
      invariant forall i | 0 <= i < t :: Choices(bc, turns)[i] != []
    {
      var c := CompileTurn.CompileTurnSpecs(bc, turns[t]);
      assert c == Choices(bc, turns)[t];
      if c == [] {
        assert Sizes(Choices(bc, turns))[t] == 0;
        ok := false;
        return;
      }
      choices := choices + [c];
    }
  }

  /** What the enumeration returns: every base path with every fake-attack vector; without turns, one empty path. */
  ghost predicate Enumerated(bc: BattleContext, ui: UiConfig, out: seq<BattlePath>)
    requires bc.Valid()
  {
    var n, choices, fvs := |ui.turns|, Choices(bc, ui.turns), Vectors(|ui.turns|, Budget(ui));
    if !Positive(Sizes(choices)) then out == []
    else if n == 0 then out == [[]]
    else exists bases ::
      && IsProduct(choices, bases, Product(Sizes(choices))) && Usable(n, fvs)
      && (forall k | 0 <= k < |bases| :: |bases[k]| == n)
      && out == ExpandAll(n, bases, fvs)
  }

  method EnumeratePaths(bc: BattleContext, ui: UiConfig) returns (out: seq<BattlePath>)
    requires bc.Valid()
    ensures Enumerated(bc, ui, out)
  {
    var n := |ui.turns|;
    var choices, ok := CompileTurns(bc, ui.turns);
    if !ok { return []; }
    var bases := ProductTurnsToBasePaths(choices);
    var b := if ui.fakeAttackBudget > 0 then ui.fakeAttackBudget else 0;
    var fvs := EnumerateFakeAttackVectors(n, b);
    out := [];
    if n == 0 { return [[]]; }
    VectorsUsable(n, b);
    hide Choices, Vectors, Product, Positive, Usable;
    forall k | 0 <= k < |bases| ensures |bases[k]| == n {
      assert HasDigits(choices, bases[k], k);
    }
    for k := 0 to |bases|
      invariant out == ExpandAll(n, bases[..k], fvs)
    {
      assert bases[..k + 1][..k] == bases[..k];
      var more := ExpandOne(bases[k], fvs);
      out := out + more;
    }
    assert bases[..|bases|] == bases;
  }
}
