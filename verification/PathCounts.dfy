/** What the enumeration yields: exactly the paths within the constraints, each once, and as many as estimated. */
module PathCounts {
  import opened Bytes
  import opened Sequences
  import opened ActionTypes
  import opened MixedRadix
  import opened FakeAttacks
  import opened TurnCompiler
  import opened Explorer
  import TurnSolutions
  import TurnMeaning
  import CompileTurn

  function FakeCounts(p: BattlePath): (f: seq<nat>)
    ensures |f| == |p|
  {
    seq(|p|, i requires 0 <= i < |p| => p[i].fakeAttackCount)
  }

  /** A path of the right length that takes a compiled specification in every turn and stays within the budget. */
  ghost predicate IsPath(bc: BattleContext, ui: UiConfig, p: BattlePath)
    requires bc.Valid()
  {
    && |p| == |ui.turns|
    && (forall t | 0 <= t < |p| :: p[t].spec in Compile(ui.turns[t], bc))
    && (if ui.fakeAttackBudget <= 0 then Sum(FakeCounts(p)) == 0 else Sum(FakeCounts(p)) <= ui.fakeAttackBudget)
  }

  ghost predicate TakesChoices(choices: seq<seq<TurnPlanSpec>>, p: BattlePath) {
    |p| == |choices| && forall t | 0 <= t < |p| :: p[t].spec in choices[t]
  }

  /** The path without its fake attacks. */
  function Plain(p: BattlePath): (b: BattlePath)
    ensures |b| == |p|
  {
    seq(|p|, i requires 0 <= i < |p| => p[i].(fakeAttackCount := 0))
  }

  ghost predicate IsPlain(p: BattlePath) {
    forall i | 0 <= i < |p| :: p[i].fakeAttackCount == 0
  }

  // ---------------------------------------------------------------- base paths

  lemma ChoiceOf(choices: seq<seq<TurnPlanSpec>>, p: BattlePath) returns (d: seq<nat>)
    requires TakesChoices(choices, p) && IsPlain(p)
    ensures InRange(Sizes(choices), d) && p == BasePath(choices, d)
  {
    d := seq(|p|, t requires 0 <= t < |p| => IndexIn(choices[t], p[t].spec));
    forall t | 0 <= t < |p| ensures p[t] == BasePath(choices, d)[t] {
      assert p[t] == TurnPlan(0, p[t].spec);
    }
  }

  function IndexIn(xs: seq<TurnPlanSpec>, x: TurnPlanSpec): (i: nat)
    requires x in xs
    ensures i < |xs| && xs[i] == x
  {
    if xs[0] == x then 0 else 1 + IndexIn(xs[1..], x)
  }

  lemma BasePathTakes(choices: seq<seq<TurnPlanSpec>>, d: seq<nat>)
    requires InRange(Sizes(choices), d)
    ensures TakesChoices(choices, BasePath(choices, d)) && IsPlain(BasePath(choices, d))
  {
  }

  lemma BasePathInjective(choices: seq<seq<TurnPlanSpec>>, d: seq<nat>, e: seq<nat>)
    requires InRange(Sizes(choices), d) && InRange(Sizes(choices), e)
    requires forall t | 0 <= t < |choices| :: Distinct(choices[t])
    requires BasePath(choices, d) == BasePath(choices, e)
    ensures d == e
  {
    forall t | 0 <= t < |d| ensures d[t] == e[t] {
      assert BasePath(choices, d)[t] == BasePath(choices, e)[t];
    }
  }

  /** Main result on the product: the base paths are exactly the ways to take one choice per turn, each once. */
  lemma ProductExact(choices: seq<seq<TurnPlanSpec>>, paths: seq<BattlePath>)
    requires IsProduct(choices, paths, Product(Sizes(choices)))
    ensures forall p :: p in paths <==> TakesChoices(choices, p) && IsPlain(p)
    ensures (forall t | 0 <= t < |choices| :: Distinct(choices[t])) ==> Distinct(paths)
  {
    hide BasePath, Sizes, Product, Digits, Value, TakesChoices, IsPlain, InRange;
    var sizes := Sizes(choices);
    DigitsBijective(sizes);
    forall p ensures p in paths <==> TakesChoices(choices, p) && IsPlain(p) {
      if p in paths {
        var k :| 0 <= k < |paths| && paths[k] == p;
        assert HasDigits(choices, p, k);
        BasePathTakes(choices, Digits(sizes, k));
      }
      if TakesChoices(choices, p) && IsPlain(p) {
        var d := ChoiceOf(choices, p);
        assert HasDigits(choices, paths[Value(sizes, d)], Value(sizes, d));
      }
    }
    if forall t | 0 <= t < |choices| :: Distinct(choices[t]) {
      forall j, k | 0 <= j < k < |paths| ensures paths[j] != paths[k] {
        assert HasDigits(choices, paths[j], j) && HasDigits(choices, paths[k], k);
        if paths[j] == paths[k] { BasePathInjective(choices, Digits(sizes, j), Digits(sizes, k)); }
      }
    }
  }

  // ---------------------------------------------------------------- with fake attacks

  lemma FakesBack(base: BattlePath, fv: seq<nat>)
    requires |fv| == |base| && forall i | 0 <= i < |fv| :: fv[i] < 0x8000_0000
    ensures FakeCounts(WithFakes(base, fv)) == fv && (IsPlain(base) ==> Plain(WithFakes(base, fv)) == base)
    ensures forall i | 0 <= i < |base| :: WithFakes(base, fv)[i].spec == base[i].spec
  {
    if IsPlain(base) {
      forall i | 0 <= i < |base| ensures Plain(WithFakes(base, fv))[i] == base[i] {
        assert base[i].(fakeAttackCount := fv[i]).(fakeAttackCount := 0) == base[i];
      }
    }
  }

  lemma PlainBack(p: BattlePath)
    requires forall i | 0 <= i < |p| :: FakeCounts(p)[i] < 0x8000_0000
    ensures WithFakes(Plain(p), FakeCounts(p)) == p && IsPlain(Plain(p))
    ensures forall i | 0 <= i < |p| :: Plain(p)[i].spec == p[i].spec
  {
    forall i | 0 <= i < |p| ensures WithFakes(Plain(p), FakeCounts(p))[i] == p[i] {
      assert p[i].(fakeAttackCount := 0).(fakeAttackCount := p[i].fakeAttackCount) == p[i];
    }
  }

  ghost predicate Bases(n: nat, bases: seq<BattlePath>) {
    forall k | 0 <= k < |bases| :: |bases[k]| == n && IsPlain(bases[k])
  }

  lemma ExpandMember(base: BattlePath, fvs: seq<seq<nat>>, p: BattlePath)
    requires Usable(|base|, fvs) && IsPlain(base)
    ensures p in Expand(base, fvs) <==> Plain(p) == base && FakeCounts(p) in fvs
  {
    hide IsPlain, WithFakes, Plain, FakeCounts;
    if p in Expand(base, fvs) {
      var j :| 0 <= j < |fvs| && Expand(base, fvs)[j] == p;
      FakesBack(base, fvs[j]);
    }
    if Plain(p) == base && FakeCounts(p) in fvs {
      var j :| 0 <= j < |fvs| && fvs[j] == FakeCounts(p);
      PlainBack(p);
      assert Expand(base, fvs)[j] == p;
    }
  }

  lemma ExpandDistinct(base: BattlePath, fvs: seq<seq<nat>>)
    requires Usable(|base|, fvs) && Distinct(fvs)
    ensures Distinct(Expand(base, fvs))
  {
    forall j, k | 0 <= j < k < |fvs| ensures Expand(base, fvs)[j] != Expand(base, fvs)[k] {
      FakesBack(base, fvs[j]);
      FakesBack(base, fvs[k]);
    }
  }

  lemma {:induction false} ExpandAllExact(n: nat, bases: seq<BattlePath>, fvs: seq<seq<nat>>)
    requires Usable(n, fvs) && Bases(n, bases)
    ensures forall p :: p in ExpandAll(n, bases, fvs) <==> Plain(p) in bases && FakeCounts(p) in fvs
    ensures Distinct(bases) && Distinct(fvs) ==> Distinct(ExpandAll(n, bases, fvs))
    ensures |ExpandAll(n, bases, fvs)| == |bases| * |fvs|
  {
    if bases != [] {
      hide IsPlain, Plain, FakeCounts, Expand, Usable;
      var early, base := bases[..|bases| - 1], bases[|bases| - 1];
      assert bases == early + [base];
      ExpandAllExact(n, early, fvs);
      forall p ensures p in Expand(base, fvs) <==> Plain(p) == base && FakeCounts(p) in fvs {
        ExpandMember(base, fvs, p);
      }
      if Distinct(bases) && Distinct(fvs) {
        ExpandDistinct(base, fvs);
        forall p | p in ExpandAll(n, early, fvs) ensures p !in Expand(base, fvs) {}
        DistinctAppend(ExpandAll(n, early, fvs), Expand(base, fvs));
      }
      MulStrict(|fvs|, |early|, |bases|);
    }
  }

  // ---------------------------------------------------------------- main results

  lemma EnumeratedBases(bc: BattleContext, ui: UiConfig, bases: seq<BattlePath>)
    requires bc.Valid()
    requires IsProduct(Choices(bc, ui.turns), bases, Product(Sizes(Choices(bc, ui.turns))))
    ensures Bases(|ui.turns|, bases) && Distinct(bases)
    ensures forall b :: b in bases <==> TakesChoices(Choices(bc, ui.turns), b) && IsPlain(b)
  {
    hide Compile, Product;
    var choices := Choices(bc, ui.turns);
    ProductExact(choices, bases);
    forall t | 0 <= t < |choices| ensures Distinct(choices[t]) {
      TurnMeaning.CompileDistinct(ui.turns[t], bc);
    }
    forall k | 0 <= k < |bases| ensures |bases[k]| == |ui.turns| && IsPlain(bases[k]) {
      assert bases[k] in bases;
    }
  }

  lemma PlainIsPath(bc: BattleContext, ui: UiConfig, p: BattlePath)
    requires bc.Valid() && ui.turns != []
    ensures IsPath(bc, ui, p) <==>
            TakesChoices(Choices(bc, ui.turns), Plain(p)) && IsPlain(Plain(p)) && FakeCounts(p) in Vectors(|ui.turns|, Budget(ui))
  {
    hide Compile;
    VectorsExact(|ui.turns|, Budget(ui));
    hide Vectors;
    if |p| == |ui.turns| {
      forall t | 0 <= t < |p| ensures Plain(p)[t].spec == p[t].spec && Choices(bc, ui.turns)[t] == Compile(ui.turns[t], bc) {}
    }
  }

  lemma NoChoiceNoPath(bc: BattleContext, ui: UiConfig, p: BattlePath)
    requires bc.Valid() && !Positive(Sizes(Choices(bc, ui.turns)))
    ensures !IsPath(bc, ui, p)
  {
    hide Compile;
    var t :| 0 <= t < |ui.turns| && Sizes(Choices(bc, ui.turns))[t] == 0;
    assert Compile(ui.turns[t], bc) == [];
  }

  lemma {:induction false} ZeroProduct(sizes: seq<nat>)
    requires !Positive(sizes)
    ensures Product(sizes) == 0
  {
    if sizes[0] != 0 { ZeroProduct(sizes[1..]); }
  }

  /** Main result, for every configuration: the enumeration lists exactly the paths, each once. */
  lemma PathsExact(bc: BattleContext, ui: UiConfig, out: seq<BattlePath>)
    requires bc.Valid() && Enumerated(bc, ui, out)
    ensures forall p :: p in out <==> IsPath(bc, ui, p)
    ensures Distinct(out)
  {
    hide Choices, Vectors, IsPath, Product;
    if !Positive(Sizes(Choices(bc, ui.turns))) {
      forall p ensures !IsPath(bc, ui, p) { NoChoiceNoPath(bc, ui, p); }
    } else if ui.turns == [] {
      forall p: BattlePath ensures p == [] <==> IsPath(bc, ui, p) { EmptyPath(bc, ui, p); }
    } else {
      var n, fvs := |ui.turns|, Vectors(|ui.turns|, Budget(ui));
      var bases :| IsProduct(Choices(bc, ui.turns), bases, Product(Sizes(Choices(bc, ui.turns)))) && Usable(n, fvs)
        && (forall k | 0 <= k < |bases| :: |bases[k]| == n) && out == ExpandAll(n, bases, fvs);
      EnumeratedBases(bc, ui, bases);
      VectorsExact(n, Budget(ui));
      hide Usable, IsProduct, Sizes, TakesChoices, IsPlain;
      ExpandAllExact(n, bases, fvs);
      forall p ensures p in out <==> IsPath(bc, ui, p) { PlainIsPath(bc, ui, p); }
    }
  }

  lemma EmptyPath(bc: BattleContext, ui: UiConfig, p: BattlePath)
    requires bc.Valid() && ui.turns == []
    ensures p == [] <==> IsPath(bc, ui, p)
  {
  }

  /** The number of paths: choices per turn multiplied, times C(budget + turns, turns). */
  ghost function PathCount(bc: BattleContext, ui: UiConfig): nat
    requires bc.Valid()
  {
    Times(Product(Sizes(Choices(bc, ui.turns))), Choose(Budget(ui) + |ui.turns|, |ui.turns|))
  }

  /** The product, out of the solver's sight. */
  function Times(a: nat, b: nat): nat { a * b }

  lemma ExpandedCount(bc: BattleContext, ui: UiConfig, bases: seq<BattlePath>)
    requires bc.Valid() && ui.turns != [] && Usable(|ui.turns|, Vectors(|ui.turns|, Budget(ui))) && Bases(|ui.turns|, bases)
    ensures |ExpandAll(|ui.turns|, bases, Vectors(|ui.turns|, Budget(ui)))| == Times(|bases|, Choose(Budget(ui) + |ui.turns|, |ui.turns|))
  {
    hide Vectors, Usable, Bases, Choose, ExpandAll;
    ExpandAllExact(|ui.turns|, bases, Vectors(|ui.turns|, Budget(ui)));
    VectorsCount(|ui.turns|, Budget(ui));
  }

  lemma PathsCounted(bc: BattleContext, ui: UiConfig, out: seq<BattlePath>)
    requires bc.Valid() && Enumerated(bc, ui, out)
    ensures |out| == PathCount(bc, ui)
  {
    hide Choices, Vectors, Choose, Product, Times;
    var sizes := Sizes(Choices(bc, ui.turns));
    if !Positive(sizes) {
      ZeroProduct(sizes);
      NoTimes(Choose(Budget(ui) + |ui.turns|, |ui.turns|));
    } else if ui.turns == [] {
      NoTurns(Budget(ui));
      EmptyConfig(bc, ui);
    } else {
      var n, fvs := |ui.turns|, Vectors(|ui.turns|, Budget(ui));
      var bases :| IsProduct(Choices(bc, ui.turns), bases, Product(sizes)) && Usable(n, fvs)
        && (forall k | 0 <= k < |bases| :: |bases[k]| == n) && out == ExpandAll(n, bases, fvs);
      EnumeratedBases(bc, ui, bases);
      ExpandedCount(bc, ui, bases);
    }
  }

  lemma NoTimes(b: nat)
    ensures Times(0, b) == 0 && Times(1, 1) == 1
  {
  }

  lemma NoTurns(budget: nat)
    ensures Choose(budget, 0) == 1 && Product([]) == 1 && Times(1, 1) == 1
  {
  }

  /** Every enumerated path carries targets that meet the user's constraints, turn by turn. */
  lemma PathsSatisfy(bc: BattleContext, ui: UiConfig, out: seq<BattlePath>, p: BattlePath, t: nat)
    requires bc.Valid() && Enumerated(bc, ui, out) && p in out && t < |ui.turns|
    requires TurnSolutions.DistinctSlots(ui.turns[t])
    ensures |p| == |ui.turns| && TurnMeaning.Solution(ui.turns[t], bc, p[t].spec)
  {
    hide Enumerated, Compile;
    PathsExact(bc, ui, out);
    TurnMeaning.CompileSound(ui.turns[t], bc, p[t].spec);
  }

  // ---------------------------------------------------------------- the estimators

  /** Multiplication of 64-bit words. */
  function Mul64(x: nat, y: nat): u64 { Wrap64(x * y) }

  /** Modulo 2^64, multiplying a wrapped product is wrapping the triple product. */
  lemma MulWrapped(x: nat, y: nat, z: nat)
    ensures Mul64(Mul64(x, y), z) == Mul64(Times(x, z), y) == Mul64(Times(x, y), z)
    ensures Mul64(Wrap64(x), z) == Mul64(x, z)
  {
    WrapFactor(x * y, z);
    WrapFactor(x, z);
    assert (x * y) * z == (x * z) * y;
  }

  lemma WrapFactor(x: nat, y: nat)
    ensures Wrap64(Wrap64(x) * y) == Wrap64(x * y)
  {
    var m := 0x1_0000_0000_0000_0000;
    var q, r := x / m, x % m;
    DivMod(x, m);
    assert x * y == m * (q * y) + r * y;
    WrapShift(q * y, r * y);
  }

  lemma WrapShift(q: nat, r: nat)
    ensures Wrap64(0x1_0000_0000_0000_0000 * q + r) == Wrap64(r)
  {
  }

  lemma SmallMul(x: nat)
    ensures Mul64(0, x) == 0 && Mul64(1, x) == Mul64(x, 1) == Wrap64(x) && (x < 0x1_0000_0000_0000_0000 ==> Wrap64(x) == x)
  {
  }

  lemma {:induction false} ProductSnoc(sizes: seq<nat>, n: nat)
    ensures Product(sizes + [n]) == Times(Product(sizes), n)
  {
    if sizes == [] {
      assert [] + [n] == [n] && [n][1..] == [];
    } else {
      ProductSnoc(sizes[1..], n);
      assert (sizes + [n])[1..] == sizes[1..] + [n];
      assert sizes[0] * (Product(sizes[1..]) * n) == (sizes[0] * Product(sizes[1..])) * n;
    }
  }

  /** The first estimator: paths without fake attacks, times the initial frames, modulo 2^64. */
  method EstimatePathsNoFake(ui: UiConfig, bc: BattleContext) returns (r: u64)
    requires bc.Valid()
    ensures r == if ui.turns == [] then 0 else Mul64(Product(Sizes(Choices(bc, ui.turns))), |ui.initialFrames|)
  {
    hide Product, Compile, Wrap64, Mul64, Times;
    if |ui.turns| == 0 { return 0; }
    var total: u64 := 1;
    ghost var sizes := Sizes(Choices(bc, ui.turns));
    ProductOfNone();
    for t := 0 to |ui.turns|
      invariant total == Wrap64(Product(sizes[..t]))
    {
      var choices := CompileTurn.CompileTurnSpecs(bc, ui.turns[t]);
      assert sizes[t] == |choices|;
      if |choices| == 0 {
        ZeroProduct(sizes);
        SmallMul(|ui.initialFrames|);
        return 0;
      }
      MulWrapped(Product(sizes[..t]), 0, |choices|);
      MulIsWrapped(Product(sizes[..t]), |choices|);
      ProductSnoc(sizes[..t], |choices|);
      assert sizes[..t + 1] == sizes[..t] + [|choices|];
      total := Mul64(total, |choices|);
    }
    assert sizes[..|sizes|] == sizes;
    MulWrapped(Product(sizes), 0, |ui.initialFrames|);
    return Mul64(total, |ui.initialFrames|);
  }

  lemma ProductOfNone()
    ensures Product([]) == 1 && Wrap64(1) == 1
  {
  }

  lemma MulIsWrapped(x: nat, n: nat)
    ensures Mul64(x, n) == Wrap64(Times(x, n))
  {
  }

  /** The second estimator: times the number of fake-attack vectors, modulo 2^64. */
  method EstimatePathsWithFake(ui: UiConfig, pathsWithoutFake: u64) returns (r: u64)
    requires |ui.turns| < 0x8000_0000
    ensures NoOverflow(Budget(ui) + |ui.turns|, |ui.turns|) ==>
              r == Mul64(pathsWithoutFake, Choose(Budget(ui) + |ui.turns|, |ui.turns|))
    ensures !NoOverflow(Budget(ui) + |ui.turns|, |ui.turns|) ==>
              TooFew(r, pathsWithoutFake, Choose(Budget(ui) + |ui.turns|, |ui.turns|))
  {
    hide Choose, NoOverflow, Mul64;
    if pathsWithoutFake == 0 {
      SmallMul(Choose(Budget(ui) + |ui.turns|, |ui.turns|));
      SmallMul(0);
      if !NoOverflow(Budget(ui) + |ui.turns|, |ui.turns|) {
        ManyVectors(Budget(ui) + |ui.turns|, |ui.turns|);
        assert TooFew(0, 0, Choose(Budget(ui) + |ui.turns|, |ui.turns|));
      }
      return 0;
    }
    var c := Binom(Budget(ui) + |ui.turns|, |ui.turns|);
    return Mul64(pathsWithoutFake, c);
  }

  /** The estimate of a vector count that is too small. */
  ghost predicate TooFew(r: u64, without: u64, vectors: nat) {
    exists c: nat :: c < vectors && r == Mul64(without, c)
  }

  lemma ManyVectors(n: nat, k: nat)
    requires !NoOverflow(n, k)
    ensures Choose(n, k) > 0
  {
    ChooseSymmetric(n, k);
    hide Choose;
  }

  /** Main result: with one or more turns the two estimators together give the number of jobs; without turns
      they give zero although one (empty) path is enumerated. Modulo 2^64 throughout. */
  lemma EstimateExactlyWhen(bc: BattleContext, ui: UiConfig, out: seq<BattlePath>, without: u64, jobs: u64)
    requires bc.Valid() && Enumerated(bc, ui, out)
    requires without == if ui.turns == [] then 0 else Mul64(Product(Sizes(Choices(bc, ui.turns))), |ui.initialFrames|)
    requires jobs == Mul64(without, Choose(Budget(ui) + |ui.turns|, |ui.turns|))
    ensures jobs == Mul64(|out|, |ui.initialFrames|) <==> ui.turns != [] || Wrap64(|ui.initialFrames|) == 0
  {
    hide *;
    PathsCounted(bc, ui, out);
    var product, choose := Product(Sizes(Choices(bc, ui.turns))), Choose(Budget(ui) + |ui.turns|, |ui.turns|);
    CountUnfold(bc, ui);
    if ui.turns == [] {
      NoTurns(Budget(ui));
      EmptyConfig(bc, ui);
      SmallMul(|ui.initialFrames|);
      SmallMul(choose);
    } else {
      MulWrapped(product, |ui.initialFrames|, choose);
    }
  }

  lemma CountUnfold(bc: BattleContext, ui: UiConfig)
    requires bc.Valid()
    ensures PathCount(bc, ui) == Times(Product(Sizes(Choices(bc, ui.turns))), Choose(Budget(ui) + |ui.turns|, |ui.turns|))
    ensures Times(1, 1) == 1
  {
  }

  lemma EmptyConfig(bc: BattleContext, ui: UiConfig)
    requires bc.Valid() && ui.turns == []
    ensures Product(Sizes(Choices(bc, ui.turns))) == 1
  {
  }
}
