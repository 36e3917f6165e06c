/** The branch explorer: a lazy walk over all combinations of options at the decision frames. */
module Branching {
  import opened Bytes
  import opened ActionTypes
  import opened MixedRadix

  datatype DecisionPoint = DecisionPoint(frameIndex: u32, options: seq<InputFrame>)

  datatype BranchSpec = BranchSpec(totalFrames: u32, defaultFrame: InputFrame, decisions: seq<DecisionPoint>)

  /** The materialized plan, and which option was chosen at which frame. */
  datatype BranchInstance = BranchInstance(plan: seq<InputFrame>, chosen: seq<(u32, nat)>)

  datatype SpecError = NoError | NotIncreasing | NoOptions | TooFewFrames

  ghost predicate Increasing(d: seq<DecisionPoint>) {
    forall i, j | 0 <= i < j < |d| :: d[i].frameIndex < d[j].frameIndex
  }

  ghost predicate WellFormed(s: BranchSpec) {
    && Increasing(s.decisions)
    && (forall i | 0 <= i < |s.decisions| :: s.decisions[i].options != [])
    && (forall i | 0 <= i < |s.decisions| :: s.decisions[i].frameIndex < s.totalFrames)
  }

  function Sizes(s: BranchSpec): (r: seq<nat>)
    ensures |r| == |s.decisions| && forall i | 0 <= i < |r| :: r[i] == |s.decisions[i].options|
  {
    seq(|s.decisions|, i requires 0 <= i < |s.decisions| => |s.decisions[i].options|)
  }

  // ---------------------------------------------------------------- validation

  method IsSortedUnique(d: seq<DecisionPoint>) returns (ok: bool)
    ensures ok == Increasing(d)
  {
    var i := 1;
    while i < |d|
      invariant 1 <= i && (d != [] ==> i <= |d|)
      invariant forall j, k | 0 <= j < k < |d| && k < i :: d[j].frameIndex < d[k].frameIndex
    {
      if d[i - 1].frameIndex >= d[i].frameIndex { return false; }
      i := i + 1;
    }
    return true;
  }

  method MaxDecisionFrame(d: seq<DecisionPoint>) returns (m: u32)
    ensures forall i | 0 <= i < |d| :: d[i].frameIndex <= m
    ensures d != [] ==> exists i :: 0 <= i < |d| && d[i].frameIndex == m
  {
    m := 0;
    for i := 0 to |d|
      invariant forall j | 0 <= j < i :: d[j].frameIndex <= m
      invariant if i == 0 then m == 0 else exists j :: 0 <= j < i && d[j].frameIndex == m
    {
      if d[i].frameIndex >= m { m := d[i].frameIndex; }
    }
  }

  /** Accepts exactly the well-formed specifications, and names the first rule broken otherwise. */
  method ValidateSpec(s: BranchSpec) returns (err: SpecError)
    ensures err == NoError <==> WellFormed(s)
    ensures err == NotIncreasing <==> !Increasing(s.decisions)
    ensures err == NoOptions <==>
            Increasing(s.decisions) && exists i :: 0 <= i < |s.decisions| && s.decisions[i].options == []
  {
    var sorted := IsSortedUnique(s.decisions);
    if !sorted { return NotIncreasing; }
    for i := 0 to |s.decisions|
      invariant forall j | 0 <= j < i :: s.decisions[j].options != []
    {
      if s.decisions[i].options == [] { return NoOptions; }
    }
    if s.decisions != [] {
      var last := MaxDecisionFrame(s.decisions);
      if s.totalFrames == 0 || last >= s.totalFrames { return TooFewFrames; }
    }
    return NoError;
  }

  // ---------------------------------------------------------------- instances

  /** The k-th instance: the k-th combination in dictionary order, option i at decision frame i, the default elsewhere. */
  ghost predicate IsInstance(s: BranchSpec, d: seq<nat>, bi: BranchInstance)
    requires InRange(Sizes(s), d)
  {
    && |bi.plan| == s.totalFrames
    && (forall i | 0 <= i < |s.decisions| ::
          s.decisions[i].frameIndex < |bi.plan| && bi.plan[s.decisions[i].frameIndex] == s.decisions[i].options[d[i]])
    && (forall f | 0 <= f < |bi.plan| && (forall i | 0 <= i < |s.decisions| :: s.decisions[i].frameIndex != f) ::
          bi.plan[f] == s.defaultFrame)
    && bi.chosen == seq(|d|, i requires 0 <= i < |d| => (s.decisions[i].frameIndex, d[i]))
  }

  ghost predicate Instance(s: BranchSpec, k: nat, bi: BranchInstance) {
    && Positive(Sizes(s))
    && InRange(Sizes(s), BigDigits(Sizes(s), k))
    && IsInstance(s, BigDigits(Sizes(s), k), bi)
  }

  function DigitAt(k: nat, weight: nat, base: nat): nat
    requires weight > 0 && base > 0
  {
    k / weight % base
  }

  lemma DigitsFrom(sizes: seq<nat>, i: nat, k: nat)
    requires Positive(sizes) && i < |sizes|
    ensures Positive(sizes[i..]) && Positive(sizes[i + 1..]) && Product(sizes[i + 1..]) > 0
    ensures BigDigits(sizes[i..], k) == [DigitAt(k, Product(sizes[i + 1..]), sizes[i])] + BigDigits(sizes[i + 1..], k)
  {
    ProductPositive(sizes[i + 1..]);
    assert sizes[i..][1..] == sizes[i + 1..];
  }

  lemma LastWeight(sizes: seq<nat>)
    ensures Product(sizes[|sizes|..]) == 1
  {
  }

  class BranchExplorer {
    const spec: BranchSpec
    var index: nat
    var total: nat
    var radix: seq<nat>

    ghost predicate Valid() reads this {
      && WellFormed(spec)
      && total == Product(Sizes(spec))
      && |radix| == |spec.decisions|
      && (forall i | 0 <= i < |radix| :: radix[i] == Product(Sizes(spec)[i + 1..]))
    }

    constructor (spec: BranchSpec)
      requires WellFormed(spec)
      ensures Valid() && index == 0 && this.spec == spec
    {
      this.spec := spec;
      var n := |spec.decisions|;
      var weights := seq(n, i => 1);
      var t := 1;
      ghost var sizes := Sizes(spec);
      var i := n;
      while i > 0
        invariant 0 <= i <= n && |weights| == n
        invariant t == Product(sizes[i..])
        invariant forall j | i <= j < n :: weights[j] == Product(sizes[j + 1..])
      {
        i := i - 1;
        assert sizes[i..][1..] == sizes[i + 1..];
        if i + 1 < n {
          assert sizes[i + 1..][1..] == sizes[i + 2..];
          weights := weights[i := weights[i + 1] * |spec.decisions[i + 1].options|];
        } else {
          weights := weights[i := 1];
        }
        t := t * |spec.decisions[i].options|;
      }
      assert sizes[0..] == sizes;
      index, total, radix := 0, t, weights;
    }

    method Reset()
      requires Valid()
      modifies this`index
      ensures Valid() && index == 0
    {
      index := 0;
    }

    method MaterializeWithIndices(choice: seq<nat>) returns (bi: BranchInstance)
      requires WellFormed(spec) && InRange(Sizes(spec), choice)
      ensures IsInstance(spec, choice, bi)
    {
      var plan := seq(spec.totalFrames, i => spec.defaultFrame);
      var chosen: seq<(u32, nat)> := [];
      for i := 0 to |spec.decisions|
        invariant |plan| == spec.totalFrames
        invariant forall j | 0 <= j < i :: plan[spec.decisions[j].frameIndex] == spec.decisions[j].options[choice[j]]
        invariant forall f | 0 <= f < |plan| && (forall j | 0 <= j < i :: spec.decisions[j].frameIndex != f) ::
                    plan[f] == spec.defaultFrame
        invariant chosen == seq(i, j requires 0 <= j < i => (spec.decisions[j].frameIndex, choice[j]))
      {
        var dec := spec.decisions[i];
        plan := plan[dec.frameIndex := dec.options[choice[i]]];
        chosen := chosen + [(dec.frameIndex, choice[i])];
      }
      bi := BranchInstance(plan, chosen);
    }

    /** The digits of the current index, one division and one remainder per decision. */
    method CurrentChoice() returns (choice: seq<nat>)
      requires Valid() && Positive(Sizes(spec))
      ensures choice == BigDigits(Sizes(spec), index)
    {
      ghost var sizes := Sizes(spec);
      choice := [];
      assert sizes[0..] == sizes;
      LastWeight(sizes);
      hide BigDigits, DigitAt, Product;
      for i := 0 to |spec.decisions|
        invariant |choice| == i
        invariant choice + BigDigits(sizes[i..], index) == BigDigits(sizes, index)
      {
        var base := |spec.decisions[i].options|;
        DigitsFrom(sizes, i, index);
        var weight := if i + 1 < |radix| then radix[i] else 1;
        var digit := if base == 0 then 0 else DigitAt(index, weight, base);
        choice := choice + [digit];
      }
      assert BigDigits(sizes[|sizes|..], index) == [];
    }

    method Next() returns (r: Option<BranchInstance>)
      requires Valid()
      modifies this`index
      ensures Valid()
      ensures r.None? <==> old(index) >= total
      ensures index == if r.None? then old(index) else old(index) + 1
      ensures r.Some? ==> Instance(spec, old(index), r.value)
    {
      hide IsInstance, Increasing;
      if index >= total { return None; }
      assert Positive(Sizes(spec));
      BigValueOfDigits(Sizes(spec), index);
      var choice := CurrentChoice();
      var bi := MaterializeWithIndices(choice);
      index := index + 1;
      return Some(bi);
    }

    /** Visits every combination once; the callback sees each plan's frames until it declines. */
    method ForEachBranch(cb: (u32, InputFrame) -> bool)
      returns (visited: nat, ghost instances: seq<BranchInstance>, ghost calls: seq<(u32, InputFrame)>)
      requires Valid()
      modifies this`index
      ensures Valid() && visited == |instances| == total
      ensures forall k | 0 <= k < total :: Instance(spec, k, instances[k])
      ensures calls == AllCalls(cb, instances)
    {
      hide Instance, AllCalls, Calls, Product, Increasing;
      visited, instances, calls := 0, [], [];
      NoCalls(cb);
      Reset();
      var inst := Next();
      while inst.Some?
        invariant Valid() && visited == |instances| && visited <= total
        invariant index == if inst.Some? then visited + 1 else visited
        invariant if inst.Some? then visited < total && Instance(spec, visited, inst.value) else visited >= total
        invariant forall k | 0 <= k < visited :: Instance(spec, k, instances[k])
        invariant calls == AllCalls(cb, instances)
        decreases total + 1 - index, inst.Some?
      {
        InstanceLength(spec, visited, inst.value);
        CallsSnoc(cb, instances, inst.value);
        var made := FrameCalls(cb, inst.value.plan);
        visited := visited + 1;
        instances := instances + [inst.value];
        calls := calls + made;
        inst := Next();
      }
    }

    method FrameCalls(cb: (u32, InputFrame) -> bool, plan: seq<InputFrame>) returns (calls: seq<(u32, InputFrame)>)
      requires |plan| == spec.totalFrames
      ensures calls == Calls(cb, plan, 0)
    {
      calls := [];
      var f: u32 := 0;
      while f < spec.totalFrames
        invariant f <= spec.totalFrames
        invariant calls + Calls(cb, plan, f) == Calls(cb, plan, 0)
      {
        ghost var rest := if cb(f, plan[f]) then Calls(cb, plan, f + 1) else [];
        assert Calls(cb, plan, f) == [(f, plan[f])] + rest;
        assert calls + ([(f, plan[f])] + rest) == (calls + [(f, plan[f])]) + rest;
        calls := calls + [(f, plan[f])];
        if !cb(f, plan[f]) { return; }
        f := f + 1;
      }
    }
  }

  /** The frames a plan shows the callback: up to and including the first one it declines. */
  function Calls(cb: (u32, InputFrame) -> bool, plan: seq<InputFrame>, f: nat): seq<(u32, InputFrame)>
    requires |plan| < 0x1_0000_0000
    decreases |plan| - f
  {
    if f >= |plan| then []
    else [(f, plan[f])] + if cb(f, plan[f]) then Calls(cb, plan, f + 1) else []
  }

  /** The callback goes on after frame k. */
  predicate Accepts(cb: (u32, InputFrame) -> bool, plan: seq<InputFrame>, k: nat)
    requires k < |plan| < 0x1_0000_0000
  {
    cb(k, plan[k])
  }

  /** Main result: the callback sees frame after frame, each under its number, up to and including the first it declines. */
  lemma {:induction false} CallsMean(cb: (u32, InputFrame) -> bool, plan: seq<InputFrame>, f: nat)
    requires |plan| < 0x1_0000_0000 && f <= |plan|
    ensures var calls := Calls(cb, plan, f);
            && |calls| <= |plan| - f && (f < |plan| ==> calls != [])
            && (forall k | f <= k < f + |calls| :: calls[k - f] == (k, plan[k]))
            && (forall k | f <= k < f + |calls| - 1 :: Accepts(cb, plan, k))
            && (f < |plan| && Accepts(cb, plan, f + |calls| - 1) ==> f + |calls| == |plan|)
    decreases |plan| - f
  {
    if f < |plan| && cb(f, plan[f]) {
      CallsMean(cb, plan, f + 1);
      var rest, calls := Calls(cb, plan, f + 1), Calls(cb, plan, f);
      assert calls == [(f, plan[f])] + rest;
      forall k | f < k < f + |calls| ensures calls[k - f] == (k, plan[k]) { assert calls[k - f] == rest[k - (f + 1)]; }
      forall k | f <= k < f + |calls| - 1 ensures Accepts(cb, plan, k) {}
    }
  }

  ghost function AllCalls(cb: (u32, InputFrame) -> bool, instances: seq<BranchInstance>): seq<(u32, InputFrame)> {
    if instances == [] then []
    else
      AllCalls(cb, instances[..|instances| - 1]) +
      var plan := instances[|instances| - 1].plan;
      if |plan| < 0x1_0000_0000 then Calls(cb, plan, 0) else []
  }

  lemma CallsSnoc(cb: (u32, InputFrame) -> bool, instances: seq<BranchInstance>, bi: BranchInstance)
    requires |bi.plan| < 0x1_0000_0000
    ensures AllCalls(cb, instances + [bi]) == AllCalls(cb, instances) + Calls(cb, bi.plan, 0)
  {
    assert (instances + [bi])[..|instances|] == instances;
  }

  lemma NoCalls(cb: (u32, InputFrame) -> bool)
    ensures AllCalls(cb, []) == []
  {
  }

  lemma InstanceLength(s: BranchSpec, k: nat, bi: BranchInstance)
    requires Instance(s, k, bi)
    ensures |bi.plan| == s.totalFrames
  {
  }

  // ---------------------------------------------------------------- completeness of the walk

  /** Two instances of different combinations differ, so the walk never repeats itself. */
  lemma InstancesDistinct(s: BranchSpec, j: nat, k: nat, a: BranchInstance, b: BranchInstance)
    requires Positive(Sizes(s)) && j < k < Product(Sizes(s))
    requires InRange(Sizes(s), BigDigits(Sizes(s), j)) && IsInstance(s, BigDigits(Sizes(s), j), a)
    requires InRange(Sizes(s), BigDigits(Sizes(s), k)) && IsInstance(s, BigDigits(Sizes(s), k), b)
    ensures a.chosen != b.chosen
    ensures LexLess(BigDigits(Sizes(s), j), BigDigits(Sizes(s), k))
  {
    var x, y := BigDigits(Sizes(s), j), BigDigits(Sizes(s), k);
    BigDigitsOrder(Sizes(s), j, k);
    LexIrreflexive(x, y);
    var i :| 0 <= i < |x| && x[i] != y[i];
    assert a.chosen[i].1 == x[i] && b.chosen[i].1 == y[i];
  }

  lemma {:induction false} LexIrreflexive(a: seq<nat>, b: seq<nat>)
    requires |a| == |b| && LexLess(a, b)
    ensures exists i :: 0 <= i < |a| && a[i] != b[i]
  {
    if a[0] == b[0] {
      LexIrreflexive(a[1..], b[1..]);
      var i :| 0 <= i < |a[1..]| && a[1..][i] != b[1..][i];
      assert a[i + 1] != b[i + 1];
    } else {
      assert a[0] != b[0];
    }
  }

  /** Every choice of one option per decision is visited, at the position its numeral says. */
  lemma EveryChoiceVisited(s: BranchSpec, choice: seq<nat>)
    requires WellFormed(s) && InRange(Sizes(s), choice)
    ensures Positive(Sizes(s)) && BigValue(Sizes(s), choice) < Product(Sizes(s))
    ensures BigDigits(Sizes(s), BigValue(Sizes(s), choice)) == choice
  {
    BigDigitsOfValue(Sizes(s), choice);
  }
}
