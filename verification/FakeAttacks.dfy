/** Distributing a fake-attack budget over the turns: the recursive enumerator, and the binomial that counts it. */
module FakeAttacks {
  import opened Bytes
  import opened Sequences

  // ---------------------------------------------------------------- binomial coefficients

  /** Pascal's triangle, the reference for the multiplicative loop. */
  function Choose(n: nat, k: nat): nat {
    if k == 0 then 1 else if n == 0 then 0 else Choose(n - 1, k - 1) + Choose(n - 1, k)
  }

  lemma {:induction false} ChooseAbove(n: nat, k: nat)
    requires k > n
    ensures Choose(n, k) == 0
  {
    if n > 0 { ChooseAbove(n - 1, k - 1); ChooseAbove(n - 1, k); }
  }

  lemma {:induction false} ChooseAll(n: nat)
    ensures Choose(n, n) == 1
  {
    if n > 0 { ChooseAll(n - 1); ChooseAbove(n - 1, n); }
  }

  lemma {:induction false} ChooseSymmetric(n: nat, k: nat)
    requires k <= n
    ensures Choose(n, k) == Choose(n, n - k)
  {
    if k == 0 || k == n {
      ChooseAll(n);
    } else {
      ChooseSymmetric(n - 1, k - 1);
      ChooseSymmetric(n - 1, k);
    }
  }

  /** Why each division in the loop is exact. */
  lemma {:induction false} Absorption(n: nat, k: nat)
    requires 0 < k <= n
    ensures k * Choose(n, k) == n * Choose(n - 1, k - 1)
  {
    if k == n {
      ChooseAll(n);
      ChooseAll(n - 1);
    } else if k == 1 {
      ChooseOne(n);
    } else {
      Absorption(n - 1, k);
      Absorption(n - 1, k - 1);
      var a, b := Choose(n - 2, k - 2), Choose(n - 2, k - 1);
      AbsorptionStep(n, k, a, b, Choose(n - 1, k));
    }
  }

  lemma AbsorptionStep(n: nat, k: nat, a: nat, b: nat, d: nat)
    requires (k - 1) * (a + b) == (n - 1) * a && k * d == (n - 1) * b
    ensures k * (a + b + d) == n * (a + b)
  {
    assert k * (a + b + d) == (k - 1) * (a + b) + (a + b) + k * d;
    assert n * (a + b) == (n - 1) * a + (n - 1) * b + (a + b);
  }

  lemma {:induction false} ChooseOne(n: nat)
    ensures Choose(n, 1) == n
  {
    if n > 0 { ChooseOne(n - 1); }
  }

  function Smaller(n: nat, k: nat): nat
    requires k <= n
  {
    if k > n - k then n - k else k
  }

  /** The largest product the loop forms, before its last division, fits 64 bits. */
  ghost predicate NoOverflow(n: nat, k: nat) {
    k <= n ==> Smaller(n, k) * Choose(n, Smaller(n, k)) < 0x1_0000_0000_0000_0000
  }

  /** The products only grow along the loop, so the last one decides. */
  lemma {:induction false} ProductsGrow(m: nat, i: nat, k: nat)
    requires i <= k
    ensures i * Choose(m + i, i) <= k * Choose(m + k, k)
    decreases k - i
  {
    if i < k {
      ProductsGrow(m, i + 1, k);
      assert Choose(m + i + 1, i + 1) == Choose(m + i, i) + Choose(m + i, i + 1);
      MulMonotone(i, i + 1, Choose(m + i, i), Choose(m + i + 1, i + 1));
    }
  }

  lemma MulMonotone(a: nat, b: nat, x: nat, y: nat)
    requires a <= b && x <= y
    ensures a * x <= b * y
  {
    assert a * x <= b * x <= b * y;
  }

  lemma ExactDivision(i: nat, x: nat)
    requires i > 0
    ensures i * x / i == x
  {
    var q, r := i * x / i, i * x % i;
    assert i * x == i * q + r;
    assert i * (x - q) == r;
    if x > q { MulMonotone(i, i, 1, x - q); }
  }

  lemma LoopStep(n: nat, j: nat, i: nat)
    requires 0 < i <= j <= n
    requires j * Choose(n, j) < 0x1_0000_0000_0000_0000
    ensures var product := Choose(n - j + i - 1, i - 1) * (n - j + i);
            Wrap64(product) == product && product / i == Choose(n - j + i, i)
  {
    hide Choose;
    var c := Choose(n - j + i, i);
    Absorption(n - j + i, i);
    assert Choose(n - j + i - 1, i - 1) * (n - j + i) == i * c;
    ProductsGrow(n - j, i, j);
    ExactDivision(i, c);
  }

  /** The multiplicative loop on 64-bit words: exact exactly when its last product fits, else too small. */
  method Binom(n: u64, k: u64) returns (res: u64)
    ensures if NoOverflow(n, k) then res == Choose(n, k) else res < Choose(n, k)
  {
    if k > n { ChooseAbove(n, k); return 0; }
    if k == 0 || k == n { ChooseEnds(n); return 1; }
    var j := if k > n - k then n - k else k;
    SmallerSide(n, k, j);
    res := BinomLoop(n, j);
  }

  lemma ChooseEnds(n: nat)
    ensures Choose(n, 0) == 1 && Choose(n, n) == 1
  {
    ChooseAll(n);
  }

  lemma SmallerSide(n: nat, k: nat, j: nat)
    requires 0 < k < n && j == Smaller(n, k)
    ensures Choose(n, k) == Choose(n, j) && 0 < j <= n
    ensures NoOverflow(n, k) <==> j * Choose(n, j) < 0x1_0000_0000_0000_0000
  {
    ChooseSymmetric(n, k);
    hide Choose;
  }

  method BinomLoop(n: u64, j: u64) returns (res: u64)
    requires 0 < j <= n
    ensures if j * Choose(n, j) < 0x1_0000_0000_0000_0000 then res == Choose(n, j) else res < Choose(n, j)
  {
    ghost var exact := j * Choose(n, j) < 0x1_0000_0000_0000_0000;
    res := 1;
    ChooseEnds(n - j);
    hide Choose, Wrap64;
    for i := 1 to j + 1
      invariant exact ==> res == Choose(n - j + i - 1, i - 1)
      invariant i > 1 ==> Times(i - 1, res) < 0x1_0000_0000_0000_0000
    {
      var factor := n - j + i;
      var product := Wrap64(res * factor);
      if exact { LoopStep(n, j, i); }
      res := product / i;
      QuotientFits(product, i);
    }
    TooSmall(j, res, Choose(n, j));
  }

  function Times(a: nat, b: nat): nat { a * b }

  lemma QuotientFits(product: u64, i: nat)
    requires i > 0
    ensures Times(i, product / i) <= product
  {
  }

  /** A quotient by j of a 64-bit word is below any number whose j-fold does not fit. */
  lemma TooSmall(j: nat, res: nat, choose: nat)
    requires j > 0 && Times(j, res) < 0x1_0000_0000_0000_0000
    ensures j * choose >= 0x1_0000_0000_0000_0000 ==> res < choose
  {
    if res >= choose { assert j * res >= j * choose; }
  }

  // ---------------------------------------------------------------- the enumerator

  function Prefixed(p: seq<nat>, xs: seq<seq<nat>>): (r: seq<seq<nat>>)
    ensures |r| == |xs| && forall i | 0 <= i < |xs| :: r[i] == p + xs[i]
  {
    seq(|xs|, i requires 0 <= i < |xs| => p + xs[i])
  }

  /** All k-tuples with the given sum, in the order the recursion meets them. */
  function Compositions(k: nat, sum: nat): seq<seq<nat>>
    requires k > 0
    decreases k, sum + 1
  {
    if k == 1 then [[sum]] else CompositionsFrom(k, sum, 0)
  }

  /** Those whose first component is at least v. */
  function CompositionsFrom(k: nat, sum: nat, v: nat): seq<seq<nat>>
    requires k > 1
    decreases k, sum - v
  {
    if v > sum then [] else Prefixed([v], Compositions(k - 1, sum - v)) + CompositionsFrom(k, sum, v + 1)
  }

  /** Tuples with sum s, s + 1, ..., budget. */
  function VectorsFrom(n: nat, s: nat, budget: nat): seq<seq<nat>>
    requires n > 0
    decreases budget - s
  {
    if s > budget then [] else Compositions(n, s) + VectorsFrom(n, s + 1, budget)
  }

  /** What the enumerator returns; zero turns give no vector at all, not even the empty one. */
  function Vectors(n: nat, budget: nat): seq<seq<nat>> {
    if n == 0 then [] else VectorsFrom(n, 0, budget)
  }

  /** The closure state of the recursive enumerator: one scratch tuple and the growing result. */
  class Enumerator {
    const n: nat
    var cur: seq<nat>
    var out: seq<seq<nat>>

    constructor (n: nat)
      ensures this.n == n && |cur| == n && out == []
    {
      this.n := n;
      cur := seq(n, i => 0);
      out := [];
    }

    method Dfs(idx: nat, remain: nat)
      requires |cur| == n && idx < n
      modifies this
      ensures |cur| == n && cur[..idx] == old(cur[..idx])
      ensures out == old(out) + Prefixed(old(cur[..idx]), Compositions(n - idx, remain))
      decreases n - idx
    {
      hide Compositions, CompositionsFrom, Prefixed;
      ghost var p := cur[..idx];
      if idx + 1 == n {
        cur := cur[idx := remain];
        OneComposition(p, remain);
        assert cur == p + [remain];
        out := out + [cur];
        return;
      }
      ghost var before := out;
      AllCompositions(p, n - idx, remain);
      for v := 0 to remain + 1
        invariant |cur| == n && cur[..idx] == p
        invariant out + Prefixed(p, CompositionsFrom(n - idx, remain, v)) == before + Prefixed(p, Compositions(n - idx, remain))
      {
        cur := cur[idx := v];
        ghost var so, here, later := out, Prefixed(p + [v], Compositions(n - idx - 1, remain - v)), Prefixed(p, CompositionsFrom(n - idx, remain, v + 1));
        assert cur[..idx + 1] == p + [v];
        NextFrom(p, n - idx, remain, v);
        assert so + (here + later) == (so + here) + later;
        Dfs(idx + 1, remain - v);
        assert cur[..idx] == cur[..idx + 1][..idx] == p;
      }
    }
  }

  lemma OneComposition(p: seq<nat>, sum: nat)
    ensures Prefixed(p, Compositions(1, sum)) == [p + [sum]]
  {
  }

  lemma AllCompositions(p: seq<nat>, k: nat, sum: nat)
    requires k > 1
    ensures CompositionsFrom(k, sum, 0) == Compositions(k, sum)
    ensures Prefixed(p, CompositionsFrom(k, sum, sum + 1)) == []
  {
  }

  lemma NextFrom(p: seq<nat>, k: nat, sum: nat, v: nat)
    requires k > 1 && v <= sum
    ensures Prefixed(p, CompositionsFrom(k, sum, v)) ==
            Prefixed(p + [v], Compositions(k - 1, sum - v)) + Prefixed(p, CompositionsFrom(k, sum, v + 1))
  {
    hide Compositions, Prefixed;
    PrefixedTwice(p, v, Compositions(k - 1, sum - v), CompositionsFrom(k, sum, v + 1));
  }

  lemma PrefixedTwice(p: seq<nat>, v: nat, xs: seq<seq<nat>>, ys: seq<seq<nat>>)
    ensures Prefixed(p, Prefixed([v], xs) + ys) == Prefixed(p + [v], xs) + Prefixed(p, ys)
  {
    forall i | 0 <= i < |xs| ensures p + Prefixed([v], xs)[i] == Prefixed(p + [v], xs)[i] {
      assert p + ([v] + xs[i]) == (p + [v]) + xs[i];
    }
  }

  method EnumerateFakeAttackVectors(n: nat, budget: nat) returns (out: seq<seq<nat>>)
    ensures out == Vectors(n, budget)
  {
    var e := new Enumerator(n);
    if n == 0 { return e.out; }
    for s := 0 to budget + 1
      invariant fresh(e) && e.n == n && |e.cur| == n
      invariant e.out + VectorsFrom(n, s, budget) == Vectors(n, budget)
    {
      assert forall x: seq<nat> :: [] + x == x;
      assert Prefixed([], Compositions(n, s)) == Compositions(n, s);
      e.Dfs(0, s);
    }
    return e.out;
  }

  // ---------------------------------------------------------------- exactly these, each once, this many

  function Sum(v: seq<nat>): nat {
    if v == [] then 0 else v[0] + Sum(v[1..])
  }

  /** Exactly the k-tuples with the sum, each once. */
  ghost predicate AllWithSum(xs: seq<seq<nat>>, k: nat, sum: nat) {
    (forall v :: v in xs <==> |v| == k && Sum(v) == sum) && Distinct(xs)
  }

  /** Those whose first component is at least the given one. */
  ghost predicate AllFrom(xs: seq<seq<nat>>, k: nat, sum: nat, first: nat)
    requires k > 0
  {
    (forall v :: v in xs <==> |v| == k && Sum(v) == sum && first <= v[0]) && Distinct(xs)
  }

  lemma SingleSum(sum: nat)
    ensures AllWithSum([[sum]], 1, sum)
  {
    forall v: seq<nat> ensures v in [[sum]] <==> |v| == 1 && Sum(v) == sum {
      if |v| == 1 { assert v == [v[0]] && Sum(v) == v[0] + Sum(v[1..]); }
    }
  }

  lemma FromZero(xs: seq<seq<nat>>, k: nat, sum: nat)
    requires k > 0 && AllFrom(xs, k, sum, 0)
    ensures AllWithSum(xs, k, sum)
  {
    hide Sum, Distinct;
  }

  lemma FromTooLarge(k: nat, sum: nat, first: nat)
    requires k > 0 && first > sum
    ensures AllFrom([], k, sum, first)
  {
    forall v: seq<nat> | |v| == k && Sum(v) == sum ensures v[0] < first { HeadWithin(v); }
    hide Sum;
  }

  lemma {:induction false} CompositionsExact(k: nat, sum: nat)
    requires k > 0
    ensures AllWithSum(Compositions(k, sum), k, sum)
    decreases k, sum + 1
  {
    hide AllWithSum, AllFrom;
    if k == 1 {
      SingleSum(sum);
    } else {
      CompositionsFromExact(k, sum, 0);
      FromZero(CompositionsFrom(k, sum, 0), k, sum);
    }
  }

  lemma {:induction false} CompositionsFromExact(k: nat, sum: nat, first: nat)
    requires k > 1
    ensures AllFrom(CompositionsFrom(k, sum, first), k, sum, first)
    decreases k, sum - first
  {
    hide AllWithSum, AllFrom, Prefixed;
    if first > sum {
      FromTooLarge(k, sum, first);
    } else {
      CompositionsExact(k - 1, sum - first);
      CompositionsFromExact(k, sum, first + 1);
      FromSplit(k, sum, first, Compositions(k - 1, sum - first), CompositionsFrom(k, sum, first + 1));
    }
  }

  lemma HeadWithin(v: seq<nat>)
    requires v != []
    ensures v[0] <= Sum(v)
  {
  }

  lemma FromSplit(k: nat, sum: nat, first: nat, inner: seq<seq<nat>>, later: seq<seq<nat>>)
    requires k > 1 && first <= sum && AllWithSum(inner, k - 1, sum - first) && AllFrom(later, k, sum, first + 1)
    ensures AllFrom(Prefixed([first], inner) + later, k, sum, first)
  {
    StartingExact(k, sum, first, inner);
    hide Sum, Distinct, Prefixed;
    DistinctAppend(Prefixed([first], inner), later);
  }

  /** The tuples that start with the given value. */
  lemma StartingExact(k: nat, sum: nat, first: nat, inner: seq<seq<nat>>)
    requires k > 1 && first <= sum && Distinct(inner)
    requires forall v :: v in inner <==> |v| == k - 1 && Sum(v) == sum - first
    ensures forall v :: v in Prefixed([first], inner) <==> |v| == k && Sum(v) == sum && v[0] == first
    ensures Distinct(Prefixed([first], inner))
  {
    var here := Prefixed([first], inner);
    forall v ensures v in here <==> |v| == k && Sum(v) == sum && v[0] == first {
      PrefixedMember(first, inner, v);
      if |v| == k { assert Sum(v) == v[0] + Sum(v[1..]); }
    }
    forall i, j | 0 <= i < j < |here| ensures here[i] != here[j] {
      assert here[i][1..] == inner[i] && here[j][1..] == inner[j];
    }
  }

  lemma PrefixedMember(first: nat, xs: seq<seq<nat>>, v: seq<nat>)
    ensures v in Prefixed([first], xs) <==> v != [] && v[0] == first && v[1..] in xs
  {
    if v in Prefixed([first], xs) {
      var i :| 0 <= i < |xs| && v == [first] + xs[i];
      assert v[1..] == xs[i];
    }
    if v != [] && v[0] == first && v[1..] in xs {
      var i :| 0 <= i < |xs| && xs[i] == v[1..];
      assert v == Prefixed([first], xs)[i];
    }
  }

  lemma {:induction false} VectorsFromExact(n: nat, s: nat, budget: nat)
    requires n > 0
    ensures forall v :: v in VectorsFrom(n, s, budget) <==> |v| == n && s <= Sum(v) <= budget
    ensures Distinct(VectorsFrom(n, s, budget))
    decreases budget - s
  {
    if s <= budget {
      CompositionsExact(n, s);
      VectorsFromExact(n, s + 1, budget);
      hide Sum, Distinct;
      DistinctAppend(Compositions(n, s), VectorsFrom(n, s + 1, budget));
    }
  }

  /** Main result: exactly the n-tuples within the budget, each once. */
  lemma VectorsExact(n: nat, budget: nat)
    ensures forall v :: v in Vectors(n, budget) <==> n > 0 && |v| == n && Sum(v) <= budget
    ensures Distinct(Vectors(n, budget))
  {
    if n > 0 { VectorsFromExact(n, 0, budget); }
  }

  /** sum over s in [lo, hi] of C(s + k, k), added up from the right as the recursions do. */
  function HockeySum(k: nat, lo: nat, hi: int): nat
    decreases hi - lo
  {
    if lo > hi then 0 else Choose(lo + k, k) + HockeySum(k, lo + 1, hi)
  }

  lemma {:induction false} HockeyStick(k: nat, lo: nat, hi: nat)
    requires lo <= hi + 1
    ensures HockeySum(k, lo, hi) + Choose(lo + k, k + 1) == Choose(hi + k + 1, k + 1)
    decreases hi - lo
  {
    if lo <= hi {
      HockeyStick(k, lo + 1, hi);
      assert Choose(lo + 1 + k, k + 1) == Choose(lo + k, k) + Choose(lo + k, k + 1);
    }
  }

  /** There are C(sum + k - 1, k - 1) compositions. */
  lemma {:induction false} CompositionsCount(k: nat, sum: nat)
    requires k > 0
    ensures |Compositions(k, sum)| == Choose(sum + k - 1, k - 1)
    decreases k, sum + 1
  {
    if k > 1 {
      CompositionsFromCount(k, sum, 0);
      HockeyStick(k - 2, 0, sum);
      ChooseAbove(k - 2, k - 1);
    }
  }

  /** Counting down the remaining sum: the tail sums of the hockey stick, from the small end. */
  lemma {:induction false} CompositionsFromCount(k: nat, sum: nat, v: nat)
    requires k > 1 && v <= sum + 1
    ensures |CompositionsFrom(k, sum, v)| == HockeySum(k - 2, 0, sum - v)
    decreases k, sum - v
  {
    if v <= sum {
      CompositionsCount(k - 1, sum - v);
      CompositionsFromCount(k, sum, v + 1);
      HockeyLast(k - 2, 0, sum - v);
    }
  }

  lemma {:induction false} HockeyLast(k: nat, lo: nat, hi: nat)
    requires lo <= hi
    ensures HockeySum(k, lo, hi) == HockeySum(k, lo, hi - 1) + Choose(hi + k, k)
    decreases hi - lo
  {
    if lo < hi { HockeyLast(k, lo + 1, hi); }
  }

  lemma {:induction false} VectorsFromCount(n: nat, s: nat, budget: nat)
    requires n > 0
    ensures |VectorsFrom(n, s, budget)| == HockeySum(n - 1, s, budget)
    decreases budget - s
  {
    if s <= budget {
      CompositionsCount(n, s);
      VectorsFromCount(n, s + 1, budget);
    }
  }

  /** Main result: for one or more turns the enumerator's length is the binomial the estimator multiplies by. */
  lemma VectorsCount(n: nat, budget: nat)
    requires n > 0
    ensures |Vectors(n, budget)| == Choose(budget + n, n)
  {
    VectorsFromCount(n, 0, budget);
    HockeyStick(n - 1, 0, budget);
    ChooseAbove(n - 1, n);
  }
}
