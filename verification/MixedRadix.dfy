/** Mixed-radix numerals: the arithmetic behind both Cartesian-product walkers of the simulator. */
module MixedRadix {

  function Product(sizes: seq<nat>): nat {
    if sizes == [] then 1 else sizes[0] * Product(sizes[1..])
  }

  ghost predicate Positive(sizes: seq<nat>) {
    forall i | 0 <= i < |sizes| :: sizes[i] > 0
  }

  ghost predicate InRange(sizes: seq<nat>, d: seq<nat>) {
    |d| == |sizes| && forall i | 0 <= i < |d| :: d[i] < sizes[i]
  }

  lemma {:induction false} ProductPositive(sizes: seq<nat>)
    requires Positive(sizes)
    ensures Product(sizes) > 0
  {
    if sizes != [] {
      ProductPositive(sizes[1..]);
      assert sizes[0] * Product(sizes[1..]) > 0;
    }
  }

  // ---------------------------------------------------------------- arithmetic

  lemma DivMod(k: nat, n: nat)
    requires n > 0
    ensures k == n * (k / n) + k % n && k % n < n
  {
  }

  lemma Distribute(n: nat, x: nat, y: nat)
    ensures n * (x + y) == n * x + n * y
  {
  }

  lemma MulStrict(n: nat, a: nat, b: nat)
    ensures a < b ==> n * a + n <= n * b
    ensures n * (a + 1) == n * a + n
    ensures n * a == a * n && n * b == b * n
  {
    Distribute(n, a, 1);
    if a < b {
      Distribute(n, a + 1, b - a - 1);
    }
  }

  lemma DivBound(k: nat, n: nat, p: nat)
    requires n > 0 && k < n * p
    ensures k / n < p
  {
    DivMod(k, n);
    MulStrict(n, p, k / n);
    MulStrict(n, k / n, p);
  }

  lemma DivModUnique(n: nat, q: nat, r: nat)
    requires r < n
    ensures (n * q + r) / n == q && (n * q + r) % n == r
  {
    var k := n * q + r;
    var q' := k / n;
    DivMod(k, n);
    MulStrict(n, q, q');
    MulStrict(n, q', q);
  }

  lemma SumBound(n: nat, d: nat, p: nat, v: nat)
    requires d < n && v < p
    ensures d + n * v < n * p && d * p + v < n * p
  {
    assert n * v <= n * (p - 1);
    assert d * p <= (n - 1) * p;
  }

  /** Reading one digit off a number reduced modulo n*p is reading it off the number itself. */
  lemma ModSplit(k: nat, n: nat, p: nat)
    requires n > 0 && p > 0
    ensures n * p > 0 && k % (n * p) == (k / p % n) * p + k % p
  {
    var q, d, v := k / p / n, k / p % n, k % p;
    DivMod(k, p);
    DivMod(k / p, n);
    assert k == p * (n * q + d) + v;
    assert k == (n * p) * q + (d * p + v);
    SumBound(n, d, p, v);
    DivModUnique(n * p, q, d * p + v);
  }

  // ---------------------------------------------------------------- least significant digit first

  function Value(sizes: seq<nat>, d: seq<nat>): nat
    requires |d| == |sizes|
  {
    if d == [] then 0 else d[0] + sizes[0] * Value(sizes[1..], d[1..])
  }

  function Digits(sizes: seq<nat>, k: nat): (d: seq<nat>)
    requires Positive(sizes)
    ensures |d| == |sizes|
  {
    if sizes == [] then [] else [k % sizes[0]] + Digits(sizes[1..], k / sizes[0])
  }

  lemma {:induction false} ValueOfDigits(sizes: seq<nat>, k: nat)
    requires Positive(sizes) && k < Product(sizes)
    ensures InRange(sizes, Digits(sizes, k)) && Value(sizes, Digits(sizes, k)) == k
  {
    if sizes != [] {
      var n, rest := sizes[0], sizes[1..];
      DivMod(k, n);
      DivBound(k, n, Product(rest));
      ValueOfDigits(rest, k / n);
      assert Digits(sizes, k)[1..] == Digits(rest, k / n);
    }
  }

  lemma {:induction false} DigitsOfValue(sizes: seq<nat>, d: seq<nat>)
    requires InRange(sizes, d)
    ensures Positive(sizes) && Value(sizes, d) < Product(sizes) && Digits(sizes, Value(sizes, d)) == d
  {
    if sizes != [] {
      var n, v := sizes[0], Value(sizes[1..], d[1..]);
      DigitsOfValue(sizes[1..], d[1..]);
      SumBound(n, d[0], Product(sizes[1..]), v);
      DivModUnique(n, v, d[0]);
      assert n * v + d[0] == Value(sizes, d);
    }
  }

  /** Distinct numbers below the product have distinct digits, and every tuple in range is one of them. */
  lemma DigitsBijective(sizes: seq<nat>)
    requires Positive(sizes)
    ensures forall j, k | 0 <= j < k < Product(sizes) :: Digits(sizes, j) != Digits(sizes, k)
    ensures forall d | InRange(sizes, d) :: Value(sizes, d) < Product(sizes) && Digits(sizes, Value(sizes, d)) == d
  {
    forall j, k | 0 <= j < k < Product(sizes) ensures Digits(sizes, j) != Digits(sizes, k) {
      ValueOfDigits(sizes, j);
      ValueOfDigits(sizes, k);
    }
    forall d | InRange(sizes, d) ensures Value(sizes, d) < Product(sizes) && Digits(sizes, Value(sizes, d)) == d {
      DigitsOfValue(sizes, d);
    }
  }

  /** The tuple after d in odometer order; all zeros after the last one. */
  function Successor(sizes: seq<nat>, d: seq<nat>): (e: seq<nat>)
    requires |d| == |sizes|
    ensures |e| == |d|
  {
    if d == [] then []
    else if d[0] + 1 < sizes[0] then [d[0] + 1] + d[1..]
    else [0] + Successor(sizes[1..], d[1..])
  }

  /** All digits at their maximum: the carry runs off the end. */
  ghost predicate Last(sizes: seq<nat>, d: seq<nat>)
    requires |d| == |sizes|
  {
    forall i | 0 <= i < |d| :: d[i] + 1 >= sizes[i]
  }

  lemma {:induction false} SuccessorCounts(sizes: seq<nat>, d: seq<nat>)
    requires InRange(sizes, d)
    ensures InRange(sizes, Successor(sizes, d))
    ensures Last(sizes, d) <==> Value(sizes, d) + 1 == Product(sizes)
    ensures !Last(sizes, d) ==> Value(sizes, Successor(sizes, d)) == Value(sizes, d) + 1
    ensures Last(sizes, d) ==> Value(sizes, Successor(sizes, d)) == 0
  {
    if d != [] {
      var n, rest, tail := sizes[0], sizes[1..], d[1..];
      SuccessorCounts(rest, tail);
      DigitsOfValue(rest, tail);
      LastSplit(sizes, d);
      CarryStep(n, d[0], Product(rest), Value(rest, tail));
      if d[0] + 1 < n {
        assert Successor(sizes, d)[1..] == tail;
      } else {
        assert Successor(sizes, d)[1..] == Successor(rest, tail);
      }
    }
  }

  lemma LastSplit(sizes: seq<nat>, d: seq<nat>)
    requires |d| == |sizes| > 0
    ensures Last(sizes, d) <==> d[0] + 1 >= sizes[0] && Last(sizes[1..], d[1..])
  {
    if d[0] + 1 >= sizes[0] && Last(sizes[1..], d[1..]) {
      forall i | 0 <= i < |d| ensures d[i] + 1 >= sizes[i] {
        if i > 0 { assert d[i] == d[1..][i - 1] && sizes[i] == sizes[1..][i - 1]; }
      }
    }
  }

  lemma CarryStep(n: nat, d: nat, p: nat, v: nat)
    requires d < n && v < p
    ensures d + 1 < n ==> d + n * v + 1 < n * p
    ensures d + 1 == n ==> d + n * v + 1 == n * (v + 1)
    ensures d + 1 == n ==> (v + 1 == p <==> d + n * v + 1 == n * p)
  {
    MulStrict(n, v, p);
    MulStrict(n, v + 1, p);
  }

  lemma {:induction false} ValueOfZeros(sizes: seq<nat>, d: seq<nat>)
    requires |d| == |sizes| && forall i | 0 <= i < |d| :: d[i] == 0
    ensures Value(sizes, d) == 0
  {
    if d != [] { ValueOfZeros(sizes[1..], d[1..]); }
  }

  // ---------------------------------------------------------------- most significant digit first

  /** Digit i of k: divide by the product of the sizes to the right, reduce modulo the own size. */
  function BigDigits(sizes: seq<nat>, k: nat): (d: seq<nat>)
    requires Positive(sizes)
    ensures |d| == |sizes|
  {
    if sizes == [] then []
    else
      ProductPositive(sizes[1..]);
      [k / Product(sizes[1..]) % sizes[0]] + BigDigits(sizes[1..], k)
  }

  function BigValue(sizes: seq<nat>, d: seq<nat>): nat
    requires |d| == |sizes|
  {
    if d == [] then 0 else d[0] * Product(sizes[1..]) + BigValue(sizes[1..], d[1..])
  }

  lemma {:induction false} BigValueOfDigits(sizes: seq<nat>, k: nat)
    requires Positive(sizes)
    ensures InRange(sizes, BigDigits(sizes, k))
    ensures Product(sizes) > 0 && BigValue(sizes, BigDigits(sizes, k)) == k % Product(sizes)
  {
    ProductPositive(sizes);
    if sizes != [] {
      var rest := sizes[1..];
      ProductPositive(rest);
      BigValueOfDigits(rest, k);
      ModSplit(k, sizes[0], Product(rest));
      assert BigDigits(sizes, k)[1..] == BigDigits(rest, k);
    }
  }

  /** Dictionary order. */
  ghost predicate LexLess(a: seq<nat>, b: seq<nat>)
    requires |a| == |b|
  {
    a != [] && (a[0] < b[0] || (a[0] == b[0] && LexLess(a[1..], b[1..])))
  }

  lemma {:induction false} BigValueBelow(sizes: seq<nat>, d: seq<nat>)
    requires InRange(sizes, d)
    ensures BigValue(sizes, d) < Product(sizes)
  {
    if d != [] {
      BigValueBelow(sizes[1..], d[1..]);
      SumBound(sizes[0], d[0], Product(sizes[1..]), BigValue(sizes[1..], d[1..]));
    }
  }

  lemma HeadTail(a: seq<nat>, b: seq<nat>)
    requires |a| == |b| > 0
    ensures a == b <==> a[0] == b[0] && a[1..] == b[1..]
  {
    assert a == [a[0]] + a[1..] && b == [b[0]] + b[1..];
  }

  lemma {:induction false} BigValueOrder(sizes: seq<nat>, a: seq<nat>, b: seq<nat>)
    requires InRange(sizes, a) && InRange(sizes, b)
    ensures LexLess(a, b) <==> BigValue(sizes, a) < BigValue(sizes, b)
    ensures a == b <==> BigValue(sizes, a) == BigValue(sizes, b)
  {
    if a != [] {
      var rest, p := sizes[1..], Product(sizes[1..]);
      BigValueOrder(rest, a[1..], b[1..]);
      BigValueBelow(rest, a[1..]);
      BigValueBelow(rest, b[1..]);
      HeadTail(a, b);
      MulStrict(p, a[0], b[0]);
      MulStrict(p, b[0], a[0]);
    }
  }

  /** Counting k from 0 to the product walks all tuples in range, each once, in dictionary order. */
  lemma BigDigitsEnumerate(sizes: seq<nat>)
    requires Positive(sizes)
    ensures forall j, k | 0 <= j < k < Product(sizes) :: LexLess(BigDigits(sizes, j), BigDigits(sizes, k))
    ensures forall d | InRange(sizes, d) :: BigValue(sizes, d) < Product(sizes) && BigDigits(sizes, BigValue(sizes, d)) == d
  {
    forall j, k | 0 <= j < k < Product(sizes) ensures LexLess(BigDigits(sizes, j), BigDigits(sizes, k)) {
      BigDigitsOrder(sizes, j, k);
    }
    forall d | InRange(sizes, d)
      ensures BigValue(sizes, d) < Product(sizes) && BigDigits(sizes, BigValue(sizes, d)) == d
    {
      BigDigitsOfValue(sizes, d);
    }
  }

  lemma BigDigitsOrder(sizes: seq<nat>, j: nat, k: nat)
    requires Positive(sizes) && j < k < Product(sizes)
    ensures LexLess(BigDigits(sizes, j), BigDigits(sizes, k))
  {
    hide BigDigits, BigValue, LexLess, Product, InRange;
    BigValueOfDigits(sizes, j);
    BigValueOfDigits(sizes, k);
    BigValueOrder(sizes, BigDigits(sizes, j), BigDigits(sizes, k));
    SmallMod(j, Product(sizes));
    SmallMod(k, Product(sizes));
  }

  lemma BigDigitsOfValue(sizes: seq<nat>, d: seq<nat>)
    requires Positive(sizes) && InRange(sizes, d)
    ensures BigValue(sizes, d) < Product(sizes) && BigDigits(sizes, BigValue(sizes, d)) == d
  {
    hide BigDigits, BigValue, Product;
    BigValueBelow(sizes, d);
    BigValueOfDigits(sizes, BigValue(sizes, d));
    BigValueOrder(sizes, d, BigDigits(sizes, BigValue(sizes, d)));
    SmallMod(BigValue(sizes, d), Product(sizes));
  }

  lemma SmallMod(k: nat, n: nat)
    requires k < n
    ensures k % n == k
  {
  }
}
