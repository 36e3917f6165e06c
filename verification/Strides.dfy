/** Walking a list by a stride coprime to its length. */
module Strides {
  import opened Bytes
  import opened MixedRadix

  function Gcd(a: nat, b: nat): nat
    decreases b
  {
    if b == 0 then a else Gcd(b, a % b)
  }

  /** Integer coefficients of the greatest common divisor. */
  lemma {:induction false} Bezout(a: nat, b: nat) returns (x: int, y: int)
    ensures a * x + b * y == Gcd(a, b)
    decreases b
  {
    if b == 0 {
      x, y := 1, 0;
    } else {
      var x', y' := Bezout(b, a % b);
      x, y := y', x' - (a / b) * y';
      Regroup(a, b, x', y');
    }
  }

  lemma Regroup(a: nat, b: nat, x: int, y: int)
    requires b > 0
    ensures a * y + b * (x - (a / b) * y) == b * x + (a % b) * y
  {
    assert a == b * (a / b) + a % b;
    var q, r := a / b, a % b;
    assert (b * q + r) * y == b * (q * y) + r * y;
    assert b * (x - q * y) == b * x - b * (q * y);
  }

  /** The common divisor divides both: a stride of 1 is always coprime. */
  lemma GcdOfOne(n: nat)
    requires n > 1
    ensures Gcd(1, n) == 1
  {
    assert 1 % n == 1;
    assert Gcd(1, n) == Gcd(n, 1) == Gcd(1, n % 1);
  }

  lemma WrapOnce(x: nat, n: nat)
    requires n <= x < 2 * n
    ensures x % n == x - n
  {
    DivModUnique(n, 1, x - n);
  }

  /** The first stride at or after a seeded candidate, cyclically, that is coprime to n. */
  method CoprimeStride(n: nat, seed: u64) returns (s: nat)
    ensures n <= 1 ==> s == 1
    ensures n >= 2 ==> 1 <= s < n && Gcd(s, n) == 1
  {
    if n <= 1 { return 1; }
    hide Gcd;
    DivMod(seed, n - 1);
    var cand := seed % (n - 1) + 1;
    // the stride 1 comes up after this many steps at the latest
    ghost var one := if cand == 1 then 0 else n + 1 - cand;
    for k := 0 to n
      invariant k <= one
    {
      s := (cand + k) % n;
      if cand + k >= n { WrapOnce(cand + k, n); } else { SmallMod(cand + k, n); }
      if s != 0 && Gcd(s, n) == 1 { return; }
      GcdOfOne(n);
    }
    assert false;
  }

  // ---------------------------------------------------------------- what a coprime stride visits

  /** The index after k advances from i. */
  function Visit(n: nat, s: nat, i: nat, k: nat): (v: nat)
    requires i < n
    ensures v < n
  {
    if k == 0 then i else (Visit(n, s, i, k - 1) + s) % n
  }

  /** x and y differ by a multiple of n. */
  ghost predicate Congruent(n: nat, x: int, y: int) {
    exists q: int :: x == y + n * q
  }

  lemma CongruentMod(n: nat, x: nat)
    requires n > 0
    ensures Congruent(n, x, x % n)
  {
    DivMod(x, n);
    assert x == x % n + n * (x / n as int);
  }

  lemma CongruentTrans(n: nat, x: int, y: int, z: int)
    requires Congruent(n, x, y) && Congruent(n, y, z)
    ensures Congruent(n, x, z)
  {
    var p: int :| x == y + n * p;
    var q: int :| y == z + n * q;
    assert x == z + n * (p + q);
  }

  lemma CongruentShift(n: nat, x: int, y: int, d: int)
    requires Congruent(n, x, y)
    ensures Congruent(n, y, x) && Congruent(n, x + d, y + d)
  {
    var q: int :| x == y + n * q;
    assert y == x + n * (-q);
    assert x + d == y + d + n * q;
  }

  lemma CongruentSmall(n: nat, x: nat, y: nat)
    requires x < n && y < n && Congruent(n, x, y)
    ensures x == y
  {
    var q: int :| x == y + n * q;
    assert q >= 1 ==> n * q >= n;
    assert q <= -1 ==> n * (-q) >= n;
  }

  lemma {:induction false} VisitIs(n: nat, s: nat, i: nat, k: nat)
    requires i < n
    ensures Congruent(n, Visit(n, s, i, k), i + k * s)
  {
    if k == 0 {
      assert i == i + 0 * s + n * 0;
    } else {
      var v := Visit(n, s, i, k - 1);
      VisitIs(n, s, i, k - 1);
      CongruentShift(n, v, i + (k - 1) * s, s);
      assert i + (k - 1) * s + s == i + k * s;
      CongruentMod(n, v + s);
      CongruentShift(n, v + s, (v + s) % n, 0);
      CongruentTrans(n, (v + s) % n, v + s, i + k * s);
    }
  }

  /** A multiple of s that is congruent to zero is a multiple of n. */
  lemma CoprimeCancels(n: nat, s: nat, d: int)
    requires Gcd(s, n) == 1 && Congruent(n, d * s, 0)
    ensures Congruent(n, d, 0)
  {
    var x, y := Bezout(s, n);
    hide Gcd;
    var q: int :| d * s == 0 + n * q;
    UnitCancels(n, s, d, x, y, q);
  }

  lemma UnitCancels(n: int, s: int, d: int, x: int, y: int, q: int)
    requires s * x + n * y == 1 && d * s == n * q
    ensures d == 0 + n * (q * x + d * y)
  {
    calc {
      d;
      d * (s * x + n * y);
      d * (s * x) + d * (n * y);
      { Regrouped(d, s, x); Regrouped(n, q, x); }
      n * (q * x) + d * (n * y);
      { Regrouped(d, n, y); Regrouped(n, d, y); }
      n * (q * x) + n * (d * y);
      n * (q * x + d * y);
    }
  }

  lemma Regrouped(a: int, b: int, c: int)
    ensures a * (b * c) == a * b * c
  {
  }

  /** Some number of advances below n reaches v: multiply the distance by the inverse of the stride. */
  lemma StrideReaches(n: nat, s: nat, i: nat, v: nat) returns (k: nat)
    requires i < n && v < n && Gcd(s, n) == 1
    ensures k < n && Visit(n, s, i, k) == v
  {
    var x, y := Bezout(s, n);
    var far := (v - i) * x;
    k := far % n;
    var q := far / n;
    assert far == n * q + k;
    assert i + k * s == v + n * (-((v - i) * y) - q * s) by {
      assert far * s == (v - i) * (s * x) == (v - i) * (1 - n * y) == (v - i) - n * ((v - i) * y);
      assert k * s == far * s - n * (q * s);
    }
    assert Congruent(n, i + k * s, v);
    VisitIs(n, s, i, k);
    CongruentTrans(n, Visit(n, s, i, k), i + k * s, v);
    CongruentSmall(n, Visit(n, s, i, k), v);
  }

  lemma NoRepeat(n: nat, s: nat, i: nat, j: nat, k: nat)
    requires i < n && Gcd(s, n) == 1 && j < k < n
    ensures Visit(n, s, i, j) != Visit(n, s, i, k)
  {
    VisitIs(n, s, i, j);
    VisitIs(n, s, i, k);
    var p: int :| Visit(n, s, i, j) == i + j * s + n * p;
    var q: int :| Visit(n, s, i, k) == i + k * s + n * q;
    if Visit(n, s, i, j) == Visit(n, s, i, k) {
      Difference(n, s, j, k, p, q);
      CoprimeCancels(n, s, k - j);
      CongruentSmall(n, k - j, 0);
    }
  }

  lemma Difference(n: nat, s: nat, j: nat, k: nat, p: int, q: int)
    requires j * s + n * p == k * s + n * q
    ensures Congruent(n, (k - j) * s, 0)
  {
    assert (k - j) * s == k * s - j * s == n * p - n * q == 0 + n * (p - q);
  }

  ghost predicate Reached(n: nat, s: nat, i: nat, v: nat)
    requires i < n
  {
    exists k: nat :: k < n && Visit(n, s, i, k) == v
  }

  /** Main result: in n advances a coprime stride visits every index exactly once. */
  lemma StrideVisitsAll(n: nat, s: nat, i: nat)
    requires i < n && Gcd(s, n) == 1
    ensures forall j, k | 0 <= j < k < n :: Visit(n, s, i, j) != Visit(n, s, i, k)
    ensures forall v: nat | v < n :: Reached(n, s, i, v)
  {
    forall j, k | 0 <= j < k < n ensures Visit(n, s, i, j) != Visit(n, s, i, k) { NoRepeat(n, s, i, j, k); }
    forall v: nat | v < n ensures Reached(n, s, i, v) {
      var k := StrideReaches(n, s, i, v);
    }
  }
}
