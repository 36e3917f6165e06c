/** Which pairs and triples of residues come up when two or three counters take turns. */
module TurnCover {
  import opened MixedRadix
  import opened Strides

  // ---------------------------------------------------------------- multiples

  ghost predicate Multiple(n: nat, d: int) { exists q: int :: d == n * q }

  lemma Zero(n: nat)
    ensures Multiple(n, 0)
  {
    assert 0 == n * 0;
  }

  lemma Times(n: nat, d: int, k: int)
    requires Multiple(n, d)
    ensures Multiple(n, d * k)
  {
    var q: int :| d == n * q;
    assert d * k == n * (q * k);
  }

  lemma OfProduct(n: nat, k: int)
    ensures Multiple(n, n * k)
  {
  }

  lemma Plus(n: nat, d: int, e: int)
    requires Multiple(n, d) && Multiple(n, e)
    ensures Multiple(n, d + e) && Multiple(n, d - e)
  {
    var q: int :| d == n * q;
    var r: int :| e == n * r;
    assert d + e == n * (q + r) && d - e == n * (q - r);
  }

  lemma Through(g: nat, n: nat, d: int)
    requires Multiple(g, n) && Multiple(n, d)
    ensures Multiple(g, d)
  {
    var q: int :| d == n * q;
    Times(g, n, q);
  }

  lemma Small(n: nat, d: int)
    requires Multiple(n, d) && -(n as int) < d < n
    ensures d == 0
  {
    var q: int :| d == n * q;
    assert q >= 1 ==> n * q >= n;
    assert q <= -1 ==> n * q <= -(n as int);
  }

  lemma OfOne(n: nat)
    requires Multiple(n, 1)
    ensures n == 1
  {
    if n != 1 { assert n == 0 || n > 1; if n > 1 { Small(n, 1); } }
  }

  lemma IsMod(n: nat, d: int)
    requires n > 0
    ensures Multiple(n, d - d % n) && 0 <= d % n < n
  {
    assert d == n * (d / n) + d % n;
  }

  // ---------------------------------------------------------------- common divisors

  lemma {:induction false} GcdDivides(a: nat, b: nat)
    ensures Multiple(Gcd(a, b), a) && Multiple(Gcd(a, b), b)
    decreases b
  {
    var g := Gcd(a, b);
    if b == 0 {
      Zero(g);
      assert a == g * 1;
    } else {
      GcdDivides(b, a % b);
      Times(g, b, a / b);
      Plus(g, b * (a / b), a % b);
      assert a == b * (a / b) + a % b;
    }
  }

  lemma GcdSwap(a: nat, b: nat)
    requires a < b
    ensures Gcd(a, b) == Gcd(b, a)
  {
    SmallMod(a, b);
  }

  lemma GcdSymmetric(a: nat, b: nat)
    ensures Gcd(a, b) == Gcd(b, a)
  {
    hide Gcd;
    if a < b { GcdSwap(a, b); } else if b < a { GcdSwap(b, a); }
  }

  /** A multiple of n that is, s times over, one of the coprime m. */
  lemma Cancels(m: nat, s: nat, d: int)
    requires Gcd(s, m) == 1 && Multiple(m, d * s)
    ensures Multiple(m, d)
  {
    var q: int :| d * s == m * q;
    assert d * s == 0 + m * q;
    CoprimeCancels(m, s, d);
    var r: int :| d == 0 + m * r;
    assert d == m * r;
  }

  lemma BothCoprime(n: nat, m: nat, d: int)
    requires Gcd(n, m) == 1 && Multiple(n, d) && Multiple(m, d)
    ensures Multiple(n * m, d)
  {
    var q: int :| d == n * q;
    assert q * n == d;
    hide Gcd;
    Cancels(m, n, q);
    var r: int :| q == m * r;
    Regrouped(n, m, r);
  }

  // ---------------------------------------------------------------- two counters

  /** At emission t the first counter has made (t + 1) / 2 turns and the second t / 2. */
  ghost predicate PairAt(n: nat, m: nat, x: int, y: int, t: nat) {
    Multiple(n, (t + 1) / 2 - x) && Multiple(m, t / 2 - y)
  }

  ghost predicate PairComes(n: nat, m: nat, total: nat, x: int, y: int) {
    exists t: nat :: t < total && PairAt(n, m, x, y, t)
  }

  ghost predicate PairsCovered(n: nat, m: nat, total: nat) {
    forall x: nat, y: nat :: PairComes(n, m, total, x, y)
  }

  /** With a common divisor of 3 or more, a counter at most one turn ahead of the other is never two ahead. */
  lemma TooFar(n: nat, m: nat, p: int, q: int)
    requires Gcd(n, m) >= 3 && q <= p <= q + 1
    ensures !(Multiple(n, p - 2) && Multiple(m, q - 0))
  {
    if Multiple(n, p - 2) && Multiple(m, q - 0) {
      var g := Gcd(n, m);
      GcdDivides(n, m);
      Through(g, n, p - 2);
      Through(g, m, q - 0);
      Plus(g, p - 2, q);
      Small(g, p - 2 - q);
    }
  }

  lemma FarPair(n: nat, m: nat, total: nat)
    requires Gcd(n, m) >= 3
    ensures !PairComes(n, m, total, 2, 0)
  {
    hide Gcd, Multiple;
    forall t: nat ensures !PairAt(n, m, 2, 0, t) { TooFar(n, m, (t + 1) / 2, t / 2); }
  }

  /** A number with both residues, when these agree modulo the common divisor 2. */
  lemma Meet(n: nat, m: nat, a: nat, b: nat, x: int, y: int, h: int) returns (k: nat)
    requires Gcd(n, m) == 2 && n == 2 * a && m == 2 * b && n * b > 0 && x - y == 2 * h
    ensures k < n * b && Multiple(n, k - x) && Multiple(m, k - y)
  {
    var u, v := Bezout(n, m);
    hide Gcd;
    var far := x - n * (u * h);
    MeetAt(n, m, u, v, h);
    OfProduct(n, -(u * h));
    OfProduct(m, v * h);
    assert far - y == m * (v * h);
    assert far - x == n * (-(u * h)) by { NegTimes(n, u * h); }
    var half := n * b;
    IsMod(half, far);
    k := far % half;
    OfProduct(n, b);
    Through(n, half, far - k);
    assert half == m * a by { Halves(n, m, a, b); }
    OfProduct(m, a);
    Through(m, half, far - k);
    hide Multiple;
    Plus(n, far - x, far - k);
    Plus(m, far - y, far - k);
    assert far - x - (far - k) == k - x && far - y - (far - k) == k - y;
  }

  lemma NegTimes(n: int, k: int)
    ensures n * (-k) == -(n * k)
  {
  }

  lemma MeetAt(n: int, m: int, u: int, v: int, h: int)
    requires n * u + m * v == 2
    ensures 2 * h == n * (u * h) + m * (v * h)
  {
    assert (n * u + m * v) * h == n * u * h + m * v * h;
    Regrouped(n, u, h);
    Regrouped(m, v, h);
  }

  lemma Halves(n: int, m: int, a: int, b: int)
    requires n == 2 * a && m == 2 * b
    ensures n * b == m * a && n * m == 2 * (n * b)
  {
    assert n * b == 2 * (a * b) && m * a == 2 * (a * b);
    assert n * (2 * b) == 2 * (n * b);
  }

  lemma EvenPair(n: nat, m: nat, x: int, y: int)
    requires n > 0 && m > 0 && Gcd(n, m) == 2
    ensures PairComes(n, m, n * m, x, y)
  {
    GcdDivides(n, m);
    var a: int :| n == 2 * a;
    var b: int :| m == 2 * b;
    hide Gcd;
    Halves(n, m, a, b);
    assert n * b > 0;
    if (x - y) % 2 == 0 {
      var k := Meet(n, m, a, b, x, y, (x - y) / 2);
      assert PairAt(n, m, x, y, 2 * k);
    } else {
      var k := Meet(n, m, a, b, x - 1, y, (x - 1 - y) / 2);
      assert k - (x - 1) == (2 * k + 1 + 1) / 2 - x;
      assert PairAt(n, m, x, y, 2 * k + 1);
    }
  }

  lemma ShortPair(m: nat, x: int, y: int)
    requires m > 0
    ensures PairComes(2, m, 2 * m, x, y)
  {
    IsMod(m, y);
    var k := y % m;
    Times(m, y - k, -1);
    assert k - y == (y - k) * -1;
    if (k - x) % 2 == 0 {
      assert k - x == 2 * ((k - x) / 2);
      assert PairAt(2, m, x, y, 2 * k);
    } else {
      assert k + 1 - x == 2 * ((k + 1 - x) / 2);
      assert PairAt(2, m, x, y, 2 * k + 1);
    }
  }

  // ---------------------------------------------------------------- two coprime counters

  /** z is the k-th place from e on, around a circle of the given length, for some k below count. */
  ghost predicate Within(z: int, e: int, count: int, total: int) {
    0 <= z - e < count || 0 <= z - e + total < count
  }

  /** Two stretches that cover the circle follow each other. */
  lemma TwoStretches(total: nat, k0: nat, k1: nat, e: nat)
    requires 0 < k1 <= k0 && k0 + k1 == total && e < total
    requires forall z: nat | z < total :: z < k0 || Within(z, e, k1, total)
    ensures e == k0
  {
    assert k0 < k0 || Within(k0, e, k1, total);
    assert e < k0 ==> e + k1 < k0 || Within(e + k1, e, k1, total);
  }

  /** The number that is 1 for n and 0 for m. */
  lemma UnitFor(n: nat, m: nat) returns (e: int)
    requires Gcd(n, m) == 1
    ensures Multiple(n, e - 1) && Multiple(m, e)
  {
    var u, v := Bezout(n, m);
    hide Gcd;
    e := m * v;
    assert e - 1 == n * (-u) by { NegTimes(n, u); }
  }

  /** Where the pair of residues z, z comes up, z is k or, behind a unit, k. */
  lemma PairPlace(n: nat, m: nat, e: int, z: int, t: nat)
    requires Gcd(n, m) == 1 && Multiple(n, e - 1) && Multiple(m, e) && PairAt(n, m, z, z, t)
    ensures Multiple(n * m, z - (t / 2 + if t % 2 == 1 then e else 0))
  {
    hide Gcd, Multiple;
    var k := t / 2;
    Times(n, (t + 1) / 2 - z, -1);
    Times(m, k - z, -1);
    if t % 2 == 1 {
      assert (t + 1) / 2 == k + 1;
      Plus(n, z - (k + 1), e - 1);
      Plus(m, z - k, e);
      assert z - (k + 1) - (e - 1) == z - (k + e);
      BothCoprime(n, m, z - (k + e));
    } else {
      assert (t + 1) / 2 == k;
      BothCoprime(n, m, z - k);
    }
  }

  lemma Nearby(total: nat, z: nat, k: nat, e: nat)
    requires z < total && k < total && e < total && Multiple(total, z - (k + e))
    ensures z == k + e || z + total == k + e
  {
    if z < k + e {
      assert z - (k + e) + total == (z - (k + e)) - total * (-1);
      OfProduct(total, -1);
      Plus(total, z - (k + e), total * (-1));
      Small(total, z - (k + e) + total);
    } else {
      Small(total, z - (k + e));
    }
  }

  /** A unit in the range of the circle. */
  lemma UnitIn(n: nat, m: nat, total: nat, far: int) returns (e: nat)
    requires total > 0 && Multiple(n, total) && Multiple(m, total) && Multiple(n, far - 1) && Multiple(m, far)
    ensures e < total && Multiple(n, e - 1) && Multiple(m, e)
  {
    IsMod(total, far);
    e := far % total;
    hide Multiple;
    Through(n, total, far - e);
    Through(m, total, far - e);
    Plus(n, far - 1, far - e);
    Plus(m, far, far - e);
    assert far - 1 - (far - e) == e - 1 && far - (far - e) == e;
  }

  lemma CoverPlaces(n: nat, m: nat, total: nat, e: nat)
    requires Gcd(n, m) == 1 && total == n * m && e < total && Multiple(n, e - 1) && Multiple(m, e) && PairsCovered(n, m, total)
    ensures forall z: nat | z < total :: z < (total + 1) / 2 || Within(z, e, total / 2, total)
  {
    hide Gcd, Multiple, PairAt;
    forall z: nat | z < total ensures z < (total + 1) / 2 || Within(z, e, total / 2, total) {
      assert PairComes(n, m, total, z, z);
      var t: nat :| t < total && PairAt(n, m, z, z, t);
      PairPlace(n, m, e, z, t);
      Nearby(total, z, t / 2, if t % 2 == 1 then e else 0);
    }
  }

  /** Only a first counter of length 2 can make coprime counters cover. */
  lemma CoprimeCover(n: nat, m: nat, total: nat)
    requires n >= 2 && m >= 2 && Gcd(n, m) == 1 && total == n * m && PairsCovered(n, m, total)
    ensures n == 2
  {
    var far := UnitFor(n, m);
    OfProduct(n, m);
    OfProduct(m, n);
    AtLeastFour(n, m);
    var e := UnitIn(n, m, total, far);
    CoverPlaces(n, m, total, e);
    TwoStretches(total, (total + 1) / 2, total / 2, e);
    hide Gcd, PairsCovered;
    HalfUnit(n, m, total, e);
  }

  lemma AtLeastFour(n: nat, m: nat)
    requires n >= 2 && m >= 2
    ensures n * m >= 4
  {
    assert n * m >= 2 * m;
  }

  lemma HalfUnit(n: nat, m: nat, total: nat, e: nat)
    requires n >= 2 && m >= 2 && total == n * m && e == (total + 1) / 2 && Multiple(n, e - 1) && Multiple(m, e)
    ensures n == 2
  {
    if total % 2 == 0 { EvenHalf(n, m, e); } else { OddHalf(n, m, e); }
  }

  lemma EvenHalf(n: nat, m: nat, e: nat)
    requires n > 0 && m > 0 && 2 * e == n * m && Multiple(n, e - 1) && Multiple(m, e)
    ensures n == 2
  {
    var c: int :| e == m * c;
    assert m * (2 * c) == m * n;
    SameFactor(m, 2 * c, n);
    hide Multiple;
    OfProduct(c, 2);
    OfProduct(c, m);
    Through(c, n, e - 1);
    Plus(c, e, e - 1);
    OfOne(c);
  }

  lemma OddHalf(n: nat, m: nat, e: nat)
    requires 2 * e == n * m + 1 && Multiple(m, e)
    ensures m == 1
  {
    hide Multiple;
    Times(m, e, 2);
    OfProduct(m, n);
    Plus(m, e * 2, m * n);
    OfOne(m);
  }

  lemma SameFactor(m: nat, a: int, b: int)
    requires m > 0 && m * a == m * b
    ensures a == b
  {
    assert m * (a - b) == 0;
  }

  /** Main result: two counters taking turns show every pair of residues within the product of their lengths exactly
      when the first has length 2 or the lengths have 2 as their greatest common divisor. */
  lemma PairsExactlyWhen(n: nat, m: nat)
    requires n >= 2 && m >= 2
    ensures PairsCovered(n, m, n * m) <==> n == 2 || Gcd(n, m) == 2
  {
    hide Gcd;
    GcdPositive(n, m);
    if n == 2 {
      forall x: nat, y: nat ensures PairComes(n, m, n * m, x, y) { ShortPair(m, x, y); }
    } else if Gcd(n, m) == 2 {
      forall x: nat, y: nat ensures PairComes(n, m, n * m, x, y) { EvenPair(n, m, x, y); }
    } else if Gcd(n, m) == 1 {
      if PairsCovered(n, m, n * m) { CoprimeCover(n, m, n * m); }
    } else {
      FarPair(n, m, n * m);
    }
  }

  lemma {:induction false} GcdPositive(a: nat, b: nat)
    requires a > 0 || b > 0
    ensures Gcd(a, b) > 0
    decreases b
  {
    if b > 0 { GcdPositive(b, a % b); }
  }

  // ---------------------------------------------------------------- three counters

  /** At emission t the counters have made (t + 2) / 3, (t + 1) / 3 and t / 3 turns. */
  ghost predicate TripleAt(n: nat, m: nat, l: nat, x: int, y: int, z: int, t: nat) {
    Multiple(n, (t + 2) / 3 - x) && Multiple(m, (t + 1) / 3 - y) && Multiple(l, t / 3 - z)
  }

  ghost predicate TripleComes(n: nat, m: nat, l: nat, total: nat, x: int, y: int, z: int) {
    exists t: nat :: t < total && TripleAt(n, m, l, x, y, z, t)
  }

  ghost predicate TriplesCovered(n: nat, m: nat, l: nat, total: nat) {
    forall x: nat, y: nat, z: nat :: TripleComes(n, m, l, total, x, y, z)
  }

  lemma FarTriple(n: nat, m: nat, l: nat, total: nat)
    requires Gcd(n, m) >= 3 || Gcd(m, l) >= 3 || Gcd(n, l) >= 3
    ensures !TriplesCovered(n, m, l, total)
  {
    hide Gcd, Multiple;
    forall t: nat
      ensures Gcd(n, m) >= 3 || Gcd(n, l) >= 3 ==> !TripleAt(n, m, l, 2, 0, 0, t)
      ensures Gcd(m, l) >= 3 ==> !TripleAt(n, m, l, 0, 2, 0, t)
    {
      if Gcd(n, m) >= 3 { TooFar(n, m, (t + 2) / 3, (t + 1) / 3); }
      if Gcd(n, l) >= 3 { TooFar(n, l, (t + 2) / 3, t / 3); }
      if Gcd(m, l) >= 3 { TooFar(m, l, (t + 1) / 3, t / 3); }
    }
    if Gcd(n, m) >= 3 || Gcd(n, l) >= 3 { assert !TripleComes(n, m, l, total, 2, 0, 0); }
    if Gcd(m, l) >= 3 { assert !TripleComes(n, m, l, total, 0, 2, 0); }
  }

  lemma Even(n: nat, d: int)
    requires Multiple(2, n) && Multiple(n, d)
    ensures d % 2 == 0
  {
    Through(2, n, d);
  }

  /** Three even lengths never show a middle counter alone at an odd place. */
  lemma EvenTriple(n: nat, m: nat, l: nat, total: nat)
    requires Multiple(2, n) && Multiple(2, m) && Multiple(2, l)
    ensures !TriplesCovered(n, m, l, total)
  {
    hide Multiple;
    forall t: nat ensures !TripleAt(n, m, l, 0, 1, 0, t) {
      if TripleAt(n, m, l, 0, 1, 0, t) {
        Even(n, (t + 2) / 3 - 0);
        Even(m, (t + 1) / 3 - 1);
        Even(l, t / 3 - 0);
      }
    }
    assert !TripleComes(n, m, l, total, 0, 1, 0);
  }

  /** With 2 common to n and m only, a multiple of all three is half a multiple of their product. */
  lemma TwoCommon(n: nat, m: nat, l: nat, d: int)
    requires Gcd(n, m) == 2 && Gcd(n, l) == 1 && Gcd(m, l) == 1
    requires Multiple(n, d) && Multiple(m, d) && Multiple(l, d)
    ensures Multiple(n * m * l, 2 * d)
  {
    var u, v := Bezout(n, m);
    hide Gcd;
    var a: int :| d == n * a;
    var b: int :| d == m * b;
    TwiceIs(n, m, u, v, a, b, d);
    Times(l, d, 2);
    var c := b * u + a * v;
    ThirdToo(n, m, l, c);
  }

  lemma TwiceIs(n: int, m: int, u: int, v: int, a: int, b: int, d: int)
    requires n * u + m * v == 2 && d == n * a && d == m * b
    ensures 2 * d == n * m * (b * u + a * v)
  {
    assert 2 * d == (n * u + m * v) * d == n * u * d + m * v * d;
    assert n * u * d == n * u * (m * b) == n * m * (b * u);
    assert m * v * d == m * v * (n * a) == n * m * (a * v);
  }

  lemma ThirdToo(n: nat, m: nat, l: nat, c: int)
    requires Gcd(n, l) == 1 && Gcd(m, l) == 1 && Multiple(l, n * m * c)
    ensures Multiple(n * m * l, n * m * c)
  {
    Turned(n, m, c);
    hide Gcd;
    Cancels(l, n, c * m);
    Cancels(l, m, c);
    var r: int :| c == l * r;
    Regrouped(n * m, l, r);
  }

  lemma Turned(n: int, m: int, c: int)
    ensures n * m * c == c * m * n
  {
  }

  lemma AllCoprime(n: nat, m: nat, l: nat, d: int)
    requires Gcd(n, m) == 1 && Gcd(n, l) == 1 && Gcd(m, l) == 1
    requires Multiple(n, d) && Multiple(m, d) && Multiple(l, d)
    ensures Multiple(n * m * l, d)
  {
    hide Gcd;
    BothCoprime(n, m, d);
    var c: int :| d == n * m * c;
    ThirdToo(n, m, l, c);
  }

  /** Less than a third of the way round, doubled, is no multiple of the whole. */
  lemma TooShort(total: nat, k: nat, far: nat)
    requires total > 4 && k < far == (total + 2) / 3
    ensures !Multiple(total, 2 * (k - far))
  {
    if Multiple(total, 2 * (k - far)) { Small(total, 2 * (k - far)); }
  }

  function Product(n: nat, m: nat, l: nat): nat { n * m * l }

  ghost predicate OnePairEven(n: nat, m: nat, l: nat) {
    Gcd(n, m) == 2 && Gcd(n, l) == 1 && Gcd(m, l) == 1
  }

  lemma Thirds(t: nat, total: nat)
    requires t < total
    ensures t / 3 <= (t + 1) / 3 <= (t + 2) / 3 <= t / 3 + 1 && t / 3 < (total + 2) / 3
  {
  }

  /** A third of the way round, with the counters p, q and r turns ahead, only an earlier emission could be in step. */
  lemma OutOfStep(n: nat, m: nat, l: nat, total: nat, k: nat, far: nat)
    requires OnePairEven(n, m, l) && total == Product(n, m, l) > 4 && k < far == (total + 2) / 3
    ensures !(Multiple(n, k - far) && Multiple(m, k - far) && Multiple(l, k - far))
  {
    hide Gcd, Multiple;
    if Multiple(n, k - far) && Multiple(m, k - far) && Multiple(l, k - far) {
      TwoCommon(n, m, l, k - far);
      TooShort(total, k, far);
    }
  }

  lemma PairEven(n: nat, m: nat, l: nat)
    requires OnePairEven(n, m, l)
    ensures Multiple(2, n) && Multiple(2, m)
  {
    GcdDivides(n, m);
  }

  /** Counters in turn, the last of them not yet a third of the way round. */
  ghost predicate InTurn(p: nat, q: nat, r: nat, far: nat) { r <= q <= p <= r + 1 && r < far }

  lemma SameParity(n: nat, x: int, y: int)
    requires Multiple(2, n) && Multiple(n, x - y)
    ensures x % 2 == y % 2
  {
    Even(n, x - y);
  }

  lemma FirstAhead(n: nat, m: nat, l: nat, total: nat, p: nat, q: nat, r: nat, far: nat)
    requires OnePairEven(n, m, l) && total == Product(n, m, l) > 4 && far == (total + 2) / 3 && InTurn(p, q, r, far)
    ensures !(Multiple(n, p - (far + 1)) && Multiple(m, q - far) && Multiple(l, r - far))
  {
    hide Multiple, OnePairEven, Product;
    if Multiple(n, p - (far + 1)) && Multiple(m, q - far) && Multiple(l, r - far) {
      PairEven(n, m, l);
      SameParity(n, p, far + 1);
      SameParity(m, q, far);
      OutOfStep(n, m, l, total, r, far);
    }
  }

  lemma LastBehind(n: nat, m: nat, l: nat, total: nat, p: nat, q: nat, r: nat, far: nat)
    requires OnePairEven(m, l, n) && total == Product(m, l, n) > 4 && far == (total + 2) / 3 && InTurn(p, q, r, far)
    ensures !(Multiple(n, p - (far + 1)) && Multiple(m, q - (far + 1)) && Multiple(l, r - far))
  {
    hide Multiple, OnePairEven, Product;
    if Multiple(n, p - (far + 1)) && Multiple(m, q - (far + 1)) && Multiple(l, r - far) {
      PairEven(m, l, n);
      SameParity(m, q, far + 1);
      SameParity(l, r, far);
      OutOfStep(m, l, n, total, r, far);
    }
  }

  lemma AllLevel(n: nat, m: nat, l: nat, total: nat, p: nat, q: nat, r: nat, far: nat)
    requires OnePairEven(n, l, m) && total == Product(n, l, m) > 4 && far == (total + 2) / 3 && InTurn(p, q, r, far)
    ensures !(Multiple(n, p - far) && Multiple(m, q - far) && Multiple(l, r - far))
  {
    hide Multiple, OnePairEven, Product;
    if Multiple(n, p - far) && Multiple(m, q - far) && Multiple(l, r - far) {
      PairEven(n, l, m);
      SameParity(n, p, far);
      SameParity(l, r, far);
      OutOfStep(n, l, m, total, r, far);
    }
  }

  lemma Missing(n: nat, m: nat, l: nat, total: nat, x: nat, y: nat, z: nat)
    requires forall t: nat | t < total :: !TripleAt(n, m, l, x, y, z, t)
    ensures !TriplesCovered(n, m, l, total)
  {
    hide TripleAt;
    assert !TripleComes(n, m, l, total, x, y, z);
  }

  lemma FirstPairEven(n: nat, m: nat, l: nat, total: nat)
    requires OnePairEven(n, m, l) && total == Product(n, m, l) > 4
    ensures !TriplesCovered(n, m, l, total)
  {
    hide Multiple, OnePairEven, Product;
    var far := (total + 2) / 3;
    var next := far + 1;
    forall t: nat | t < total ensures !TripleAt(n, m, l, next, far, far, t) {
      Thirds(t, total);
      FirstAhead(n, m, l, total, (t + 2) / 3, (t + 1) / 3, t / 3, far);
    }
    hide TripleAt, TriplesCovered;
    Missing(n, m, l, total, next, far, far);
  }

  lemma LastPairEven(n: nat, m: nat, l: nat, total: nat)
    requires OnePairEven(m, l, n) && total == Product(m, l, n) > 4
    ensures !TriplesCovered(n, m, l, total)
  {
    hide Multiple, OnePairEven, Product;
    var far := (total + 2) / 3;
    var next := far + 1;
    forall t: nat | t < total ensures !TripleAt(n, m, l, next, next, far, t) {
      Thirds(t, total);
      LastBehind(n, m, l, total, (t + 2) / 3, (t + 1) / 3, t / 3, far);
    }
    hide TripleAt, TriplesCovered;
    Missing(n, m, l, total, next, next, far);
  }

  lemma OuterPairEven(n: nat, m: nat, l: nat, total: nat)
    requires OnePairEven(n, l, m) && total == Product(n, l, m) > 4
    ensures !TriplesCovered(n, m, l, total)
  {
    hide Multiple, OnePairEven, Product;
    var far := (total + 2) / 3;
    forall t: nat | t < total ensures !TripleAt(n, m, l, far, far, far, t) {
      Thirds(t, total);
      AllLevel(n, m, l, total, (t + 2) / 3, (t + 1) / 3, t / 3, far);
    }
    hide TripleAt, TriplesCovered;
    Missing(n, m, l, total, far, far, far);
  }

  // ---------------------------------------------------------------- three coprime counters

  /** Three stretches that cover the circle follow one another, in one of the two orders. */
  lemma ThreeStretches(total: nat, k0: nat, k1: nat, k2: nat, e1: nat, e2: nat)
    requires 0 < k2 <= k1 <= k0 && k0 + k1 + k2 == total && e1 < total && e2 < total
    requires forall z: nat | z < total :: z < k0 || Within(z, e1, k1, total) || Within(z, e2, k2, total)
    ensures (e1 == k0 && e2 == k0 + k1) || (e2 == k0 && e1 == k0 + k2)
  {
    assert Within(k0, e1, k1, total) || Within(k0, e2, k2, total);
    assert e1 + k1 < total ==> e1 + k1 < k0 || Within(e1 + k1, e1, k1, total) || Within(e1 + k1, e2, k2, total);
    assert e2 + k2 < total ==> e2 + k2 < k0 || Within(e2 + k2, e1, k1, total) || Within(e2 + k2, e2, k2, total);
  }

  ghost predicate Coprime3(n: nat, m: nat, l: nat) { Gcd(n, m) == 1 && Gcd(n, l) == 1 && Gcd(m, l) == 1 }

  /** The residues of e are x, y and z. */
  ghost predicate Residues(n: nat, m: nat, l: nat, e: int, x: int, y: int, z: int) {
    Multiple(n, e - x) && Multiple(m, e - y) && Multiple(l, e - z)
  }

  /** A product of two units of n is one. */
  lemma UnitProduct(n: nat, u: int, v: int)
    requires Multiple(n, u - 1) && Multiple(n, v - 1)
    ensures Multiple(n, u * v - 1)
  {
    Times(n, u - 1, v);
    Plus(n, (u - 1) * v, v - 1);
    assert (u - 1) * v + (v - 1) == u * v - 1;
  }

  lemma FirstUnit(n: nat, m: nat, l: nat) returns (e: int)
    requires Gcd(n, m) == 1 && Gcd(n, l) == 1
    ensures Residues(n, m, l, e, 1, 0, 0)
  {
    var u := UnitFor(n, m);
    var v := UnitFor(n, l);
    hide Gcd, Multiple;
    e := u * v;
    UnitProduct(n, u, v);
    Times(m, u, v);
    Times(l, v, u);
  }

  /** Anything with the same residues in the range of the circle. */
  lemma ResiduesIn(n: nat, m: nat, l: nat, total: nat, far: int, x: int, y: int, z: int) returns (e: nat)
    requires total > 0 && Multiple(n, total) && Multiple(m, total) && Multiple(l, total) && Residues(n, m, l, far, x, y, z)
    ensures e < total && Residues(n, m, l, e, x, y, z)
  {
    IsMod(total, far);
    e := far % total;
    hide Multiple;
    Through(n, total, far - e);
    Through(m, total, far - e);
    Through(l, total, far - e);
    Plus(n, far - x, far - e);
    Plus(m, far - y, far - e);
    Plus(l, far - z, far - e);
    assert far - x - (far - e) == e - x && far - y - (far - e) == e - y && far - z - (far - e) == e - z;
  }

  /** Where the residues z, z, z come up, z is k, or k behind one of the two units. */
  lemma TriplePlace(n: nat, m: nat, l: nat, total: nat, e: nat, x: nat, y: nat, k: nat, z: nat)
    requires Coprime3(n, m, l) && total == Product(n, m, l) && e < total && k < total && z < total && Residues(n, m, l, e, x, y, 0)
    requires Multiple(n, k + x - z) && Multiple(m, k + y - z) && Multiple(l, k - z)
    ensures z == k + e || z + total == k + e
  {
    hide Gcd, Multiple;
    Plus(n, e - x, k + x - z);
    Plus(m, e - y, k + y - z);
    Plus(l, e - 0, k - z);
    assert e - x + (k + x - z) == e - y + (k + y - z) == e - 0 + (k - z) == k + e - z;
    AllCoprime(n, m, l, k + e - z);
    Times(total, k + e - z, -1);
    assert (k + e - z) * -1 == z - (k + e);
    Nearby(total, z, k, e);
  }

  lemma TriplePlaces(n: nat, m: nat, l: nat, total: nat, e1: nat, e2: nat, z: nat, t: nat)
    requires Coprime3(n, m, l) && total == Product(n, m, l) && z < total && t < total && e1 < total && e2 < total
    requires Residues(n, m, l, e1, 1, 0, 0) && Residues(n, m, l, e2, 1, 1, 0) && TripleAt(n, m, l, z, z, z, t)
    ensures z < (total + 2) / 3 || Within(z, e1, (total + 1) / 3, total) || Within(z, e2, total / 3, total)
  {
    hide Coprime3, Product, Multiple;
    var k := t / 3;
    if t % 3 == 0 {
      NoUnit(n, m, l);
      TriplePlace(n, m, l, total, 0, 0, 0, k, z);
    } else if t % 3 == 1 {
      TriplePlace(n, m, l, total, e1, 1, 0, k, z);
    } else {
      TriplePlace(n, m, l, total, e2, 1, 1, k, z);
    }
  }

  lemma NoUnit(n: nat, m: nat, l: nat)
    ensures Residues(n, m, l, 0, 0, 0, 0)
  {
    Zero(n);
    Zero(m);
    Zero(l);
  }

  /** A length divides what two multiples of it differ by. */
  lemma Leaves(n: nat, d: int, e: int, r: int)
    requires Multiple(n, d) && Multiple(n, e) && d - e == r
    ensures Multiple(n, r)
  {
    Plus(n, d, e);
  }

  lemma OneOrPrime(n: nat, r: nat)
    requires n >= 2 && (r == 2 || r == 3) && Multiple(n, r)
    ensures n == r
  {
    if n > r { Small(n, r); }
    var q: int :| r == n * q;
    assert n == 2 ==> r == 2 * q;
  }

  /** The lengths divide what is left of the product after three stretches. */
  lemma StretchLeaves(n: nat, m: nat, l: nat, total: nat, e1: nat, e2: nat)
    requires Multiple(n, total) && Multiple(m, total) && Multiple(l, total)
    requires Residues(n, m, l, e1, 1, 0, 0) && Residues(n, m, l, e2, 1, 1, 0)
    ensures Multiple(n, total - 3 * e1 + 3) && Multiple(m, total - 3 * e1) && Multiple(l, total - 3 * e1)
    ensures Multiple(m, 2 * total - 3 * e1)
    ensures Multiple(m, 2 * total - 3 * e2 + 3) && Multiple(m, total - 3 * e2 + 3) && Multiple(n, total - 3 * e2 + 3)
  {
    hide Multiple;
    Times(n, e1 - 1, 3);
    Times(m, e1 - 0, 3);
    Times(l, e1 - 0, 3);
    Times(m, e2 - 1, 3);
    Times(n, e2 - 1, 3);
    Times(m, total, 2);
    Leaves(n, total, (e1 - 1) * 3, total - 3 * e1 + 3);
    Leaves(m, total, (e1 - 0) * 3, total - 3 * e1);
    Leaves(l, total, (e1 - 0) * 3, total - 3 * e1);
    Leaves(m, total * 2, (e1 - 0) * 3, 2 * total - 3 * e1);
    Leaves(m, total * 2, (e2 - 1) * 3, 2 * total - 3 * e2 + 3);
    Leaves(m, total, (e2 - 1) * 3, total - 3 * e2 + 3);
    Leaves(n, total, (e2 - 1) * 3, total - 3 * e2 + 3);
  }

  lemma Flip(n: nat, d: int)
    requires Multiple(n, d)
    ensures Multiple(n, -d)
  {
    Times(n, d, -1);
  }

  lemma NotTwoAlike(n: nat, m: nat, r: nat)
    requires n >= 2 && m >= 2 && (r == 2 || r == 3) && Multiple(n, r) && Multiple(m, r)
    ensures Gcd(n, m) != 1
  {
    OneOrPrime(n, r);
    OneOrPrime(m, r);
    assert Gcd(r, r) == Gcd(r, r % r) == r;
  }

  /** The stretches cannot follow one another in either order. */
  lemma NoOrder(n: nat, m: nat, l: nat, total: nat, e1: nat, e2: nat)
    requires n >= 2 && m >= 2 && l >= 2 && Coprime3(n, m, l)
    requires Multiple(n, total) && Multiple(m, total) && Multiple(l, total)
    requires Residues(n, m, l, e1, 1, 0, 0) && Residues(n, m, l, e2, 1, 1, 0)
    ensures !(e1 == (total + 2) / 3 && e2 == (total + 2) / 3 + (total + 1) / 3)
    ensures !(e2 == (total + 2) / 3 && e1 == (total + 2) / 3 + total / 3)
  {
    StretchLeaves(n, m, l, total, e1, e2);
    hide Multiple, Residues, Gcd;
    Flip(m, total - 3 * e1);
    Flip(l, total - 3 * e1);
    Flip(m, 2 * total - 3 * e1);
    if e1 == (total + 2) / 3 && e2 == (total + 2) / 3 + (total + 1) / 3 {
      if total % 3 == 0 { NotTwoAlike(n, m, 3); }
      else if total % 3 == 1 { NotTwoAlike(m, l, 2); }
      else { OfOne(m); }
    }
    if e2 == (total + 2) / 3 && e1 == (total + 2) / 3 + total / 3 {
      if total % 3 == 0 { NotTwoAlike(n, m, 3); } else { OfOne(m); }
    }
  }

  lemma CoprimeTriple(n: nat, m: nat, l: nat, total: nat)
    requires n >= 2 && m >= 2 && l >= 2 && Coprime3(n, m, l) && total == Product(n, m, l) > 4
    requires Multiple(n, total) && Multiple(m, total) && Multiple(l, total)
    ensures !TriplesCovered(n, m, l, total)
  {
    var far1 := FirstUnit(n, m, l);
    var e1 := ResiduesIn(n, m, l, total, far1, 1, 0, 0);
    var far2 := LastZero(n, m, l);
    var e2 := ResiduesIn(n, m, l, total, far2, 1, 1, 0);
    hide Multiple, Residues, Product, Coprime3, Gcd;
    NoOrder(n, m, l, total, e1, e2);
    if TriplesCovered(n, m, l, total) {
      CoverStretches(n, m, l, total, e1, e2);
      hide Within;
      ThreeStretches(total, (total + 2) / 3, (total + 1) / 3, total / 3, e1, e2);
    }
  }

  lemma CoverStretches(n: nat, m: nat, l: nat, total: nat, e1: nat, e2: nat)
    requires Coprime3(n, m, l) && total == Product(n, m, l) && e1 < total && e2 < total && TriplesCovered(n, m, l, total)
    requires Residues(n, m, l, e1, 1, 0, 0) && Residues(n, m, l, e2, 1, 1, 0)
    ensures forall z: nat | z < total :: z < (total + 2) / 3 || Within(z, e1, (total + 1) / 3, total) || Within(z, e2, total / 3, total)
  {
    hide Multiple, Residues, Product, Coprime3, Within, TripleAt;
    forall z: nat | z < total
      ensures z < (total + 2) / 3 || Within(z, e1, (total + 1) / 3, total) || Within(z, e2, total / 3, total)
    {
      assert TripleComes(n, m, l, total, z, z, z);
      var t: nat :| t < total && TripleAt(n, m, l, z, z, z, t);
      TriplePlaces(n, m, l, total, e1, e2, z, t);
    }
  }

  /** One minus a unit of l. */
  lemma LastZero(n: nat, m: nat, l: nat) returns (e: int)
    requires Gcd(n, l) == 1 && Gcd(m, l) == 1
    ensures Residues(n, m, l, e, 1, 1, 0)
  {
    GcdSymmetric(n, l);
    GcdSymmetric(m, l);
    hide Gcd;
    var far := FirstUnit(l, n, m);
    e := 1 - far;
    hide Multiple;
    Flip(l, far - 1);
    Flip(n, far - 0);
    Flip(m, far - 0);
    assert e - 1 == -(far - 0) && e - 0 == -(far - 1);
  }

  lemma Products(n: nat, m: nat, l: nat)
    requires n >= 2 && m >= 2 && l >= 2
    ensures var total := Product(n, m, l);
            && total == Product(m, l, n) == Product(n, l, m) > 4
            && Multiple(n, total) && Multiple(m, total) && Multiple(l, total)
  {
    AtLeastFour(n, m);
    AtLeastFour(n * m, l);
    Turned(n, m, l);
    assert n * m * l == n * (m * l) == m * (n * l) == l * (n * m);
    assert n * m * l > n * m;
    assert m * l * n == n * m * l && n * l * m == n * m * l;
  }

  /** Main result: three counters of lengths from 2 on never show every triple of residues within their product. */
  lemma TriplesNever(n: nat, m: nat, l: nat)
    requires n >= 2 && m >= 2 && l >= 2
    ensures !TriplesCovered(n, m, l, Product(n, m, l))
  {
    var total := Product(n, m, l);
    Products(n, m, l);
    GcdPositive(n, m);
    GcdPositive(m, l);
    GcdPositive(n, l);
    hide Gcd, Multiple, Product, TriplesCovered;
    if Gcd(n, m) >= 3 || Gcd(m, l) >= 3 || Gcd(n, l) >= 3 {
      FarTriple(n, m, l, total);
    } else {
      SmallTriple(n, m, l, total);
    }
  }

  lemma SmallTriple(n: nat, m: nat, l: nat, total: nat)
    requires n >= 2 && m >= 2 && l >= 2 && 1 <= Gcd(n, m) <= 2 && 1 <= Gcd(m, l) <= 2 && 1 <= Gcd(n, l) <= 2
    requires total == Product(n, m, l) == Product(m, l, n) == Product(n, l, m) > 4
    requires Multiple(n, total) && Multiple(m, total) && Multiple(l, total)
    ensures !TriplesCovered(n, m, l, total)
  {
    GcdSymmetric(n, m);
    GcdSymmetric(n, l);
    GcdSymmetric(m, l);
    GcdDivides(n, m);
    GcdDivides(m, l);
    GcdDivides(n, l);
    hide Gcd, Multiple, Product, TriplesCovered;
    if Gcd(n, m) == 1 && Gcd(n, l) == 1 && Gcd(m, l) == 1 { CoprimeTriple(n, m, l, total); }
    else if Gcd(n, m) == 2 && Gcd(n, l) == 1 && Gcd(m, l) == 1 { FirstPairEven(n, m, l, total); }
    else if Gcd(m, l) == 2 && Gcd(n, m) == 1 && Gcd(n, l) == 1 { LastPairEven(n, m, l, total); }
    else if Gcd(n, l) == 2 && Gcd(n, m) == 1 && Gcd(m, l) == 1 { OuterPairEven(n, m, l, total); }
    else { EvenTriple(n, m, l, total); }
  }
}
