/** Setting up the combination search from the probe's results: the inputs by delta, the sums nobody has observed
    alone, and per target the triples of deltas that sum to it. */
module SeedInputs {
  import opened Bytes
  import opened Sequences
  import opened Strides
  import opened FairCombos
  import opened FairWalk
  import opened SeedBoard

  datatype Family = Neutral | MainStick | CStick | Triggers

  datatype ProbeEntry = ProbeEntry(family: Family, input: Pair, delta: int, ok: bool)

  // ---------------------------------------------------------------- inputs by delta

  /** The pair is one of the family's inputs with that delta. */
  ghost predicate Observed(entries: seq<ProbeEntry>, family: Family, d: int, p: Pair) {
    exists e :: e in entries && e.family == family && Int32(e.delta) == d && e.input == p
  }

  ghost predicate IsInverse(m: DeltaMap, entries: seq<ProbeEntry>, family: Family) {
    && (forall d | d in m :: m[d] != [])
    && (forall d, p :: (d in m && p in m[d]) <==> Observed(entries, family, d, p))
  }

  method InverseMap(entries: seq<ProbeEntry>, family: Family) returns (m: DeltaMap)
    ensures IsInverse(m, entries, family)
  {
    hide Int32;
    m := map[];
    for i := 0 to |entries|
      invariant IsInverse(m, entries[..i], family)
    {
      var e := entries[i];
      assert entries[..i + 1] == entries[..i] + [e];
      ghost var before := m;
      if e.family == family {
        var d := Int32(e.delta);
        m := m[d := (if d in m then m[d] else []) + [e.input]];
      }
      InverseStep(before, m, entries[..i], e, family);
    }
    assert entries[..|entries|] == entries;
  }

  lemma InverseStep(before: DeltaMap, m: DeltaMap, entries: seq<ProbeEntry>, e: ProbeEntry, family: Family)
    requires IsInverse(before, entries, family)
    requires var d := Int32(e.delta);
             m == if e.family == family then before[d := (if d in before then before[d] else []) + [e.input]] else before
    ensures IsInverse(m, entries + [e], family)
  {
    hide Int32;
    forall d, p ensures (d in m && p in m[d]) <==> Observed(entries + [e], family, d, p) {
      assert (d in before && p in before[d]) <==> Observed(entries, family, d, p);
      if Observed(entries, family, d, p) {
        var x :| x in entries && x.family == family && Int32(x.delta) == d && x.input == p;
        assert x in entries + [e];
      }
      if e.family == family && d == Int32(e.delta) && p == e.input { assert e in entries + [e]; }
    }
  }

  // ---------------------------------------------------------------- sorted keys

  ghost predicate Increasing(s: seq<int>) {
    forall i, j | 0 <= i < j < |s| :: s[i] < s[j]
  }

  lemma {:induction false} Minimum(s: set<int>) returns (m: int)
    requires s != {}
    ensures m in s && forall x | x in s :: m <= x
    decreases s
  {
    m := Member(s);
    if s != {m} {
      assert s == {m} + (s - {m});
      var least := Minimum(s - {m});
      if least < m { m := least; }
    }
  }

  method Sorted(s: set<int>) returns (r: seq<int>)
    ensures Increasing(r) && forall x :: x in r <==> x in s
  {
    r := [];
    var rest := s;
    while rest != {}
      invariant Increasing(r) && rest <= s
      invariant forall x :: x in r <==> x in s && x !in rest
      invariant forall x, y | x in r && y in rest :: x < y
      decreases rest
    {
      ghost var least := Minimum(rest);
      var m :| m in rest && forall x | x in rest :: m <= x;
      forall i | 0 <= i < |r| ensures r[i] < m { assert r[i] in r; }
      r := r + [m];
      rest := rest - {m};
    }
  }

  // ---------------------------------------------------------------- targets

  /** A sum of one delta of each family. */
  ghost predicate IsSum(inputs: Inputs, t: int) {
    exists jd, cd :: IsSumBy(inputs, t, jd, cd)
  }

  ghost predicate IsSumBy(inputs: Inputs, t: int, jd: int, cd: int) {
    jd in inputs.j && cd in inputs.c && t - jd - cd in inputs.t
  }

  /** All sums that no single input was observed to give. */
  method FindTargets(inputs: Inputs, jKeys: seq<int>, cKeys: seq<int>, tKeys: seq<int>, singletons: set<int>) returns (targets: seq<int>)
    requires forall x :: x in jKeys <==> x in inputs.j
    requires forall x :: x in cKeys <==> x in inputs.c
    requires forall x :: x in tKeys <==> x in inputs.t
    ensures Increasing(targets) && forall t :: t in targets <==> IsSum(inputs, t) && t !in singletons
  {
    var sums: set<int> := {};
    for a := 0 to |jKeys|
      invariant forall s :: s in sums <==> s !in singletons && Reached(jKeys, cKeys, tKeys, a, 0, 0, s)
    {
      for b := 0 to |cKeys|
        invariant forall s :: s in sums <==> s !in singletons && Reached(jKeys, cKeys, tKeys, a, b, 0, s)
      {
        for c := 0 to |tKeys|
          invariant forall s :: s in sums <==> s !in singletons && Reached(jKeys, cKeys, tKeys, a, b, c, s)
        {
          var sum := jKeys[a] + cKeys[b] + tKeys[c];
          if sum !in singletons { sums := sums + {sum}; }
          forall s { ReachedStep(jKeys, cKeys, tKeys, a, b, c, c + 1, s); }
        }
        forall s { ReachedRow(jKeys, cKeys, tKeys, a, b, b + 1, s); }
      }
      forall s { ReachedPlane(jKeys, cKeys, tKeys, a, a + 1, s); }
    }
    forall s { ReachedAll(inputs, jKeys, cKeys, tKeys, s); }
    targets := Sorted(sums);
  }

  /** (x, y, z) comes before (a, b, d) in loop order, and its deltas sum to the given value. */
  ghost predicate Summed(j: seq<int>, c: seq<int>, t: seq<int>, a: nat, b: nat, d: nat, x: nat, y: nat, z: nat, sum: int) {
    && x < |j| && y < |c| && z < |t| && j[x] + c[y] + t[z] == sum
    && (x < a || (x == a && (y < b || (y == b && z < d))))
  }

  ghost predicate Reached(j: seq<int>, c: seq<int>, t: seq<int>, a: nat, b: nat, d: nat, sum: int) {
    exists x: nat, y: nat, z: nat :: Summed(j, c, t, a, b, d, x, y, z, sum)
  }

  lemma ReachedStep(j: seq<int>, c: seq<int>, t: seq<int>, a: nat, b: nat, d: nat, next: nat, sum: int)
    requires a < |j| && b < |c| && d < |t| && next == d + 1
    ensures Reached(j, c, t, a, b, next, sum) <==> sum == j[a] + c[b] + t[d] || Reached(j, c, t, a, b, d, sum)
  {
    if x: nat, y: nat, z: nat :| Summed(j, c, t, a, b, d, x, y, z, sum) { assert Summed(j, c, t, a, b, next, x, y, z, sum); }
    if sum == j[a] + c[b] + t[d] { assert Summed(j, c, t, a, b, next, a, b, d, sum); }
    if x: nat, y: nat, z: nat :| Summed(j, c, t, a, b, next, x, y, z, sum) {
      if !(x == a && y == b && z == d) { assert Summed(j, c, t, a, b, d, x, y, z, sum); }
    }
  }

  lemma ReachedRow(j: seq<int>, c: seq<int>, t: seq<int>, a: nat, b: nat, next: nat, sum: int)
    requires a < |j| && b < |c| && next == b + 1
    ensures Reached(j, c, t, a, b, |t|, sum) <==> Reached(j, c, t, a, next, 0, sum)
  {
    if x: nat, y: nat, z: nat :| Summed(j, c, t, a, b, |t|, x, y, z, sum) { assert Summed(j, c, t, a, next, 0, x, y, z, sum); }
    if x: nat, y: nat, z: nat :| Summed(j, c, t, a, next, 0, x, y, z, sum) { assert Summed(j, c, t, a, b, |t|, x, y, z, sum); }
  }

  lemma ReachedPlane(j: seq<int>, c: seq<int>, t: seq<int>, a: nat, next: nat, sum: int)
    requires a < |j| && next == a + 1
    ensures Reached(j, c, t, a, |c|, 0, sum) <==> Reached(j, c, t, next, 0, 0, sum)
  {
    if x: nat, y: nat, z: nat :| Summed(j, c, t, a, |c|, 0, x, y, z, sum) { assert Summed(j, c, t, next, 0, 0, x, y, z, sum); }
    if x: nat, y: nat, z: nat :| Summed(j, c, t, next, 0, 0, x, y, z, sum) { assert Summed(j, c, t, a, |c|, 0, x, y, z, sum); }
  }

  lemma ReachedAll(inputs: Inputs, j: seq<int>, c: seq<int>, t: seq<int>, sum: int)
    requires forall x :: x in j <==> x in inputs.j
    requires forall x :: x in c <==> x in inputs.c
    requires forall x :: x in t <==> x in inputs.t
    ensures IsSum(inputs, sum) <==> Reached(j, c, t, |j|, 0, 0, sum)
  {
    if x: nat, y: nat, z: nat :| Summed(j, c, t, |j|, 0, 0, x, y, z, sum) {
      assert t[z] == sum - j[x] - c[y];
      assert t[z] in t && c[y] in c && j[x] in j;
      assert IsSumBy(inputs, sum, j[x], c[y]);
    }
    if jd, cd :| IsSumBy(inputs, sum, jd, cd) {
      assert jd in j && cd in c && sum - jd - cd in t;
      var x: nat :| x < |j| && j[x] == jd;
      var y: nat :| y < |c| && c[y] == cd;
      var z: nat :| z < |t| && t[z] == sum - jd - cd;
      assert Summed(j, c, t, |j|, 0, 0, x, y, z, sum);
    }
  }

  // ---------------------------------------------------------------- triples

  /** The lists are those of the deltas. */
  ghost predicate FromInputs(inputs: Inputs, ts: TripleState) {
    && |ts.deltas| == |ts.lists| == 3
    && ts.deltas[0] in inputs.j && ts.lists[0] == inputs.j[ts.deltas[0]]
    && ts.deltas[1] in inputs.c && ts.lists[1] == inputs.c[ts.deltas[1]]
    && ts.deltas[2] in inputs.t && ts.lists[2] == inputs.t[ts.deltas[2]]
  }

  lemma OffersSums(inputs: Inputs, ts: TripleState, target: int, key: Key)
    requires FromInputs(inputs, ts) && ts.Valid(target) && Offers(ts, key)
    ensures Sums(inputs, key, target)
  {
    assert SumsBy(inputs, key, target, ts.deltas[0], ts.deltas[1], ts.deltas[2]);
  }

  /** The seeds that scatter start offsets and strides; any hash will do. */
  datatype Seeds = Seeds(of: (int, int, int) -> u64, stride: (u64, nat) -> u64)

  method NewTriple(inputs: Inputs, target: int, jd: int, cd: int, seeds: Seeds) returns (ts: TripleState)
    requires IsSumBy(inputs, target, jd, cd)
    requires inputs.j[jd] != [] && inputs.c[cd] != [] && inputs.t[target - jd - cd] != []
    ensures ts.Valid(target) && Ready(ts) && FromInputs(inputs, ts) && ts.deltas == [jd, cd, target - jd - cd]
    ensures ts.emitted == 0 && !ts.exhausted
  {
    var td := target - jd - cd;
    var lists := [inputs.j[jd], inputs.c[cd], inputs.t[td]];
    var seed: u64 := seeds.of(jd, cd, td);
    var sj := CoprimeStride(|lists[0]|, seeds.stride(seed, 0));
    var sc := CoprimeStride(|lists[1]|, seeds.stride(seed, 1));
    var st := CoprimeStride(|lists[2]|, seeds.stride(seed, 2));
    hide Gcd;
    SizesPositive(|lists[0]|, |lists[1]|, |lists[2]|);
    InList(seed, |lists[0]|);
    InList(seed / 128, |lists[1]|);
    InList(seed / 8192, |lists[2]|);
    ts := TripleState([jd, cd, td], lists, [seed % |lists[0]|, seed / 128 % |lists[1]|, seed / 8192 % |lists[2]|],
                      [sj, sc, st], seed / 8 % 3, 0, |lists[0]| * |lists[1]| * |lists[2]|, false);
  }

  lemma SizesPositive(x: nat, y: nat, z: nat)
    requires x > 0 && y > 0 && z > 0
    ensures x * y * z > 0
  {
    assert x * y > 0;
  }

  lemma InList(x: nat, n: nat)
    requires n > 0
    ensures x % n < n
  {
  }

  ghost predicate Before(a: seq<int>, b: seq<int>) {
    |a| == |b| == 3 && (a[0] < b[0] || (a[0] == b[0] && a[1] < b[1]))
  }

  /** Every triple of the target, in order of its deltas, so each once. */
  ghost predicate Listed(inputs: Inputs, target: int, triples: seq<TripleState>) {
    && (forall k | 0 <= k < |triples| :: triples[k].Valid(target) && FromInputs(inputs, triples[k]))
    && (forall k | 0 <= k < |triples| :: Ready(triples[k]) && triples[k].emitted == 0 && !triples[k].exhausted)
    && (forall k, l | 0 <= k < l < |triples| :: Before(triples[k].deltas, triples[l].deltas))
  }

  ghost predicate HasTriple(triples: seq<TripleState>, jd: int, cd: int, td: int) {
    exists k :: 0 <= k < |triples| && triples[k].deltas == [jd, cd, td]
  }

  /** Every triple of deltas that sums to the target, each once, on its own lists. */
  ghost predicate Complete(inputs: Inputs, target: int, triples: seq<TripleState>) {
    && (forall k | 0 <= k < |triples| :: FromInputs(inputs, triples[k]))
    && (forall k, l | 0 <= k < l < |triples| :: Before(triples[k].deltas, triples[l].deltas))
    && (forall jd, cd | IsSumBy(inputs, target, jd, cd) :: HasTriple(triples, jd, cd, target - jd - cd))
  }

  /** Drawing moves the walks, not the triples. */
  lemma CompleteSame(inputs: Inputs, target: int, before: seq<TripleState>, now: seq<TripleState>)
    requires Complete(inputs, target, before)
    requires |before| == |now| && forall k | 0 <= k < |now| :: Same(before[k], now[k])
    ensures Complete(inputs, target, now)
  {
    forall k | 0 <= k < |now| ensures FromInputs(inputs, now[k]) && now[k].deltas == before[k].deltas {
      assert Same(before[k], now[k]) && FromInputs(inputs, before[k]);
    }
    hide FromInputs, Same;
    forall jd, cd | IsSumBy(inputs, target, jd, cd) ensures HasTriple(now, jd, cd, target - jd - cd) {
      var k :| 0 <= k < |before| && before[k].deltas == [jd, cd, target - jd - cd];
      assert now[k].deltas == [jd, cd, target - jd - cd];
    }
  }

  /** All triples of deltas that sum to the target. */
  method TriplesFor(inputs: Inputs, target: int, jKeys: seq<int>, cKeys: seq<int>, seeds: Seeds) returns (triples: seq<TripleState>)
    requires Increasing(jKeys) && forall x :: x in jKeys <==> x in inputs.j
    requires Increasing(cKeys) && forall x :: x in cKeys <==> x in inputs.c
    requires forall d | d in inputs.j :: inputs.j[d] != []
    requires forall d | d in inputs.c :: inputs.c[d] != []
    requires forall d | d in inputs.t :: inputs.t[d] != []
    ensures Listed(inputs, target, triples)
    ensures forall jd, cd | IsSumBy(inputs, target, jd, cd) :: HasTriple(triples, jd, cd, target - jd - cd)
  {
    hide TripleState.Valid, Ready, FromInputs;
    triples := [];
    for a := 0 to |jKeys|
      invariant Listed(inputs, target, triples)
      invariant forall k | 0 <= k < |triples| :: |triples[k].deltas| == 3 && (a < |jKeys| ==> triples[k].deltas[0] < jKeys[a])
      invariant forall x, cd | 0 <= x < a && IsSumBy(inputs, target, jKeys[x], cd) ::
                  HasTriple(triples, jKeys[x], cd, target - jKeys[x] - cd)
    {
      for b := 0 to |cKeys|
        invariant Listed(inputs, target, triples)
        invariant forall k | 0 <= k < |triples| ::
                    && |triples[k].deltas| == 3
                    && (triples[k].deltas[0] < jKeys[a] ||
                        (triples[k].deltas[0] == jKeys[a] && (b < |cKeys| ==> triples[k].deltas[1] < cKeys[b])))
        invariant forall x, cd | 0 <= x < a && IsSumBy(inputs, target, jKeys[x], cd) ::
                    HasTriple(triples, jKeys[x], cd, target - jKeys[x] - cd)
        invariant forall y | 0 <= y < b && IsSumBy(inputs, target, jKeys[a], cKeys[y]) ::
                    HasTriple(triples, jKeys[a], cKeys[y], target - jKeys[a] - cKeys[y])
      {
        var need := target - jKeys[a] - cKeys[b];
        if need in inputs.t {
          assert jKeys[a] in jKeys && cKeys[b] in cKeys;
          var ts := NewTriple(inputs, target, jKeys[a], cKeys[b], seeds);
          ghost var before := triples;
          triples := triples + [ts];
          StillHas(before, ts);
        }
      }
      forall cd | IsSumBy(inputs, target, jKeys[a], cd) ensures HasTriple(triples, jKeys[a], cd, target - jKeys[a] - cd) {
        assert cd in cKeys;
      }
    }
    forall jd, cd | IsSumBy(inputs, target, jd, cd) ensures HasTriple(triples, jd, cd, target - jd - cd) {
      assert jd in jKeys;
    }
  }

  lemma StillHas(triples: seq<TripleState>, ts: TripleState)
    ensures forall jd, cd, td | HasTriple(triples, jd, cd, td) :: HasTriple(triples + [ts], jd, cd, td)
    ensures forall jd, cd, td | ts.deltas == [jd, cd, td] :: HasTriple(triples + [ts], jd, cd, td)
  {
    forall jd, cd, td | HasTriple(triples, jd, cd, td) ensures HasTriple(triples + [ts], jd, cd, td) {
      var k :| 0 <= k < |triples| && triples[k].deltas == [jd, cd, td];
      assert (triples + [ts])[k] == triples[k];
    }
    assert (triples + [ts])[|triples|] == ts;
  }
}
