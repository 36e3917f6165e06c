/** The order in which the compiler, the fake-attack enumerator and the path enumerator list what they find, and with it the
    numbers that the paths get. */
module ListingOrder {
  import opened Sequences
  import opened ActionTypes
  import opened MixedRadix
  import opened TargetDomains
  import opened BindingGraph
  import opened TurnCompiler
  import opened TurnSolutions
  import opened FakeAttacks
  import opened Explorer

  // ---------------------------------------------------------------- compiled turns

  /** The target at place k of the assignment order. */
  function MaskAt(pr: Problem, n: nat, s: TurnPlanSpec, k: nat): bv32
    requires pr.Valid(n) && |s| == n && k < |pr.order|
  {
    s[pr.actorIndex[pr.order[k]]].targetMask
  }

  /** From place oi on the two first differ at place k, where s has the lower mask. */
  ghost predicate LowerAt(pr: Problem, n: nat, s: TurnPlanSpec, t: TurnPlanSpec, oi: nat, k: nat)
    requires pr.Valid(n) && |s| == |t| == n
  {
    && oi <= k < |pr.order| && Below(MaskAt(pr, n, s, k), MaskAt(pr, n, t, k))
    && forall l | oi <= l < k :: MaskAt(pr, n, s, l) == MaskAt(pr, n, t, l)
  }

  ghost predicate Lower(pr: Problem, n: nat, s: TurnPlanSpec, t: TurnPlanSpec, oi: nat)
    requires pr.Valid(n) && |s| == |t| == n
  {
    exists k: nat :: LowerAt(pr, n, s, t, oi, k)
  }

  ghost predicate Sized(list: seq<TurnPlanSpec>, n: nat) { forall s | s in list :: |s| == n }

  ghost predicate Rising(pr: Problem, n: nat, list: seq<TurnPlanSpec>, oi: nat)
    requires pr.Valid(n)
  {
    Sized(list, n) && forall i, j | 0 <= i < j < |list| :: |list[i]| == |list[j]| == n && Lower(pr, n, list[i], list[j], oi)
  }

  ghost predicate AllHave(pr: Problem, n: nat, list: seq<TurnPlanSpec>, oi: nat, m: bv32)
    requires pr.Valid(n) && oi < |pr.order|
  {
    forall s | s in list :: |s| == n && MaskAt(pr, n, s, oi) == m
  }

  /** A list with the same target at one place rises from there if it rises behind. */
  lemma RisesEarlier(pr: Problem, n: nat, list: seq<TurnPlanSpec>, oi: nat, m: bv32)
    requires pr.Valid(n) && oi < |pr.order| && Rising(pr, n, list, oi + 1) && AllHave(pr, n, list, oi, m)
    ensures Rising(pr, n, list, oi)
  {
    hide MaskAt, Problem.Valid, Below;
    forall i, j | 0 <= i < j < |list| ensures Lower(pr, n, list[i], list[j], oi) {
      assert list[i] in list && list[j] in list;
      var k: nat :| LowerAt(pr, n, list[i], list[j], oi + 1, k);
      assert LowerAt(pr, n, list[i], list[j], oi, k);
    }
  }

  lemma RisesJoined(pr: Problem, n: nat, a: seq<TurnPlanSpec>, b: seq<TurnPlanSpec>, oi: nat, m: bv32)
    requires pr.Valid(n) && oi < |pr.order| && Rising(pr, n, a, oi) && Rising(pr, n, b, oi) && AllHave(pr, n, a, oi, m)
    requires forall s | s in b :: |s| == n && Below(m, MaskAt(pr, n, s, oi))
    ensures Rising(pr, n, a + b, oi)
  {
    hide MaskAt, Problem.Valid, Below;
    var c := a + b;
    forall i, j | 0 <= i < j < |c| ensures |c[i]| == |c[j]| == n && Lower(pr, n, c[i], c[j], oi) {
      assert c[i] in c && c[j] in c;
      if i < |a| <= j {
        assert c[i] in a && c[j] in b;
        assert LowerAt(pr, n, c[i], c[j], oi, oi);
      }
    }
  }

  /** The completions that take m at place oi do. */
  lemma ChoiceHas(pr: Problem, n: nat, cur: TurnPlanSpec, oi: nat, m: bv32)
    requires pr.Valid(n) && |cur| == n && oi < |pr.order|
    ensures AllHave(pr, n, Solve(pr, n, SetMask(cur, pr.actorIndex[pr.order[oi]], m), oi + 1), oi, m)
  {
    hide Solve, SetMask, Agree, Passed;
    var list := Solve(pr, n, SetMask(cur, pr.actorIndex[pr.order[oi]], m), oi + 1);
    forall s | s in list ensures |s| == n && MaskAt(pr, n, s, oi) == m { ChoiceExact(pr, n, cur, oi, s, m); }
  }

  lemma {:induction false} SolveRises(pr: Problem, n: nat, cur: TurnPlanSpec, oi: nat)
    requires pr.Valid(n) && |cur| == n && oi <= |pr.order|
    requires forall v | v in pr.vars :: Ascending(v.domain)
    ensures Rising(pr, n, Solve(pr, n, cur, oi), oi)
    decreases |pr.order| - oi, 0
  {
    hide Rising, AllHave, Ascending;
    if oi == |pr.order| {
      OneRises(pr, n, cur, oi);
    } else {
      var actor := pr.order[oi];
      var at := pr.actorIndex[actor];
      if actor in pr.concrete {
        ChoiceRises(pr, n, cur, oi, pr.concrete[actor]);
      } else {
        var v := pr.VarFor(actor);
        match v.bindTo
        case None => BranchesRise(pr, n, cur, oi, v.domain);
        case Some(mirrored) =>
          if mirrored in pr.concrete {
            ChoiceRises(pr, n, cur, oi, pr.concrete[mirrored]);
          } else if mirrored in pr.order[..oi] {
            EarlierIsFixed(pr, n, oi, mirrored);
            var m := cur[pr.actorIndex[mirrored]].targetMask;
            if m != 0 { ChoiceRises(pr, n, cur, oi, m); } else { NoneRises(pr, n, oi); }
          } else {
            NoneRises(pr, n, oi);
          }
      }
    }
  }

  lemma OneRises(pr: Problem, n: nat, cur: TurnPlanSpec, oi: nat)
    requires pr.Valid(n) && |cur| == n
    ensures Rising(pr, n, [cur], oi)
  {
  }

  lemma NoneRises(pr: Problem, n: nat, oi: nat)
    requires pr.Valid(n)
    ensures Rising(pr, n, [], oi)
  {
  }

  lemma ChoiceRises(pr: Problem, n: nat, cur: TurnPlanSpec, oi: nat, m: bv32)
    requires pr.Valid(n) && |cur| == n && oi < |pr.order|
    requires forall v | v in pr.vars :: Ascending(v.domain)
    ensures Rising(pr, n, Solve(pr, n, SetMask(cur, pr.actorIndex[pr.order[oi]], m), oi + 1), oi)
    decreases |pr.order| - oi - 1, 1
  {
    hide Rising, AllHave, Ascending, Solve, SetMask;
    SolveRises(pr, n, SetMask(cur, pr.actorIndex[pr.order[oi]], m), oi + 1);
    ChoiceHas(pr, n, cur, oi, m);
    RisesEarlier(pr, n, Solve(pr, n, SetMask(cur, pr.actorIndex[pr.order[oi]], m), oi + 1), oi, m);
  }

  lemma {:induction false} BranchesRise(pr: Problem, n: nat, cur: TurnPlanSpec, oi: nat, domain: seq<bv32>)
    requires pr.Valid(n) && |cur| == n && oi < |pr.order| && Ascending(domain)
    requires forall v | v in pr.vars :: Ascending(v.domain)
    ensures Rising(pr, n, Branches(pr, n, cur, oi, domain), oi)
    decreases |pr.order| - oi - 1, 2 + |domain|
  {
    hide Rising, AllHave, Solve, SetMask, Ascending;
    if domain == [] {
      NoneRises(pr, n, oi);
    } else {
      var here, later := Solve(pr, n, SetMask(cur, pr.actorIndex[pr.order[oi]], domain[0]), oi + 1), Branches(pr, n, cur, oi, domain[1..]);
      AscendingTail(domain);
      ChoiceRises(pr, n, cur, oi, domain[0]);
      ChoiceHas(pr, n, cur, oi, domain[0]);
      BranchesRise(pr, n, cur, oi, domain[1..]);
      LaterAbove(pr, n, cur, oi, domain);
      hide Branches;
      RisesJoined(pr, n, here, later, oi, domain[0]);
    }
  }

  lemma AscendingTail(domain: seq<bv32>)
    requires domain != [] && Ascending(domain)
    ensures Ascending(domain[1..]) && forall m | m in domain[1..] :: Below(domain[0], m)
  {
  }

  lemma LaterAbove(pr: Problem, n: nat, cur: TurnPlanSpec, oi: nat, domain: seq<bv32>)
    requires pr.Valid(n) && |cur| == n && oi < |pr.order| && domain != [] && Ascending(domain)
    ensures forall s | s in Branches(pr, n, cur, oi, domain[1..]) :: |s| == n && Below(domain[0], MaskAt(pr, n, s, oi))
  {
    AscendingTail(domain);
    hide Branches, Agree, Passed, Ascending;
    forall s | s in Branches(pr, n, cur, oi, domain[1..]) ensures |s| == n && Below(domain[0], MaskAt(pr, n, s, oi)) {
      BranchesExact(pr, n, cur, oi, domain[1..], s);
    }
  }

  /** Main result: of two specifications listed for a turn, the earlier has the lower mask at the first place of the assignment
      order where they differ. */
  lemma CompileRises(turn: UiTurn, bc: BattleContext)
    requires bc.Valid()
    ensures ProblemOf(turn, bc).Valid(|turn|) && Rising(ProblemOf(turn, bc), |turn|, Compile(turn, bc), 0)
  {
    var pr := ProblemOf(turn, bc);
    ProblemIsValid(turn, bc);
    forall v | v in pr.vars ensures Ascending(v.domain) { DomainsAscend(turn, bc, v); }
    hide ProblemOf, Solve, EmptyDomain, Cyclic, Rising, Ascending;
    NoneRises(pr, |turn|, 0);
    SolveRises(pr, |turn|, Primed(turn), 0);
  }

  lemma DomainsAscend(turn: UiTurn, bc: BattleContext, v: Var)
    requires bc.Valid() && v in Vars(turn, bc)
    ensures Ascending(v.domain)
  {
    VarsFacts(turn, bc);
    hide MaskBits, Vars;
    var i :| 0 <= i < |turn| && !turn[i].target.kind.SingleEnemy? && v == VarOf(turn[i], bc);
    MaskBitsExact(turn[i].target.mask);
    MaskBitsExact(EnemyMaskFrom(bc, 4));
  }

  // ---------------------------------------------------------------- fake-attack vectors

  /** Fewer fake attacks come first, and among as many the dictionary order decides. */
  ghost predicate Earlier(u: seq<nat>, v: seq<nat>) {
    |u| == |v| && (Sum(u) < Sum(v) || (Sum(u) == Sum(v) && LexLess(u, v)))
  }

  ghost predicate AllEarlier(xs: seq<seq<nat>>) { forall i, j | 0 <= i < j < |xs| :: Earlier(xs[i], xs[j]) }

  ghost predicate InDictionary(xs: seq<seq<nat>>, n: nat) {
    (forall v | v in xs :: |v| == n) && forall i, j | 0 <= i < j < |xs| :: |xs[i]| == |xs[j]| && LexLess(xs[i], xs[j])
  }

  lemma PrefixedInOrder(first: nat, xs: seq<seq<nat>>, n: nat)
    requires InDictionary(xs, n)
    ensures InDictionary(Prefixed([first], xs), n + 1) && forall v | v in Prefixed([first], xs) :: v != [] && v[0] == first
  {
    var ys := Prefixed([first], xs);
    forall v | v in ys ensures |v| == n + 1 && v[0] == first {
      var i :| 0 <= i < |xs| && v == [first] + xs[i];
      assert xs[i] in xs;
    }
    forall i, j | 0 <= i < j < |ys| ensures |ys[i]| == |ys[j]| && LexLess(ys[i], ys[j]) {
      assert ys[i][1..] == xs[i] && ys[j][1..] == xs[j];
    }
  }

  lemma JoinedInOrder(a: seq<seq<nat>>, b: seq<seq<nat>>, n: nat, first: nat)
    requires InDictionary(a, n) && InDictionary(b, n) && n > 0
    requires (forall v | v in a :: |v| == n && v[0] == first) && forall v | v in b :: |v| == n && v[0] > first
    ensures InDictionary(a + b, n)
  {
    var c := a + b;
    forall i, j | 0 <= i < j < |c| ensures |c[i]| == |c[j]| && LexLess(c[i], c[j]) {
      if i < |a| <= j { assert c[i] in a && c[j] in b; }
    }
  }

  lemma {:induction false} CompositionsInOrder(k: nat, sum: nat)
    requires k > 0
    ensures InDictionary(Compositions(k, sum), k)
    decreases k, sum + 1
  {
    hide InDictionary;
    if k == 1 { OneInOrder(sum); } else { FromInOrder(k, sum, 0); }
  }

  lemma OneInOrder(sum: nat)
    ensures InDictionary([[sum]], 1)
  {
  }

  lemma NoneInOrder(n: nat)
    ensures InDictionary([], n)
  {
  }

  lemma {:induction false} FromInOrder(k: nat, sum: nat, first: nat)
    requires k > 1
    ensures InDictionary(CompositionsFrom(k, sum, first), k) && forall v | v in CompositionsFrom(k, sum, first) :: |v| == k && v[0] >= first
    decreases k, sum - first
  {
    hide InDictionary, Prefixed, LexLess;
    if first > sum {
      NoneInOrder(k);
    } else {
      CompositionsInOrder(k - 1, sum - first);
      PrefixedInOrder(first, Compositions(k - 1, sum - first), k - 1);
      FromInOrder(k, sum, first + 1);
      SameLength(Prefixed([first], Compositions(k - 1, sum - first)), k);
      JoinedInOrder(Prefixed([first], Compositions(k - 1, sum - first)), CompositionsFrom(k, sum, first + 1), k, first);
    }
  }

  lemma SameLength(xs: seq<seq<nat>>, n: nat)
    requires InDictionary(xs, n)
    ensures forall v | v in xs :: |v| == n
  {
  }

  lemma {:induction false} SumsInOrder(n: nat, s: nat, budget: nat)
    requires n > 0
    ensures AllEarlier(VectorsFrom(n, s, budget))
    decreases budget - s
  {
    hide Compositions, Sum, LexLess, Distinct, AllEarlier, InDictionary;
    if s <= budget {
      SumsInOrder(n, s + 1, budget);
      CompositionsInOrder(n, s);
      CompositionsExact(n, s);
      VectorsFromExact(n, s + 1, budget);
      SumsJoined(Compositions(n, s), VectorsFrom(n, s + 1, budget), n, s);
    } else {
      NoneEarlier();
    }
  }

  lemma NoneEarlier()
    ensures AllEarlier([])
  {
  }

  lemma SumsJoined(a: seq<seq<nat>>, b: seq<seq<nat>>, n: nat, s: nat)
    requires InDictionary(a, n) && (forall v | v in a :: Sum(v) == s)
    requires (forall v | v in b :: |v| == n && Sum(v) > s) && AllEarlier(b)
    ensures AllEarlier(a + b)
  {
    hide Sum, LexLess;
    var c := a + b;
    forall i, j | 0 <= i < j < |c| ensures Earlier(c[i], c[j]) {
      if j < |a| { assert c[i] in a && c[j] in a && LexLess(a[i], a[j]); }
      else if i < |a| { assert c[i] in a && c[j] in b; }
      else { assert Earlier(b[i - |a|], b[j - |a|]); }
    }
  }

  /** Main result: the vectors come by their sums, and with equal sums in dictionary order. */
  lemma VectorsInOrder(n: nat, budget: nat)
    ensures AllEarlier(Vectors(n, budget))
  {
    hide VectorsFrom, AllEarlier;
    if n > 0 { SumsInOrder(n, 0, budget); } else { NoneEarlier(); }
  }

  // ---------------------------------------------------------------- paths

  lemma PlaceInside(k: nat, j: nat, width: nat, count: nat)
    requires j < width && k < count
    ensures k * width + j < count * width && (k + 1) * width == k * width + width
  {
    MulStrict(width, k, count);
    assert (k + 1) * width <= count * width;
  }

  lemma {:induction false} ExpandedSize(n: nat, bases: seq<BattlePath>, fvs: seq<seq<nat>>)
    requires Usable(n, fvs) && forall k | 0 <= k < |bases| :: |bases[k]| == n
    ensures |ExpandAll(n, bases, fvs)| == |bases| * |fvs|
  {
    hide Usable, Expand;
    if bases != [] {
      ExpandedSize(n, bases[..|bases| - 1], fvs);
      assert |bases| * |fvs| == (|bases| - 1) * |fvs| + |fvs|;
    }
  }

  /** Main result: path number k * |vectors| + j is base path k with vector j. */
  lemma {:induction false} PathNumber(n: nat, bases: seq<BattlePath>, fvs: seq<seq<nat>>, k: nat, j: nat)
    requires Usable(n, fvs) && (forall i | 0 <= i < |bases| :: |bases[i]| == n) && k < |bases| && j < |fvs|
    ensures k * |fvs| + j < |ExpandAll(n, bases, fvs)| && |fvs[j]| == n
    ensures var p := ExpandAll(n, bases, fvs)[k * |fvs| + j];
            |p| == n && forall t | 0 <= t < n :: p[t] == TurnPlan(fvs[j][t], bases[k][t].spec)
  {
    PlaceInside(k, j, |fvs|, |bases|);
    ExpandedSize(n, bases, fvs);
    ExpandedAt(n, bases, fvs, k, j);
    hide ExpandAll;
  }

  lemma {:induction false} ExpandedAt(n: nat, bases: seq<BattlePath>, fvs: seq<seq<nat>>, k: nat, j: nat)
    requires Usable(n, fvs) && (forall i | 0 <= i < |bases| :: |bases[i]| == n) && k < |bases| && j < |fvs|
    requires k * |fvs| + j < |ExpandAll(n, bases, fvs)|
    ensures ExpandAll(n, bases, fvs)[k * |fvs| + j] == WithFakes(bases[k], fvs[j])
  {
    hide WithFakes;
    var front := bases[..|bases| - 1];
    ExpandedSize(n, front, fvs);
    if k < |bases| - 1 {
      PlaceInside(k, j, |fvs|, |front|);
      ExpandedAt(n, front, fvs, k, j);
    }
  }
}
