/** What the per-turn compiler's result means: exactly the satisfying target assignments, each once, whenever
    every mirrored target is settled before its mirrors; nothing at all otherwise. */
module TurnSolutions {
  import opened Sequences
  import opened ActionTypes
  import opened TargetDomains
  import opened BindingGraph
  import opened TurnCompiler

  // ---------------------------------------------------------------- the backtracking, exactly

  /** The target at place k of the order is one the search may choose there. */
  ghost predicate Passed(pr: Problem, n: nat, s: TurnPlanSpec, k: nat)
    requires pr.Valid(n) && |s| == n && k < |pr.order|
  {
    var actor := pr.order[k];
    var mask := s[pr.actorIndex[actor]].targetMask;
    if actor in pr.concrete then mask == pr.concrete[actor]
    else
      match pr.VarFor(actor).bindTo
      case None => mask in pr.VarFor(actor).domain
      case Some(m) =>
        if m in pr.concrete then mask == pr.concrete[m]
        else m in pr.order[..k] && (assert m in pr.order; mask == s[pr.actorIndex[m]].targetMask) && mask != 0
  }

  ghost predicate Completion(pr: Problem, n: nat, cur: TurnPlanSpec, oi: nat, s: TurnPlanSpec)
    requires pr.Valid(n)
  {
    && |cur| == n && Agree(pr, n, cur, s, oi)
    && forall k | oi <= k < |pr.order| :: Passed(pr, n, s, k)
  }

  /** Choosing m at place oi: the completions of the next place that keep the choice. */
  lemma CompletionStep(pr: Problem, n: nat, cur: TurnPlanSpec, oi: nat, s: TurnPlanSpec, m: bv32)
    requires pr.Valid(n) && |cur| == n && oi < |pr.order|
    ensures var at := pr.actorIndex[pr.order[oi]];
            Completion(pr, n, SetMask(cur, at, m), oi + 1, s) <==>
            && |s| == n && Agree(pr, n, cur, s, oi) && s[at].targetMask == m
            && forall k | oi < k < |pr.order| :: Passed(pr, n, s, k)
  {
    hide Passed;
    var actor := pr.order[oi];
    var at := pr.actorIndex[actor];
    var cur' := SetMask(cur, at, m);
    assert actor in pr.order[..oi + 1];
    EarlierIsFixed(pr, n, oi + 1, actor);
    assert Later(pr, n, oi, at);
    if Agree(pr, n, cur', s, oi + 1) {
      assert s[at] == cur'[at];
      forall p | 0 <= p < n ensures cur[p].(targetMask := 0) == s[p].(targetMask := 0) {
        assert cur'[p].(targetMask := 0) == s[p].(targetMask := 0);
      }
      forall p | 0 <= p < n && !Later(pr, n, oi, p) ensures cur[p] == s[p] {
        assert !Later(pr, n, oi + 1, p);
      }
    }
    if |s| == n && Agree(pr, n, cur, s, oi) && s[at].targetMask == m {
      assert cur[at].(targetMask := 0).(targetMask := m) == s[at].(targetMask := 0).(targetMask := m);
      forall p | 0 <= p < n && !Later(pr, n, oi + 1, p) ensures cur'[p] == s[p] {
        if p != at { LaterSplit(pr, n, oi, p); }
      }
    }
  }

  lemma LaterSplit(pr: Problem, n: nat, oi: nat, p: nat)
    requires pr.Valid(n) && oi < |pr.order|
    ensures Later(pr, n, oi, p) <==> p == pr.actorIndex[pr.order[oi]] || Later(pr, n, oi + 1, p)
  {
  }

  /** Main lemma, for every turn: the search returns exactly the completions. */
  lemma {:induction false} SolveExact(pr: Problem, n: nat, cur: TurnPlanSpec, oi: nat, s: TurnPlanSpec)
    requires pr.Valid(n) && |cur| == n && oi <= |pr.order|
    ensures s in Solve(pr, n, cur, oi) <==> Completion(pr, n, cur, oi, s)
    decreases |pr.order| - oi, 0
  {
    if oi == |pr.order| {
      if Agree(pr, n, cur, s, oi) {
        forall p | 0 <= p < n ensures cur[p] == s[p] { assert !Later(pr, n, oi, p); }
        assert cur == s;
      }
    } else {
      HeadPassed(pr, n, cur, oi, s);
      hide Agree, SetMask, Passed;
      var actor := pr.order[oi];
      if actor in pr.concrete {
        ChoiceExact(pr, n, cur, oi, s, pr.concrete[actor]);
      } else {
        var v := pr.VarFor(actor);
        match v.bindTo
        case None =>
          BranchesExact(pr, n, cur, oi, v.domain, s);
        case Some(m) =>
          if m in pr.concrete {
            ChoiceExact(pr, n, cur, oi, s, pr.concrete[m]);
          } else if m in pr.order[..oi] {
            EarlierIsFixed(pr, n, oi, m);
            var mask := cur[pr.actorIndex[m]].targetMask;
            if mask != 0 { ChoiceExact(pr, n, cur, oi, s, mask); }
          }
      }
    }
  }

  /** A completion splits into the choice at place oi and what comes after. */
  lemma HeadPassed(pr: Problem, n: nat, cur: TurnPlanSpec, oi: nat, s: TurnPlanSpec)
    requires pr.Valid(n) && |cur| == n && oi < |pr.order|
    ensures Completion(pr, n, cur, oi, s) <==>
            && |s| == n && Agree(pr, n, cur, s, oi) && Allowed(pr, n, cur, oi, s[pr.actorIndex[pr.order[oi]]].targetMask)
            && forall k | oi < k < |pr.order| :: Passed(pr, n, s, k)
  {
    if |s| == n && Agree(pr, n, cur, s, oi) {
      PassedIsAllowed(pr, n, cur, oi, s);
      hide Passed, Allowed, Agree;
      assert (forall k | oi <= k < |pr.order| :: Passed(pr, n, s, k)) <==>
             Passed(pr, n, s, oi) && forall k | oi < k < |pr.order| :: Passed(pr, n, s, k);
    }
  }

  lemma PassedIsAllowed(pr: Problem, n: nat, cur: TurnPlanSpec, oi: nat, s: TurnPlanSpec)
    requires pr.Valid(n) && |cur| == |s| == n && oi < |pr.order| && Agree(pr, n, cur, s, oi)
    ensures Passed(pr, n, s, oi) <==> Allowed(pr, n, cur, oi, s[pr.actorIndex[pr.order[oi]]].targetMask)
  {
    forall m | m in pr.order[..oi] ensures m in pr.order && s[pr.actorIndex[m]] == cur[pr.actorIndex[m]] {
      EarlierIsFixed(pr, n, oi, m);
    }
  }

  /** The masks the search tries at place oi. */
  ghost predicate Allowed(pr: Problem, n: nat, cur: TurnPlanSpec, oi: nat, mask: bv32)
    requires pr.Valid(n) && |cur| == n && oi < |pr.order|
  {
    var actor := pr.order[oi];
    if actor in pr.concrete then mask == pr.concrete[actor]
    else
      match pr.VarFor(actor).bindTo
      case None => mask in pr.VarFor(actor).domain
      case Some(m) =>
        if m in pr.concrete then mask == pr.concrete[m]
        else m in pr.order[..oi] && (assert m in pr.order; mask == cur[pr.actorIndex[m]].targetMask) && mask != 0
  }

  lemma ChoiceExact(pr: Problem, n: nat, cur: TurnPlanSpec, oi: nat, s: TurnPlanSpec, m: bv32)
    requires pr.Valid(n) && |cur| == n && oi < |pr.order|
    ensures var at := pr.actorIndex[pr.order[oi]];
            s in Solve(pr, n, SetMask(cur, at, m), oi + 1) <==>
            && |s| == n && Agree(pr, n, cur, s, oi) && s[at].targetMask == m
            && forall k | oi < k < |pr.order| :: Passed(pr, n, s, k)
    decreases |pr.order| - oi - 1, 1
  {
    hide Agree, Passed, SetMask;
    CompletionStep(pr, n, cur, oi, s, m);
    SolveExact(pr, n, SetMask(cur, pr.actorIndex[pr.order[oi]], m), oi + 1, s);
  }

  lemma {:induction false} BranchesExact(pr: Problem, n: nat, cur: TurnPlanSpec, oi: nat, domain: seq<bv32>, s: TurnPlanSpec)
    requires pr.Valid(n) && |cur| == n && oi < |pr.order|
    ensures s in Branches(pr, n, cur, oi, domain) <==>
            && |s| == n && Agree(pr, n, cur, s, oi) && s[pr.actorIndex[pr.order[oi]]].targetMask in domain
            && forall k | oi < k < |pr.order| :: Passed(pr, n, s, k)
    decreases |pr.order| - oi - 1, 2 + |domain|
  {
    hide Agree, Passed, SetMask, Solve;
    if domain != [] {
      ChoiceExact(pr, n, cur, oi, s, domain[0]);
      BranchesExact(pr, n, cur, oi, domain[1..], s);
      assert domain == [domain[0]] + domain[1..];
    }
  }

  /** Without repeated masks in a domain no completion is found twice. */
  lemma {:induction false} SolveDistinct(pr: Problem, n: nat, cur: TurnPlanSpec, oi: nat)
    requires pr.Valid(n) && |cur| == n && oi <= |pr.order|
    requires forall v | v in pr.vars :: Distinct(v.domain)
    ensures Distinct(Solve(pr, n, cur, oi))
    decreases |pr.order| - oi, 0
  {
    if oi < |pr.order| {
      hide SetMask;
      var actor := pr.order[oi];
      var at := pr.actorIndex[actor];
      if actor in pr.concrete {
        SolveDistinct(pr, n, SetMask(cur, at, pr.concrete[actor]), oi + 1);
      } else {
        var v := pr.VarFor(actor);
        match v.bindTo
        case None => BranchesDistinct(pr, n, cur, oi, v.domain);
        case Some(m) =>
          if m in pr.concrete {
            SolveDistinct(pr, n, SetMask(cur, at, pr.concrete[m]), oi + 1);
          } else if m in pr.order[..oi] {
            EarlierIsFixed(pr, n, oi, m);
            SolveDistinct(pr, n, SetMask(cur, at, cur[pr.actorIndex[m]].targetMask), oi + 1);
          }
      }
    }
  }

  lemma {:induction false} BranchesDistinct(pr: Problem, n: nat, cur: TurnPlanSpec, oi: nat, domain: seq<bv32>)
    requires pr.Valid(n) && |cur| == n && oi < |pr.order| && Distinct(domain)
    requires forall v | v in pr.vars :: Distinct(v.domain)
    ensures Distinct(Branches(pr, n, cur, oi, domain))
    decreases |pr.order| - oi - 1, 1 + |domain|
  {
    if domain != [] {
      hide SetMask, Solve, Completion, Agree, Passed;
      var at := pr.actorIndex[pr.order[oi]];
      var here, later := Solve(pr, n, SetMask(cur, at, domain[0]), oi + 1), Branches(pr, n, cur, oi, domain[1..]);
      SolveDistinct(pr, n, SetMask(cur, at, domain[0]), oi + 1);
      BranchesDistinct(pr, n, cur, oi, domain[1..]);
      forall s | s in here ensures s !in later {
        ChoiceExact(pr, n, cur, oi, s, domain[0]);
        BranchesExact(pr, n, cur, oi, domain[1..], s);
      }
      DistinctAppend(here, later);
    }
  }

  // ---------------------------------------------------------------- satisfying assignments

  ghost predicate DistinctSlots(turn: UiTurn) {
    forall i, j | 0 <= i < j < |turn| :: turn[i].actorSlot != turn[j].actorSlot
  }

  /** The user's turn with targets a: every action keeps its actor, its macro and its item. */
  function WithTargets(turn: UiTurn, a: seq<bv32>): (s: TurnPlanSpec)
    requires |a| == |turn|
    ensures |s| == |turn|
  {
    seq(|turn|, i requires 0 <= i < |turn| => ActionPlan(turn[i].actorSlot, 0, turn[i].macro, a[i], turn[i].itemId))
  }

  /** So it is the skeleton of the first pass with these targets. */
  lemma TargetsOnBase(turn: UiTurn, a: seq<bv32>, i: nat)
    requires i < |turn| == |a|
    ensures WithTargets(turn, a)[i] == BasePlan(turn[i]).(targetMask := a[i])
  {
  }

  function Targets(s: TurnPlanSpec): (a: seq<bv32>)
    ensures |a| == |s|
  {
    seq(|s|, i requires 0 <= i < |s| => s[i].targetMask)
  }

  /** Action i mirrors action j. */
  ghost predicate Mirrors(turn: UiTurn, i: nat, j: nat) {
    && i < |turn| && j < |turn|
    && turn[i].target.kind.SameAsOtherPC? && turn[j].actorSlot == turn[i].target.varId
  }

  /** The user's constraint on action i: the literal mask, one bit of the mask, a present enemy, or the target of
      the actor it mirrors. */
  ghost predicate TargetOk(turn: UiTurn, bc: BattleContext, a: seq<bv32>, i: nat)
    requires bc.Valid() && i < |turn| == |a|
  {
    match turn[i].target.kind
    case SingleEnemy => a[i] == turn[i].target.mask
    case MultipleEnemies => SingleBit(a[i]) && Has(turn[i].target.mask, a[i])
    case AnyEnemy => exists j :: 4 <= j < 12 && bc.slots[j].present == 1 && a[i] == Bit(j)
    case SameAsOtherPC => exists j: nat :: Mirrors(turn, i, j) && a[i] == a[j]
  }

  ghost predicate Satisfies(turn: UiTurn, bc: BattleContext, a: seq<bv32>)
    requires bc.Valid()
  {
    |a| == |turn| && forall i | 0 <= i < |turn| :: TargetOk(turn, bc, a, i)
  }

  /** Action j, whose target is open, is settled with a non-zero mask by the time its mirror i is assigned. */
  ghost predicate Settled(turn: UiTurn, i: nat, j: nat)
    requires i < |turn| && j < |turn|
  {
    turn[j].target.kind.SameAsOtherPC? ==>
      exists c: nat :: Mirrors(turn, j, c) && if turn[c].target.kind.SingleEnemy? then turn[c].target.mask != 0 else j < i
  }

  /** The condition under which the compiler is complete, readable off the turn: whatever a mirrored open target
      itself mirrors is a non-zero literal, or stands earlier than the mirror. */
  ghost predicate InOrder(turn: UiTurn) {
    forall i: nat, j: nat | Mirrors(turn, i, j) && !turn[j].target.kind.SingleEnemy? :: Settled(turn, i, j)
  }

  // ---------------------------------------------------------------- the problem of a turn with distinct slots

  /** An open target that mirrors another open target. */
  predicate MirrorsOpenTarget(turn: UiTurn, open: set<Actor>, i: nat)
    requires i < |turn|
  {
    turn[i].target.kind.SameAsOtherPC? && turn[i].target.varId in open
  }

  /** The slots of one phase, straight from the turn. */
  function Slots(turn: UiTurn, open: set<Actor>, second: bool): seq<Actor> {
    if turn == [] then []
    else
      (if !turn[0].target.kind.SingleEnemy? && MirrorsOpenTarget(turn, open, 0) == second then [turn[0].actorSlot] else []) +
      Slots(turn[1..], open, second)
  }

  lemma {:induction false} PhaseIsSlots(turn: UiTurn, bc: BattleContext, open: set<Actor>, second: bool)
    requires bc.Valid()
    ensures Phase(Vars(turn, bc), open, second) == Slots(turn, open, second)
  {
    if turn != [] {
      hide DomainOf;
      PhaseIsSlots(turn[1..], bc, open, second);
      var rest := Vars(turn[1..], bc);
      if !turn[0].target.kind.SingleEnemy? {
        assert Vars(turn, bc)[1..] == rest;
      } else {
        assert Vars(turn, bc) == rest;
      }
    }
  }

  lemma {:induction false} SlotsSplit(a: UiTurn, b: UiTurn, open: set<Actor>, second: bool)
    ensures Slots(a + b, open, second) == Slots(a, open, second) + Slots(b, open, second)
  {
    if a == [] {
      assert a + b == b;
    } else {
      assert (a + b)[1..] == a[1..] + b;
      SlotsSplit(a[1..], b, open, second);
    }
  }

  lemma {:induction false} SlotsMembers(turn: UiTurn, open: set<Actor>, second: bool)
    ensures forall a :: a in Slots(turn, open, second) <==>
              exists i :: 0 <= i < |turn| && turn[i].actorSlot == a && !turn[i].target.kind.SingleEnemy? &&
                          MirrorsOpenTarget(turn, open, i) == second
  {
    if turn != [] {
      var rest := turn[1..];
      SlotsMembers(rest, open, second);
      forall a
        ensures a in Slots(turn, open, second) <==>
                exists i :: 0 <= i < |turn| && turn[i].actorSlot == a && !turn[i].target.kind.SingleEnemy? &&
                            MirrorsOpenTarget(turn, open, i) == second
      {
        if a in Slots(rest, open, second) {
          var i :| 0 <= i < |rest| && rest[i].actorSlot == a && !rest[i].target.kind.SingleEnemy? && MirrorsOpenTarget(rest, open, i) == second;
          assert turn[i + 1] == rest[i];
        }
        if i :| 0 <= i < |turn| && turn[i].actorSlot == a && !turn[i].target.kind.SingleEnemy? && MirrorsOpenTarget(turn, open, i) == second {
          if i > 0 { assert rest[i - 1] == turn[i]; }
        }
      }
    }
  }

  lemma {:induction false} DedupOfDistinct(s: seq<Actor>)
    requires Distinct(s)
    ensures Dedup(s) == s
  {
    if s != [] {
      DedupOfDistinct(s[..|s| - 1]);
      assert s == s[..|s| - 1] + [s[|s| - 1]];
    }
  }

  lemma {:induction false} SlotsDistinct(turn: UiTurn, open: set<Actor>, second: bool)
    requires DistinctSlots(turn)
    ensures Distinct(Slots(turn, open, second))
  {
    if turn != [] {
      SlotsDistinct(turn[1..], open, second);
      SlotsMembers(turn[1..], open, second);
      forall a | a in Slots(turn[1..], open, second) ensures a != turn[0].actorSlot {
        var i :| 0 <= i < |turn[1..]| && turn[1..][i].actorSlot == a;
        assert turn[i + 1].actorSlot == a;
      }
      DistinctAppend([turn[0].actorSlot], Slots(turn[1..], open, second));
    }
  }

  lemma OpenActors(turn: UiTurn, bc: BattleContext)
    requires bc.Valid()
    ensures forall a :: a in VarActors(Vars(turn, bc)) <==>
              exists i :: 0 <= i < |turn| && turn[i].actorSlot == a && !turn[i].target.kind.SingleEnemy?
  {
    VarsFacts(turn, bc);
    forall i | 0 <= i < |turn| && !turn[i].target.kind.SingleEnemy?
      ensures turn[i].actorSlot in VarActors(Vars(turn, bc))
    {
      assert VarOf(turn[i], bc) in Vars(turn, bc);
    }
  }

  function Open(turn: UiTurn, bc: BattleContext): set<Actor>
    requires bc.Valid()
  {
    VarActors(Vars(turn, bc))
  }

  /** The order is the two phases, one after the other. */
  lemma OrderIsPhases(turn: UiTurn, bc: BattleContext)
    requires bc.Valid() && DistinctSlots(turn)
    ensures Order(Vars(turn, bc)) == Slots(turn, Open(turn, bc), false) + Slots(turn, Open(turn, bc), true)
    ensures Distinct(Order(Vars(turn, bc)))
  {
    hide Vars, VarActors, Phase, Slots, Dedup;
    var open := Open(turn, bc);
    PhaseIsSlots(turn, bc, open, false);
    PhaseIsSlots(turn, bc, open, true);
    SlotsDistinct(turn, open, false);
    SlotsDistinct(turn, open, true);
    PhasesDisjoint(turn, open);
    DistinctAppend(Slots(turn, open, false), Slots(turn, open, true));
    DedupOfDistinct(Slots(turn, open, false) + Slots(turn, open, true));
  }

  lemma PhasesDisjoint(turn: UiTurn, open: set<Actor>)
    requires DistinctSlots(turn)
    ensures forall a | a in Slots(turn, open, false) :: a !in Slots(turn, open, true)
  {
    SlotsMembers(turn, open, false);
    SlotsMembers(turn, open, true);
  }

  /** Before a second-phase mirror stand exactly the first phase and the second-phase mirrors listed above it. */
  lemma BeforeMirror(turn: UiTurn, bc: BattleContext, i: nat, k: nat)
    requires bc.Valid() && DistinctSlots(turn) && i < |turn|
    requires k < |Order(Vars(turn, bc))| && Order(Vars(turn, bc))[k] == turn[i].actorSlot
    requires !turn[i].target.kind.SingleEnemy? && MirrorsOpenTarget(turn, Open(turn, bc), i)
    ensures forall j | 0 <= j < |turn| && !turn[j].target.kind.SingleEnemy? ::
              turn[j].actorSlot in Order(Vars(turn, bc))[..k] <==> !MirrorsOpenTarget(turn, Open(turn, bc), j) || j < i
  {
    hide Vars, VarActors, Order;
    var open := Open(turn, bc);
    var order := Order(Vars(turn, bc));
    OrderIsPhases(turn, bc);
    var first, above, rest := Slots(turn, open, false), Slots(turn[..i], open, true), Slots(turn[i + 1..], open, true);
    assert turn == turn[..i] + ([turn[i]] + turn[i + 1..]);
    SlotsSplit(turn[..i], [turn[i]] + turn[i + 1..], open, true);
    assert ([turn[i]] + turn[i + 1..])[1..] == turn[i + 1..];
    assert order == (first + above) + ([turn[i].actorSlot] + rest);
    assert order[|first + above|] == turn[i].actorSlot;
    assert k == |first + above|;
    assert order[..k] == first + above;
    SlotsMembers(turn, open, false);
    SlotsMembers(turn[..i], open, true);
    forall j | 0 <= j < |turn| && !turn[j].target.kind.SingleEnemy?
      ensures turn[j].actorSlot in first + above <==> !MirrorsOpenTarget(turn, open, j) || j < i
    {
      BeforeMember(turn, open, i, j);
    }
  }

  lemma BeforeMember(turn: UiTurn, open: set<Actor>, i: nat, j: nat)
    requires DistinctSlots(turn) && i < |turn| && j < |turn| && !turn[j].target.kind.SingleEnemy?
    ensures turn[j].actorSlot in Slots(turn, open, false) <==> !MirrorsOpenTarget(turn, open, j)
    ensures turn[j].actorSlot in Slots(turn[..i], open, true) <==> j < i && MirrorsOpenTarget(turn, open, j)
  {
    SlotsMembers(turn, open, false);
    SlotsMembers(turn[..i], open, true);
    if j < i { assert turn[..i][j] == turn[j]; }
  }

  // ---------------------------------------------------------------- reading the problem back

  /** What the lookups hold for a turn with distinct slots. */
  ghost predicate Reads(turn: UiTurn, bc: BattleContext, pr: Problem)
    requires bc.Valid()
  {
    && pr.Valid(|turn|)
    && (forall i | 0 <= i < |turn| :: turn[i].actorSlot in pr.actorIndex && pr.actorIndex[turn[i].actorSlot] == i)
    && (forall a | a in pr.actorIndex :: turn[pr.actorIndex[a]].actorSlot == a)
    && (forall i | 0 <= i < |turn| :: turn[i].actorSlot in pr.concrete <==> turn[i].target.kind.SingleEnemy?)
    && (forall i | 0 <= i < |turn| && turn[i].target.kind.SingleEnemy? :: pr.concrete[turn[i].actorSlot] == turn[i].target.mask)
    && (forall a | a in pr.concrete :: a in pr.actorIndex)
    && (forall i | 0 <= i < |turn| && !turn[i].target.kind.SingleEnemy? ::
          turn[i].actorSlot in pr.order && pr.VarFor(turn[i].actorSlot) == VarOf(turn[i], bc))
  }

  lemma ProblemReads(turn: UiTurn, bc: BattleContext)
    requires bc.Valid() && DistinctSlots(turn)
    ensures Reads(turn, bc, ProblemOf(turn, bc))
  {
    hide Vars, VarOf, Order, VarIndex, ActorIndex, Concrete;
    var pr := ProblemOf(turn, bc);
    ProblemIsValid(turn, bc);
    ActorIndexFacts(turn, 0);
    ConcreteFacts(turn);
    forall i: nat | i < |turn| && !turn[i].target.kind.SingleEnemy?
      ensures turn[i].actorSlot in pr.order && pr.VarFor(turn[i].actorSlot) == VarOf(turn[i], bc)
    {
      hide DistinctSlots, Problem.Valid;
      OpenReads(turn, bc, i);
    }
  }

  lemma OpenReads(turn: UiTurn, bc: BattleContext, i: nat)
    requires bc.Valid() && DistinctSlots(turn) && i < |turn| && !turn[i].target.kind.SingleEnemy?
    ensures var pr := ProblemOf(turn, bc);
            && turn[i].actorSlot in pr.order && turn[i].actorSlot in pr.varIndex && pr.varIndex[turn[i].actorSlot] < |pr.vars|
            && pr.VarFor(turn[i].actorSlot) == VarOf(turn[i], bc)
  {
    hide Vars, VarOf, Order, VarIndex, ActorIndex, Concrete, DistinctSlots;
    ActionHasVar(turn, bc, i);
    OrderFacts(ProblemOf(turn, bc).vars);
    VarLookup(turn, bc, i);
  }

  /** With distinct slots an actor has one variable. */
  lemma VarUnique(turn: UiTurn, bc: BattleContext, i: nat, v: Var)
    requires bc.Valid() && DistinctSlots(turn) && i < |turn| && v in Vars(turn, bc) && v.actor == turn[i].actorSlot
    ensures v == VarOf(turn[i], bc)
  {
    VarsFacts(turn, bc);
    hide Vars, DomainOf;
    var j :| 0 <= j < |turn| && !turn[j].target.kind.SingleEnemy? && v == VarOf(turn[j], bc);
    assert turn[j].actorSlot == turn[i].actorSlot;
  }

  lemma VarListed(turn: UiTurn, bc: BattleContext, i: nat) returns (x: nat)
    requires bc.Valid() && i < |turn| && !turn[i].target.kind.SingleEnemy?
    ensures x < |Vars(turn, bc)| && Vars(turn, bc)[x].actor == turn[i].actorSlot
  {
    VarsFacts(turn, bc);
    hide Vars, DomainOf;
    assert VarOf(turn[i], bc) in Vars(turn, bc);
    x :| 0 <= x < |Vars(turn, bc)| && Vars(turn, bc)[x] == VarOf(turn[i], bc);
  }

  lemma VarLookup(turn: UiTurn, bc: BattleContext, i: nat)
    requires bc.Valid() && DistinctSlots(turn) && i < |turn| && !turn[i].target.kind.SingleEnemy?
    ensures var pr := ProblemOf(turn, bc);
            turn[i].actorSlot in pr.varIndex && pr.varIndex[turn[i].actorSlot] < |pr.vars| &&
            pr.VarFor(turn[i].actorSlot) == VarOf(turn[i], bc)
  {
    hide Vars, VarIndex, Order, Concrete, ActorIndex, VarOf, DistinctSlots;
    var vars := Vars(turn, bc);
    VarIndexFacts(vars, 0);
    var x := VarListed(turn, bc, i);
    var v := vars[VarIndex(vars, 0)[turn[i].actorSlot]];
    assert v in vars && v.actor == turn[i].actorSlot;
    VarUnique(turn, bc, i, v);
  }
}
