/** What the turn compiler's result means for the user's constraints: for turns with one action per actor, exactly
    the satisfying target assignments, each once, whenever every mirrored open target is settled before its
    mirrors; and nothing at all otherwise. */
module TurnMeaning {
  import opened Bytes
  import opened Sequences
  import opened ActionTypes
  import opened TargetDomains
  import opened BindingGraph
  import opened TurnCompiler
  import opened TurnSolutions

  /** Action i mirrors an action whose target is open. */
  ghost predicate MirrorsOpenAction(turn: UiTurn, i: nat) {
    exists c: nat :: Mirrors(turn, i, c) && !turn[c].target.kind.SingleEnemy?
  }

  /** The target the search accepts for action i: the user's constraint, and for a mirror of an open target also
      that the original was assigned before it, to a non-zero mask. */
  ghost predicate Chosen(turn: UiTurn, bc: BattleContext, a: seq<bv32>, i: nat)
    requires bc.Valid() && i < |turn| == |a|
  {
    if turn[i].target.kind.SameAsOtherPC? then exists j: nat :: CopiedFrom(turn, a, i, j)
    else TargetOk(turn, bc, a, i)
  }

  ghost predicate CopiedFrom(turn: UiTurn, a: seq<bv32>, i: nat, j: nat)
    requires i < |turn| == |a|
  {
    && Mirrors(turn, i, j) && a[i] == a[j]
    && (turn[j].target.kind.SingleEnemy? || (a[i] != 0 && (MirrorsOpenAction(turn, j) ==> j < i)))
  }

  ghost predicate AllChosen(turn: UiTurn, bc: BattleContext, a: seq<bv32>)
    requires bc.Valid()
  {
    |a| == |turn| && forall i | 0 <= i < |turn| :: Chosen(turn, bc, a, i)
  }

  lemma MirrorsOpenAgrees(turn: UiTurn, bc: BattleContext, i: nat)
    requires bc.Valid() && i < |turn|
    ensures MirrorsOpenTarget(turn, Open(turn, bc), i) <==> MirrorsOpenAction(turn, i)
  {
    hide Vars;
    OpenActors(turn, bc);
    if MirrorsOpenTarget(turn, Open(turn, bc), i) {
      var c: nat :| c < |turn| && turn[c].actorSlot == turn[i].target.varId && !turn[c].target.kind.SingleEnemy?;
      assert Mirrors(turn, i, c);
    }
  }

  // ---------------------------------------------------------------- the search in terms of the turn

  lemma PrimedIsBase(turn: UiTurn)
    requires DistinctSlots(turn)
    ensures Primed(turn) == Base(turn)
  {
    ConcreteFacts(turn);
    hide Concrete, ActorIndex;
    forall i | 0 <= i < |turn| ensures Primed(turn)[i] == BasePlan(turn[i]) {
      if turn[i].actorSlot in Concrete(turn) {
        assert Literal(turn, turn[i].actorSlot, Concrete(turn)[turn[i].actorSlot]);
      }
    }
  }

  lemma LiteralIsFixed(turn: UiTurn, bc: BattleContext, pr: Problem, i: nat)
    requires bc.Valid() && DistinctSlots(turn) && pr == ProblemOf(turn, bc) && Reads(turn, bc, pr) && i < |turn|
    ensures Later(pr, |turn|, 0, i) <==> !turn[i].target.kind.SingleEnemy?
  {
    OrderFacts(pr.vars);
    OpenActors(turn, bc);
    hide Vars, Order, VarActors, VarOf, ProblemOf;
    if k :| 0 <= k < |pr.order| && pr.actorIndex[pr.order[k]] == i {
      assert pr.order[k] == turn[i].actorSlot;
    }
    if !turn[i].target.kind.SingleEnemy? {
      var k :| 0 <= k < |pr.order| && pr.order[k] == turn[i].actorSlot;
      assert pr.actorIndex[pr.order[k]] == i;
    }
  }

  /** The listed literal targets stand in s. */
  ghost predicate LiteralsKept(turn: UiTurn, s: TurnPlanSpec) {
    |s| == |turn| && forall i | 0 <= i < |turn| && turn[i].target.kind.SingleEnemy? :: s[i].targetMask == turn[i].target.mask
  }

  lemma SameButTarget(a: UiAction, p: ActionPlan)
    ensures BasePlan(a).(targetMask := 0) == p.(targetMask := 0) <==> p == BasePlan(a).(targetMask := p.targetMask)
  {
  }

  /** Agreeing with the base turn: the base turn with some targets, the literal ones as listed. */
  lemma AgreeIsTargets(turn: UiTurn, pr: Problem, s: TurnPlanSpec)
    requires pr.Valid(|turn|)
    requires forall i | 0 <= i < |turn| :: Later(pr, |turn|, 0, i) <==> !turn[i].target.kind.SingleEnemy?
    ensures Agree(pr, |turn|, Base(turn), s, 0) <==> LiteralsKept(turn, s) && s == WithTargets(turn, Targets(s))
  {
    hide Later, Problem.Valid, BasePlan, WithTargets;
    if |s| == |turn| {
      FieldsKept(turn, s);
      forall i | 0 <= i < |turn| ensures s[i] == BasePlan(turn[i]).(targetMask := s[i].targetMask) ==>
        (BasePlan(turn[i]) == s[i] <==> s[i].targetMask == BasePlan(turn[i]).targetMask) {}
      LiteralMask(turn);
    }
  }

  lemma FieldsKept(turn: UiTurn, s: TurnPlanSpec)
    requires |s| == |turn|
    ensures (forall i | 0 <= i < |turn| :: BasePlan(turn[i]).(targetMask := 0) == s[i].(targetMask := 0)) <==> s == WithTargets(turn, Targets(s))
    ensures s == WithTargets(turn, Targets(s)) <==> forall i | 0 <= i < |turn| :: s[i] == BasePlan(turn[i]).(targetMask := s[i].targetMask)
  {
    hide BasePlan, WithTargets;
    forall i: nat | i < |turn| ensures WithTargets(turn, Targets(s))[i] == BasePlan(turn[i]).(targetMask := s[i].targetMask) {
      TargetsOnBase(turn, Targets(s), i);
    }
    forall i | 0 <= i < |turn|
      ensures BasePlan(turn[i]).(targetMask := 0) == s[i].(targetMask := 0) <==> s[i] == BasePlan(turn[i]).(targetMask := s[i].targetMask)
    {
      SameButTarget(turn[i], s[i]);
    }
    assert s == WithTargets(turn, Targets(s)) <==>
           forall i | 0 <= i < |turn| :: s[i] == BasePlan(turn[i]).(targetMask := s[i].targetMask);
  }

  lemma LiteralMask(turn: UiTurn)
    ensures forall i | 0 <= i < |turn| && turn[i].target.kind.SingleEnemy? :: BasePlan(turn[i]).targetMask == turn[i].target.mask
  {
  }

  lemma PassedDomain(turn: UiTurn, bc: BattleContext, pr: Problem, s: TurnPlanSpec, i: nat, k: nat)
    requires bc.Valid() && Reads(turn, bc, pr) && |s| == |turn|
    requires i < |turn| && k < |pr.order| && pr.order[k] == turn[i].actorSlot
    requires turn[i].target.kind.AnyEnemy? || turn[i].target.kind.MultipleEnemies?
    ensures Passed(pr, |turn|, s, k) <==> Chosen(turn, bc, Targets(s), i)
  {
    hide MaskBits, AnyEnemyDomain, SingleBit, Has, Bit;
    assert pr.VarFor(pr.order[k]) == VarOf(turn[i], bc);
    MaskBitsExact(turn[i].target.mask);
    AnyEnemyExact(bc);
  }

  lemma PassedUnfold(turn: UiTurn, bc: BattleContext, pr: Problem, s: TurnPlanSpec, i: nat, k: nat)
    requires bc.Valid() && Reads(turn, bc, pr) && |s| == |turn|
    requires i < |turn| && k < |pr.order| && pr.order[k] == turn[i].actorSlot && turn[i].target.kind.SameAsOtherPC?
    ensures var m := turn[i].target.varId;
            Passed(pr, |turn|, s, k) <==>
            if m in pr.concrete then s[i].targetMask == pr.concrete[m]
            else m in pr.order[..k] && m in pr.actorIndex && s[i].targetMask == s[pr.actorIndex[m]].targetMask != 0
  {
    assert pr.VarFor(pr.order[k]) == VarOf(turn[i], bc);
    hide DomainOf;
    forall m | m in pr.order[..k] ensures m in pr.order {}
  }

  lemma ChosenUnfold(turn: UiTurn, bc: BattleContext, a: seq<bv32>, i: nat, j: nat)
    requires bc.Valid() && DistinctSlots(turn) && |a| == |turn| && Mirrors(turn, i, j)
    ensures Chosen(turn, bc, a, i) <==>
            a[i] == a[j] && (turn[j].target.kind.SingleEnemy? || (a[i] != 0 && (MirrorsOpenAction(turn, j) ==> j < i)))
  {
    MirrorOnlyOf(turn, i, j);
    hide MirrorsOpenAction, DistinctSlots;
    assert Chosen(turn, bc, a, i) <==> CopiedFrom(turn, a, i, j);
  }

  lemma PassedMirror(turn: UiTurn, bc: BattleContext, pr: Problem, s: TurnPlanSpec, i: nat, k: nat)
    requires bc.Valid() && DistinctSlots(turn) && pr == ProblemOf(turn, bc) && Reads(turn, bc, pr) && |s| == |turn|
    requires i < |turn| && k < |pr.order| && pr.order[k] == turn[i].actorSlot
    requires turn[i].target.kind.SameAsOtherPC?
    requires LiteralsKept(turn, s)
    ensures Passed(pr, |turn|, s, k) <==> Chosen(turn, bc, Targets(s), i)
  {
    hide ProblemOf, Passed, Chosen, DistinctSlots, MirrorsOpenAction;
    var m := turn[i].target.varId;
    PassedUnfold(turn, bc, pr, s, i, k);
    if m in pr.actorIndex {
      var j := pr.actorIndex[m];
      assert Mirrors(turn, i, j);
      ChosenUnfold(turn, bc, Targets(s), i, j);
      if !turn[j].target.kind.SingleEnemy? { MirrorPlace(turn, bc, pr, i, j, k); }
    } else {
      NoAction(turn, bc, pr, m);
      NothingToCopy(turn, bc, Targets(s), i);
    }
  }

  lemma NothingToCopy(turn: UiTurn, bc: BattleContext, a: seq<bv32>, i: nat)
    requires bc.Valid() && |a| == |turn| && i < |turn| && turn[i].target.kind.SameAsOtherPC?
    requires forall j: nat | j < |turn| :: turn[j].actorSlot != turn[i].target.varId
    ensures !Chosen(turn, bc, a, i)
  {
  }

  lemma NoAction(turn: UiTurn, bc: BattleContext, pr: Problem, m: Actor)
    requires bc.Valid() && Reads(turn, bc, pr) && m !in pr.actorIndex
    ensures forall i: nat | i < |turn| :: turn[i].actorSlot != m
    ensures m !in pr.concrete && m !in pr.order
  {
  }

  lemma MirrorOnlyOf(turn: UiTurn, i: nat, j: nat)
    requires DistinctSlots(turn) && Mirrors(turn, i, j)
    ensures forall c: nat | Mirrors(turn, i, c) :: c == j
  {
  }

  lemma MirrorPlace(turn: UiTurn, bc: BattleContext, pr: Problem, i: nat, j: nat, k: nat)
    requires bc.Valid() && DistinctSlots(turn) && pr == ProblemOf(turn, bc)
    requires Mirrors(turn, i, j) && !turn[j].target.kind.SingleEnemy?
    requires k < |pr.order| && pr.order[k] == turn[i].actorSlot
    ensures turn[j].actorSlot in pr.order[..k] <==> (MirrorsOpenAction(turn, j) ==> j < i)
  {
    hide Vars, Order;
    assert MirrorsOpenAction(turn, i);
    MirrorsOpenAgrees(turn, bc, i);
    MirrorsOpenAgrees(turn, bc, j);
    BeforeMirror(turn, bc, i, k);
  }

  lemma PlaceChosen(turn: UiTurn, bc: BattleContext, pr: Problem, s: TurnPlanSpec, i: nat, k: nat)
    requires bc.Valid() && DistinctSlots(turn) && pr == ProblemOf(turn, bc) && Reads(turn, bc, pr) && LiteralsKept(turn, s)
    requires i < |turn| && k < |pr.order| && pr.order[k] == turn[i].actorSlot
    ensures Passed(pr, |turn|, s, k) <==> Chosen(turn, bc, Targets(s), i)
  {
    OpenPlace(turn, bc, pr, i, k);
    hide Passed, Chosen, Reads, ProblemOf;
    if turn[i].target.kind.SameAsOtherPC? {
      PassedMirror(turn, bc, pr, s, i, k);
    } else {
      PassedDomain(turn, bc, pr, s, i, k);
    }
  }

  lemma PassedIsChosen(turn: UiTurn, bc: BattleContext, pr: Problem, s: TurnPlanSpec)
    requires bc.Valid() && DistinctSlots(turn) && pr == ProblemOf(turn, bc) && Reads(turn, bc, pr) && LiteralsKept(turn, s)
    ensures (forall k | 0 <= k < |pr.order| :: Passed(pr, |turn|, s, k)) <==> AllChosen(turn, bc, Targets(s))
  {
    assert Places(turn, pr);
    hide ProblemOf, Reads, Places, Chosen, Passed;
    if AllChosen(turn, bc, Targets(s)) {
      forall k: nat | k < |pr.order| ensures Passed(pr, |turn|, s, k) {
        var i := PlaceOwner(turn, pr, k);
        PlaceChosen(turn, bc, pr, s, i, k);
      }
    }
    if forall k | 0 <= k < |pr.order| :: Passed(pr, |turn|, s, k) {
      forall i: nat | i < |turn| ensures Chosen(turn, bc, Targets(s), i) {
        if turn[i].target.kind.SingleEnemy? {
          LiteralChosen(turn, bc, s, i);
        } else {
          var k := OwnPlace(turn, pr, i);
          PlaceChosen(turn, bc, pr, s, i, k);
        }
      }
    }
  }

  lemma LiteralChosen(turn: UiTurn, bc: BattleContext, s: TurnPlanSpec, i: nat)
    requires bc.Valid() && |s| == |turn| && i < |turn| && turn[i].target.kind.SingleEnemy?
    ensures Chosen(turn, bc, Targets(s), i) <==> s[i].targetMask == turn[i].target.mask
  {
  }

  /** Every place of the order belongs to an action, every open action has a place. */
  ghost predicate Places(turn: UiTurn, pr: Problem) {
    && (forall a | a in pr.order :: exists i :: 0 <= i < |turn| && turn[i].actorSlot == a)
    && (forall i | 0 <= i < |turn| && !turn[i].target.kind.SingleEnemy? :: turn[i].actorSlot in pr.order)
  }

  lemma PlaceOwner(turn: UiTurn, pr: Problem, k: nat) returns (i: nat)
    requires Places(turn, pr) && k < |pr.order|
    ensures i < |turn| && turn[i].actorSlot == pr.order[k]
  {
    assert pr.order[k] in pr.order;
    i :| 0 <= i < |turn| && turn[i].actorSlot == pr.order[k];
  }

  lemma OwnPlace(turn: UiTurn, pr: Problem, i: nat) returns (k: nat)
    requires Places(turn, pr) && i < |turn| && !turn[i].target.kind.SingleEnemy?
    ensures k < |pr.order| && pr.order[k] == turn[i].actorSlot
  {
    assert turn[i].actorSlot in pr.order;
    k :| 0 <= k < |pr.order| && pr.order[k] == turn[i].actorSlot;
  }

  lemma OpenPlace(turn: UiTurn, bc: BattleContext, pr: Problem, i: nat, k: nat)
    requires bc.Valid() && DistinctSlots(turn) && pr == ProblemOf(turn, bc) && Reads(turn, bc, pr)
    requires i < |turn| && k < |pr.order| && pr.order[k] == turn[i].actorSlot
    ensures !turn[i].target.kind.SingleEnemy?
  {
    assert pr.actorIndex[pr.order[k]] == i;
    LiteralIsFixed(turn, bc, pr, i);
  }

  lemma FromBase(turn: UiTurn, bc: BattleContext, pr: Problem, s: TurnPlanSpec)
    requires bc.Valid() && DistinctSlots(turn) && pr == ProblemOf(turn, bc) && Reads(turn, bc, pr)
    ensures s in Solve(pr, |turn|, Base(turn), 0) <==>
            |s| == |turn| && s == WithTargets(turn, Targets(s)) && AllChosen(turn, bc, Targets(s))
  {
    assert pr.Valid(|turn|);
    forall i | 0 <= i < |turn| ensures Later(pr, |turn|, 0, i) <==> !turn[i].target.kind.SingleEnemy? {
      LiteralIsFixed(turn, bc, pr, i);
    }
    hide Agree, Later, Passed, ProblemOf, Reads, Solve, WithTargets, Chosen, Problem.Valid;
    SolveExact(pr, |turn|, Base(turn), 0, s);
    AgreeIsTargets(turn, pr, s);
    if LiteralsKept(turn, s) {
      PassedIsChosen(turn, bc, pr, s);
    }
    if |s| == |turn| && AllChosen(turn, bc, Targets(s)) {
      forall i: nat | i < |turn| && turn[i].target.kind.SingleEnemy? ensures s[i].targetMask == turn[i].target.mask {
        LiteralChosen(turn, bc, s, i);
      }
    }
  }

  /** The backtracking returns exactly the base turn with acceptable targets. */
  lemma SearchMeaning(turn: UiTurn, bc: BattleContext, s: TurnPlanSpec)
    requires bc.Valid() && DistinctSlots(turn) && ProblemOf(turn, bc).Valid(|turn|)
    ensures s in Solve(ProblemOf(turn, bc), |turn|, Primed(turn), 0) <==>
            |s| == |turn| && s == WithTargets(turn, Targets(s)) && AllChosen(turn, bc, Targets(s))
  {
    hide Primed, Base, Solve, ProblemOf, Reads, WithTargets, AllChosen;
    ProblemReads(turn, bc);
    PrimedIsBase(turn);
    FromBase(turn, bc, ProblemOf(turn, bc), s);
  }

  // ---------------------------------------------------------------- acceptable against satisfying

  lemma ChosenSatisfies(turn: UiTurn, bc: BattleContext, a: seq<bv32>)
    requires bc.Valid() && AllChosen(turn, bc, a)
    ensures Satisfies(turn, bc, a)
  {
    forall i | 0 <= i < |turn| ensures TargetOk(turn, bc, a, i) {
      assert Chosen(turn, bc, a, i);
      if turn[i].target.kind.SameAsOtherPC? {
        var j: nat :| CopiedFrom(turn, a, i, j);
      }
    }
  }

  lemma DomainTargetNonZero(turn: UiTurn, bc: BattleContext, a: seq<bv32>, i: nat)
    requires bc.Valid() && i < |turn| == |a| && TargetOk(turn, bc, a, i)
    requires turn[i].target.kind.AnyEnemy? || turn[i].target.kind.MultipleEnemies?
    ensures a[i] != 0
  {
    if turn[i].target.kind.AnyEnemy? {
      var j :| 4 <= j < 12 && bc.slots[j].present == 1 && a[i] == Bit(j);
      BitIsSingle(j);
    }
  }

  /** In an ordered turn a mirrored open target is never zero. */
  lemma {:induction false} MirroredNonZero(turn: UiTurn, bc: BattleContext, a: seq<bv32>, i: nat, j: nat)
    requires bc.Valid() && DistinctSlots(turn) && InOrder(turn) && Satisfies(turn, bc, a)
    requires Mirrors(turn, i, j) && !turn[j].target.kind.SingleEnemy?
    ensures a[j] != 0
    decreases if MirrorsOpenAction(turn, j) then j + 1 else 0
  {
    assert TargetOk(turn, bc, a, j);
    if turn[j].target.kind.SameAsOtherPC? {
      assert Settled(turn, i, j);
      var c: nat :| Mirrors(turn, j, c) && if turn[c].target.kind.SingleEnemy? then turn[c].target.mask != 0 else j < i;
      MirrorOnlyOf(turn, j, c);
      assert TargetOk(turn, bc, a, c);
      if !turn[c].target.kind.SingleEnemy? {
        if d: nat :| MirrorsOpenAction(turn, c) && Mirrors(turn, c, d) && !turn[d].target.kind.SingleEnemy? {
          MirrorOnlyOf(turn, c, d);
          assert Settled(turn, j, c);
        }
        MirroredNonZero(turn, bc, a, j, c);
      }
    } else {
      DomainTargetNonZero(turn, bc, a, j);
    }
  }

  lemma OriginalBefore(turn: UiTurn, i: nat, j: nat)
    requires DistinctSlots(turn) && InOrder(turn) && Mirrors(turn, i, j) && !turn[j].target.kind.SingleEnemy?
    ensures MirrorsOpenAction(turn, j) ==> j < i
  {
    if c: nat :| Mirrors(turn, j, c) && !turn[c].target.kind.SingleEnemy? {
      assert Settled(turn, i, j);
      MirrorOnlyOf(turn, j, c);
    }
  }

  lemma InOrderChosen(turn: UiTurn, bc: BattleContext, a: seq<bv32>)
    requires bc.Valid() && DistinctSlots(turn) && InOrder(turn) && Satisfies(turn, bc, a)
    ensures AllChosen(turn, bc, a)
  {
    forall i: nat | i < |turn| ensures Chosen(turn, bc, a, i) {
      assert TargetOk(turn, bc, a, i);
      if turn[i].target.kind.SameAsOtherPC? {
        var j: nat :| Mirrors(turn, i, j) && a[i] == a[j];
        if !turn[j].target.kind.SingleEnemy? {
          MirroredNonZero(turn, bc, a, i, j);
          OriginalBefore(turn, i, j);
        }
        assert CopiedFrom(turn, a, i, j);
      }
    }
  }

  /** Out of order, nothing is acceptable. */
  lemma OutOfOrderUnchosen(turn: UiTurn, bc: BattleContext, a: seq<bv32>)
    requires bc.Valid() && DistinctSlots(turn) && AllChosen(turn, bc, a)
    ensures InOrder(turn)
  {
    forall i: nat, j: nat | Mirrors(turn, i, j) && !turn[j].target.kind.SingleEnemy?
      ensures Settled(turn, i, j)
    {
      assert Chosen(turn, bc, a, i) && Chosen(turn, bc, a, j);
      MirrorOnlyOf(turn, i, j);
      if turn[j].target.kind.SameAsOtherPC? {
        var c: nat :| CopiedFrom(turn, a, j, c);
        if turn[c].target.kind.SingleEnemy? { assert Chosen(turn, bc, a, c); }
      }
    }
  }

  // ---------------------------------------------------------------- the two early exits

  lemma {:induction false} EdgeOfVar(vars: seq<Var>, e: Edge)
    ensures e in Edges(vars) <==> exists v :: v in vars && v.bindTo == Some(e.1) && v.actor == e.0
  {
    if vars != [] {
      EdgeOfVar(vars[1..], e);
      assert vars == [vars[0]] + vars[1..];
    }
  }

  lemma EdgeOfTurn(turn: UiTurn, bc: BattleContext, e: Edge) returns (i: nat)
    requires bc.Valid() && e in Edges(Vars(turn, bc))
    ensures i < |turn| && turn[i].actorSlot == e.0 && turn[i].target.kind.SameAsOtherPC? && turn[i].target.varId == e.1
  {
    EdgeOfVar(Vars(turn, bc), e);
    VarsFacts(turn, bc);
    var v :| v in Vars(turn, bc) && v.bindTo == Some(e.1) && v.actor == e.0;
    i :| 0 <= i < |turn| && !turn[i].target.kind.SingleEnemy? && v == VarOf(turn[i], bc);
  }

  function Place(turn: UiTurn, a: Actor): (i: nat)
    ensures i <= |turn| && (i < |turn| ==> turn[i].actorSlot == a)
    ensures forall j | 0 <= j < i :: turn[j].actorSlot != a
  {
    if turn == [] || turn[0].actorSlot == a then 0 else 1 + Place(turn[1..], a)
  }

  ghost function Rank(turn: UiTurn, a: Actor): int {
    var i := Place(turn, a);
    if i == |turn| || turn[i].target.kind.SingleEnemy? then 0
    else if MirrorsOpenAction(turn, i) then i + 2
    else 1
  }

  lemma InOrderIsAcyclic(turn: UiTurn, bc: BattleContext)
    requires bc.Valid() && DistinctSlots(turn) && InOrder(turn)
    ensures !Cyclic(Edges(Vars(turn, bc)))
  {
    hide Vars;
    var edges := Edges(Vars(turn, bc));
    forall e | e in edges ensures Rank(turn, e.1) < Rank(turn, e.0) {
      var i := EdgeOfTurn(turn, bc, e);
      assert Place(turn, e.0) == i;
      var j := Place(turn, e.1);
      if j < |turn| && !turn[j].target.kind.SingleEnemy? {
        assert Mirrors(turn, i, j);
        OriginalBefore(turn, i, j);
      }
    }
    RankedIsAcyclic(edges, (a: Actor) => Rank(turn, a));
  }

  lemma SatisfiableDomains(turn: UiTurn, bc: BattleContext, a: seq<bv32>)
    requires bc.Valid() && Satisfies(turn, bc, a)
    ensures !EmptyDomain(Vars(turn, bc))
  {
    VarsFacts(turn, bc);
    hide Vars, MaskBits, AnyEnemyDomain, SingleBit, Has, Bit;
    if v :| v in Vars(turn, bc) && v.bindTo.None? && v.domain == [] {
      var i :| 0 <= i < |turn| && !turn[i].target.kind.SingleEnemy? && v == VarOf(turn[i], bc);
      OkIsInDomain(turn, bc, a, i);
    }
  }

  lemma OkIsInDomain(turn: UiTurn, bc: BattleContext, a: seq<bv32>, i: nat)
    requires bc.Valid() && i < |turn| == |a| && TargetOk(turn, bc, a, i)
    ensures turn[i].target.kind.AnyEnemy? || turn[i].target.kind.MultipleEnemies? ==> a[i] in VarOf(turn[i], bc).domain
  {
    hide MaskBits, AnyEnemyDomain, SingleBit, Has, Bit;
    MaskBitsExact(turn[i].target.mask);
    AnyEnemyExact(bc);
  }

  // ---------------------------------------------------------------- main results

  /** s is the turn with some satisfying targets. */
  ghost predicate Solution(turn: UiTurn, bc: BattleContext, s: TurnPlanSpec)
    requires bc.Valid()
  {
    exists a :: Satisfies(turn, bc, a) && s == WithTargets(turn, a)
  }

  /** The compiler lists exactly the solutions, each once. */
  ghost predicate ListsExactly(turn: UiTurn, bc: BattleContext)
    requires bc.Valid()
  {
    && Distinct(Compile(turn, bc))
    && forall s :: s in Compile(turn, bc) <==> Solution(turn, bc, s)
  }

  lemma AscendingDistinct(s: seq<bv32>)
    requires Ascending(s)
    ensures Distinct(s)
  {
  }

  /** No specification is listed twice, whatever the turn. */
  lemma CompileDistinct(turn: UiTurn, bc: BattleContext)
    requires bc.Valid()
    ensures Distinct(Compile(turn, bc))
  {
    var pr := ProblemOf(turn, bc);
    ProblemIsValid(turn, bc);
    forall v | v in pr.vars ensures Distinct(v.domain) {
      VarsFacts(turn, bc);
      hide MaskBits, Vars;
      var i :| 0 <= i < |turn| && !turn[i].target.kind.SingleEnemy? && v == VarOf(turn[i], bc);
      if turn[i].target.kind.MultipleEnemies? {
        MaskBitsExact(turn[i].target.mask);
        AscendingDistinct(v.domain);
      } else if turn[i].target.kind.AnyEnemy? {
        MaskBitsExact(EnemyMaskFrom(bc, 4));
        AscendingDistinct(v.domain);
      }
    }
    hide ProblemOf, Solve, EmptyDomain, Cyclic;
    SolveDistinct(pr, |turn|, Primed(turn), 0);
  }

  /** Soundness: every listed specification is the user's turn with targets that meet every constraint. */
  lemma CompileSound(turn: UiTurn, bc: BattleContext, s: TurnPlanSpec)
    requires bc.Valid() && DistinctSlots(turn) && s in Compile(turn, bc)
    ensures |s| == |turn| && s == WithTargets(turn, Targets(s)) && Satisfies(turn, bc, Targets(s)) && InOrder(turn)
  {
    hide Solve, ProblemOf, EmptyDomain, Cyclic;
    ProblemIsValid(turn, bc);
    SearchMeaning(turn, bc, s);
    ChosenSatisfies(turn, bc, Targets(s));
    OutOfOrderUnchosen(turn, bc, Targets(s));
  }

  /** In plain terms: every action keeps its actor, macro and item, and is aimed at its literal mask, at one enemy of
      its mask, at one enemy that is present, or where the actor it mirrors is aimed. */
  ghost predicate AimedAsAsked(turn: UiTurn, bc: BattleContext, s: TurnPlanSpec, i: nat)
    requires bc.Valid() && i < |turn| == |s|
  {
    && s[i].actorSlot == turn[i].actorSlot && s[i].macro == turn[i].macro && s[i].itemId == turn[i].itemId && s[i].isPrelude == 0
    && match turn[i].target.kind
       case SingleEnemy => s[i].targetMask == turn[i].target.mask
       case MultipleEnemies => exists j: nat :: BitOf(s[i].targetMask, j, 0, 32) && s[i].targetMask & turn[i].target.mask != 0
       case AnyEnemy => exists j: nat :: BitOf(s[i].targetMask, j, 4, 12) && bc.slots[j].present == 1
       case SameAsOtherPC =>
         (exists j: nat :: j < |turn| && turn[j].actorSlot == turn[i].target.varId)
         && forall j: nat | j < |turn| && turn[j].actorSlot == turn[i].target.varId :: s[j].targetMask == s[i].targetMask
  }

  /** The mask of slot j alone. */
  predicate BitOf(m: bv32, j: nat, low: nat, high: nat) {
    low <= j < high <= 32 && m == 1 << j
  }

  lemma SingleIsBit(m: bv32) returns (j: nat)
    requires SingleBit(m)
    ensures BitOf(m, j, 0, 32)
  {
    j := if m & 0xFFFF != 0 then 0 else 16;
    if (m >> j) & 0xFF == 0 { j := j + 8; }
    if (m >> j) & 0xF == 0 { j := j + 4; }
    if (m >> j) & 3 == 0 { j := j + 2; }
    if (m >> j) & 1 == 0 { j := j + 1; }
  }

  /** Main result: every listed specification says what the user asked for, action by action. */
  lemma CompiledAsAsked(turn: UiTurn, bc: BattleContext, s: TurnPlanSpec, i: nat)
    requires bc.Valid() && DistinctSlots(turn) && s in Compile(turn, bc) && i < |turn|
    ensures |s| == |turn| && AimedAsAsked(turn, bc, s, i)
  {
    CompileSound(turn, bc, s);
    hide Compile, InOrder;
    OkIsAimed(turn, bc, s, i);
  }

  lemma OkIsAimed(turn: UiTurn, bc: BattleContext, s: TurnPlanSpec, i: nat)
    requires bc.Valid() && DistinctSlots(turn) && |s| == |turn| && i < |turn|
    requires s == WithTargets(turn, Targets(s)) && TargetOk(turn, bc, Targets(s), i)
    ensures AimedAsAsked(turn, bc, s, i)
  {
    var m := s[i].targetMask;
    match turn[i].target.kind {
      case MultipleEnemies => HasMeans(turn[i].target.mask, m); hide SingleBit, Has; var j := SingleIsBit(m);
      case AnyEnemy =>
        var j: nat :| 4 <= j < 12 && bc.slots[j].present == 1 && m == Bit(j);
        assert BitOf(m, j, 4, 12);
      case SameAsOtherPC =>
        var j: nat :| Mirrors(turn, i, j) && m == s[j].targetMask;
      case _ =>
    }
  }

  lemma HasMeans(mask: bv32, m: bv32)
    ensures Has(mask, m) <==> m & mask != 0
  {
  }

  lemma TargetsBack(turn: UiTurn, a: seq<bv32>)
    requires |a| == |turn|
    ensures Targets(WithTargets(turn, a)) == a
  {
  }

  /** Completeness: an ordered turn's every satisfying assignment is listed. */
  lemma CompileComplete(turn: UiTurn, bc: BattleContext, a: seq<bv32>)
    requires bc.Valid() && DistinctSlots(turn) && InOrder(turn) && Satisfies(turn, bc, a)
    ensures WithTargets(turn, a) in Compile(turn, bc)
  {
    SatisfiableDomains(turn, bc, a);
    InOrderIsAcyclic(turn, bc);
    ProblemIsValid(turn, bc);
    assert ProblemOf(turn, bc).vars == Vars(turn, bc);
    hide Solve, ProblemOf, EmptyDomain, Cyclic, Satisfies, WithTargets;
    SearchMeaning(turn, bc, WithTargets(turn, a));
    TargetsBack(turn, a);
    InOrderChosen(turn, bc, a);
  }

  /** Ordered turns compile to exactly their solutions, each once; every other turn compiles to nothing. */
  lemma CompileExact(turn: UiTurn, bc: BattleContext)
    requires bc.Valid() && DistinctSlots(turn)
    ensures InOrder(turn) ==> ListsExactly(turn, bc)
    ensures !InOrder(turn) ==> Compile(turn, bc) == []
  {
    hide Compile, TargetOk, InOrder, Targets, WithTargets;
    CompileDistinct(turn, bc);
    if InOrder(turn) {
      forall s ensures s in Compile(turn, bc) <==> Solution(turn, bc, s) {
        if s in Compile(turn, bc) { CompileSound(turn, bc, s); }
        if a :| |a| == |turn| && Satisfies(turn, bc, a) && s == WithTargets(turn, a) { CompileComplete(turn, bc, a); }
      }
    } else if Compile(turn, bc) != [] {
      CompileSound(turn, bc, Compile(turn, bc)[0]);
    }
  }

  /** The exact condition: the compiler is right about a turn if and only if the turn is ordered, or has no
      solution anyway. */
  lemma CompileRightExactlyWhen(turn: UiTurn, bc: BattleContext)
    requires bc.Valid() && DistinctSlots(turn)
    ensures ListsExactly(turn, bc) <==> InOrder(turn) || !exists s :: Solution(turn, bc, s)
  {
    hide Compile, InOrder, Solution;
    CompileExact(turn, bc);
    CompileDistinct(turn, bc);
  }

  // ---------------------------------------------------------------- the condition is needed

  /** Actor 0 mirrors actor 1, actor 1 mirrors actor 2, and actor 2 attacks some enemy. */
  const LATE_TURN: UiTurn := [
    UiAction(0, ATTACK, NO_ITEM, TargetBinding(SameAsOtherPC, 0, 1)),
    UiAction(1, ATTACK, NO_ITEM, TargetBinding(SameAsOtherPC, 0, 2)),
    UiAction(2, ATTACK, NO_ITEM, TargetBinding(MultipleEnemies, 0x30, 0))]

  /** The bindings are acyclic and all three may attack enemy 4, but the reference is listed too late. */
  lemma LateReferenceFindsNothing(bc: BattleContext)
    requires bc.Valid()
    ensures Satisfies(LATE_TURN, bc, [0x10, 0x10, 0x10])
    ensures !Cyclic(Edges(Vars(LATE_TURN, bc)))
    ensures Compile(LATE_TURN, bc) == []
  {
    var a: seq<bv32> := [0x10, 0x10, 0x10];
    assert Mirrors(LATE_TURN, 0, 1) && Mirrors(LATE_TURN, 1, 2);
    assert TargetOk(LATE_TURN, bc, a, 0) && TargetOk(LATE_TURN, bc, a, 1) && TargetOk(LATE_TURN, bc, a, 2);
    if InOrder(LATE_TURN) { assert Settled(LATE_TURN, 0, 1); }
    CompileExact(LATE_TURN, bc);
    forall e | e in Edges(Vars(LATE_TURN, bc)) ensures -(e.1 as int) < -(e.0 as int) {
      var i := EdgeOfTurn(LATE_TURN, bc, e);
    }
    RankedIsAcyclic(Edges(Vars(LATE_TURN, bc)), (x: Actor) => -(x as int));
  }
}
