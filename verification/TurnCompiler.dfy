/** Compiling one symbolic turn: all ways to give every action a concrete target mask.

    The compiler fixes the literal targets, orders the open ones (independent first, mirrors of open targets
    last) and backtracks over one shared scratch turn. `Solve` is the backtracking without the scratch turn's
    leftovers; `Search.Dfs` is the source's closure, proved to produce exactly that. */
module TurnCompiler {
  import opened Bytes
  import opened Sequences
  import opened ActionTypes
  import opened TargetDomains
  import opened BindingGraph

  datatype BindingKind = SingleEnemy | MultipleEnemies | AnyEnemy | SameAsOtherPC

  datatype TargetBinding = TargetBinding(kind: BindingKind, mask: bv32, varId: u8)

  /** The target mask in an action's parameters is overwritten in every case, so it is not an input. */
  datatype UiAction = UiAction(actorSlot: Actor, macro: BattleAction, itemId: u16, target: TargetBinding)

  type UiTurn = seq<UiAction>

  /** An open target: a domain to branch over, or an actor to mirror. */
  datatype Var = Var(actor: Actor, domain: seq<bv32>, bindTo: Option<Actor>)

  // ---------------------------------------------------------------- pass 1: skeleton and variables

  function BasePlan(a: UiAction): ActionPlan {
    ActionPlan(a.actorSlot, 0, a.macro, if a.target.kind.SingleEnemy? then a.target.mask else 0, a.itemId)
  }

  function Base(turn: UiTurn): (r: TurnPlanSpec)
    ensures |r| == |turn| && forall i | 0 <= i < |r| :: r[i] == BasePlan(turn[i])
  {
    seq(|turn|, i requires 0 <= i < |turn| => BasePlan(turn[i]))
  }

  function DomainOf(t: TargetBinding, bc: BattleContext): seq<bv32>
    requires bc.Valid()
  {
    match t.kind
    case MultipleEnemies => MaskBits(t.mask)
    case AnyEnemy => AnyEnemyDomain(bc)
    case _ => []
  }

  function VarOf(a: UiAction, bc: BattleContext): Var
    requires bc.Valid()
  {
    Var(a.actorSlot, DomainOf(a.target, bc), if a.target.kind.SameAsOtherPC? then Some(a.target.varId) else None)
  }

  function Vars(turn: UiTurn, bc: BattleContext): seq<Var>
    requires bc.Valid()
  {
    if turn == [] then []
    else (if turn[0].target.kind.SingleEnemy? then [] else [VarOf(turn[0], bc)]) + Vars(turn[1..], bc)
  }

  /** Literal targets by actor; the last action of an actor wins. */
  function Concrete(turn: UiTurn): map<Actor, bv32> {
    if turn == [] then map[]
    else (if turn[0].target.kind.SingleEnemy? then map[turn[0].actorSlot := turn[0].target.mask] else map[]) + Concrete(turn[1..])
  }

  /** Where an actor's action stands; the last one wins. */
  function ActorIndex(turn: UiTurn, i: nat): map<Actor, nat>
    requires i <= |turn|
    decreases |turn| - i
  {
    if i == |turn| then map[] else map[turn[i].actorSlot := i] + ActorIndex(turn, i + 1)
  }

  function VarIndex(vars: seq<Var>, i: nat): map<Actor, nat>
    requires i <= |vars|
    decreases |vars| - i
  {
    if i == |vars| then map[] else map[vars[i].actor := i] + VarIndex(vars, i + 1)
  }

  // ---------------------------------------------------------------- mirroring edges and the order

  function Edges(vars: seq<Var>): seq<Edge> {
    if vars == [] then []
    else (if vars[0].bindTo.Some? then [(vars[0].actor, vars[0].bindTo.value)] else []) + Edges(vars[1..])
  }

  function VarActors(vars: seq<Var>): set<Actor> { set v | v in vars :: v.actor }

  /** Mirrors of open targets are assigned last. */
  predicate MirrorsOpen(v: Var, open: set<Actor>) { v.bindTo.Some? && v.bindTo.value in open }

  function Phase(vars: seq<Var>, open: set<Actor>, second: bool): seq<Actor> {
    if vars == [] then []
    else (if MirrorsOpen(vars[0], open) == second then [vars[0].actor] else []) + Phase(vars[1..], open, second)
  }

  /** Keeps the first of each. */
  function Dedup(s: seq<Actor>): (r: seq<Actor>)
    ensures forall a :: a in r <==> a in s
    ensures Distinct(r)
  {
    if s == [] then []
    else
      var r := Dedup(s[..|s| - 1]);
      assert s == s[..|s| - 1] + [s[|s| - 1]];
      if s[|s| - 1] in r then r else r + [s[|s| - 1]]
  }

  function Order(vars: seq<Var>): seq<Actor> {
    Dedup(Phase(vars, VarActors(vars), false) + Phase(vars, VarActors(vars), true))
  }

  // ---------------------------------------------------------------- backtracking

  datatype Problem = Problem(
    vars: seq<Var>, order: seq<Actor>, varIndex: map<Actor, nat>, concrete: map<Actor, bv32>, actorIndex: map<Actor, nat>)
  {
    /** The variable of an actor in the order. */
    function VarFor(a: Actor): Var
      requires a in varIndex && varIndex[a] < |vars|
    {
      vars[varIndex[a]]
    }

    ghost predicate Valid(n: nat) {
      && Distinct(order)
      && (forall a | a in order :: a in varIndex && varIndex[a] < |vars| && a in actorIndex)
      && (forall a | a in actorIndex :: actorIndex[a] < n)
      && (forall a, b | a in actorIndex && b in actorIndex && actorIndex[a] == actorIndex[b] :: a == b)
      && (forall a | a in actorIndex && a !in concrete :: a in order)
    }
  }

  function SetMask(cur: TurnPlanSpec, i: nat, m: bv32): (r: TurnPlanSpec)
    requires i < |cur|
    ensures |r| == |cur|
  {
    cur[i := cur[i].(targetMask := m)]
  }

  /** All completions of cur from place oi of the order on. A mirror of an actor that has no action, that is not
      assigned yet, or whose mask is zero, has none. */
  function Solve(pr: Problem, n: nat, cur: TurnPlanSpec, oi: nat): seq<TurnPlanSpec>
    requires pr.Valid(n) && |cur| == n && oi <= |pr.order|
    decreases |pr.order| - oi, 0
  {
    if oi == |pr.order| then [cur]
    else
      var actor := pr.order[oi];
      var at := pr.actorIndex[actor];
      if actor in pr.concrete then Solve(pr, n, SetMask(cur, at, pr.concrete[actor]), oi + 1)
      else
        var v := pr.VarFor(actor);
        match v.bindTo
        case None => Branches(pr, n, cur, oi, v.domain)
        case Some(mirrored) =>
          if mirrored in pr.concrete then Solve(pr, n, SetMask(cur, at, pr.concrete[mirrored]), oi + 1)
          else if mirrored !in pr.order[..oi] then []
          else
            assert mirrored in pr.order;
            var m := cur[pr.actorIndex[mirrored]].targetMask;
            if m == 0 then [] else Solve(pr, n, SetMask(cur, at, m), oi + 1)
  }

  function Branches(pr: Problem, n: nat, cur: TurnPlanSpec, oi: nat, domain: seq<bv32>): seq<TurnPlanSpec>
    requires pr.Valid(n) && |cur| == n && oi < |pr.order|
    decreases |pr.order| - oi - 1, 1 + |domain|
  {
    if domain == [] then []
    else
      Solve(pr, n, SetMask(cur, pr.actorIndex[pr.order[oi]], domain[0]), oi + 1) + Branches(pr, n, cur, oi, domain[1..])
  }

  // ---------------------------------------------------------------- leftovers in the scratch turn

  /** The places later steps assign, so whose leftovers may differ. */
  ghost predicate Later(pr: Problem, n: nat, oi: nat, p: nat)
    requires pr.Valid(n)
  {
    exists k :: oi <= k < |pr.order| && pr.actorIndex[pr.order[k]] == p
  }

  ghost predicate Agree(pr: Problem, n: nat, a: TurnPlanSpec, b: TurnPlanSpec, oi: nat)
    requires pr.Valid(n)
  {
    && |a| == |b| == n
    && (forall p | 0 <= p < n :: a[p].(targetMask := 0) == b[p].(targetMask := 0))
    && (forall p | 0 <= p < n && !Later(pr, n, oi, p) :: a[p] == b[p])
  }

  lemma AgreeStep(pr: Problem, n: nat, a: TurnPlanSpec, b: TurnPlanSpec, oi: nat, m: bv32)
    requires pr.Valid(n) && oi < |pr.order| && Agree(pr, n, a, b, oi)
    ensures var at := pr.actorIndex[pr.order[oi]];
            Agree(pr, n, SetMask(a, at, m), SetMask(b, at, m), oi + 1)
  {
    var at := pr.actorIndex[pr.order[oi]];
    var a', b' := SetMask(a, at, m), SetMask(b, at, m);
    forall p | 0 <= p < n && !Later(pr, n, oi + 1, p) ensures a'[p] == b'[p] {
      if p == at {
        assert a[p].(targetMask := 0).(targetMask := m) == b[p].(targetMask := 0).(targetMask := m);
      } else {
        assert !Later(pr, n, oi, p);
      }
    }
  }

  /** What was assigned before place oi is not touched from oi on. */
  lemma EarlierIsFixed(pr: Problem, n: nat, oi: nat, a: Actor)
    requires pr.Valid(n) && oi <= |pr.order| && a in pr.order[..oi]
    ensures a in pr.order && !Later(pr, n, oi, pr.actorIndex[a])
  {
    var i :| 0 <= i < oi && pr.order[i] == a;
    assert a in pr.order;
  }

  /** The completions do not depend on leftovers. */
  lemma {:induction false} SolveAgrees(pr: Problem, n: nat, a: TurnPlanSpec, b: TurnPlanSpec, oi: nat)
    requires pr.Valid(n) && oi <= |pr.order| && Agree(pr, n, a, b, oi)
    ensures Solve(pr, n, a, oi) == Solve(pr, n, b, oi)
    decreases |pr.order| - oi, 0
  {
    if oi == |pr.order| {
      forall p | 0 <= p < n ensures a[p] == b[p] { assert !Later(pr, n, oi, p); }
      assert a == b;
    } else {
      hide Agree, Later, SetMask;
      var actor := pr.order[oi];
      var at := pr.actorIndex[actor];
      if actor in pr.concrete {
        AgreeStep(pr, n, a, b, oi, pr.concrete[actor]);
        SolveAgrees(pr, n, SetMask(a, at, pr.concrete[actor]), SetMask(b, at, pr.concrete[actor]), oi + 1);
      } else {
        var v := pr.VarFor(actor);
        match v.bindTo
        case None => BranchesAgree(pr, n, a, b, oi, v.domain);
        case Some(mirrored) =>
          if mirrored in pr.concrete {
            AgreeStep(pr, n, a, b, oi, pr.concrete[mirrored]);
            SolveAgrees(pr, n, SetMask(a, at, pr.concrete[mirrored]), SetMask(b, at, pr.concrete[mirrored]), oi + 1);
          } else if mirrored in pr.order[..oi] {
            AgreeAt(pr, n, a, b, oi, mirrored);
            var m := a[pr.actorIndex[mirrored]].targetMask;
            if m != 0 {
              AgreeStep(pr, n, a, b, oi, m);
              SolveAgrees(pr, n, SetMask(a, at, m), SetMask(b, at, m), oi + 1);
            }
          }
      }
    }
  }

  lemma AgreeAt(pr: Problem, n: nat, a: TurnPlanSpec, b: TurnPlanSpec, oi: nat, actor: Actor)
    requires pr.Valid(n) && oi <= |pr.order| && Agree(pr, n, a, b, oi) && actor in pr.order[..oi]
    ensures actor in pr.order && a[pr.actorIndex[actor]] == b[pr.actorIndex[actor]]
  {
    EarlierIsFixed(pr, n, oi, actor);
  }

  lemma {:induction false} BranchesAgree(pr: Problem, n: nat, a: TurnPlanSpec, b: TurnPlanSpec, oi: nat, domain: seq<bv32>)
    requires pr.Valid(n) && oi < |pr.order| && Agree(pr, n, a, b, oi)
    ensures Branches(pr, n, a, oi, domain) == Branches(pr, n, b, oi, domain)
    decreases |pr.order| - oi - 1, 1 + |domain|
  {
    if domain != [] {
      var at := pr.actorIndex[pr.order[oi]];
      AgreeStep(pr, n, a, b, oi, domain[0]);
      SolveAgrees(pr, n, SetMask(a, at, domain[0]), SetMask(b, at, domain[0]), oi + 1);
      BranchesAgree(pr, n, a, b, oi, domain[1..]);
    }
  }

  /** The actor place k mirrors, when that actor's target is open. */
  function Mirrored(pr: Problem, n: nat, k: nat): Option<Actor>
    requires pr.Valid(n) && k < |pr.order|
  {
    if pr.order[k] in pr.concrete then None
    else
      match pr.VarFor(pr.order[k]).bindTo
      case None => None
      case Some(m) => if m in pr.concrete then None else Some(m)
  }

  /** A mirror ordered no later than its original is never passed, so the original's mask is still unset. */
  ghost predicate LateUnset(pr: Problem, n: nat, cur: TurnPlanSpec, oi: nat)
    requires pr.Valid(n) && |cur| == n
  {
    forall k, l | oi <= k <= l < |pr.order| && Mirrored(pr, n, k) == Some(pr.order[l]) ::
      cur[pr.actorIndex[pr.order[l]]].targetMask == 0
  }

  lemma LateStep(pr: Problem, n: nat, cur: TurnPlanSpec, oi: nat, m: bv32)
    requires pr.Valid(n) && |cur| == n && oi < |pr.order| && LateUnset(pr, n, cur, oi)
    ensures LateUnset(pr, n, SetMask(cur, pr.actorIndex[pr.order[oi]], m), oi + 1)
  {
    hide Mirrored;
    forall l | oi < l < |pr.order| ensures pr.actorIndex[pr.order[l]] != pr.actorIndex[pr.order[oi]] {
      assert pr.order[l] != pr.order[oi];
    }
  }

  /** Returning from the next place to this one. */
  lemma StepBack(pr: Problem, n: nat, before: TurnPlanSpec, cur: TurnPlanSpec, oi: nat, m: bv32)
    requires pr.Valid(n) && |before| == n && oi < |pr.order|
    requires Agree(pr, n, SetMask(before, pr.actorIndex[pr.order[oi]], m), cur, oi + 1)
    requires LateUnset(pr, n, cur, oi + 1)
    requires forall l | oi <= l < |pr.order| :: Mirrored(pr, n, oi) != Some(pr.order[l])
    ensures Agree(pr, n, before, cur, oi) && LateUnset(pr, n, cur, oi)
  {
    hide Mirrored;
    var at := pr.actorIndex[pr.order[oi]];
    var set' := SetMask(before, at, m);
    assert Later(pr, n, oi, at);
    forall p | 0 <= p < n ensures before[p].(targetMask := 0) == cur[p].(targetMask := 0) {
      assert set'[p].(targetMask := 0) == cur[p].(targetMask := 0);
    }
    forall p | 0 <= p < n && !Later(pr, n, oi, p) ensures before[p] == cur[p] {
      assert !Later(pr, n, oi + 1, p);
      assert set'[p] == before[p];
    }
  }

  lemma AgreeTrans(pr: Problem, n: nat, a: TurnPlanSpec, b: TurnPlanSpec, c: TurnPlanSpec, oi: nat)
    requires pr.Valid(n) && Agree(pr, n, a, b, oi) && Agree(pr, n, b, c, oi)
    ensures Agree(pr, n, a, c, oi)
  {
    hide Later;
    forall p | 0 <= p < n ensures a[p].(targetMask := 0) == c[p].(targetMask := 0) {
      assert b[p].(targetMask := 0) == c[p].(targetMask := 0);
    }
  }

  lemma NotEarlier(pr: Problem, n: nat, cur: TurnPlanSpec, oi: nat, actor: Actor)
    requires pr.Valid(n) && |cur| == n && oi < |pr.order| && LateUnset(pr, n, cur, oi)
    requires Mirrored(pr, n, oi) == Some(actor) && actor in pr.actorIndex
    ensures actor !in pr.order[..oi] ==> cur[pr.actorIndex[actor]].targetMask == 0
    ensures actor in pr.order[..oi] ==> forall l | oi <= l < |pr.order| :: actor != pr.order[l]
  {
    assert actor in pr.order;
    hide Mirrored;
    if actor in pr.order[..oi] {
      var i :| 0 <= i < oi && pr.order[i] == actor;
    } else {
      var l :| 0 <= l < |pr.order| && pr.order[l] == actor;
      assert l >= oi;
    }
  }

  /** The backtracking closure: the scratch turn and the results it appends to. */
  class Search {
    const pr: Problem
    const n: nat
    var cur: TurnPlanSpec
    var out: seq<TurnPlanSpec>

    constructor (pr: Problem, cur: TurnPlanSpec)
      ensures this.pr == pr && n == |cur| && this.cur == cur && out == []
    {
      this.pr, n, this.cur, out := pr, |cur|, cur, [];
    }

    method Dfs(oi: nat)
      requires pr.Valid(n) && |cur| == n && oi <= |pr.order| && LateUnset(pr, n, cur, oi)
      modifies this
      ensures Agree(pr, n, old(cur), cur, oi) && LateUnset(pr, n, cur, oi)
      ensures out == old(out) + Solve(pr, n, old(cur), oi)
      decreases |pr.order| - oi, 0
    {
      hide Agree, LateUnset, SetMask;
      if oi == |pr.order| {
        Reflexive(pr, n, cur, oi);
        out := out + [cur];
        return;
      }
      var actor := pr.order[oi];
      if actor in pr.concrete {
        Assign(oi, pr.concrete[actor]);
        return;
      }
      var v := pr.VarFor(actor);
      match v.bindTo
      case Some(mirrored) =>
        if mirrored in pr.concrete {
          Assign(oi, pr.concrete[mirrored]);
        } else {
          Reflexive(pr, n, cur, oi);
          if mirrored !in pr.actorIndex {
            NoActionNoPlace(pr, n, oi, mirrored);
            return;
          }
          NotEarlier(pr, n, cur, oi, mirrored);
          var m := cur[pr.actorIndex[mirrored]].targetMask;
          if m == 0 { return; }
          Assign(oi, m);
        }
      case None =>
        Branch(oi, v.domain);
    }

    method Branch(oi: nat, domain: seq<bv32>)
      requires pr.Valid(n) && |cur| == n && oi < |pr.order| && LateUnset(pr, n, cur, oi)
      requires Mirrored(pr, n, oi) == None
      modifies this
      ensures Agree(pr, n, old(cur), cur, oi) && LateUnset(pr, n, cur, oi)
      ensures out == old(out) + Branches(pr, n, old(cur), oi, domain)
      decreases |pr.order| - oi - 1, 2
    {
      hide Agree, LateUnset, Mirrored, SetMask;
      ghost var start := cur;
      ghost var at := pr.actorIndex[pr.order[oi]];
      Reflexive(pr, n, cur, oi);
      for j := 0 to |domain|
        invariant Agree(pr, n, start, cur, oi) && |cur| == n && LateUnset(pr, n, cur, oi)
        invariant out + Branches(pr, n, start, oi, domain[j..]) == old(out) + Branches(pr, n, start, oi, domain)
      {
        ghost var before := cur;
        AgreeStep(pr, n, start, before, oi, domain[j]);
        SolveAgrees(pr, n, SetMask(start, at, domain[j]), SetMask(before, at, domain[j]), oi + 1);
        Assign(oi, domain[j]);
        AgreeTrans(pr, n, start, before, cur, oi);
        assert domain[j..][1..] == domain[j + 1..];
      }
    }

    /** One target chosen: write it and go on with the next place. */
    method Assign(oi: nat, m: bv32)
      requires pr.Valid(n) && |cur| == n && oi < |pr.order| && LateUnset(pr, n, cur, oi)
      requires forall l | oi <= l < |pr.order| :: Mirrored(pr, n, oi) != Some(pr.order[l])
      modifies this
      ensures |cur| == n && Agree(pr, n, old(cur), cur, oi) && LateUnset(pr, n, cur, oi)
      ensures out == old(out) + Solve(pr, n, SetMask(old(cur), pr.actorIndex[pr.order[oi]], m), oi + 1)
      decreases |pr.order| - oi - 1, 1
    {
      hide LateUnset, Later, Mirrored;
      LateStep(pr, n, cur, oi, m);
      cur := SetMask(cur, pr.actorIndex[pr.order[oi]], m);
      Dfs(oi + 1);
      StepBack(pr, n, old(cur), cur, oi, m);
    }
  }

  lemma Reflexive(pr: Problem, n: nat, cur: TurnPlanSpec, oi: nat)
    requires pr.Valid(n) && |cur| == n
    ensures Agree(pr, n, cur, cur, oi)
  {
  }

  lemma NoActionNoPlace(pr: Problem, n: nat, oi: nat, actor: Actor)
    requires pr.Valid(n) && oi <= |pr.order| && actor !in pr.actorIndex
    ensures actor !in pr.order[..oi]
  {
  }

  // ---------------------------------------------------------------- the whole compiler

  function ProblemOf(turn: UiTurn, bc: BattleContext): Problem
    requires bc.Valid()
  {
    var vars := Vars(turn, bc);
    Problem(vars, Order(vars), VarIndex(vars, 0), Concrete(turn), ActorIndex(turn, 0))
  }

  lemma {:induction false} ActorIndexFacts(turn: UiTurn, i: nat)
    requires i <= |turn|
    ensures forall a | a in ActorIndex(turn, i) :: i <= ActorIndex(turn, i)[a] < |turn| && turn[ActorIndex(turn, i)[a]].actorSlot == a
    ensures forall j | i <= j < |turn| :: turn[j].actorSlot in ActorIndex(turn, i)
    decreases |turn| - i
  {
    if i < |turn| { ActorIndexFacts(turn, i + 1); }
  }

  lemma {:induction false} VarIndexFacts(vars: seq<Var>, i: nat)
    requires i <= |vars|
    ensures forall a | a in VarIndex(vars, i) :: i <= VarIndex(vars, i)[a] < |vars| && vars[VarIndex(vars, i)[a]].actor == a
    ensures forall j | i <= j < |vars| :: vars[j].actor in VarIndex(vars, i)
    decreases |vars| - i
  {
    if i < |vars| { VarIndexFacts(vars, i + 1); }
  }

  /** Some action of actor a has the literal target m. */
  ghost predicate Literal(turn: UiTurn, a: Actor, m: bv32) {
    exists j :: 0 <= j < |turn| && turn[j].target.kind.SingleEnemy? && turn[j].actorSlot == a && turn[j].target.mask == m
  }

  lemma {:induction false} ConcreteFacts(turn: UiTurn)
    ensures forall a | a in Concrete(turn) :: Literal(turn, a, Concrete(turn)[a])
    ensures forall j | 0 <= j < |turn| && turn[j].target.kind.SingleEnemy? :: turn[j].actorSlot in Concrete(turn)
  {
    if turn != [] {
      var rest := turn[1..];
      ConcreteFacts(rest);
      forall a | a in Concrete(turn)
        ensures Literal(turn, a, Concrete(turn)[a])
      {
        if a in Concrete(rest) {
          var j :| 0 <= j < |rest| && rest[j].target.kind.SingleEnemy? && rest[j].actorSlot == a && Concrete(rest)[a] == rest[j].target.mask;
          assert turn[j + 1] == rest[j];
        } else {
          assert turn[0].actorSlot == a;
        }
      }
      forall j | 0 <= j < |turn| && turn[j].target.kind.SingleEnemy? ensures turn[j].actorSlot in Concrete(turn) {
        if j > 0 { assert turn[j] == rest[j - 1]; }
      }
    }
  }

  lemma {:induction false} VarsFacts(turn: UiTurn, bc: BattleContext)
    requires bc.Valid()
    ensures forall v :: v in Vars(turn, bc) <==>
              exists j :: 0 <= j < |turn| && !turn[j].target.kind.SingleEnemy? && v == VarOf(turn[j], bc)
  {
    if turn != [] {
      VarsFacts(turn[1..], bc);
      forall v
        ensures v in Vars(turn, bc) <==>
                exists j :: 0 <= j < |turn| && !turn[j].target.kind.SingleEnemy? && v == VarOf(turn[j], bc)
      {
        VarMember(turn, bc, v);
      }
    }
  }

  lemma VarMember(turn: UiTurn, bc: BattleContext, v: Var)
    requires bc.Valid() && turn != []
    requires v in Vars(turn[1..], bc) <==>
               exists j :: 0 <= j < |turn[1..]| && !turn[1..][j].target.kind.SingleEnemy? && v == VarOf(turn[1..][j], bc)
    ensures v in Vars(turn, bc) <==>
              exists j :: 0 <= j < |turn| && !turn[j].target.kind.SingleEnemy? && v == VarOf(turn[j], bc)
  {
    hide VarOf;
    var rest := turn[1..];
    if v in Vars(rest, bc) {
      var j :| 0 <= j < |rest| && !rest[j].target.kind.SingleEnemy? && v == VarOf(rest[j], bc);
      assert turn[j + 1] == rest[j];
    }
    if j :| 0 <= j < |turn| && !turn[j].target.kind.SingleEnemy? && v == VarOf(turn[j], bc) {
      if j > 0 { assert rest[j - 1] == turn[j]; }
    }
  }

  lemma {:induction false} PhaseFacts(vars: seq<Var>, open: set<Actor>, second: bool)
    ensures forall a :: a in Phase(vars, open, second) <==>
              exists v :: v in vars && v.actor == a && MirrorsOpen(v, open) == second
  {
    if vars != [] {
      PhaseFacts(vars[1..], open, second);
      assert vars == [vars[0]] + vars[1..];
    }
  }

  lemma OrderFacts(vars: seq<Var>)
    ensures forall a :: a in Order(vars) <==> a in VarActors(vars)
  {
    var open := VarActors(vars);
    PhaseFacts(vars, open, false);
    PhaseFacts(vars, open, true);
  }

  lemma ProblemIsValid(turn: UiTurn, bc: BattleContext)
    requires bc.Valid()
    ensures ProblemOf(turn, bc).Valid(|turn|)
  {
    hide Vars, VarOf, Order, VarIndex, ActorIndex, Concrete;
    var pr := ProblemOf(turn, bc);
    ActorIndexFacts(turn, 0);
    VarIndexFacts(pr.vars, 0);
    ConcreteFacts(turn);
    OrderFacts(pr.vars);
    OrderDistinct(pr.vars);
    forall a | a in pr.order
      ensures a in pr.varIndex && a in pr.actorIndex
    {
      VarHasAction(turn, bc, a);
    }
    forall a | a in pr.actorIndex && a !in pr.concrete ensures a in pr.order {
      ActionHasVar(turn, bc, pr.actorIndex[a]);
    }
  }

  lemma OrderDistinct(vars: seq<Var>)
    ensures Distinct(Order(vars))
  {
  }

  lemma VarHasAction(turn: UiTurn, bc: BattleContext, a: Actor)
    requires bc.Valid() && a in VarActors(Vars(turn, bc))
    ensures exists j :: 0 <= j < |Vars(turn, bc)| && Vars(turn, bc)[j].actor == a
    ensures exists j :: 0 <= j < |turn| && turn[j].actorSlot == a
  {
    VarsFacts(turn, bc);
    var v :| v in Vars(turn, bc) && v.actor == a;
  }

  lemma ActionHasVar(turn: UiTurn, bc: BattleContext, j: nat)
    requires bc.Valid() && j < |turn| && !turn[j].target.kind.SingleEnemy?
    ensures turn[j].actorSlot in VarActors(Vars(turn, bc))
  {
    VarsFacts(turn, bc);
    assert VarOf(turn[j], bc) in Vars(turn, bc);
  }

  /** The scratch turn before backtracking: each literal target also stands in its actor's last action. */
  function Primed(turn: UiTurn): (r: TurnPlanSpec)
    ensures |r| == |turn|
  {
    seq(|turn|, i requires 0 <= i < |turn| =>
      var a := turn[i].actorSlot;
      if a in Concrete(turn) && a in ActorIndex(turn, 0) && ActorIndex(turn, 0)[a] == i
      then BasePlan(turn[i]).(targetMask := Concrete(turn)[a])
      else BasePlan(turn[i]))
  }

  ghost predicate EmptyDomain(vars: seq<Var>) {
    exists v :: v in vars && v.bindTo.None? && v.domain == []
  }

  ghost function Compile(turn: UiTurn, bc: BattleContext): seq<TurnPlanSpec>
    requires bc.Valid()
  {
    ProblemIsValid(turn, bc);
    var pr := ProblemOf(turn, bc);
    if EmptyDomain(pr.vars) || Cyclic(Edges(pr.vars)) then []
    else Solve(pr, |turn|, Primed(turn), 0)
  }
}
