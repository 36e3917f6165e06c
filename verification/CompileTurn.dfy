/** The per-turn compiler as the source runs it: collect, reject, order, backtrack. */
module CompileTurn {
  import opened Bytes
  import opened ActionTypes
  import opened TargetDomains
  import opened BindingGraph
  import opened TurnCompiler

  /** One symbolic action: its skeleton, and its variable unless the target is literal. */
  method Classify(ua: UiAction, bc: BattleContext) returns (ap: ActionPlan, open: seq<Var>)
    requires bc.Valid()
    ensures ap == BasePlan(ua)
    ensures open == if ua.target.kind.SingleEnemy? then [] else [VarOf(ua, bc)]
  {
    hide MaskBits, AnyEnemyDomain;
    ap, open := ActionPlan(ua.actorSlot, 0, ua.macro, 0, ua.itemId), [];
    match ua.target.kind
    case SingleEnemy =>
      ap := ap.(targetMask := ua.target.mask);
    case MultipleEnemies =>
      var dom := MasksFromBits(ua.target.mask);
      open := [Var(ua.actorSlot, dom, None)];
    case AnyEnemy =>
      var dom := DomainAnyEnemy(bc);
      open := [Var(ua.actorSlot, dom, None)];
    case SameAsOtherPC =>
      open := [Var(ua.actorSlot, [], Some(ua.target.varId))];
  }

  lemma TurnStep(turn: UiTurn, bc: BattleContext, i: nat)
    requires bc.Valid() && i < |turn|
    ensures Vars(turn[i..], bc) == (if turn[i].target.kind.SingleEnemy? then [] else [VarOf(turn[i], bc)]) + Vars(turn[i + 1..], bc)
    ensures Concrete(turn[i..]) == (if turn[i].target.kind.SingleEnemy? then map[turn[i].actorSlot := turn[i].target.mask] else map[]) + Concrete(turn[i + 1..])
    ensures ActorIndex(turn, i) == map[turn[i].actorSlot := i] + ActorIndex(turn, i + 1)
  {
    assert turn[i..][1..] == turn[i + 1..];
  }

  lemma TurnEnds(turn: UiTurn, bc: BattleContext)
    requires bc.Valid()
    ensures turn[0..] == turn && Vars(turn[|turn|..], bc) == []
    ensures Concrete(turn[|turn|..]) == map[] && ActorIndex(turn, |turn|) == map[]
  {
  }

  lemma MapStep<K, V>(m: map<K, V>, k: K, v: V, rest: map<K, V>)
    ensures m + (map[k := v] + rest) == m[k := v] + rest
    ensures m + (map[] + rest) == m + rest
  {
  }

  /** Pass 1: the skeleton, the open targets, the literal ones, and where each actor acts. */
  method Collect(turn: UiTurn, bc: BattleContext)
    returns (base: TurnPlanSpec, vars: seq<Var>, concrete: map<Actor, bv32>, actorIndex: map<Actor, nat>)
    requires bc.Valid()
    ensures base == Base(turn) && vars == Vars(turn, bc)
    ensures concrete == Concrete(turn) && actorIndex == ActorIndex(turn, 0)
  {
    hide Vars, Concrete, ActorIndex, VarOf, BasePlan;
    base, vars, concrete, actorIndex := [], [], map[], map[];
    TurnEnds(turn, bc);
    for i := 0 to |turn|
      invariant |base| == i && forall j | 0 <= j < i :: base[j] == BasePlan(turn[j])
      invariant vars + Vars(turn[i..], bc) == Vars(turn, bc)
      invariant concrete + Concrete(turn[i..]) == Concrete(turn)
      invariant actorIndex + ActorIndex(turn, i) == ActorIndex(turn, 0)
    {
      var ua := turn[i];
      TurnStep(turn, bc, i);
      var ap, open := Classify(ua, bc);
      vars := vars + open;
      MapStep(concrete, ua.actorSlot, ua.target.mask, Concrete(turn[i + 1..]));
      if ua.target.kind.SingleEnemy? { concrete := concrete[ua.actorSlot := ua.target.mask]; }
      MapStep(actorIndex, ua.actorSlot, i, ActorIndex(turn, i + 1));
      actorIndex := actorIndex[ua.actorSlot := i];
      base := base + [ap];
    }
  }

  method HasEmptyDomain(vars: seq<Var>) returns (r: bool)
    ensures r == EmptyDomain(vars)
  {
    for i := 0 to |vars|
      invariant forall j | 0 <= j < i :: vars[j].bindTo.Some? || vars[j].domain != []
    {
      if vars[i].bindTo.None? && vars[i].domain == [] { return true; }
    }
    return false;
  }

  method MirrorEdges(vars: seq<Var>) returns (edges: seq<Edge>)
    ensures edges == Edges(vars)
  {
    edges := [];
    for i := 0 to |vars|
      invariant edges + Edges(vars[i..]) == Edges(vars)
    {
      assert vars[i..][1..] == vars[i + 1..];
      if vars[i].bindTo.Some? { edges := edges + [(vars[i].actor, vars[i].bindTo.value)]; }
    }
    assert vars[|vars|..] == [];
  }

  /** Kahn's pass, run only when something is mirrored. */
  method HasCycle(vars: seq<Var>) returns (r: bool)
    ensures r == Cyclic(Edges(vars))
  {
    var edges := MirrorEdges(vars);
    if edges == [] {
      NoEdgesNoCycle();
      return false;
    }
    var seen, total := CountSorted(edges);
    return seen != total;
  }

  lemma NoEdgesNoCycle()
    ensures !Cyclic([])
  {
    RankedIsAcyclic([], a => 0);
  }

  method Collected(vars: seq<Var>, open: set<Actor>, second: bool) returns (actors: seq<Actor>)
    ensures actors == Phase(vars, open, second)
  {
    actors := [];
    for i := 0 to |vars|
      invariant actors + Phase(vars[i..], open, second) == Phase(vars, open, second)
    {
      assert vars[i..][1..] == vars[i + 1..];
      if MirrorsOpen(vars[i], open) == second { actors := actors + [vars[i].actor]; }
    }
    assert vars[|vars|..] == [];
  }

  lemma DedupStep(s: seq<Actor>, a: Actor)
    ensures Dedup(s + [a]) == if a in Dedup(s) then Dedup(s) else Dedup(s) + [a]
  {
    assert (s + [a])[..|s|] == s;
  }

  lemma DedupNone()
    ensures Dedup([]) == [] && Members([]) == {}
  {
  }

  lemma MembersStep(order: seq<Actor>, a: Actor)
    ensures a in Members(order) <==> a in order
    ensures Members(order + [a]) == Members(order) + {a}
  {
  }

  method AssignmentOrder(vars: seq<Var>) returns (order: seq<Actor>)
    ensures order == Order(vars)
  {
    var open := set v | v in vars :: v.actor;
    var first := Collected(vars, open, false);
    var second := Collected(vars, open, true);
    var raw := first + second;
    order := [];
    var seen: set<Actor> := {};
    hide Dedup, Members;
    DedupNone();
    for i := 0 to |raw|
      invariant order == Dedup(raw[..i]) && seen == Members(order)
    {
      assert raw[..i + 1] == raw[..i] + [raw[i]];
      DedupStep(raw[..i], raw[i]);
      MembersStep(order, raw[i]);
      if raw[i] !in seen {
        seen := seen + {raw[i]};
        order := order + [raw[i]];
      }
    }
    assert raw[..|raw|] == raw;
  }

  method IndexVars(vars: seq<Var>) returns (index: map<Actor, nat>)
    ensures index == VarIndex(vars, 0)
  {
    index := map[];
    for i := 0 to |vars|
      invariant index + VarIndex(vars, i) == VarIndex(vars, 0)
    {
      index := index[vars[i].actor := i];
    }
  }

  /** What stands in place i once the literal targets other than those of todo are written. */
  function PrimedAt(turn: UiTurn, concrete: map<Actor, bv32>, actorIndex: map<Actor, nat>, todo: set<Actor>, i: nat): ActionPlan
    requires i < |turn|
  {
    var a := turn[i].actorSlot;
    if a in concrete && a !in todo && a in actorIndex && actorIndex[a] == i
    then BasePlan(turn[i]).(targetMask := concrete[a]) else BasePlan(turn[i])
  }

  lemma PrimeStep(turn: UiTurn, concrete: map<Actor, bv32>, actorIndex: map<Actor, nat>, todo: set<Actor>, a: Actor, i: nat)
    requires i < |turn| && a in todo && a in concrete
    requires forall x | x in actorIndex :: actorIndex[x] < |turn| && turn[actorIndex[x]].actorSlot == x
    ensures PrimedAt(turn, concrete, actorIndex, todo - {a}, i) ==
            if a in actorIndex && actorIndex[a] == i then PrimedAt(turn, concrete, actorIndex, todo, i).(targetMask := concrete[a])
            else PrimedAt(turn, concrete, actorIndex, todo, i)
  {
    hide BasePlan;
  }

  /** Writes each literal target into its actor's action, in whatever order the hash map yields them. */
  method Prime(turn: UiTurn, base: TurnPlanSpec, concrete: map<Actor, bv32>, actorIndex: map<Actor, nat>)
    returns (cur: TurnPlanSpec)
    requires base == Base(turn) && concrete == Concrete(turn) && actorIndex == ActorIndex(turn, 0)
    ensures cur == Primed(turn)
  {
    ActorIndexFacts(turn, 0);
    hide ActorIndex, Concrete, BasePlan, PrimedAt;
    cur := base;
    var todo := concrete.Keys;
    forall i: nat | i < |turn| ensures PrimedAt(turn, concrete, actorIndex, todo, i) == BasePlan(turn[i]) {
      NotPrimed(turn, concrete, actorIndex, i);
    }
    while todo != {}
      invariant todo <= concrete.Keys && |cur| == |turn|
      invariant forall i: nat | i < |turn| :: cur[i] == PrimedAt(turn, concrete, actorIndex, todo, i)
      decreases todo
    {
      var a :| a in todo;
      forall i: nat | i < |turn| { PrimeStep(turn, concrete, actorIndex, todo, a, i); }
      todo := todo - {a};
      if a in actorIndex {
        cur := cur[actorIndex[a] := cur[actorIndex[a]].(targetMask := concrete[a])];
      }
    }
    AllPrimed(turn, cur);
  }

  lemma NotPrimed(turn: UiTurn, concrete: map<Actor, bv32>, actorIndex: map<Actor, nat>, i: nat)
    requires i < |turn|
    ensures PrimedAt(turn, concrete, actorIndex, concrete.Keys, i) == BasePlan(turn[i])
  {
  }

  lemma AllPrimed(turn: UiTurn, cur: TurnPlanSpec)
    requires |cur| == |turn| && forall i: nat | i < |turn| :: cur[i] == PrimedAt(turn, Concrete(turn), ActorIndex(turn, 0), {}, i)
    ensures cur == Primed(turn)
  {
    hide Concrete, ActorIndex, BasePlan;
  }

  /** Before the search every open target is unset. */
  lemma PrimedIsUnset(turn: UiTurn, bc: BattleContext)
    requires bc.Valid()
    ensures ProblemOf(turn, bc).Valid(|turn|) && LateUnset(ProblemOf(turn, bc), |turn|, Primed(turn), 0)
  {
    ProblemIsValid(turn, bc);
    ActorIndexFacts(turn, 0);
    ConcreteFacts(turn);
    hide Vars, Order, VarIndex, ActorIndex, Concrete;
    var pr := ProblemOf(turn, bc);
    forall k, l | 0 <= k <= l < |pr.order| && Mirrored(pr, |turn|, k) == Some(pr.order[l])
      ensures Primed(turn)[pr.actorIndex[pr.order[l]]].targetMask == 0
    {
      assert pr.order[l] in pr.order && pr.order[l] !in pr.concrete;
    }
  }

  method CompileTurnSpecs(bc: BattleContext, turn: UiTurn) returns (out: seq<TurnPlanSpec>)
    requires bc.Valid()
    ensures out == Compile(turn, bc)
  {
    hide Vars, Concrete, ActorIndex, VarIndex, Order, Edges, EmptyDomain, Cyclic, Solve;
    var base, vars, concrete, actorIndex := Collect(turn, bc);
    var empty := HasEmptyDomain(vars);
    if empty { return []; }
    var cyclic := HasCycle(vars);
    if cyclic { return []; }
    var order := AssignmentOrder(vars);
    var varIndex := IndexVars(vars);
    var pr := Problem(vars, order, varIndex, concrete, actorIndex);
    ProblemIsValid(turn, bc);
    assert pr == ProblemOf(turn, bc);
    var cur := Prime(turn, base, concrete, actorIndex);
    var search := new Search(pr, cur);
    PrimedIsUnset(turn, bc);
    search.Dfs(0);
    return search.out;
  }
}
